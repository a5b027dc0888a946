# peat-node: verified models

peat-node is a sidecar that joins a document mesh. It bridges mesh documents to and from NATS brokers, relays
document changes to peers in priority order, and distributes attachment bundles. This project models its stateful
core in Dafny and proves what that core keeps over every run.

| modules | what they model |
|---|---|
| `Bytes`, `Codec`, `LedgerFile`, `JournalLog`, `Journal` | the bridge journals: record codec, file format, torn-tail recovery, the live journal object, compaction |
| `TornJournal`, `Ledger`, `Forgetting` | what records appended behind a failed one leave on disk; the ledger worker with its command queue, failing writes and restarts; when it forgets |
| `Egress`, `Delivery`, `Outcome`, `Republishing` | the delivery protocol of one node over that ledger, what one delivery comes to and in which order, and what it takes to publish twice |
| `Ingress`, `Mesh`, `Relay` | storing one message; several nodes and brokers together; relay chains |
| `Exclusion`, `Contributions` | local writes racing reconciliation, over the same ledger; who is in a document and what a scan offers |
| `Reconcile` | triggers of the single-flight reconciler |
| `Readiness`, `Supervisor`, `Turns` | bridge readiness, the client supervisor, and whole turns of its loop |
| `Fanout`, `FanoutRuns`, `FanoutWorker` | the bounded priority relay queue, its runs, and its parking worker |
| `Preflight` | the work-list check of an event document |
| `Registry`, `RegistryRuns` | the attachment bundle table, alone and under concurrent callers |
| `Progress`, `Reports`, `Finalizers` | per-bundle progress, late subscribers and stream closing; what a stream contains; the racing writers of a bundle's final status |
| `Ingest` | bundle ingest with rollback |

Objects that the source updates in place are classes, loops are loops, and what runs concurrently is a state machine
whose steps end wherever the source can be interrupted (an await, a lock release, an atomic access). A run is any
sequence of steps; a step that is not enabled changes nothing. Fields described as history record the past for the
statements and do not influence any step. SHA-256 is an arbitrary function with 32-byte results; the clock, the
network, file-system outcomes and random identifiers are inputs.

## Results that are not plain confirmations

- A ledger worker executes commands that were queued before an append failed (src/nats_bridge/ledger.rs:190-208), so
  records can follow a torn one. Their bytes then decide: the file is refused on restart, or they decode as other records
  and one is lost although its caller was told it is durable. `Forgetting.ForgetIff` is the exact condition on the bytes,
  for every history and every batch that fits the queue. A digest can be published twice exactly if a published one can
  be forgotten (`Delivery.PublishTwiceIffForgotten`), so only under that condition (`Republishing.TwiceIsSpelled`), and
  it happens (`Delivery.LastByteTwice`); without an append behind a failed append every promise holds
  (`Delivery.PublishAtMostOnce`, `Delivery.ReservationIsDurable`, `Exclusion.OnlyShadowedWritesOffered`).
- A process that stops inside its very first header write leaves a file that is refused from then on
  (`Ledger.ReopensIffHeader`, `JournalLog.TornHeader`).
- A local write escapes exclusion exactly when its collection name begins with a mapped collection and `:` and the rest
  fits the identity limit of 1024 bytes, or when its record is forgotten in the way above (`Exclusion.OfferableIff`).
  `put_document` accepts such names, finds them unmapped, and stores under a key that reconciliation reads as a
  document of the mapped collection.
- One message becomes several documents exactly if two nodes subscribe to one subject on one broker
  (`Mesh.DocumentsBoundedIff`), and a publication can become a document again exactly along an echo path
  (`Mesh.RelaysIffEchoPath`). A message can be passed on as often as such paths follow each other, and up to the room of
  a ledger any number of times exactly if they form a cycle (`Relay.HopsIffWalk`, `Relay.ChainsIffCycle`).
- Relabelling Failed to Cancelled sends a second terminal frame, so a stream can close before another distribution
  ends (`Progress.RelabellingClosesEarly`); a closed stream is complete exactly if it took no second one from the channel
  (`Progress.ClosedCompleteIff`). Relabelling the last Failed distribution also leaves a stale bundle status behind,
  exactly if the status' writer had read the slots before (`Finalizers.FinalStatus`, `Finalizers.StaleStatus`).
- A terminal frame that 64 others follow before a slow subscriber reads it is lost, and the stream stays open
  (`Progress.PollLosesIff`, `Progress.SettledClosedIff`, `Progress.LagLosesEnding`), although a comment at
  src/attachments/runtime.rs:38-42 expects a final snapshot to cover it.
- A hash mismatch deletes content that was stored before the request (`Ingest.RestoredIff`).
- A compacted journal that holds a completed entry does not reopen, and a compaction that fails after its rename goes on
  writing to a file without a name; compaction is never reached (`JournalLog.CompactionPreservesIff`,
  `Journal.Journal.Compact`, `Ledger.NeverCompacts`).
- The registry's documentation (src/attachments/registry.rs:16-20) promises a conflict only for bundles still in use
  and an idempotent answer whenever the identity matches. The code also conflicts on Partial bundles, and drops a
  Failed or Cancelled bundle even for the same identity. The model follows the code.

## Model

| member | source | states |
|---|---|---|
| Bytes.DecodeBigEndian | src/nats_bridge/ledger.rs:719-741 | reading the fixed-width big-endian integers of a record back gives the number written |
| Bytes.EncodeBigEndian | src/nats_bridge/ledger.rs:719-741 | writing the number read from such bytes gives the same bytes |
| Codec.DigestInputInjective | src/nats_bridge/ledger.rs:41-50 | the length-framed bytes hashed for a document determine its collection and its id |
| Codec.EqualDigestsCollide | src/nats_bridge/ledger.rs:41-50 | two different documents share a ledger key only through a hash collision |
| Codec.DomainsSeparate | src/nats_bridge/ledger.rs:32-50 | no document digest input is also a record checksum input |
| Codec.DecodeEncode | src/nats_bridge/ledger.rs:719-741 | decoding an encoded record gives the record |
| Codec.EncodeDecode | src/nats_bridge/ledger.rs:729-741 | bytes that decode are the encoding of what they decode to |
| Codec.DecodesIffEncoding | src/nats_bridge/ledger.rs:719-749 | 80 bytes decode if and only if they are some record's encoding |
| LedgerFile.HeaderOkIffHeader | src/nats_bridge/ledger.rs:659-687 | the header checks on open accept exactly the header that is written for that journal kind |
| JournalLog.RecordsBounded | src/nats_bridge/ledger.rs:566-611 | a live history never holds more records than indexed digests plus completed ones |
| JournalLog.CompactionUnreachable | src/nats_bridge/ledger.rs:576-588 | an accepted record always finds the journal below the record limit and the file below its size limit, so the compaction branch is never taken |
| JournalLog.LogFits | src/nats_bridge/ledger.rs:541-560 | a live history, reloaded at any point, stays within the record and entry limits that recovery enforces |
| JournalLog.LiveExtends | src/nats_bridge/ledger.rs:566-611 | appending what the live checks allow keeps the history live |
| JournalLog.DecideExact | src/nats_bridge/ledger.rs:573-588 | over every index that holds only states of its kind: a state is known exactly if it belongs to the journal and is covered (a reservation also by a completion), refused exactly if it does not belong or a new digest finds the journal full, appended otherwise |
| JournalLog.LiveAnswers | src/nats_bridge/ledger.rs:562-588 | the same for every live history: known exactly if the last record of the digest covers it |
| JournalLog.RecoverHeld | src/nats_bridge/ledger.rs:670-717 | recovery of a journal image followed by a torn record returns exactly its history and cuts the tail |
| JournalLog.HeldIfRecovered | src/nats_bridge/ledger.rs:670-717 | conversely, a file recovers only if it is such an image |
| JournalLog.RecoverExact | src/nats_bridge/ledger.rs:670-717 | recovery succeeds if and only if the file is a valid image plus fewer than 80 bytes, with that image's index |
| JournalLog.RecoveredBytes | src/nats_bridge/ledger.rs:688-717 | a file that is reported corrupt is left untouched; otherwise fewer than 80 bytes are cut |
| JournalLog.TornAppendRecovers | src/nats_bridge/ledger.rs:566-611 | after any prefix of an append the file is within its limit and reopens to the old index or the index with that one record |
| JournalLog.RecoverIdempotent | src/nats_bridge/ledger.rs:670-717 | recovering a recovered file changes nothing |
| JournalLog.ReopensIffReserveFirst | src/nats_bridge/ledger.rs:700-706 | a live history reopens if and only if every completion follows its reservation |
| JournalLog.TornHeader | src/nats_bridge/ledger.rs:541-560 | a crash while the header is written leaves a file that open refuses unless nothing or all of it was written |
| JournalLog.CompactedIndex | src/nats_bridge/ledger.rs:617-657 | the compacted records carry exactly the live index |
| JournalLog.CompactionPreservesIff | src/nats_bridge/ledger.rs:617-657 | a compacted file reopens to the same index if nothing in it is completed and is corrupt otherwise |
| Journal.ReplayChunks | src/nats_bridge/ledger.rs:688-710 | the chunk loop computes the same result as the recursive replay |
| Journal.Recover | src/nats_bridge/ledger.rs:670-717 | result and file after recovery, on success, on every unreadable file, and when the cut of a torn tail fails before or after it reached the file |
| Journal.Journal.Open | src/nats_bridge/ledger.rs:541-560 | an opened journal mirrors its file; a failed header write leaves any part of the header and an error; a failed cut leaves the file cut or not and an error; an unreadable file is refused and kept |
| Journal.Journal.Record | src/nats_bridge/ledger.rs:562-611 | a covered state of the journal's kind is answered without a change, forbidden ones are refused, allowed ones are durable before the index changes; the invariant between file, history and index is kept |
| Journal.Journal.Compact | src/nats_bridge/ledger.rs:613-657 | the index stays and the compacted file reopens if and only if nothing is completed; a failure before the rename changes nothing, one after it leaves the journal on its old file |
| Egress.RouteIndex | src/nats_bridge/egress.rs:354-374 | a collection resolves to its last mapping, and to none only if it has none |
| Egress.ClassifiedItem | src/nats_bridge/egress.rs:376-409 | what is classified for publishing comes from another node, follows a configured mapping, and keeps subject, payload and ledger key |
| Egress.ClassifiedIff | src/nats_bridge/egress.rs:376-409 | an event becomes an item exactly if it is an envelope of this kind and version from another node whose collection's last mapping has its subject and whose payload fits, and then which item |
| Egress.SkippedIff | src/nats_bridge/egress.rs:376-409 | an event is skipped for its first fault in the order of the checks, and for nothing else |
| Egress.OwnPublicationDropped | src/nats_bridge/runtime.rs:1565-1602 | a node never ingests its own publication |
| Egress.BridgeRoundTrip | src/nats_bridge/envelope.rs:36-53 | a message ingested on one node leaves a second node with the same subject and payload, and is turned back only at its source |
| TornJournal.NextAfterPartial | src/nats_bridge/ledger.rs:670-717 | a file with a partial record and a whole one behind it recovers to what its first 80 bytes past the good records decode to: an error, or one more record with the rest cut off |
| TornJournal.NextAfterNothing | src/nats_bridge/ledger.rs:688-710 | if nothing of the failed record was written, the gap in the sequence makes the file unreadable |
| TornJournal.NextAfterWhole | src/nats_bridge/ledger.rs:688-710 | if only the sync failed, both records are read, unless the second repeats the first |
| TornJournal.NextCompletesChecksum | src/nats_bridge/ledger.rs:729-741 | with all fields of the torn record written, it is read back exactly if the next record's first bytes complete its checksum |
| TornJournal.LastByteZero | src/nats_bridge/ledger.rs:719-741 | one byte short of a record whose checksum ends in zero, a later record is lost and the torn one read |
| Ledger.NeverCompacts | src/nats_bridge/ledger.rs:166-253 | in every run, with failures anywhere, an accepted record finds the journal below its record limit |
| Ledger.ExecutedSound | src/nats_bridge/ledger.rs:186-211 | executing a queued command, with a write failing at any byte, keeps file, history and index in step unless it appends behind a failed append |
| Ledger.ExecutedGrows | src/nats_bridge/ledger.rs:566-611 | the history grows by at most the record at hand, and by it whenever its caller is told so |
| Ledger.ReopensIffHeader | src/nats_bridge/ledger.rs:541-560 | reopening reads exactly the history unless the first header write was cut short; then the file is refused and nothing had been recorded |
| Ledger.OpenedSound | src/nats_bridge/ledger.rs:541-560 | a restart, with the header write failing at any byte, keeps file and history in step |
| Ledger.FirstOpenFails | src/nats_bridge/ledger.rs:541-560 | a new file whose first open fails opens later if and only if none or all of its header was written |
| Ledger.AnswerExact | src/nats_bridge/ledger.rs:186-211 | in every run, for a queued command of the journal's own states: answered as a duplicate exactly if its digest is covered, and then file and health stay; as inserted exactly if it is not, there is room and its append is durable; a failed answer leaves the worker unhealthy |
| Ledger.NextSound | src/nats_bridge/ledger.rs:166-300 | every step of callers, worker and restarts keeps them so |
| Ledger.NextIntact | src/nats_bridge/ledger.rs:166-300 | every step of callers, worker and restarts keeps file, history and index in step, completions without a reservation included |
| Ledger.NextRemembers | src/nats_bridge/ledger.rs:186-253 | whatever a caller was told is recorded stays recorded through every step |
| Ledger.NeverForgets | src/nats_bridge/ledger.rs:263-300 | in every run that never appends behind a failed append, whatever commands it is given, a running worker knows everything it acknowledged |
| Ledger.TwoRecordsForgetIff | src/nats_bridge/ledger.rs:186-211 | with two records queued and the first failing after any number of bytes, the acknowledged second one is forgotten on restart if and only if the merged bytes are an acceptable record of another digest |
| Forgetting.HeldExtends | src/nats_bridge/ledger.rs:670-717 | whatever a file spells behind a history, the history is read first |
| Forgetting.BatchRun | src/nats_bridge/ledger.rs:186-211 | a batch queued by an idle worker and executed with any failures leaves exactly its bytes behind the history and tells exactly its durable digests |
| Forgetting.TornRun | src/nats_bridge/ledger.rs:166-253 | after a restart the worker is idle on the history that those bytes spell |
| Forgetting.NextShaped | src/nats_bridge/ledger.rs:166-300 | every step keeps the file a history plus one batch, the worker that far, and every acknowledged digest known or loseable |
| Forgetting.ForgetIff | src/nats_bridge/ledger.rs:166-300 | commands from any given set can make a ledger forget a digest if and only if, behind a history they can write, the bytes of a batch after a failed append spell acceptable records without it |
| Forgetting.AnyForgetIff | src/nats_bridge/ledger.rs:166-300 | with all commands allowed, that is a condition on a history and the bytes of a batch alone |
| Delivery.NextOnce | src/nats_bridge/egress.rs:473-535 | every step keeps at most one delivery of a digest on its way or published, unless a restart forgets it |
| Delivery.PublishTwiceIffForgotten | src/nats_bridge/egress.rs:473-535 | some run publishes a digest twice if and only if some run restarts on a journal that lost a published digest |
| Delivery.NextGuarded | src/nats_bridge/egress.rs:473-535 | every step of delivery, ledger worker, queue, publisher, crash and restart keeps the journal and the protocol in order, unless it appends behind a failed append |
| Delivery.RunGuarded | src/nats_bridge/egress.rs:673-739 | so does every such run |
| Delivery.PublishAtMostOnce | src/nats_bridge/egress.rs:473-535 | in every such run publish is called at most once per document digest over the node's whole life |
| Delivery.ReservationIsDurable | src/nats_bridge/egress.rs:673-739 | in every such run, at any moment, reopening finds every digest waiting or published; Completed only if it was published once and a publish that succeeded was followed by a flush that succeeded, with the worker on it throughout; it fails exactly if the first header write was cut short, and then nothing was waiting or published |
| Delivery.FlushedIff | src/nats_bridge/egress.rs:684-705 | in every run, guarded or not, a digest counts as flushed exactly if some job of it was taken, published with success and then flushed with success |
| Delivery.PublishesCapped | src/nats_bridge/egress.rs:473-535 | in every such run a node publishes no more documents than its journal can index, however often they come back |
| Outcome.DeliveryExact | src/nats_bridge/egress.rs:473-535 | a delivery on a settled node, for every outcome of append, queue, publish, flush and completion: whether it publishes, whether it is flushed, and what the ledger then records |
| Outcome.TurnExact | src/nats_bridge/egress.rs:673-739 | whatever else is going on, a turn of the worker ends, and waits for an answer exactly if it published, flushed and the ledger accepts the completion |
| Outcome.FirstInFirstOut | src/nats_bridge/egress.rs:511-535 | in every run the worker has taken exactly the first of the jobs queued since the last crash, in order, and the bounded queue holds the others |
| Delivery.NeverPublishesOwn | src/nats_bridge/egress.rs:376-409 | in every run, guarded or not, no document whose source is this node is published |
| Delivery.TornRunForgetsIff | src/nats_bridge/ledger.rs:186-211 | two deliveries of which the first one's append fails after any number of bytes: the second is published and then forgotten if and only if the merged bytes read as another digest's record |
| Delivery.LastByteForgets | src/nats_bridge/ledger.rs:719-741 | one byte short of a record whose checksum ends in zero is such a case |
| Delivery.LastByteTwice | src/nats_bridge/egress.rs:473-535 | with such a hash a digest is published twice |
| Republishing.RunTold | src/nats_bridge/egress.rs:473-535 | whatever waits for publishing or was published was told durable by the ledger, in every run |
| Republishing.LedgerTrace | src/nats_bridge/egress.rs:473-535 | the ledger inside every delivery run is a run of the ledger machine under reservations and completions of routed documents |
| Republishing.TwiceIsSpelled | src/nats_bridge/egress.rs:473-535 | a digest can be published twice only if the bytes of a batch of such commands spell records without it |
| Ingress.Bridge.CreateBridgeDocument | src/node.rs:2148-2212 | create-only: one key changes, never from present to something else |
| Ingress.Bridge.ProcessItem | src/nats_bridge/ingress.rs:455-527 | the retry loop makes at most three attempts under one id and counts exactly one outcome; an invalid payload counts as invalid, and an envelope that does not encode counts nothing more |
| Ingress.StoredIff | src/nats_bridge/ingress.rs:488-526 | a message counted stored is there; a message counted failed is there if and only if an attempt failed after writing |
| Ingress.TriesExact | src/nats_bridge/ingress.rs:489-526 | which attempt settles a message: the first that does not fail in reading or writing the store, or the last; its answer and whether the document is there follow from whether an earlier attempt failed after writing |
| Ingress.ReachesIff | src/nats_bridge/ingress.rs:488-526 | a new message ends up stored if and only if some attempt reaches the store and only failed reads and writes without effect came before |
| Ingress.PresentStays | src/node.rs:2148-2183 | once written, every further attempt under the id is refused |
| Mesh.NextKeeps | src/nats_bridge/runtime.rs:1556-1591 | every step of messages, broker deliveries and node actions keeps the provenance of documents, broadcasts and jobs |
| Mesh.RunKeeps | src/nats_bridge/runtime.rs:1556-1591 | provenance holds in every reachable state of the mesh |
| Mesh.ReceiveExact | src/nats_bridge/runtime.rs:1556-1602 | a subscription makes a document of a broadcast if and only if the origin is not exactly its own node, the message is valid and fits, the id is new and an attempt reaches the store; and which document |
| Mesh.RunApart | src/node.rs:2148-2183 | in every run no document is stored over another one |
| Mesh.EchoHasPath | src/nats_bridge/runtime.rs:1593-1602 | a publication another node accepts runs along an echo path |
| Mesh.EchoIsShared | src/nats_bridge/runtime.rs:1565-1602 | an echo needs two nodes that subscribe to one subject on one broker |
| Mesh.NothingRelayed | src/nats_bridge/runtime.rs:1565-1602 | without such a pair a publication reaches only its own node, which drops it |
| Mesh.SharedDoubles | src/nats_bridge/ingress.rs:455-527 | with such a pair one application message becomes two documents |
| Mesh.DocumentsBoundedIff | src/nats_bridge/ingress.rs:455-527 | over all runs documents never outnumber application messages if and only if no two nodes subscribe to one subject on one broker |
| Mesh.EchoRelays | src/nats_bridge/runtime.rs:1565-1602 | along every echo path a publication does become a document again |
| Mesh.RelaysIffEchoPath | src/nats_bridge/runtime.rs:1565-1602 | publications ever become documents if and only if the configuration has an echo path |
| Mesh.PublishesBounded | src/nats_bridge/egress.rs:376-409 | unless its ledger appends behind a failed append, each node publishes at most once per document of the other nodes, and none of its own |
| Relay.RunChain | src/nats_bridge/runtime.rs:1565-1602 | in every run, every document has as many relay links in a row behind it as bridges passed it on |
| Relay.HopsNeedWalk | src/nats_bridge/runtime.rs:1565-1602 | a message is never passed on more often than the configuration has links in a row |
| Relay.WalkHops | src/nats_bridge/runtime.rs:1565-1602 | along every walk no longer than a ledger has room, with no colliding ledger keys, a message is passed on to the end |
| Relay.HopsIffWalk | src/nats_bridge/egress.rs:473-535 | so up to that room a message can be passed on n times if and only if there is a walk over n links |
| Relay.WalksIffCycle | src/nats_bridge/runtime.rs:1565-1602 | walks of every length exist if and only if the relay graph has a cycle |
| Relay.ChainsIffCycle | src/nats_bridge/egress.rs:473-535 | with no more subscriptions than a ledger has room for, chains of every length up to that room exist if and only if the relay graph has a cycle |
| Exclusion.SameKey | src/node.rs:2174 | two names of one store key are equal, or one collection continues past the other and the separator, with the rest of the id determined |
| Exclusion.ForgettingOverruns | src/nats_bridge/ledger.rs:186-211 | the exclusion ledger forgets a record only after an append behind a failed append |
| Exclusion.OfferExcused | src/node.rs:2284-2313 | a body that passes the check after hydration holds only local writes that shadow its collection or were forgotten |
| Exclusion.NextKeeps | src/node.rs:2164-2212 | every step of local writes and deletes, their ledger records, peers, crashes, installation and the reader keeps recorded writes excluded |
| Exclusion.RunKeeps | src/nats_bridge/reconcile.rs:278-335 | that holds in every reachable state |
| Exclusion.OnlyShadowedWritesOffered | src/nats_bridge/reconcile.rs:278-335 | unless the ledger appends behind a failed append, a local write made under an installed ledger is offered only if its collection runs past a mapped one and the separator, within the identity limit |
| Exclusion.ShadowedWriteOffered | src/node.rs:2426-2452 | every such write is offered in some run |
| Exclusion.ForgottenWriteOffered | src/node.rs:2284-2313 | a mapped write within the limit whose record the journal can forget is offered in some run |
| Exclusion.OfferableIff | src/node.rs:2245-2313 | which local writes reconciliation can ever offer, both directions: shadowing within the 1024-byte limit, or mapped, within the limit and forgettable |
| Exclusion.TornRecordForgets | src/nats_bridge/ledger.rs:186-211 | two queued records whose bytes merge into another digest's record are enough to forget one |
| Exclusion.ForgettableIff | src/nats_bridge/ledger.rs:166-300 | the record of a mapped document can be forgotten if and only if, behind a history of such records, the bytes of a batch after a failed append spell records without it |
| Exclusion.EarlyWriteOffered | src/node.rs:2358-2413 | a write made before the ledger is installed is not told apart from a remote one |
| Contributions.StoreIff | src/node.rs:2164-2212 | who is in a stored document, in every run: exactly those whose write landed or who arrived from a peer since it was last deleted; a create-only write lands only on a new document |
| Contributions.RemoteIff | src/node.rs:2164-2212 | who is in the peers' copy: exactly the remote writers and whoever was in the document when it was sent out |
| Contributions.ReaderExact | src/nats_bridge/reconcile.rs:278-335 | one candidate of a scan with anything going on in between: offered, with the body it was read with, if and only if it is mapped, there, within the limits, and unknown to a healthy ledger before and after it was read |
| Contributions.PutEnds | src/node.rs:2164-2212 | a cleared write succeeds if and only if it lands, and no other write moves |
| Reconcile.NextKeeps | src/nats_bridge/reconcile.rs:82-97 | every atomic step of callers, close and reconciler keeps a scan coming for unanswered calls |
| Reconcile.IdleMeansScanned | src/nats_bridge/reconcile.rs:220-244 | when the open reconciler waits on an empty channel, every call past its send had a scan start after it was made |
| Reconcile.NoLostTrigger | src/nats_bridge/reconcile.rs:82-97 | while open, five steps of the reconciler after a call's send attempt start a scan following the call, whatever other callers do |
| Reconcile.ScansBounded | src/nats_bridge/reconcile.rs:220-244 | scans never outnumber accepted triggers |
| Reconcile.ScansAccounted | src/nats_bridge/reconcile.rs:220-244 | in every run each queued message and each raised flag became exactly one scan, is still waiting, or was dropped by closing |
| Reconcile.CallsAccounted | src/nats_bridge/reconcile.rs:82-92 | every call is counted as a trigger once, and as coalesced exactly if it raised the flag |
| Reconcile.LateRefused | src/nats_bridge/reconcile.rs:83-86 | a call made after closing is refused and has no effect |
| Reconcile.OpenAccepts | src/nats_bridge/reconcile.rs:83-86 | while open no call is refused |
| Reconcile.ClosedScans | src/nats_bridge/reconcile.rs:221-243 | after closing at most one more scan starts, and only if the reconciler was past its last look at the flag |
| Reconcile.ClosedMayDrop | src/nats_bridge/reconcile.rs:93-96 | a trigger accepted just before close may go unanswered |
| Readiness.BridgeReadiness.InvalidateSubscriptionGeneration | src/nats_bridge/readiness.rs:113-116 | withdrawing the generation ends readiness whenever a subject is configured |
| Readiness.BridgeReadiness.MarkDisconnected | src/nats_bridge/readiness.rs:118-125 | a disconnect clears connection and subscriptions together and ends readiness |
| Readiness.LifecycleControl.Delivered | src/nats_bridge/runtime.rs:103-141 | snapshot and readiness after an event, as one transition |
| Readiness.LifecycleControl.CommitBarrier | src/nats_bridge/runtime.rs:143-154 | a commit takes effect exactly when its tags match, and reports exactly the step into readiness |
| Supervisor.SnapshotCounts | src/nats_bridge/runtime.rs:120-140 | every counter of a snapshot is the number or position of events it stands for, up to saturation |
| Supervisor.EpochsCount | src/nats_bridge/runtime.rs:1028-1041 | a snapshot that allowed a barrier has the current invalidation epoch only if nothing was invalidated since, saturation included |
| Supervisor.CommitIsCurrent | src/nats_bridge/runtime.rs:1028-1041 | a barrier whose tags match was spawned after the latest invalidation |
| Supervisor.NextKeeps | src/nats_bridge/runtime.rs:1301-1495 | every step of the supervisor loop and of concurrent deliveries keeps the readiness invariant |
| Supervisor.RunKeeps | src/nats_bridge/runtime.rs:1301-1495 | it holds in every reachable state |
| Supervisor.ReadyHasFreshBarrier | src/nats_bridge/readiness.rs:34-42 | the safety half: in every interleaving, saturated counters included, a ready bridge with a configured subject has a committed barrier of the current generation, begun when the latest event was Connected, with no disconnect or error since |
| Supervisor.ReadyIff | src/nats_bridge/readiness.rs:34-42 | both halves, in every run: ready exactly if no shutdown began, the latest health reports of both ledgers are good, the latest connect or disconnect was a connect, and a committed barrier was not taken back |
| Supervisor.BecomesReady | src/nats_bridge/runtime.rs:1301-1395 | from wherever a run left an idle loop, a connect that is subscribed and flushed makes the bridge ready, unless a shutdown began, a ledger is unhealthy or event numbers are used up |
| Supervisor.RebuildingReady | src/nats_bridge/runtime.rs:1401-1455 | a generation that ends while connected loses readiness and its replacement regains it |
| Turns.ChangeExact | src/nats_bridge/runtime.rs:1301-1395 | handling a lifecycle change with events arriving before every step: what is subscribed, which barrier is dropped, kept or started, and that its tags are those of the snapshot looked at |
| Turns.ReplacementExact | src/nats_bridge/runtime.rs:1401-1455 | a generation that ends is replaced if and only if the broker was connected then, with a barrier tagged by the lifecycle at the end of the rebuild |
| Turns.BarrierExact | src/nats_bridge/runtime.rs:1474-1495 | a finished round trip is gone, and establishes the subscriptions if and only if it succeeded and epochs, connection and generation are those it began with |
| Turns.ShutdownIsFinal | src/nats_bridge/runtime.rs:1216-1300 | after a shutdown nothing is subscribed, no round trip is in flight, and the bridge is never ready again |
| Turns.SnapshotExact | src/nats_bridge/runtime.rs:103-141 | in every run the snapshot tells the latest connect or disconnect and counts connects and invalidations, and readiness never contradicts it |
| Fanout.MergeIsUnion | src/fanout.rs:53-64 | a merged kind reaches exactly the peers either kind reaches |
| Fanout.MergeSemilattice | src/fanout.rs:53-64 | merging is associative, commutative and idempotent |
| Fanout.EnqueueKeeps | src/fanout.rs:134-167 | enqueueing keeps both structures describing the same keys, ordered and at most 4096 |
| Fanout.PopKeeps | src/fanout.rs:170-195 | so does popping |
| Fanout.PopServes | src/fanout.rs:170-195 | a pop serves the earliest entry of its class: the best-ranked one, or after eight urgent pops the oldest |
| Fanout.EnqueueSheds | src/fanout.rs:134-167 | what is shed is no better ranked than anything that stays, and its class is counted |
| Fanout.PendingExact | src/fanout.rs:134-167 | a new document grows the queue up to 4096 entries, and from then on costs one entry |
| Fanout.CollectionBefore | src/fanout.rs:119-122 | a document's collection is the text before the first colon of its key |
| Fanout.PriorityFanout.Enqueue | src/fanout.rs:134-167 | the whole new state of coalescing, admission and shedding |
| Fanout.PriorityFanout.Pop | src/fanout.rs:170-195 | the whole new state of serving; which entry that is over a whole run is `FanoutRuns.PopExact` |
| FanoutRuns.RunKeeps | src/fanout.rs:69-84 | the structures agree after every sequence of operations |
| FanoutRuns.NoStarvation | src/fanout.rs:170-195 | an entry with k older ones ahead is gone within 9*(k+1) pops, whatever is enqueued meanwhile |
| FanoutRuns.OneFairPopInNine | src/fanout.rs:170-195 | of any nine consecutive pops at most one passes over the best-ranked entry |
| FanoutRuns.PopExact | src/fanout.rs:170-195 | in every run a pop serves the oldest entry if each of the eight pops before it left an older entry waiting, and the best-ranked one otherwise |
| FanoutRuns.ClassOfCollection | src/fanout.rs:119-122 | in every run a pending document waits in the class of its own collection |
| FanoutRuns.Conservation | src/fanout.rs:69-84 | sequence numbers issued equal pops plus pending plus everything shed |
| FanoutRuns.AudienceExact | src/fanout.rs:134-195 | a pending kind's audience is the union of all enqueues since the key last left |
| FanoutRuns.PoppedAudience | src/fanout.rs:192-194 | so is the audience a pop returns |
| FanoutRuns.OwedIff | src/fanout.rs:134-195 | a peer is owed a document exactly if some enqueue since the key last left was meant for it |
| FanoutWorker.NextPhases | src/fanout.rs:210-251 | every step of enqueuers, closer and worker keeps the wake-up invariant |
| FanoutWorker.NoLostWakeup | src/fanout.rs:210-251 | a parked worker without a permit, with nobody about to notify, has an empty queue |
| FanoutWorker.WorkerSettles | src/fanout.rs:210-251 | once every caller has notified, the worker serves what is pending and parks, or exits if closed, within two actions per document and seven more |
| FanoutWorker.NotifiesOnce | src/fanout.rs:134-167 | every admission, and no coalescing enqueue, notifies exactly once |
| FanoutWorker.ExitsDrained | src/fanout.rs:210-251 | the worker exits only when closed, and drained exactly if nothing arrived after its last empty pop |
| FanoutWorker.ExitMayLeaveEntry | src/fanout.rs:114-117 | an entry that does arrive then is left behind |
| Preflight.StepExact | src/node.rs:526-561 | saturating counters and the one wrapping addition never change a verdict |
| Preflight.CostSplits | src/node.rs:445-523 | a container's recursive cost is its slots plus what its pushed children hold |
| Preflight.AffordableStep | src/node.rs:526-561 | one more slot: the counters stay within their limits and the rest stays affordable if and only if the container was affordable before, with the account unchanged |
| Preflight.PreflightContainer | src/node.rs:456-508 | the loop over a container accepts exactly what its own slots allow |
| Preflight.PreflightObject | src/node.rs:452-523 | one popped object keeps the account between counters, stack and document, or proves it unacceptable |
| Preflight.PreflightEventDocument | src/node.rs:445-579 | the walk accepts a document exactly when its recursive depth, sizes and costs are within every limit, always ends, and never rejects on pop |
| Registry.PutExactIff | src/attachments/registry.rs:315-338 | storing a record keeps the reverse index exact if and only if its distributions are fresh |
| Registry.ResubmitExact | src/attachments/registry.rs:249-310 | which resubmissions find nothing, the same bundle or a conflict, by status and identity, and that nothing else in the table changes |
| Registry.ExpiryExact | src/attachments/registry.rs:374-390 | which bundles retention keeps: every unfinished one and every one touched at the cutoff or later |
| Registry.BundleRegistry.DropRecord | src/attachments/registry.rs:432-444 | a bundle goes together with exactly what resolved to it |
| Registry.BundleRegistry.EvictLru | src/attachments/registry.rs:417-430 | the evicted resident is one touched longest ago |
| Registry.BundleRegistry.Insert | src/attachments/registry.rs:315-338 | the new table, its cap, and when the index stays exact |
| Registry.BundleRegistry.Get | src/attachments/registry.rs:342-351 | a read touches what it returns and nothing else |
| Registry.BundleRegistry.LookupDistribution | src/attachments/registry.rs:356-361 | a distribution resolves if and only if a resident bundle holds it, to that bundle |
| Registry.BundleRegistry.UpdateStatus | src/attachments/registry.rs:364-370 | one record's status and touch time change |
| Registry.BundleRegistry.EvictExpired | src/attachments/registry.rs:374-390 | exactly the terminal bundles untouched since the cutoff go, with their distributions |
| Registry.BundleRegistry.Probe | src/attachments/registry.rs:249-274 | a verdict under the read lock is the one-lock verdict and changes nothing |
| Registry.BundleRegistry.Settle | src/attachments/registry.rs:276-310 | the write-lock phase is the one-lock resubmission on the table it finds |
| RegistryRuns.RunKeeps | src/attachments/registry.rs:249-390 | with fresh distribution ids the index is exact and the cap holds in every run of concurrent callers |
| RegistryRuns.StaysGone | src/attachments/registry.rs:284-292 | a distribution that stopped resolving never resolves again |
| RegistryRuns.Linearizable | src/attachments/registry.rs:249-310 | every answered two-phase check took effect as one operation between call and answer, and that order explains all answers |
| RegistryRuns.AnswerExact | src/attachments/registry.rs:249-310 | in every run each answered check says what the bundle's own history came to when it took effect: gone or given up, the same submission, or another one |
| RegistryRuns.ResolvesIff | src/attachments/registry.rs:249-390 | in every run a distribution resolves to a bundle exactly if that bundle's own history leaves it in the table holding the distribution |
| Progress.BundleRuntime.ApplyProgress | src/attachments/runtime.rs:136-183 | terminal is final; true exactly on the first terminal transition |
| Progress.BundleRuntime.ApplyCancellation | src/attachments/runtime.rs:193-223 | takes over a Failed slot without counting it again |
| Progress.BundleRuntime.AllTerminal | src/attachments/runtime.rs:108-110 | alone, the counter reaches the total exactly when every slot is terminal |
| Progress.Uninterrupted | src/attachments/runtime.rs:136-183 | the machine's three steps in a row amount to one call, accepted or not |
| Progress.UninterruptedCancel | src/attachments/runtime.rs:193-223 | so they do for a cancellation |
| Progress.NextKeeps | src/attachments/runtime.rs:136-223 | every step of updates and subscriber keeps the account of terminal frames |
| Progress.RunKeeps | src/attachments/runtime.rs:136-223 | it holds in every reachable state |
| Progress.AllTerminalSound | src/attachments/runtime.rs:108-110 | the lock-free counter reaches the total only when every slot is terminal |
| Progress.SnapshotKeeps | src/attachments/handlers.rs:416-430 | subscribing before the snapshot loses no terminal frame |
| Progress.AtMostOneEnding | src/attachments/handlers.rs:439-476 | a subscriber gets one terminal frame per distribution, a second only after a relabelling outside its snapshot |
| Progress.ClosedMissesRepeats | src/attachments/handlers.rs:482-531 | a closed stream misses exactly as many distributions as it repeated frames |
| Progress.ClosedCompleteIff | src/attachments/handlers.rs:482-531 | a closed stream delivered one terminal frame for every distribution if and only if it took no second terminal frame of a distribution outside its snapshot from the channel |
| Progress.DrainedIsClosed | src/attachments/handlers.rs:482-531 | a subscriber that lost no terminal frame to lag is closed once everything is terminal, sent and read |
| Progress.LostEndingLeavesOpen | src/attachments/handlers.rs:450-466 | one that lost a terminal frame is not closed, unless a relabelling repeated another |
| Progress.SettledClosedIff | src/attachments/handlers.rs:482-531 | a stream with everything terminal, sent and read is closed if and only if lag cost it as many terminal frames as relabellings had added outside its snapshot; it never costs fewer |
| Progress.PollLosesIff | src/attachments/runtime.rs:38-42 | a poll loses exactly the unread frames that at least 64 others follow |
| Progress.LagLosesEnding | src/attachments/handlers.rs:450-466 | a run in which 64 frames of another distribution follow a terminal frame, which is lost for good |
| Progress.RelabellingClosesEarly | src/attachments/runtime.rs:203-220 | a relabelling closes a stream before the other distribution ends |
| Progress.SnapshotLoop | src/attachments/handlers.rs:420-430 | the loop collects exactly the endings of the terminal slots, each in its own state, in order, and exactly their ids |
| Progress.SnapshotExact | src/attachments/handlers.rs:420-430 | a snapshot frame is there exactly if its slot is terminal in that state |
| Reports.DeliveredTrue | src/attachments/handlers.rs:439-476 | in every run an ending a subscriber is told is the distribution's own, or the failure a cancellation has relabelled |
| Reports.FramesReportCalls | src/attachments/runtime.rs:136-223 | in every run every slot and every frame reports a call that was made |
| Reports.StreamExact | src/attachments/handlers.rs:416-476 | a subscriber that lost nothing to lag gets the endings of its snapshot and then, in order, every later frame of the other distributions |
| Finalizers.AggregateLoop | src/attachments/handlers.rs:793-809 | the loop computes failure over cancellation over completion |
| Finalizers.NextKeeps | src/attachments/handlers.rs:789-811 | every step of updates, watchers, cancellations and finalizing callers keeps somebody responsible for the status once every distribution ended |
| Finalizers.RunKeeps | src/attachments/handlers.rs:660-684 | that holds in every reachable state |
| Finalizers.EveryCallTests | src/attachments/handlers.rs:789-811 | in every run each cancellation, each watcher that leaves and each accepted report is one caller that goes on to the test for completion |
| Finalizers.FinalStatus | src/attachments/handlers.rs:789-811 | once everybody has returned and every distribution ended, a status is written; it aggregates the final slots if and only if the last Failed slot was not relabelled after the status' writer had read the slots |
| Finalizers.StaleStatus | src/attachments/handlers.rs:366-367 | a run that ends with the status Failed although the only distribution is Cancelled |
| Ingest.RestoredIff | src/attachments/ingest.rs:164-177 | with deletes succeeding, a failed request restores the store if and only if no mismatching content was there before |
| Ingest.UndoneBounds | src/attachments/ingest.rs:217-239 | in general only a mismatch is lost and only what cannot be deleted is left |
| Ingest.BlobStore.IngestFile | src/attachments/ingest.rs:136-180 | outcome and store for every way one file can go |
| Ingest.BlobStore.Rollback | src/attachments/ingest.rs:217-239 | removes what was created and not there before, as far as deletes succeed |
| Ingest.BlobStore.Distribute | src/attachments/ingest.rs:98-124 | handles in file order, or the request undone |
| Ingest.BlobStore.IngestBundle | src/attachments/ingest.rs:64-125 | succeeds exactly if every file and distribution does, then holds every content; otherwise the store is the undone one |

## Left out

- Automerge, Iroh, peat-mesh and peat-protocol internals: documents are what their contributors put in, synchronisation copies and merges them.
- async-nats, retry delays and logging: broker events and publish and flush outcomes are inputs.
- SHA-256, encryption and base64: an arbitrary hash function; encrypted bodies are not modelled.
- Directory handling, permissions and the contents of compaction's temporary file: open, append, truncate and rename on byte sequences.
- `scan_once` pacing, batching and counters: per-key bookkeeping; its two exclusion checks around hydration are in `Exclusion`.
- The readiness gate in front of a delivery (src/nats_bridge/egress.rs:482-491): an event that arrives while the bridge is not ready is a delivery that does not take place; when the bridge is ready is in `Supervisor`.
- The live event path's own exclusion behaviour: it does not consult the exclusion ledger; `Delivery` covers what it publishes.
- Concurrent ingests of overlapping content: one request at a time; the snapshot of existing blobs can be stale under concurrency.
- Watcher polling, grace promotion and per-node status aggregation of attachments: only the resulting state changes.
- RPC mapping, query filters, attachment validation, configuration parsing, discovery and shutdown deadlines: mostly checks of single branches.
- Ledger lookups waiting in the command queue, and failures of reading a file: a lookup answers at once while the worker is healthy.
- Republishing.TwiceIsSpelled: one direction; not every batch on the ledger's side can be sent by deliveries and completions (one completion waits at a time), and `Delivery.TornRunForgetsIff` is the exact case of two deliveries.
- Relay.HopsIffWalk: for documents whose ledger keys do not collide, and up to the room of a ledger, which ends every chain through a node.
- Mesh.RelaysIffEchoPath: for nodes configured with distinct ids, which nothing enforces (the mesh key is derived from the shared key and the id, src/node.rs:740-742); documents are not edited after ingest.
