/** Local exclusion: local writes, remote synchronisation, crashes and the reconciliation reader of one node,
    interleaved between any two awaits (`node.rs`, `reconcile.rs`), over the exclusion ledger of module Ledger. */
module Exclusion {
  import opened Wrappers
  import opened Bytes
  import opened Codec
  import opened LedgerFile
  import opened JournalLog
  import F = Forgetting
  import L = Ledger

  const COLON: byte := 58
  const MAX_BRIDGE_IDENTITY_BYTES: nat := 1024

  datatype Env = Env(hash: Hash, collections: set<Text>)

  datatype StoreKey = StoreKey(bytes: seq<byte>)

  /** Store key `collection:doc_id`. */
  function Key(collection: Text, docId: Text): StoreKey {
    StoreKey(collection + [COLON] + docId)
  }

  /** Who contributed to a document body. `installed` is history: the ledger was installed when the local write
      looked it up. */
  datatype Contribution =
    | Remote(id: nat)
    | Local(collection: Text, docId: Text, installed: bool)

  type Body = set<Contribution>

  datatype Kind = Upsert | CreateOnly | Delete

  datatype At =
    | Entered
    | Mapped                     // found the ledger; about to queue its record
    | Recording                  // waits for the ledger
    | Cleared(installed: bool)   // may write the store
    | Finished
    | Failed

  datatype Writer = Writer(kind: Kind, collection: Text, docId: Text, at: At)

  datatype Reader =
    | Idle
    | Picked(collection: Text, docId: Text)
    | Hydrated(collection: Text, docId: Text, body: Body)

  datatype Offer = Offer(collection: Text, docId: Text, body: Body)

  /** `waiting` are the writers behind the ledger's queued commands, in order. `trace` is history: what the ledger
      did. */
  datatype State = State(
    installed: bool, ledger: L.Ledger, trace: seq<L.Step>, store: map<StoreKey, Body>, remote: map<StoreKey, Body>,
    writers: seq<Writer>, waiting: seq<nat>, reader: Reader, offered: seq<Offer>)

  datatype Step =
    | Install(io: Io)
    | Begin(kind: Kind, collection: Text, docId: Text)
    | Look(i: nat)
    | Send(i: nat)
    | Execute(io: Io)
    | Put(i: nat, stored: bool)
    | SyncOut(key: StoreKey)
    | RemoteWrite(key: StoreKey, id: nat)
    | SyncIn(key: StoreKey, body: Body)
    | Pick(collection: Text, docId: Text)
    | Read(fits: bool)
    | Check
    | Abandon
    | Crash

  function Start(): State {
    State(false, L.Start(), [], map[], map[], [], [], Idle, [])
  }

  function DigestOf(e: Env, collection: Text, docId: Text): Digest {
    DocumentDigest(e.hash, collection, docId)
  }

  function CommandFor(e: Env, collection: Text, docId: Text): L.Command {
    L.Command(DigestOf(e, collection, docId), LocalExcluded)
  }

  function BodyAt(m: map<StoreKey, Body>, key: StoreKey): Body {
    if key in m then m[key] else {}
  }

  function Move(s: State, i: nat, at: At): State
    requires i < |s.writers|
  {
    s.(writers := s.writers[i := s.writers[i].(at := at)])
  }

  /** `record_local_exclusion` up to the ledger facade. */
  function LookUp(e: Env, s: State, i: nat): State
    requires i < |s.writers|
  {
    var w := s.writers[i];
    if !w.at.Entered? then s
    else if !s.installed then Move(s, i, Cleared(false))
    else if w.collection !in e.collections then Move(s, i, Cleared(true))
    else if s.ledger.worker.None? then Move(s, i, Failed)
    else Move(s, i, Mapped)
  }

  /** `Worker::record` up to its queue. */
  function Queue(e: Env, s: State, i: nat): State
    requires i < |s.writers|
  {
    var w := s.writers[i];
    var command := CommandFor(e, w.collection, w.docId);
    if !w.at.Mapped? then s
    else if !L.Accepts(s.ledger) then Move(s, i, Failed)
    else
      Move(s, i, Recording).(ledger := L.Submitted(s.ledger, command), trace := s.trace + [L.Submit(command)],
                             waiting := s.waiting + [i])
  }

  /** The ledger executes one command and answers the writer behind it. */
  function Answer(e: Env, s: State, io: Io): State
    requires L.Busy(s.ledger) && s.waiting != [] && s.waiting[0] < |s.writers|
  {
    var at := if L.ReplyOf(LedgerFile.Exclusion, s.ledger, io).Failed? then Failed else Cleared(true);
    Move(s, s.waiting[0], at).(ledger := L.Executed(e.hash, LedgerFile.Exclusion, s.ledger, io),
                               trace := s.trace + [L.Execute(io)], waiting := s.waiting[1..])
  }

  /** Whether the store part of `write_document` or `delete_document` goes through, under the key lock. */
  predicate Writes(s: State, w: Writer, stored: bool) {
    stored && !(w.kind.CreateOnly? && Key(w.collection, w.docId) in s.store)
  }

  function StoreAfter(s: State, w: Writer, stored: bool): map<StoreKey, Body>
    requires w.at.Cleared?
  {
    var key := Key(w.collection, w.docId);
    if !Writes(s, w, stored) then s.store
    else if w.kind.Delete? then s.store - {key}
    else s.store[key := BodyAt(s.store, key) + {Local(w.collection, w.docId, w.at.installed)}]
  }

  function WriteStore(s: State, i: nat, stored: bool): State
    requires i < |s.writers|
  {
    var w := s.writers[i];
    if !w.at.Cleared? then s
    else Move(s, i, if Writes(s, w, stored) then Finished else Failed).(store := StoreAfter(s, w, stored))
  }

  /** `lookup` answers only while the worker is healthy. */
  predicate Answers(s: State) {
    s.ledger.worker.Some? && s.ledger.worker.value.healthy
  }

  predicate Excluded(e: Env, s: State, collection: Text, docId: Text)
    requires Answers(s)
  {
    DigestOf(e, collection, docId) in s.ledger.worker.value.index
  }

  predicate ShortNames(collection: Text, docId: Text) {
    |collection| <= MAX_BRIDGE_IDENTITY_BYTES && |docId| <= MAX_BRIDGE_IDENTITY_BYTES
  }

  /** The reconciler's checks around hydration. `fits` says whether the document passes the size and shape limits. */
  function Scan(e: Env, s: State, step: Step): State
    requires step.Pick? || step.Read? || step.Check?
  {
    match step
    case Pick(collection, docId) =>
      if s.reader.Idle? && collection in e.collections && Answers(s) && !Excluded(e, s, collection, docId)
      then s.(reader := Picked(collection, docId)) else s
    case Read(fits) =>
      if !s.reader.Picked? then s
      else
        var key := Key(s.reader.collection, s.reader.docId);
        if fits && ShortNames(s.reader.collection, s.reader.docId) && key in s.store
        then s.(reader := Hydrated(s.reader.collection, s.reader.docId, s.store[key])) else s.(reader := Idle)
    case Check =>
      if !s.reader.Hydrated? then s
      else if !Answers(s) || Excluded(e, s, s.reader.collection, s.reader.docId) then s.(reader := Idle)
      else
        s.(reader := Idle, offered := s.offered + [Offer(s.reader.collection, s.reader.docId, s.reader.body)])
  }

  function Installed(e: Env, s: State, io: Io): State {
    if s.installed then s
    else s.(installed := true, ledger := L.Next(e.hash, LedgerFile.Exclusion, s.ledger, L.Open(io)),
            trace := s.trace + [L.Open(io)])
  }

  function Crashed(e: Env, s: State): State {
    s.(installed := false, ledger := L.Stopped(s.ledger), trace := s.trace + [L.Stop], writers := [], waiting := [],
       reader := Idle)
  }

  function Next(e: Env, s: State, step: Step): State {
    match step
    case Install(io) => Installed(e, s, io)
    case Begin(kind, collection, docId) => s.(writers := s.writers + [Writer(kind, collection, docId, Entered)])
    case Look(i) => if i < |s.writers| then LookUp(e, s, i) else s
    case Send(i) => if i < |s.writers| then Queue(e, s, i) else s
    case Execute(io) =>
      if L.Busy(s.ledger) && s.waiting != [] && s.waiting[0] < |s.writers| then Answer(e, s, io) else s
    case Put(i, stored) => if i < |s.writers| then WriteStore(s, i, stored) else s
    case SyncOut(key) => s.(remote := s.remote[key := BodyAt(s.remote, key) + BodyAt(s.store, key)])
    case RemoteWrite(key, id) => s.(remote := s.remote[key := BodyAt(s.remote, key) + {Remote(id)}])
    case SyncIn(key, body) =>
      if body <= BodyAt(s.remote, key) then s.(store := s.store[key := BodyAt(s.store, key) + body]) else s
    case Abandon => s.(reader := Idle)
    case Crash => Crashed(e, s)
    case _ => Scan(e, s, step)
  }

  function Run(e: Env, steps: seq<Step>): State {
    if steps == [] then Start() else Next(e, Run(e, steps[..|steps| - 1]), steps[|steps| - 1])
  }

  lemma {:induction false} RunSnoc(e: Env, steps: seq<Step>, step: Step)
    ensures Run(e, steps + [step]) == Next(e, Run(e, steps), step)
  {
    assert (steps + [step])[..|steps|] == steps;
  }

  // ---- store keys and document identities ------------------------------------

  /** The collection names a mapping may use: no separator, bounded length. */
  predicate ValidCollections(e: Env) {
    forall m :: m in e.collections ==> COLON !in m && |m| <= MAX_BRIDGE_IDENTITY_BYTES
  }

  /** The write lands on a key that reads as another, mapped collection. */
  predicate Shadows(m: Text, collection: Text) {
    m + [COLON] <= collection
  }

  /** What reconciliation takes for the document id then. */
  function Residue(m: Text, collection: Text, docId: Text): seq<byte>
    requires Shadows(m, collection)
  {
    collection[|m| + 1..] + [COLON] + docId
  }

  /** Two names of one store key: the same document, or a collection that continues past the separator. */
  lemma SameKey(m: Text, d: Text, collection: Text, docId: Text)
    requires COLON !in m && Key(m, d) == Key(collection, docId)
    ensures (m == collection && d == docId) || (Shadows(m, collection) && d == Residue(m, collection, docId))
  {
    var left, right := m + [COLON] + d, collection + [COLON] + docId;
    assert right[|collection|] == COLON;
    assert forall j :: 0 <= j < |m| ==> left[j] == m[j];
    assert d == left[|m| + 1..] == right[|m| + 1..];
    if |collection| == |m| {
      assert m == left[..|m|] == right[..|m|] == collection;
      assert d == docId;
    } else if |collection| > |m| {
      assert collection[..|m| + 1] == right[..|m| + 1] == left[..|m| + 1] == m + [COLON];
      assert right[|m| + 1..] == collection[|m| + 1..] + [COLON] + docId;
    }
  }

  // ---- the ledger under local writes -------------------------------------------

  /** A record of some mapped document. */
  ghost predicate MappedCommand(e: Env, command: L.Command) {
    exists m: Text, d: Text :: m in e.collections && command == CommandFor(e, m, d)
  }

  ghost predicate MappedTrace(e: Env, trace: seq<L.Step>) {
    forall k :: 0 <= k < |trace| && trace[k].Submit? ==> MappedCommand(e, trace[k].command)
  }

  /** The exclusion ledger, driven by records of mapped documents alone, can be reopened without this one although its
      write was told to go on. */
  ghost predicate Forgettable(e: Env, collection: Text, docId: Text) {
    exists trace ::
      MappedTrace(e, trace) && L.Forgot(L.Run(e.hash, LedgerFile.Exclusion, trace), DigestOf(e, collection, docId))
  }

  /** That takes an append after a failed append. */
  lemma {:induction false} ForgettingOverruns(e: Env, trace: seq<L.Step>, d: Digest)
    requires L.Forgot(L.Run(e.hash, LedgerFile.Exclusion, trace), d)
    ensures L.Run(e.hash, LedgerFile.Exclusion, trace).overrun
  {
    if !L.Run(e.hash, LedgerFile.Exclusion, trace).overrun {
      L.NeverForgets(e.hash, LedgerFile.Exclusion, trace);
    }
  }

  /** The ledger is where its trace leads, and its queued commands belong to the waiting writers. */
  ghost predicate Traced(e: Env, s: State) {
    && s.ledger == L.Run(e.hash, LedgerFile.Exclusion, s.trace)
    && MappedTrace(e, s.trace)
    && (!s.installed ==> s.ledger.worker.None?)
    && Waits(e, s)
  }

  ghost predicate Waits(e: Env, s: State) {
    var queue := if s.ledger.worker.Some? then s.ledger.worker.value.queue else [];
    && |s.waiting| == |queue|
    && forall k :: 0 <= k < |queue| ==> Behind(e, s.writers, s.waiting[k], queue[k])
  }

  ghost predicate Behind(e: Env, writers: seq<Writer>, i: nat, command: L.Command) {
    i < |writers| && command == CommandFor(e, writers[i].collection, writers[i].docId)
  }

  lemma {:induction false} TraceSnoc(e: Env, trace: seq<L.Step>, step: L.Step)
    requires MappedTrace(e, trace) && (step.Submit? ==> MappedCommand(e, step.command))
    ensures MappedTrace(e, trace + [step])
    ensures L.Run(e.hash, LedgerFile.Exclusion, trace + [step]) ==
            L.Next(e.hash, LedgerFile.Exclusion, L.Run(e.hash, LedgerFile.Exclusion, trace), step)
  {
    L.RunSnoc(e.hash, LedgerFile.Exclusion, trace, step);
  }

  lemma MoveWaits(e: Env, s: State, i: nat, at: At)
    requires Waits(e, s) && i < |s.writers|
    ensures Waits(e, Move(s, i, at))
  {
    var queue := if s.ledger.worker.Some? then s.ledger.worker.value.queue else [];
    forall k | 0 <= k < |queue| ensures Behind(e, Move(s, i, at).writers, s.waiting[k], queue[k]) {
      assert Behind(e, s.writers, s.waiting[k], queue[k]);
    }
  }

  lemma QueueTraced(e: Env, s: State, i: nat)
    requires Traced(e, s) && i < |s.writers| && (s.writers[i].at.Mapped? ==> s.writers[i].collection in e.collections)
    ensures Traced(e, Queue(e, s, i))
  {
    var w, s' := s.writers[i], Queue(e, s, i);
    var command := CommandFor(e, w.collection, w.docId);
    if w.at.Mapped? {
      MoveWaits(e, s, i, s'.writers[i].at);
      if L.Accepts(s.ledger) {
        assert MappedCommand(e, command);
        TraceSnoc(e, s.trace, L.Submit(command));
        var queue := s.ledger.worker.value.queue;
        forall k | 0 <= k < |queue| ensures Behind(e, s'.writers, s'.waiting[k], queue[k]) {
          assert Behind(e, Move(s, i, Recording).writers, s.waiting[k], queue[k]);
        }
      }
    }
  }

  lemma AnswerTraced(e: Env, s: State, io: Io)
    requires Traced(e, s) && L.Busy(s.ledger) && s.waiting != [] && s.waiting[0] < |s.writers|
    ensures Traced(e, Answer(e, s, io))
  {
    var s' := Answer(e, s, io);
    var queue := s.ledger.worker.value.queue;
    TraceSnoc(e, s.trace, L.Execute(io));
    L.ExecutedPops(e.hash, LedgerFile.Exclusion, s.ledger, io);
    MoveWaits(e, s, s.waiting[0], s'.writers[s.waiting[0]].at);
    forall k | 0 <= k < |queue[1..]| ensures Behind(e, s'.writers, s'.waiting[k], queue[1..][k]) {
      assert Behind(e, s'.writers, s.waiting[k + 1], queue[k + 1]);
    }
  }

  lemma InstalledTraced(e: Env, s: State, io: Io)
    requires Traced(e, s)
    ensures Traced(e, Installed(e, s, io))
  {
    if !s.installed {
      TraceSnoc(e, s.trace, L.Open(io));
      L.OpenedKeepsLog(e.hash, LedgerFile.Exclusion, s.ledger, io);
    }
  }

  lemma CrashedTraced(e: Env, s: State)
    requires Traced(e, s)
    ensures Traced(e, Crashed(e, s))
  {
    TraceSnoc(e, s.trace, L.Stop);
  }

  // ---- what every step keeps ----------------------------------------------------

  ghost predicate Recorded(e: Env, acked: set<Digest>, collection: Text, docId: Text) {
    collection in e.collections ==> DigestOf(e, collection, docId) in acked
  }

  ghost predicate Sound(e: Env, acked: set<Digest>, key: StoreKey, c: Contribution) {
    c.Local? ==> Key(c.collection, c.docId) == key && (c.installed ==> Recorded(e, acked, c.collection, c.docId))
  }

  ghost predicate SoundBody(e: Env, acked: set<Digest>, key: StoreKey, body: Body) {
    forall c :: c in body ==> Sound(e, acked, key, c)
  }

  ghost predicate SoundStore(e: Env, acked: set<Digest>, m: map<StoreKey, Body>) {
    forall key :: key in m ==> SoundBody(e, acked, key, m[key])
  }

  ghost predicate SoundWriter(e: Env, acked: set<Digest>, w: Writer) {
    && (w.at.Mapped? ==> w.collection in e.collections)
    && (w.at == Cleared(true) ==> Recorded(e, acked, w.collection, w.docId))
  }

  ghost predicate SoundWriters(e: Env, acked: set<Digest>, writers: seq<Writer>) {
    forall i :: 0 <= i < |writers| ==> SoundWriter(e, acked, writers[i])
  }

  ghost predicate SoundReader(e: Env, acked: set<Digest>, reader: Reader) {
    && (!reader.Idle? ==> reader.collection in e.collections)
    && (reader.Hydrated? ==> ShortNames(reader.collection, reader.docId)
                             && SoundBody(e, acked, Key(reader.collection, reader.docId), reader.body))
  }

  /** The only local writes made under an installed ledger that an offered body may hold: one that shadows the offered
      collection, or one the ledger forgot after an append behind a failed append. */
  ghost predicate Excused(e: Env, overrun: bool, o: Offer, c: Contribution)
    requires c.Local?
  {
    || (Shadows(o.collection, c.collection) && o.docId == Residue(o.collection, c.collection, c.docId))
    || (o.collection == c.collection && o.docId == c.docId && overrun && Forgettable(e, c.collection, c.docId))
  }

  ghost predicate Innocent(e: Env, overrun: bool, o: Offer) {
    && o.collection in e.collections
    && ShortNames(o.collection, o.docId)
    && (forall c :: c in o.body && c.Local? && c.installed ==> Excused(e, overrun, o, c))
  }

  ghost predicate Offers1(e: Env, overrun: bool, offered: seq<Offer>) {
    forall i :: 0 <= i < |offered| ==> Innocent(e, overrun, offered[i])
  }

  ghost predicate Inv(e: Env, s: State) {
    && Traced(e, s)
    && SoundStore(e, s.ledger.acked, s.store)
    && SoundStore(e, s.ledger.acked, s.remote)
    && SoundWriters(e, s.ledger.acked, s.writers)
    && SoundReader(e, s.ledger.acked, s.reader)
    && Offers1(e, s.ledger.overrun, s.offered)
  }

  lemma BodyGrows(e: Env, small: set<Digest>, big: set<Digest>, key: StoreKey, body: Body)
    requires small <= big && SoundBody(e, small, key, body)
    ensures SoundBody(e, big, key, body)
  {
    forall c | c in body ensures Sound(e, big, key, c) {
      assert Sound(e, small, key, c);
    }
  }

  lemma StoreGrows(e: Env, small: set<Digest>, big: set<Digest>, m: map<StoreKey, Body>)
    requires small <= big && SoundStore(e, small, m)
    ensures SoundStore(e, big, m)
  {
    forall key | key in m ensures SoundBody(e, big, key, m[key]) {
      BodyGrows(e, small, big, key, m[key]);
    }
  }

  lemma WritersGrow(e: Env, small: set<Digest>, big: set<Digest>, writers: seq<Writer>)
    requires small <= big && SoundWriters(e, small, writers)
    ensures SoundWriters(e, big, writers)
  {
    forall i | 0 <= i < |writers| ensures SoundWriter(e, big, writers[i]) {
      assert SoundWriter(e, small, writers[i]);
    }
  }

  lemma ReaderGrows(e: Env, small: set<Digest>, big: set<Digest>, reader: Reader)
    requires small <= big && SoundReader(e, small, reader)
    ensures SoundReader(e, big, reader)
  {
    if reader.Hydrated? {
      BodyGrows(e, small, big, Key(reader.collection, reader.docId), reader.body);
    }
  }

  lemma OffersGrow(e: Env, was: bool, now: bool, offered: seq<Offer>)
    requires (was ==> now) && Offers1(e, was, offered)
    ensures Offers1(e, now, offered)
  {
    forall i | 0 <= i < |offered| ensures Innocent(e, now, offered[i]) {
      assert Innocent(e, was, offered[i]);
      forall c | c in offered[i].body && c.Local? && c.installed ensures Excused(e, now, offered[i], c) {
        assert Excused(e, was, offered[i], c);
      }
    }
  }

  lemma StoreUpdate(e: Env, acked: set<Digest>, m: map<StoreKey, Body>, key: StoreKey, body: Body)
    requires SoundStore(e, acked, m) && SoundBody(e, acked, key, body)
    ensures SoundStore(e, acked, m[key := BodyAt(m, key) + body])
  {
    var merged := BodyAt(m, key) + body;
    forall c | c in merged ensures Sound(e, acked, key, c) {
      if c in body {
      } else {
        assert SoundBody(e, acked, key, m[key]);
      }
    }
  }

  /** The ledger moves on and nothing else does: what was recorded stays recorded. */
  lemma LedgerMoves(e: Env, s: State, s': State)
    requires Inv(e, s) && Traced(e, s') && s.ledger.acked <= s'.ledger.acked && (s.ledger.overrun ==> s'.ledger.overrun)
    requires s'.store == s.store && s'.remote == s.remote && s'.offered == s.offered
    requires s'.reader == s.reader || s'.reader == Idle
    requires SoundWriters(e, s'.ledger.acked, s'.writers)
    ensures Inv(e, s')
  {
    StoreGrows(e, s.ledger.acked, s'.ledger.acked, s.store);
    StoreGrows(e, s.ledger.acked, s'.ledger.acked, s.remote);
    ReaderGrows(e, s.ledger.acked, s'.ledger.acked, s.reader);
    OffersGrow(e, s.ledger.overrun, s'.ledger.overrun, s.offered);
  }

  /** A body that passes the check after hydration is excused for every local write in it. */
  lemma OfferExcused(e: Env, s: State, c: Contribution)
    requires ValidCollections(e) && Traced(e, s) && SoundReader(e, s.ledger.acked, s.reader) && s.reader.Hydrated?
    requires Answers(s) && !Excluded(e, s, s.reader.collection, s.reader.docId)
    requires c in s.reader.body && c.Local? && c.installed
    ensures Excused(e, s.ledger.overrun, Offer(s.reader.collection, s.reader.docId, s.reader.body), c)
  {
    var m, d := s.reader.collection, s.reader.docId;
    assert Sound(e, s.ledger.acked, Key(m, d), c);
    SameKey(m, d, c.collection, c.docId);
    if m == c.collection && d == c.docId {
      assert L.Forgot(s.ledger, DigestOf(e, m, d));
      ForgettingOverruns(e, s.trace, DigestOf(e, m, d));
      assert Forgettable(e, m, d);
    }
  }

  lemma CheckKeeps(e: Env, s: State)
    requires ValidCollections(e) && Inv(e, s) && s.reader.Hydrated?
    requires Answers(s) && !Excluded(e, s, s.reader.collection, s.reader.docId)
    ensures Offers1(e, s.ledger.overrun, s.offered + [Offer(s.reader.collection, s.reader.docId, s.reader.body)])
  {
    var o := Offer(s.reader.collection, s.reader.docId, s.reader.body);
    forall c | c in o.body && c.Local? && c.installed ensures Excused(e, s.ledger.overrun, o, c) {
      OfferExcused(e, s, c);
    }
  }

  lemma ReaderMoves(e: Env, s: State, reader: Reader)
    requires Inv(e, s) && SoundReader(e, s.ledger.acked, reader)
    ensures Inv(e, s.(reader := reader))
  {
  }

  lemma OfferMoves(e: Env, s: State, o: Offer)
    requires Inv(e, s) && Offers1(e, s.ledger.overrun, s.offered + [o])
    ensures Inv(e, s.(reader := Idle, offered := s.offered + [o]))
  {
  }

  lemma ReadSound(e: Env, s: State, fits: bool)
    requires Inv(e, s)
    ensures SoundReader(e, s.ledger.acked, Scan(e, s, Read(fits)).reader)
  {
  }

  lemma ScanKeeps(e: Env, s: State, step: Step)
    requires ValidCollections(e) && Inv(e, s) && (step.Pick? || step.Read? || step.Check?)
    ensures Inv(e, Scan(e, s, step))
  {
    if step.Check? && s.reader.Hydrated? && Answers(s) && !Excluded(e, s, s.reader.collection, s.reader.docId) {
      CheckKeeps(e, s);
      OfferMoves(e, s, Offer(s.reader.collection, s.reader.docId, s.reader.body));
    } else {
      if step.Read? {
        ReadSound(e, s, step.fits);
      }
      ReaderMoves(e, s, Scan(e, s, step).reader);
    }
  }

  lemma MoveSound(e: Env, acked: set<Digest>, s: State, i: nat, at: At)
    requires i < |s.writers| && SoundWriters(e, acked, s.writers)
    requires SoundWriter(e, acked, s.writers[i].(at := at))
    ensures SoundWriters(e, acked, Move(s, i, at).writers)
  {
  }

  lemma LookKeeps(e: Env, s: State, i: nat)
    requires Inv(e, s) && i < |s.writers|
    ensures Inv(e, LookUp(e, s, i))
  {
    var s' := LookUp(e, s, i);
    if s.writers[i].at.Entered? {
      MoveSound(e, s.ledger.acked, s, i, s'.writers[i].at);
      MoveWaits(e, s, i, s'.writers[i].at);
      LedgerMoves(e, s, s');
    }
  }

  lemma QueueKeeps(e: Env, s: State, i: nat)
    requires Inv(e, s) && i < |s.writers|
    ensures Inv(e, Queue(e, s, i))
  {
    var s' := Queue(e, s, i);
    assert SoundWriter(e, s.ledger.acked, s.writers[i]);
    QueueTraced(e, s, i);
    if s.writers[i].at.Mapped? {
      MoveSound(e, s.ledger.acked, s, i, s'.writers[i].at);
      LedgerMoves(e, s, s');
    }
  }

  lemma AnswerAcks(e: Env, l: L.Ledger, io: Io)
    requires L.Busy(l)
    ensures var l' := L.Executed(e.hash, LedgerFile.Exclusion, l, io);
            && l.acked <= l'.acked && (l.overrun ==> l'.overrun)
            && (!L.ReplyOf(LedgerFile.Exclusion, l, io).Failed? ==> l.worker.value.queue[0].digest in l'.acked)
  {
  }

  lemma AnswerKeeps(e: Env, s: State, io: Io)
    requires Inv(e, s) && L.Busy(s.ledger) && s.waiting != [] && s.waiting[0] < |s.writers|
    ensures Inv(e, Answer(e, s, io))
  {
    var s', i := Answer(e, s, io), s.waiting[0];
    AnswerTraced(e, s, io);
    AnswerAcks(e, s.ledger, io);
    assert Behind(e, s.writers, i, s.ledger.worker.value.queue[0]);
    WritersGrow(e, s.ledger.acked, s'.ledger.acked, s.writers);
    MoveSound(e, s'.ledger.acked, s, i, s'.writers[i].at);
    LedgerMoves(e, s, s');
  }

  lemma StoreMoves(e: Env, s: State, store: map<StoreKey, Body>, writers: seq<Writer>)
    requires Inv(e, s) && SoundStore(e, s.ledger.acked, store) && SoundWriters(e, s.ledger.acked, writers)
    requires Waits(e, s.(writers := writers))
    ensures Inv(e, s.(store := store, writers := writers))
  {
    assert Waits(e, s.(store := store, writers := writers));
  }

  lemma WriteSound(e: Env, s: State, w: Writer, stored: bool)
    requires SoundStore(e, s.ledger.acked, s.store) && SoundWriter(e, s.ledger.acked, w) && w.at.Cleared?
    ensures SoundStore(e, s.ledger.acked, StoreAfter(s, w, stored))
  {
    var c := Local(w.collection, w.docId, w.at.installed);
    assert SoundBody(e, s.ledger.acked, Key(w.collection, w.docId), {c});
    StoreUpdate(e, s.ledger.acked, s.store, Key(w.collection, w.docId), {c});
  }

  lemma WriteKeeps(e: Env, s: State, i: nat, stored: bool)
    requires Inv(e, s) && i < |s.writers|
    ensures Inv(e, WriteStore(s, i, stored))
  {
    var w := s.writers[i];
    if w.at.Cleared? {
      var at := if Writes(s, w, stored) then Finished else Failed;
      assert SoundWriter(e, s.ledger.acked, w);
      MoveSound(e, s.ledger.acked, s, i, at);
      MoveWaits(e, s, i, at);
      WriteSound(e, s, w, stored);
      StoreMoves(e, s, StoreAfter(s, w, stored), Move(s, i, at).writers);
    }
  }

  lemma SyncKeeps(e: Env, s: State, step: Step)
    requires Inv(e, s) && (step.SyncOut? || step.SyncIn? || step.RemoteWrite?)
    ensures Inv(e, Next(e, s, step))
  {
    var acked := s.ledger.acked;
    match step {
      case SyncOut(key) => StoreUpdate(e, acked, s.remote, key, BodyAt(s.store, key));
      case RemoteWrite(key, id) => StoreUpdate(e, acked, s.remote, key, {Remote(id)});
      case SyncIn(key, body) =>
        if body <= BodyAt(s.remote, key) {
          StoreUpdate(e, acked, s.store, key, body);
        }
    }
  }

  lemma RestartKeeps(e: Env, s: State, step: Step)
    requires Inv(e, s) && (step.Install? || step.Crash?)
    ensures Inv(e, Next(e, s, step))
  {
    if step.Install? {
      InstalledTraced(e, s, step.io);
      OpenedAcks(e, s.ledger, step.io);
    } else {
      CrashedTraced(e, s);
    }
    LedgerMoves(e, s, Next(e, s, step));
  }

  lemma OpenedAcks(e: Env, l: L.Ledger, io: Io)
    ensures var l' := L.Next(e.hash, LedgerFile.Exclusion, l, L.Open(io));
            l'.acked == l.acked && l'.overrun == l.overrun
  {
  }

  lemma BeginKeeps(e: Env, s: State, w: Writer)
    requires Inv(e, s) && w.at == Entered
    ensures Inv(e, s.(writers := s.writers + [w]))
  {
    var s' := s.(writers := s.writers + [w]);
    var queue := if s.ledger.worker.Some? then s.ledger.worker.value.queue else [];
    forall k | 0 <= k < |queue| ensures Behind(e, s'.writers, s.waiting[k], queue[k]) {
      assert Behind(e, s.writers, s.waiting[k], queue[k]);
    }
    LedgerMoves(e, s, s');
  }

  lemma WriterKeeps(e: Env, s: State, step: Step)
    requires Inv(e, s) && (step.Begin? || step.Look? || step.Send? || step.Put?)
    ensures Inv(e, Next(e, s, step))
  {
    match step {
      case Begin(kind, collection, docId) => BeginKeeps(e, s, Writer(kind, collection, docId, Entered));
      case Look(i) => if i < |s.writers| { LookKeeps(e, s, i); }
      case Send(i) => if i < |s.writers| { QueueKeeps(e, s, i); }
      case Put(i, stored) => if i < |s.writers| { WriteKeeps(e, s, i, stored); }
    }
  }

  lemma ReaderKeeps(e: Env, s: State, step: Step)
    requires ValidCollections(e) && Inv(e, s) && (step.Pick? || step.Read? || step.Check? || step.Abandon?)
    ensures Inv(e, Next(e, s, step))
  {
    if step.Abandon? {
      ReaderMoves(e, s, Idle);
    } else {
      ScanKeeps(e, s, step);
      assert Next(e, s, step) == Scan(e, s, step);
    }
  }

  lemma ExecuteKeeps(e: Env, s: State, io: Io)
    requires Inv(e, s)
    ensures Inv(e, Next(e, s, Execute(io)))
  {
    if L.Busy(s.ledger) && s.waiting != [] && s.waiting[0] < |s.writers| {
      AnswerKeeps(e, s, io);
    }
  }

  lemma NextKeeps(e: Env, s: State, step: Step)
    requires ValidCollections(e) && Inv(e, s)
    ensures Inv(e, Next(e, s, step))
  {
    if step.Begin? || step.Look? || step.Send? || step.Put? {
      WriterKeeps(e, s, step);
    } else if step.Install? || step.Crash? {
      RestartKeeps(e, s, step);
    } else if step.Execute? {
      ExecuteKeeps(e, s, step.io);
    } else if step.SyncOut? || step.SyncIn? || step.RemoteWrite? {
      SyncKeeps(e, s, step);
    } else {
      ReaderKeeps(e, s, step);
    }
  }

  lemma {:induction false} RunKeeps(e: Env, steps: seq<Step>)
    requires ValidCollections(e)
    ensures Inv(e, Run(e, steps))
  {
    if steps != [] {
      RunKeeps(e, steps[..|steps| - 1]);
      NextKeeps(e, Run(e, steps[..|steps| - 1]), steps[|steps| - 1]);
    }
  }

  // ---- results: what is never offered -----------------------------------------------

  /** As long as the exclusion ledger has appended nothing after a failed append, across crashes and round trips through
      peers: reconciliation offers a body holding a local write made under an installed ledger only when that write's
      collection runs past a mapped name and the key separator, with a document id within the limit. */
  lemma {:induction false} OnlyShadowedWritesOffered(e: Env, steps: seq<Step>, k: nat, c: Contribution)
    requires ValidCollections(e) && k < |Run(e, steps).offered| && c in Run(e, steps).offered[k].body
    requires c.Local? && c.installed && !Run(e, steps).ledger.overrun
    ensures var m := Run(e, steps).offered[k].collection;
            && m in e.collections && Shadows(m, c.collection)
            && |Residue(m, c.collection, c.docId)| <= MAX_BRIDGE_IDENTITY_BYTES
  {
    RunKeeps(e, steps);
    assert Innocent(e, false, Run(e, steps).offered[k]);
    assert Excused(e, false, Run(e, steps).offered[k], c);
  }

  // ---- results: what can be offered -----------------------------------------------------

  ghost predicate Offers(e: Env, steps: seq<Step>, c: Contribution) {
    exists k :: 0 <= k < |Run(e, steps).offered| && c in Run(e, steps).offered[k].body
  }

  /** Reconciliation of a candidate that is in the store, within the limits, and unknown to a healthy ledger. */
  lemma ScanOffers(e: Env, steps: seq<Step>, m: Text, d: Text, c: Contribution) returns (longer: seq<Step>)
    requires var s := Run(e, steps);
             && Answers(s) && !Excluded(e, s, m, d) && s.reader.Idle? && m in e.collections && ShortNames(m, d)
             && Key(m, d) in s.store && c in s.store[Key(m, d)]
    ensures Offers(e, longer, c)
  {
    var s := Run(e, steps);
    RunSnoc(e, steps, Pick(m, d));
    RunSnoc(e, steps + [Pick(m, d)], Read(true));
    RunSnoc(e, steps + [Pick(m, d)] + [Read(true)], Check);
    longer := steps + [Pick(m, d)] + [Read(true)] + [Check];
    assert Run(e, longer).offered == s.offered + [Offer(m, d, s.store[Key(m, d)])];
    assert c in Run(e, longer).offered[|s.offered|].body;
  }

  lemma {:induction false} FreshInstall(e: Env)
    ensures var s := Run(e, [Install(Durable)]);
            && s.installed && Answers(s) && s.ledger.worker.value.index == map[] && s.ledger.worker.value.queue == []
            && s.store == map[] && s.writers == [] && s.waiting == [] && s.reader == Idle
  {
    assert [] + [Install(Durable)] == [Install(Durable)];
    RunSnoc(e, [], Install(Durable));
  }

  lemma ResidueKey(e: Env, m: Text, collection: Text, docId: Text)
    requires ValidCollections(e) && m in e.collections && Shadows(m, collection)
    requires |Residue(m, collection, docId)| <= MAX_BRIDGE_IDENTITY_BYTES
    ensures collection !in e.collections && Key(m, Residue(m, collection, docId)) == Key(collection, docId)
  {
    assert collection == m + [COLON] + collection[|m| + 1..];
    assert collection[|m|] == COLON;
    assert collection + [COLON] + docId == m + [COLON] + Residue(m, collection, docId);
  }

  /** A write goes through without a record when its collection is not mapped. */
  lemma UnmappedWrite(e: Env, s: State, collection: Text, docId: Text)
    requires s.installed && s.writers == [] && s.store == map[] && collection !in e.collections
    ensures var s' := Next(e, Next(e, Next(e, s, Begin(Upsert, collection, docId)), Look(0)), Put(0, true));
            && s'.ledger == s.ledger && s'.reader == s.reader
            && s'.store == map[Key(collection, docId) := {Local(collection, docId, true)}]
  {
    var s1 := Next(e, s, Begin(Upsert, collection, docId));
    assert s1 == s.(writers := [Writer(Upsert, collection, docId, Entered)]);
    var s2 := Next(e, s1, Look(0));
    assert s2 == s.(writers := [Writer(Upsert, collection, docId, Cleared(true))]);
    assert BodyAt(s2.store, Key(collection, docId)) + {Local(collection, docId, true)} ==
           {Local(collection, docId, true)};
  }

  /** A write past a mapped name and the separator is offered if the rest fits the limit: `put_document` accepts any
      collection name and finds it unmapped. */
  lemma ShadowedWriteOffered(e: Env, m: Text, collection: Text, docId: Text) returns (steps: seq<Step>)
    requires ValidCollections(e) && m in e.collections && Shadows(m, collection)
    requires |Residue(m, collection, docId)| <= MAX_BRIDGE_IDENTITY_BYTES
    ensures Offers(e, steps, Local(collection, docId, true))
  {
    ResidueKey(e, m, collection, docId);
    FreshInstall(e);
    steps := [Install(Durable)];
    UnmappedWrite(e, Run(e, steps), collection, docId);
    RunSnoc(e, steps, Begin(Upsert, collection, docId));
    RunSnoc(e, steps + [Begin(Upsert, collection, docId)], Look(0));
    RunSnoc(e, steps + [Begin(Upsert, collection, docId)] + [Look(0)], Put(0, true));
    steps := steps + [Begin(Upsert, collection, docId)] + [Look(0)] + [Put(0, true)];
    steps := ScanOffers(e, steps, m, Residue(m, collection, docId), Local(collection, docId, true));
  }

  /** A local write made before the ledger was installed is not told apart from a remote one. */
  lemma EarlyWriteOffered(e: Env, m: Text, d: Text) returns (steps: seq<Step>)
    requires m in e.collections && ShortNames(m, d)
    ensures Offers(e, steps, Local(m, d, false))
  {
    steps := [];
    RunSnoc(e, steps, Begin(Upsert, m, d));
    steps := steps + [Begin(Upsert, m, d)];
    RunSnoc(e, steps, Look(0));
    steps := steps + [Look(0)];
    RunSnoc(e, steps, Put(0, true));
    steps := steps + [Put(0, true)];
    RunSnoc(e, steps, Install(Durable));
    steps := steps + [Install(Durable)];
    assert Run(e, steps).ledger == L.Next(e.hash, LedgerFile.Exclusion, L.Start(), L.Open(Durable));
    steps := ScanOffers(e, steps, m, d, Local(m, d, false));
  }

  // ---- a ledger that forgets makes the node offer ------------------------------------------

  /** The node has brought the ledger where a trace leads; every acknowledged write of the target document is stored,
      and queued records of its digest are its own. */
  ghost predicate Follows(e: Env, s: State, l: L.Ledger, m: Text, d: Text) {
    && s.ledger == l && s.reader == Idle && (l.worker.Some? ==> s.installed)
    && (DigestOf(e, m, d) in l.acked ==> Key(m, d) in s.store && Local(m, d, true) in s.store[Key(m, d)])
    && Lined(e, s, m, d)
  }

  ghost predicate Lined(e: Env, s: State, m: Text, d: Text) {
    var queue := if s.ledger.worker.Some? then s.ledger.worker.value.queue else [];
    && |s.waiting| == |queue|
    && (forall k :: 0 <= k < |queue| ==> Standing(e, s.writers, s.waiting[k], queue[k], m, d))
    && (forall k, l :: 0 <= k < l < |queue| ==> s.waiting[k] != s.waiting[l])
  }

  ghost predicate Standing(e: Env, writers: seq<Writer>, i: nat, command: L.Command, m: Text, d: Text) {
    && i < |writers| && writers[i].at == Recording && writers[i].kind == Upsert
    && command == CommandFor(e, writers[i].collection, writers[i].docId)
    && (command.digest == DigestOf(e, m, d) ==> writers[i].collection == m && writers[i].docId == d)
  }

  /** A further record of a mapped document, by a write of its own. */
  lemma FollowSubmit(e: Env, steps: seq<Step>, l: L.Ledger, command: L.Command, m: Text, d: Text)
    returns (longer: seq<Step>)
    requires Follows(e, Run(e, steps), l, m, d) && MappedCommand(e, command) && m in e.collections && L.Accepts(l)
    ensures Follows(e, Run(e, longer), L.Submitted(l, command), m, d)
  {
    var m', d' := m, d;
    if command.digest != DigestOf(e, m, d) {
      m', d' :| m' in e.collections && command == CommandFor(e, m', d');
    }
    assert command == CommandFor(e, m', d');
    var s := Run(e, steps);
    var n := |s.writers|;
    RunSnoc(e, steps, Begin(Upsert, m', d'));
    RunSnoc(e, steps + [Begin(Upsert, m', d')], Look(n));
    RunSnoc(e, steps + [Begin(Upsert, m', d')] + [Look(n)], Send(n));
    longer := steps + [Begin(Upsert, m', d')] + [Look(n)] + [Send(n)];
    SubmitLines(e, s, command, m', d', m, d);
  }

  lemma SubmitLines(e: Env, s: State, command: L.Command, m': Text, d': Text, m: Text, d: Text)
    requires Follows(e, s, s.ledger, m, d) && L.Accepts(s.ledger) && m' in e.collections
    requires command == CommandFor(e, m', d') && (command.digest == DigestOf(e, m, d) ==> m' == m && d' == d)
    ensures var n := |s.writers|;
            var s1 := Next(e, Next(e, s, Begin(Upsert, m', d')), Look(n));
            Follows(e, Next(e, s1, Send(n)), L.Submitted(s.ledger, command), m, d)
  {
    var n := |s.writers|;
    var s1 := Next(e, Next(e, s, Begin(Upsert, m', d')), Look(n));
    assert s1 == s.(writers := s.writers + [Writer(Upsert, m', d', Mapped)]);
    var s2 := Next(e, s1, Send(n));
    assert s2.writers == s.writers + [Writer(Upsert, m', d', Recording)];
    assert s2.waiting == s.waiting + [n];
    var queue := s.ledger.worker.value.queue;
    forall k | 0 <= k < |queue| ensures Standing(e, s2.writers, s2.waiting[k], queue[k], m, d) {
      assert Standing(e, s.writers, s.waiting[k], queue[k], m, d);
    }
  }

  lemma AnswerLines(e: Env, s: State, io: Io, m: Text, d: Text)
    requires Lined(e, s, m, d) && L.Busy(s.ledger)
    ensures s.waiting != [] && s.waiting[0] < |s.writers| && Lined(e, Answer(e, s, io), m, d)
  {
    var queue := s.ledger.worker.value.queue;
    assert Standing(e, s.writers, s.waiting[0], queue[0], m, d);
    var s' := Answer(e, s, io);
    L.ExecutedPops(e.hash, LedgerFile.Exclusion, s.ledger, io);
    forall k | 0 <= k < |queue[1..]| ensures Standing(e, s'.writers, s'.waiting[k], queue[1..][k], m, d) {
      assert Standing(e, s.writers, s.waiting[k + 1], queue[k + 1], m, d);
      assert s.waiting[0] != s.waiting[k + 1];
    }
  }

  lemma PutLines(e: Env, s: State, i: nat, m: Text, d: Text)
    requires Lined(e, s, m, d) && i < |s.writers| && s.writers[i].at.Cleared?
    ensures Lined(e, WriteStore(s, i, true), m, d)
  {
    var queue := if s.ledger.worker.Some? then s.ledger.worker.value.queue else [];
    forall k | 0 <= k < |queue| ensures Standing(e, WriteStore(s, i, true).writers, s.waiting[k], queue[k], m, d) {
      assert Standing(e, s.writers, s.waiting[k], queue[k], m, d);
    }
  }

  /** The ledger executes; a write that is told to go on is stored at once. */
  lemma FollowExecute(e: Env, steps: seq<Step>, l: L.Ledger, io: Io, m: Text, d: Text) returns (longer: seq<Step>)
    requires Follows(e, Run(e, steps), l, m, d) && L.Busy(l)
    ensures Follows(e, Run(e, longer), L.Executed(e.hash, LedgerFile.Exclusion, l, io), m, d)
  {
    var s := Run(e, steps);
    AnswerLines(e, s, io, m, d);
    var i := s.waiting[0];
    assert Standing(e, s.writers, i, l.worker.value.queue[0], m, d);
    RunSnoc(e, steps, Execute(io));
    longer := steps + [Execute(io)];
    var s1 := Answer(e, s, io);
    assert Run(e, longer) == s1;
    ExecutedAcks(e, l, io);
    if !L.ReplyOf(LedgerFile.Exclusion, l, io).Failed? {
      PutLines(e, s1, i, m, d);
      RunSnoc(e, longer, Put(i, true));
      longer := longer + [Put(i, true)];
      StoredAfter(s1, i);
    }
  }

  lemma ExecutedAcks(e: Env, l: L.Ledger, io: Io)
    requires L.Busy(l)
    ensures var l' := L.Executed(e.hash, LedgerFile.Exclusion, l, io);
            l'.acked == l.acked + (if L.ReplyOf(LedgerFile.Exclusion, l, io).Failed? then {}
                                   else {l.worker.value.queue[0].digest})
  {
  }

  lemma StoredAfter(s: State, i: nat)
    requires i < |s.writers| && s.writers[i].kind == Upsert && s.writers[i].at == Cleared(true)
    ensures var w, s' := s.writers[i], WriteStore(s, i, true);
            && Key(w.collection, w.docId) in s'.store
            && Local(w.collection, w.docId, true) in s'.store[Key(w.collection, w.docId)]
            && (forall key, c :: key in s.store && c in s.store[key] ==> key in s'.store && c in s'.store[key])
  {
  }

  lemma FollowRestart(e: Env, steps: seq<Step>, l: L.Ledger, step: L.Step, m: Text, d: Text) returns (longer: seq<Step>)
    requires Follows(e, Run(e, steps), l, m, d) && (step.Stop? || (step.Open? && l.worker.None?))
    ensures Follows(e, Run(e, longer), L.Next(e.hash, LedgerFile.Exclusion, l, step), m, d)
  {
    RunSnoc(e, steps, Crash);
    longer := steps + [Crash];
    assert Follows(e, Run(e, longer), L.Stopped(l), m, d);
    if step.Open? {
      assert L.Stopped(l) == l;
      RunSnoc(e, longer, Install(step.io));
      longer := longer + [Install(step.io)];
      L.OpenedKeepsLog(e.hash, LedgerFile.Exclusion, l, step.io);
      OpenedAcks(e, l, step.io);
    }
  }

  /** Whatever the ledger can do under records of mapped documents, the node can make it do. */
  lemma {:induction false} Follow(e: Env, trace: seq<L.Step>, m: Text, d: Text) returns (steps: seq<Step>)
    requires MappedTrace(e, trace) && m in e.collections
    ensures Follows(e, Run(e, steps), L.Run(e.hash, LedgerFile.Exclusion, trace), m, d)
  {
    if trace == [] {
      steps := [];
    } else {
      var init, last := trace[..|trace| - 1], trace[|trace| - 1];
      steps := Follow(e, init, m, d);
      steps := FollowStep(e, steps, L.Run(e.hash, LedgerFile.Exclusion, init), last, m, d);
    }
  }

  lemma FollowStep(e: Env, steps: seq<Step>, l: L.Ledger, step: L.Step, m: Text, d: Text) returns (longer: seq<Step>)
    requires Follows(e, Run(e, steps), l, m, d) && m in e.collections
    requires step.Submit? ==> MappedCommand(e, step.command)
    ensures Follows(e, Run(e, longer), L.Next(e.hash, LedgerFile.Exclusion, l, step), m, d)
  {
    longer := steps;
    match step {
      case Submit(command) => if L.Accepts(l) { longer := FollowSubmit(e, steps, l, command, m, d); }
      case Execute(io) => if L.Busy(l) { longer := FollowExecute(e, steps, l, io, m, d); }
      case Open(io) => if l.worker.None? { longer := FollowRestart(e, steps, l, step, m, d); }
      case Stop => longer := FollowRestart(e, steps, l, step, m, d);
    }
  }

  /** So a mapped write the ledger can forget is offered. */
  lemma ForgottenWriteOffered(e: Env, m: Text, d: Text) returns (steps: seq<Step>)
    requires ValidCollections(e) && m in e.collections && |d| <= MAX_BRIDGE_IDENTITY_BYTES && Forgettable(e, m, d)
    ensures Offers(e, steps, Local(m, d, true))
  {
    var trace :| MappedTrace(e, trace) && L.Forgot(L.Run(e.hash, LedgerFile.Exclusion, trace), DigestOf(e, m, d));
    steps := Follow(e, trace, m, d);
    steps := ScanOffers(e, steps, m, d, Local(m, d, true));
  }

  /** The write shadows a mapped collection, and what reconciliation reads as its id is short enough. */
  ghost predicate ShadowOffered(e: Env, collection: Text, docId: Text) {
    exists m :: m in e.collections && Shadows(m, collection)
                && |Residue(m, collection, docId)| <= MAX_BRIDGE_IDENTITY_BYTES
  }

  /** Which local writes made under an installed ledger reconciliation can ever offer: exactly those that shadow a
      mapped collection within the identity limit, and those of a mapped collection, within that limit, whose record
      the exclusion journal can forget. */
  lemma OfferableIff(e: Env, collection: Text, docId: Text)
    requires ValidCollections(e)
    ensures (exists steps :: Offers(e, steps, Local(collection, docId, true))) <==>
            || ShadowOffered(e, collection, docId)
            || (collection in e.collections && |docId| <= MAX_BRIDGE_IDENTITY_BYTES
                && Forgettable(e, collection, docId))
  {
    var c := Local(collection, docId, true);
    if ShadowOffered(e, collection, docId) {
      var m :| m in e.collections && Shadows(m, collection)
               && |Residue(m, collection, docId)| <= MAX_BRIDGE_IDENTITY_BYTES;
      var steps := ShadowedWriteOffered(e, m, collection, docId);
    }
    if collection in e.collections && |docId| <= MAX_BRIDGE_IDENTITY_BYTES && Forgettable(e, collection, docId) {
      var steps := ForgottenWriteOffered(e, collection, docId);
    }
    if steps :| Offers(e, steps, c) {
      OfferedReason(e, steps, c);
    }
  }

  lemma OfferedReason(e: Env, steps: seq<Step>, c: Contribution)
    requires ValidCollections(e) && c.Local? && c.installed && Offers(e, steps, c)
    ensures ShadowOffered(e, c.collection, c.docId)
            || (c.collection in e.collections && |c.docId| <= MAX_BRIDGE_IDENTITY_BYTES
                && Forgettable(e, c.collection, c.docId))
  {
    RunKeeps(e, steps);
    var s := Run(e, steps);
    var k :| 0 <= k < |s.offered| && c in s.offered[k].body;
    assert Innocent(e, s.ledger.overrun, s.offered[k]);
    assert Excused(e, s.ledger.overrun, s.offered[k], c);
  }

  /** The records of mapped documents. */
  ghost function MappedCommands(e: Env): iset<L.Command> {
    iset command: L.Command | MappedCommand(e, command)
  }

  /** Exactly when the record of a mapped document can be forgotten: when behind some history of such records the
      bytes of a batch after a failed append spell records without it. */
  lemma ForgettableIff(e: Env, m: Text, d: Text)
    ensures Forgettable(e, m, d) <==>
            F.CanLose(e.hash, LedgerFile.Exclusion, MappedCommands(e), DigestOf(e, m, d))
  {
    var (ok, g) := (MappedCommands(e), DigestOf(e, m, d));
    F.ForgetIff(e.hash, LedgerFile.Exclusion, ok, g);
    if Forgettable(e, m, d) {
      var trace :| MappedTrace(e, trace) && L.Forgot(L.Run(e.hash, LedgerFile.Exclusion, trace), g);
      assert F.Allowed(ok, trace);
    }
    if F.CanForget(e.hash, LedgerFile.Exclusion, ok, g) {
      var trace :| F.Allowed(ok, trace) && L.Forgot(L.Run(e.hash, LedgerFile.Exclusion, trace), g);
      assert MappedTrace(e, trace);
    }
  }

  /** Two records queued together are enough for that, whenever the bytes of a cut first record and a whole second one
      merge into an acceptable record of another digest. */
  lemma TornRecordForgets(e: Env, m1: Text, d1: Text, m2: Text, d2: Text, written: nat)
    requires m1 in e.collections && m2 in e.collections && written < RECORD_LEN
    requires DigestOf(e, m1, d1) != DigestOf(e, m2, d2)
    requires L.ReadsWithout(e.hash, LedgerFile.Exclusion,
                            L.MergedPair(e.hash, LocalExcluded, DigestOf(e, m1, d1), DigestOf(e, m2, d2), written),
                            DigestOf(e, m2, d2))
    ensures Forgettable(e, m2, d2)
  {
    var g1, g2 := DigestOf(e, m1, d1), DigestOf(e, m2, d2);
    var trace := L.TwoRecords(LocalExcluded, g1, g2, written);
    L.TwoRecordsForgetIff(e.hash, LedgerFile.Exclusion, LocalExcluded, g1, g2, written);
    TwoMapped(e, m1, d1, m2, d2, written);
  }

  lemma TwoMapped(e: Env, m1: Text, d1: Text, m2: Text, d2: Text, written: nat)
    requires m1 in e.collections && m2 in e.collections
    ensures MappedTrace(e, L.TwoRecords(LocalExcluded, DigestOf(e, m1, d1), DigestOf(e, m2, d2), written))
  {
    assert MappedCommand(e, CommandFor(e, m1, d1)) && MappedCommand(e, CommandFor(e, m2, d2));
  }
}
