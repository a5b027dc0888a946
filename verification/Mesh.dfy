/** Several bridge nodes on brokers. A broker hands every message published on it, by an application or by a bridge, at
    most once to each subscription; a node stores what it accepts with the retry loop of module Ingress; documents
    replicate through the mesh; and each node runs the delivery protocol of module Delivery. */
module Mesh {
  import opened Wrappers
  import opened Bytes
  import opened Codec
  import LedgerFile
  import opened Egress
  import D = Delivery
  import L = Ledger
  import Ingress

  datatype Net = Net(configs: seq<Config>, brokers: seq<nat>)

  /** `hops` is history: how many bridges published this content on its way here; none for an application's message. */
  datatype Doc = Doc(collection: Text, docId: Text, envelope: Envelope, hops: nat)

  datatype Subscription = Subscription(node: nat, route: nat)

  /** A message on a broker; `taken` are the subscriptions it was handed to, `hops` is history as above. */
  datatype Broadcast = Broadcast(broker: nat, message: NatsMessage, hops: nat, taken: set<Subscription>)

  /** One call of `publish`. */
  datatype Call = Call(node: nat, k: nat)

  /** What each node has done so far, the documents of the mesh, and what was published; `sent` are the bridges' calls
      of `publish` that have reached their broker. */
  datatype State = State(traces: seq<seq<D.Step>>, docs: seq<Doc>, broadcasts: seq<Broadcast>, sent: set<Call>)

  datatype Step =
    | Publish(broker: nat, message: NatsMessage)
    | Forward(call: Call)
    | Receive(b: nat, sub: Subscription, valid: bool, docId: Text, attempts: seq<Ingress.Attempt>)
    | Local(i: nat, step: D.Step)

  predicate Sized(net: Net) {
    |net.configs| == |net.brokers|
  }

  /** Node ids differ, and no node maps a subject twice. */
  ghost predicate ValidNet(net: Net) {
    && Sized(net)
    && (forall i, j :: 0 <= i < j < |net.configs| ==> net.configs[i].localNodeId != net.configs[j].localNodeId)
    && (forall i :: 0 <= i < |net.configs| ==> DistinctSubjects(net.configs[i].mappings))
  }

  ghost predicate DistinctSubjects(mappings: seq<Mapping>) {
    forall r, q :: 0 <= r < q < |mappings| ==> mappings[r].subject != mappings[q].subject
  }

  predicate Subscribed(net: Net, sub: Subscription, broker: nat, subject: Text)
    requires Sized(net)
  {
    && sub.node < |net.configs| && sub.route < |net.configs[sub.node].mappings|
    && net.brokers[sub.node] == broker
    && net.configs[sub.node].mappings[sub.route].subject == subject
  }

  function Start(net: Net): State {
    State(seq(|net.configs|, i => []), [], [], {})
  }

  function NodeAt(net: Net, s: State, i: nat): D.Node
    requires i < |net.configs| && i < |s.traces|
  {
    D.Run(net.configs[i], s.traces[i])
  }

  function EventOf(d: Doc): Event {
    Event(d.collection, d.docId, Some(d.envelope))
  }

  predicate IsDoc(docs: seq<Doc>, event: Event) {
    exists k :: 0 <= k < |docs| && EventOf(docs[k]) == event
  }

  /** Hops of the document an event is about. */
  function HopsOf(docs: seq<Doc>, event: Event): nat {
    if docs == [] then 0
    else if EventOf(docs[|docs| - 1]) == event then docs[|docs| - 1].hops
    else HopsOf(docs[..|docs| - 1], event)
  }

  predicate HasKey(docs: seq<Doc>, collection: Text, docId: Text) {
    exists k :: 0 <= k < |docs| && docs[k].collection == collection && docs[k].docId == docId
  }

  /** What a subscription stores of a message: `read_subscription`, `from_payload` and the create-only attempts. */
  function Stored(net: Net, docs: seq<Doc>, sub: Subscription, bc: Broadcast, valid: bool, docId: Text,
                  attempts: seq<Ingress.Attempt>): Option<Doc>
    requires sub.node < |net.configs| && sub.route < |net.configs[sub.node].mappings| && attempts != []
  {
    var c := net.configs[sub.node];
    var collection := c.mappings[sub.route].collection;
    var envelope := Ingest(c, bc.message, valid);
    var present := HasKey(docs, collection, docId);
    if envelope.Some? && !present && Ingress.Tries(false, attempts).1
    then Some(Doc(collection, docId, envelope.value, bc.hops)) else None
  }

  predicate Receivable(net: Net, s: State, b: nat, sub: Subscription, attempts: seq<Ingress.Attempt>)
    requires Sized(net)
  {
    && b < |s.broadcasts| && |attempts| == Ingress.STORE_MAX_ATTEMPTS
    && Subscribed(net, sub, s.broadcasts[b].broker, s.broadcasts[b].message.subject)
    && sub !in s.broadcasts[b].taken
  }

  function Received(net: Net, s: State, b: nat, sub: Subscription, valid: bool, docId: Text,
                    attempts: seq<Ingress.Attempt>): State
    requires Sized(net) && Receivable(net, s, b, sub, attempts)
  {
    var bc := s.broadcasts[b];
    var stored := Stored(net, s.docs, sub, bc, valid, docId, attempts);
    s.(broadcasts := s.broadcasts[b := bc.(taken := bc.taken + {sub})],
       docs := if stored.Some? then s.docs + [stored.value] else s.docs)
  }

  predicate Forwardable(net: Net, s: State, call: Call)
    requires Sized(net) && |s.traces| == |net.configs|
  {
    call.node < |net.configs| && call.k < |NodeAt(net, s, call.node).publishes| && call !in s.sent
  }

  function Next(net: Net, s: State, step: Step): (s': State)
    requires Sized(net) && |s.traces| == |net.configs|
    ensures |s'.traces| == |net.configs|
  {
    match step
    case Publish(broker, message) => s.(broadcasts := s.broadcasts + [Broadcast(broker, message, 0, {})])
    case Forward(call) =>
      if Forwardable(net, s, call) then
        var c := net.configs[call.node];
        var job := NodeAt(net, s, call.node).publishes[call.k];
        var bc := Broadcast(net.brokers[call.node], Publication(c, job.item), 1 + HopsOf(s.docs, job.event), {});
        s.(broadcasts := s.broadcasts + [bc], sent := s.sent + {call})
      else s
    case Receive(b, sub, valid, docId, attempts) =>
      if Receivable(net, s, b, sub, attempts) then Received(net, s, b, sub, valid, docId, attempts) else s
    case Local(i, st) =>
      if i < |net.configs| && (st.Deliver? ==> IsDoc(s.docs, st.event))
      then s.(traces := s.traces[i := s.traces[i] + [st]]) else s
  }

  function Run(net: Net, steps: seq<Step>): (s: State)
    requires Sized(net)
    ensures |s.traces| == |net.configs|
  {
    if steps == [] then Start(net) else Next(net, Run(net, steps[..|steps| - 1]), steps[|steps| - 1])
  }

  lemma {:induction false} RunSnoc(net: Net, steps: seq<Step>, step: Step)
    requires Sized(net)
    ensures Run(net, steps + [step]) == Next(net, Run(net, steps), step)
  {
    assert (steps + [step])[..|steps|] == steps;
  }

  /** Application messages so far. */
  function Messages(broadcasts: seq<Broadcast>): int {
    if broadcasts == [] then 0
    else Messages(broadcasts[..|broadcasts| - 1]) + (if broadcasts[|broadcasts| - 1].hops == 0 then 1 else 0)
  }

  // ---- a node publishes only what was delivered to it -----------------------------

  ghost predicate JobsFrom(docs: seq<Doc>, jobs: seq<D.Job>) {
    forall k :: 0 <= k < |jobs| ==> IsDoc(docs, jobs[k].event)
  }

  ghost predicate CallersFrom(docs: seq<Doc>, callers: seq<D.Caller>) {
    forall k :: 0 <= k < |callers| && callers[k].Deliverer? ==> IsDoc(docs, callers[k].job.event)
  }

  ghost predicate NodeFrom(docs: seq<Doc>, s: D.Node) {
    && JobsFrom(docs, s.publishes) && JobsFrom(docs, s.reserved) && JobsFrom(docs, s.queue)
    && CallersFrom(docs, s.callers)
    && (!s.worker.Idle? ==> IsDoc(docs, s.worker.job.event))
  }

  lemma SentFrom(docs: seq<Doc>, s: D.Node, command: L.Command, caller: D.Caller)
    requires NodeFrom(docs, s) && (caller.Deliverer? ==> IsDoc(docs, caller.job.event))
    ensures NodeFrom(docs, D.Sent(s, command, caller))
  {
  }

  lemma AnsweredFrom(docs: seq<Doc>, c: Config, s: D.Node, io: LedgerFile.Io)
    requires NodeFrom(docs, s) && L.Busy(s.ledger) && s.callers != []
    ensures NodeFrom(docs, D.Answered(c, s, io))
  {
    assert s.callers[0].Deliverer? ==> IsDoc(docs, s.callers[0].job.event);
  }

  lemma QueuedFrom(docs: seq<Doc>, s: D.Node, i: nat, open: bool)
    requires NodeFrom(docs, s) && i < |s.reserved|
    ensures NodeFrom(docs, D.Queued(s, i, open))
  {
    assert IsDoc(docs, s.reserved[i].event);
  }

  lemma WorkedFrom(docs: seq<Doc>, s: D.Node, step: D.Step)
    requires NodeFrom(docs, s) && (step.Take? || step.Publish? || step.Flush?)
    ensures NodeFrom(docs, D.Worked(s, step))
  {
  }

  lemma NodeStepFrom(docs: seq<Doc>, c: Config, s: D.Node, step: D.Step)
    requires NodeFrom(docs, s) && (step.Deliver? ==> IsDoc(docs, step.event))
    ensures NodeFrom(docs, D.Next(c, s, step))
  {
    match step {
      case Deliver(event) =>
        var classified := Classify(c, event);
        if classified.Item? {
          SentFrom(docs, s, L.Command(classified.item.digest, Reserved), D.Deliverer(D.Job(classified.item, event)));
        }
      case Execute(io) => if L.Busy(s.ledger) && s.callers != [] { AnsweredFrom(docs, c, s, io); }
      case Enqueue(i, open) => if i < |s.reserved| { QueuedFrom(docs, s, i, open); }
      case Complete =>
        if s.worker.Flushed? {
          SentFrom(docs, s, L.Command(s.worker.job.item.digest, Completed), D.Completer);
        }
      case Crash =>
      case Open(io) =>
      case _ => WorkedFrom(docs, s, step);
    }
  }

  lemma IsDocGrows(docs: seq<Doc>, d: Doc, event: Event)
    requires IsDoc(docs, event)
    ensures IsDoc(docs + [d], event)
  {
    var k :| 0 <= k < |docs| && EventOf(docs[k]) == event;
    assert (docs + [d])[k] == docs[k];
  }

  lemma DocsGrow(docs: seq<Doc>, d: Doc, s: D.Node)
    requires NodeFrom(docs, s)
    ensures NodeFrom(docs + [d], s)
  {
    forall event | IsDoc(docs, event) ensures IsDoc(docs + [d], event) {
      IsDocGrows(docs, d, event);
    }
  }

  // ---- what every step keeps --------------------------------------------------------

  /** Some node ingested this document from a message on its mapping `q`. */
  ghost predicate IngestedAt(net: Net, d: Doc, k: nat, q: nat) {
    && k < |net.configs| && q < |net.configs[k].mappings|
    && d.envelope.sourceNodeId == net.configs[k].localNodeId
    && net.configs[k].mappings[q] == Mapping(d.envelope.subject, d.collection)
  }

  ghost predicate Sourced(net: Net, d: Doc) {
    exists k: nat, q: nat :: IngestedAt(net, d, k, q)
  }

  /** Node `j` may relay what node `k` ingests on mapping `q` to node `i` on mapping `r`, over a shared broker. */
  ghost predicate EchoPath(net: Net, i: nat, j: nat, k: nat, r: nat, q: nat)
    requires Sized(net)
  {
    && i < |net.configs| && j < |net.configs| && k < |net.configs| && i != j && k != j
    && net.brokers[i] == net.brokers[j]
    && r < |net.configs[i].mappings| && q < |net.configs[k].mappings|
    && var heard := net.configs[k].mappings[q];
       var route := RouteIndex(net.configs[j].mappings, heard.collection);
       && net.configs[i].mappings[r].subject == heard.subject
       && route.Some? && net.configs[j].mappings[route.value].subject == heard.subject
  }

  ghost predicate CanEcho(net: Net)
    requires Sized(net)
  {
    exists i: nat, j: nat, k: nat, r: nat, q: nat :: EchoPath(net, i, j, k, r, q)
  }

  /** A publication of node `j`, of a document of the mesh. */
  ghost predicate PublishedBy(net: Net, docs: seq<Doc>, bc: Broadcast, j: nat, job: D.Job)
    requires Sized(net)
  {
    && j < |net.configs| && bc.broker == net.brokers[j] && bc.message == Publication(net.configs[j], job.item)
    && D.Classed(net.configs[j], job) && IsDoc(docs, job.event)
  }

  ghost predicate BroadcastFrom(net: Net, docs: seq<Doc>, bc: Broadcast)
    requires Sized(net)
  {
    && (bc.hops > 0 ==> exists j: nat, job :: PublishedBy(net, docs, bc, j, job))
    && (forall sub :: sub in bc.taken ==> Subscribed(net, sub, bc.broker, bc.message.subject))
  }

  ghost predicate DocFrom(net: Net, d: Doc)
    requires Sized(net)
  {
    Sourced(net, d) && (d.hops > 0 ==> CanEcho(net))
  }

  ghost predicate Inv(net: Net, s: State)
    requires Sized(net)
  {
    && |s.traces| == |net.configs|
    && (forall i :: 0 <= i < |net.configs| ==> NodeFrom(s.docs, NodeAt(net, s, i)))
    && (forall b :: 0 <= b < |s.broadcasts| ==> BroadcastFrom(net, s.docs, s.broadcasts[b]))
    && (forall k :: 0 <= k < |s.docs| ==> DocFrom(net, s.docs[k]))
  }

  /** A publication that another node accepts runs along an echo path from where its document came in. */
  lemma EchoRunsAlong(net: Net, d: Doc, bc: Broadcast, j: nat, job: D.Job, k: nat, q: nat, sub: Subscription,
                      valid: bool)
    requires Sized(net) && j < |net.configs| && IngestedAt(net, d, k, q) && EventOf(d) == job.event
    requires bc.broker == net.brokers[j] && bc.message == Publication(net.configs[j], job.item)
    requires D.Classed(net.configs[j], job)
    requires Subscribed(net, sub, bc.broker, bc.message.subject)
    requires Ingest(net.configs[sub.node], bc.message, valid).Some?
    ensures EchoPath(net, sub.node, j, k, sub.route, q)
  {
    ClassifiedItem(net.configs[j], job.event);
  }

  lemma EchoHasPath(net: Net, docs: seq<Doc>, bc: Broadcast, j: nat, job: D.Job, sub: Subscription, valid: bool)
    requires Sized(net) && PublishedBy(net, docs, bc, j, job) && (forall k :: 0 <= k < |docs| ==> Sourced(net, docs[k]))
    requires Subscribed(net, sub, bc.broker, bc.message.subject)
    requires Ingest(net.configs[sub.node], bc.message, valid).Some?
    ensures CanEcho(net)
  {
    var n :| 0 <= n < |docs| && EventOf(docs[n]) == job.event;
    var k: nat, q: nat :| IngestedAt(net, docs[n], k, q);
    EchoRunsAlong(net, docs[n], bc, j, job, k, q, sub, valid);
  }

  lemma StoredFrom(net: Net, s: State, b: nat, sub: Subscription, valid: bool, docId: Text,
                   attempts: seq<Ingress.Attempt>)
    requires Sized(net) && Inv(net, s) && Receivable(net, s, b, sub, attempts)
    ensures var stored := Stored(net, s.docs, sub, s.broadcasts[b], valid, docId, attempts);
            stored.Some? ==> DocFrom(net, stored.value)
  {
    var bc := s.broadcasts[b];
    var stored := Stored(net, s.docs, sub, bc, valid, docId, attempts);
    assert BroadcastFrom(net, s.docs, bc);
    if stored.Some? {
      assert IngestedAt(net, stored.value, sub.node, sub.route);
      if bc.hops > 0 {
        var j: nat, job :| PublishedBy(net, s.docs, bc, j, job);
        EchoHasPath(net, s.docs, bc, j, job, sub, valid);
      }
    }
  }

  lemma BroadcastGrows(net: Net, docs: seq<Doc>, d: Doc, bc: Broadcast)
    requires Sized(net) && BroadcastFrom(net, docs, bc)
    ensures BroadcastFrom(net, docs + [d], bc)
  {
    if bc.hops > 0 {
      var j: nat, job :| PublishedBy(net, docs, bc, j, job);
      IsDocGrows(docs, d, job.event);
      assert PublishedBy(net, docs + [d], bc, j, job);
    }
  }

  lemma DocAdded(net: Net, s: State, d: Doc)
    requires Sized(net) && Inv(net, s) && DocFrom(net, d)
    ensures Inv(net, s.(docs := s.docs + [d]))
  {
    var s' := s.(docs := s.docs + [d]);
    forall i | 0 <= i < |net.configs| ensures NodeFrom(s'.docs, NodeAt(net, s', i)) {
      DocsGrow(s.docs, d, NodeAt(net, s, i));
    }
    forall b | 0 <= b < |s.broadcasts| ensures BroadcastFrom(net, s'.docs, s.broadcasts[b]) {
      BroadcastGrows(net, s.docs, d, s.broadcasts[b]);
    }
  }

  lemma BroadcastsMove(net: Net, s: State, broadcasts: seq<Broadcast>, sent: set<Call>)
    requires Sized(net) && Inv(net, s)
    requires forall b :: 0 <= b < |broadcasts| ==> BroadcastFrom(net, s.docs, broadcasts[b])
    ensures Inv(net, s.(broadcasts := broadcasts, sent := sent))
  {
    var s' := s.(broadcasts := broadcasts, sent := sent);
    forall i | 0 <= i < |net.configs| ensures NodeFrom(s'.docs, NodeAt(net, s', i)) {
      assert NodeAt(net, s', i) == NodeAt(net, s, i);
    }
  }

  lemma TakenFrom(net: Net, docs: seq<Doc>, bc: Broadcast, sub: Subscription)
    requires Sized(net) && BroadcastFrom(net, docs, bc) && Subscribed(net, sub, bc.broker, bc.message.subject)
    ensures BroadcastFrom(net, docs, bc.(taken := bc.taken + {sub}))
  {
    if bc.hops > 0 {
      var j: nat, job :| PublishedBy(net, docs, bc, j, job);
      assert PublishedBy(net, docs, bc.(taken := bc.taken + {sub}), j, job);
    }
  }

  lemma ReceivedKeeps(net: Net, s: State, b: nat, sub: Subscription, valid: bool, docId: Text,
                      attempts: seq<Ingress.Attempt>)
    requires Sized(net) && Inv(net, s) && Receivable(net, s, b, sub, attempts)
    ensures Inv(net, Received(net, s, b, sub, valid, docId, attempts))
  {
    var bc := s.broadcasts[b];
    TakenFrom(net, s.docs, bc, sub);
    var taken := s.broadcasts[b := bc.(taken := bc.taken + {sub})];
    BroadcastsMove(net, s, taken, s.sent);
    StoredFrom(net, s, b, sub, valid, docId, attempts);
    var stored := Stored(net, s.docs, sub, bc, valid, docId, attempts);
    if stored.Some? {
      DocAdded(net, s.(broadcasts := taken), stored.value);
    }
  }

  lemma ForwardKeeps(net: Net, s: State, call: Call)
    requires Sized(net) && Inv(net, s) && Forwardable(net, s, call)
    ensures Inv(net, Next(net, s, Forward(call)))
  {
    var c, node := net.configs[call.node], NodeAt(net, s, call.node);
    var job := node.publishes[call.k];
    D.RunKeeps(c, s.traces[call.node]);
    var bc := Broadcast(net.brokers[call.node], Publication(c, job.item), 1 + HopsOf(s.docs, job.event), {});
    assert NodeFrom(s.docs, node);
    assert PublishedBy(net, s.docs, bc, call.node, job);
    BroadcastsMove(net, s, s.broadcasts + [bc], s.sent + {call});
  }

  lemma LocalKeeps(net: Net, s: State, i: nat, st: D.Step)
    requires Sized(net) && Inv(net, s) && i < |net.configs| && (st.Deliver? ==> IsDoc(s.docs, st.event))
    ensures Inv(net, s.(traces := s.traces[i := s.traces[i] + [st]]))
  {
    var s' := s.(traces := s.traces[i := s.traces[i] + [st]]);
    forall j | 0 <= j < |net.configs| ensures NodeFrom(s'.docs, NodeAt(net, s', j)) {
      if j == i {
        D.RunSnoc(net.configs[i], s.traces[i], st);
        NodeStepFrom(s.docs, net.configs[i], NodeAt(net, s, i), st);
      } else {
        assert NodeAt(net, s', j) == NodeAt(net, s, j);
      }
    }
  }

  lemma NextKeeps(net: Net, s: State, step: Step)
    requires Sized(net) && Inv(net, s)
    ensures Inv(net, Next(net, s, step))
  {
    match step {
      case Publish(broker, message) =>
        BroadcastsMove(net, s, s.broadcasts + [Broadcast(broker, message, 0, {})], s.sent);
      case Forward(call) => if Forwardable(net, s, call) { ForwardKeeps(net, s, call); }
      case Receive(b, sub, valid, docId, attempts) =>
        if Receivable(net, s, b, sub, attempts) { ReceivedKeeps(net, s, b, sub, valid, docId, attempts); }
      case Local(i, st) =>
        if i < |net.configs| && (st.Deliver? ==> IsDoc(s.docs, st.event)) { LocalKeeps(net, s, i, st); }
    }
  }

  lemma {:induction false} RunKeeps(net: Net, steps: seq<Step>)
    requires Sized(net)
    ensures Inv(net, Run(net, steps))
  {
    if steps == [] {
      forall i | 0 <= i < |net.configs| ensures NodeFrom([], NodeAt(net, Start(net), i)) {
        assert Start(net).traces[i] == [];
      }
    } else {
      RunKeeps(net, steps[..|steps| - 1]);
      NextKeeps(net, Run(net, steps[..|steps| - 1]), steps[|steps| - 1]);
    }
  }

  // ---- what hearing a broadcast comes to ----------------------------------------------

  /** A subscription makes a document of a broadcast, sourced at its own node, if and only if the message does not carry
      exactly that node's origin, is valid and within the limit, the id is new to the collection and an attempt reaches
      the store. */
  lemma ReceiveExact(net: Net, s: State, b: nat, sub: Subscription, valid: bool, docId: Text,
                     attempts: seq<Ingress.Attempt>)
    requires Sized(net) && |s.traces| == |net.configs| && Receivable(net, s, b, sub, attempts)
    ensures var (message, c) := (s.broadcasts[b].message, net.configs[sub.node]);
            var collection := c.mappings[sub.route].collection;
            var stores := && message.origins != [c.localNodeId] && valid
                          && |message.payload| <= MAX_INGRESS_PAYLOAD_BYTES
                          && (forall d :: d in s.docs ==> d.collection != collection || d.docId != docId)
                          && Ingress.Reaches(attempts);
            var envelope := Envelope(BRIDGE_ENVELOPE_KIND, BRIDGE_ENVELOPE_VERSION, message.subject, c.localNodeId,
                                     message.payload);
            Next(net, s, Receive(b, sub, valid, docId, attempts)).docs ==
            s.docs + if stores then [Doc(collection, docId, envelope, s.broadcasts[b].hops)] else []
  {
    Ingress.ReachesIff(attempts);
    var collection := net.configs[sub.node].mappings[sub.route].collection;
    if HasKey(s.docs, collection, docId) {
      var k :| 0 <= k < |s.docs| && s.docs[k].collection == collection && s.docs[k].docId == docId;
      assert s.docs[k] in s.docs;
    }
  }

  predicate Apart(docs: seq<Doc>) {
    forall i, j :: 0 <= i < j < |docs| ==> docs[i].collection != docs[j].collection || docs[i].docId != docs[j].docId
  }

  /** No document is ever stored over another one. */
  lemma {:induction false} RunApart(net: Net, steps: seq<Step>)
    requires Sized(net)
    ensures Apart(Run(net, steps).docs)
  {
    if steps != [] {
      RunApart(net, steps[..|steps| - 1]);
    }
  }

  // ---- one document per message ---------------------------------------------------------

  /** Two nodes subscribe to one subject on one broker. */
  ghost predicate SharedBy(net: Net, a: Subscription, b: Subscription)
    requires Sized(net)
  {
    && a.node != b.node && a.node < |net.configs| && a.route < |net.configs[a.node].mappings|
    && Subscribed(net, b, net.brokers[a.node], net.configs[a.node].mappings[a.route].subject)
  }

  ghost predicate Shared(net: Net)
    requires Sized(net)
  {
    exists a, b :: SharedBy(net, a, b)
  }

  /** An echo needs such a pair. */
  lemma EchoIsShared(net: Net)
    requires Sized(net) && CanEcho(net)
    ensures Shared(net)
  {
    var i: nat, j: nat, k: nat, r: nat, q: nat :| EchoPath(net, i, j, k, r, q);
    var route := RouteIndex(net.configs[j].mappings, net.configs[k].mappings[q].collection);
    assert SharedBy(net, Subscription(i, r), Subscription(j, route.value));
  }

  lemma OneSubscriber(net: Net, a: Subscription, b: Subscription, broker: nat, subject: Text)
    requires ValidNet(net) && !Shared(net) && Subscribed(net, a, broker, subject) && Subscribed(net, b, broker, subject)
    ensures a == b
  {
    assert !SharedBy(net, a, b);
    assert DistinctSubjects(net.configs[a.node].mappings);
  }

  /** Application messages that reached a subscription. */
  function Heard(broadcasts: seq<Broadcast>): int {
    if broadcasts == [] then 0
    else
      var last := broadcasts[|broadcasts| - 1];
      Heard(broadcasts[..|broadcasts| - 1]) + (if last.hops == 0 && last.taken != {} then 1 else 0)
  }

  function HeardBit(bc: Broadcast): int {
    if bc.hops == 0 && bc.taken != {} then 1 else 0
  }

  lemma {:induction false} HeardSnoc(broadcasts: seq<Broadcast>, bc: Broadcast)
    ensures Heard(broadcasts + [bc]) == Heard(broadcasts) + HeardBit(bc)
  {
    assert (broadcasts + [bc])[..|broadcasts|] == broadcasts;
  }

  lemma {:induction false} HeardUpdate(broadcasts: seq<Broadcast>, b: nat, bc: Broadcast)
    requires b < |broadcasts|
    ensures Heard(broadcasts[b := bc]) + HeardBit(broadcasts[b]) == Heard(broadcasts) + HeardBit(bc)
  {
    var n := |broadcasts| - 1;
    if b < n {
      HeardUpdate(broadcasts[..n], b, bc);
      assert broadcasts[b := bc][..n] == broadcasts[..n][b := bc];
    } else {
      assert broadcasts[b := bc][..n] == broadcasts[..n];
    }
  }

  lemma {:induction false} HeardBounded(broadcasts: seq<Broadcast>)
    ensures Heard(broadcasts) <= Messages(broadcasts)
  {
    if broadcasts != [] {
      HeardBounded(broadcasts[..|broadcasts| - 1]);
    }
  }

  /** Without a shared subject, a bridge's publication reaches only the bridge itself, which drops it. */
  lemma NothingRelayed(net: Net, docs: seq<Doc>, bc: Broadcast, sub: Subscription, valid: bool, docId: Text,
                       attempts: seq<Ingress.Attempt>)
    requires ValidNet(net) && !Shared(net) && BroadcastFrom(net, docs, bc) && bc.hops > 0 && attempts != []
    requires Subscribed(net, sub, bc.broker, bc.message.subject)
    ensures Stored(net, docs, sub, bc, valid, docId, attempts).None?
  {
    var j: nat, job :| PublishedBy(net, docs, bc, j, job);
    ClassifiedItem(net.configs[j], job.event);
    OneSubscriber(net, sub, Subscription(j, job.item.routeIndex), bc.broker, bc.message.subject);
    OwnPublicationDropped(net.configs[j], job.item, valid);
  }

  lemma ReceivedBounded(net: Net, s: State, b: nat, sub: Subscription, valid: bool, docId: Text,
                        attempts: seq<Ingress.Attempt>)
    requires ValidNet(net) && !Shared(net) && Inv(net, s) && Receivable(net, s, b, sub, attempts)
    requires |s.docs| <= Heard(s.broadcasts)
    ensures var s' := Received(net, s, b, sub, valid, docId, attempts); |s'.docs| <= Heard(s'.broadcasts)
  {
    var bc := s.broadcasts[b];
    assert BroadcastFrom(net, s.docs, bc);
    HeardUpdate(s.broadcasts, b, bc.(taken := bc.taken + {sub}));
    if bc.hops > 0 {
      NothingRelayed(net, s.docs, bc, sub, valid, docId, attempts);
    } else if bc.taken != {} {
      var other :| other in bc.taken;
      OneSubscriber(net, sub, other, bc.broker, bc.message.subject);
    }
  }

  lemma PublishBounded(net: Net, s: State, broker: nat, message: NatsMessage)
    requires Sized(net) && |s.traces| == |net.configs| && |s.docs| <= Heard(s.broadcasts)
    ensures var s' := Next(net, s, Publish(broker, message)); |s'.docs| <= Heard(s'.broadcasts)
  {
    HeardSnoc(s.broadcasts, Broadcast(broker, message, 0, {}));
  }

  lemma ForwardBounded(net: Net, s: State, call: Call)
    requires Sized(net) && |s.traces| == |net.configs| && |s.docs| <= Heard(s.broadcasts)
    ensures var s' := Next(net, s, Forward(call)); |s'.docs| <= Heard(s'.broadcasts)
  {
    if Forwardable(net, s, call) {
      var c := net.configs[call.node];
      var job := NodeAt(net, s, call.node).publishes[call.k];
      var hops := 1 + HopsOf(s.docs, job.event);
      HeardSnoc(s.broadcasts, Broadcast(net.brokers[call.node], Publication(c, job.item), hops, {}));
    }
  }

  lemma NextBounded(net: Net, s: State, step: Step)
    requires ValidNet(net) && !Shared(net) && Inv(net, s) && |s.docs| <= Heard(s.broadcasts)
    ensures |Next(net, s, step).docs| <= Heard(Next(net, s, step).broadcasts)
  {
    match step {
      case Publish(broker, message) => PublishBounded(net, s, broker, message);
      case Forward(call) => ForwardBounded(net, s, call);
      case Receive(b, sub, valid, docId, attempts) =>
        if Receivable(net, s, b, sub, attempts) {
          ReceivedBounded(net, s, b, sub, valid, docId, attempts);
        }
      case Local(i, st) =>
    }
  }

  lemma {:induction false} RunBounded(net: Net, steps: seq<Step>)
    requires ValidNet(net) && !Shared(net)
    ensures |Run(net, steps).docs| <= Heard(Run(net, steps).broadcasts)
  {
    if steps != [] {
      RunBounded(net, steps[..|steps| - 1]);
      RunKeeps(net, steps[..|steps| - 1]);
      NextBounded(net, Run(net, steps[..|steps| - 1]), steps[|steps| - 1]);
    }
  }

  ghost predicate Bounded(net: Net)
    requires Sized(net)
  {
    forall steps :: WithinMessages(Run(net, steps))
  }

  predicate WithinMessages(s: State) {
    |s.docs| <= Messages(s.broadcasts)
  }

  const GOOD: seq<Ingress.Attempt> := [Ingress.Succeeds, Ingress.Succeeds, Ingress.Succeeds]

  /** A valid message of an application, without headers: the payload is the JSON text 0. */
  function Plain(subject: Text): NatsMessage {
    NatsMessage(subject, [], [48])
  }

  function PlainDoc(net: Net, sub: Subscription, docId: Text, hops: nat): Doc
    requires sub.node < |net.configs| && sub.route < |net.configs[sub.node].mappings|
  {
    var c := net.configs[sub.node];
    Doc(c.mappings[sub.route].collection, docId,
        Envelope(BRIDGE_ENVELOPE_KIND, BRIDGE_ENVELOPE_VERSION, c.mappings[sub.route].subject, c.localNodeId, [48]),
        hops)
  }

  lemma GoodStores()
    ensures Ingress.Tries(false, GOOD).1
  {
    assert GOOD[0] == Ingress.Succeeds;
    assert Ingress.Create(false, GOOD[0]) == (Ingress.Ok, true);
  }

  /** A node that has not heard a plain message stores it. */
  lemma PlainStored(net: Net, s: State, b: nat, sub: Subscription, docId: Text)
    requires Sized(net) && |s.traces| == |net.configs| && Receivable(net, s, b, sub, GOOD)
    requires !HasKey(s.docs, net.configs[sub.node].mappings[sub.route].collection, docId)
    requires s.broadcasts[b].message == Plain(net.configs[sub.node].mappings[sub.route].subject)
    ensures var bc := s.broadcasts[b];
            Next(net, s, Receive(b, sub, true, docId, GOOD)) ==
            s.(broadcasts := s.broadcasts[b := bc.(taken := bc.taken + {sub})],
               docs := s.docs + [PlainDoc(net, sub, docId, bc.hops)])
  {
    GoodStores();
  }

  lemma {:induction false} PlainPublished(net: Net, broker: nat, subject: Text)
    requires Sized(net)
    ensures Run(net, [Publish(broker, Plain(subject))]) ==
            Start(net).(broadcasts := [Broadcast(broker, Plain(subject), 0, {})])
  {
    var p := Publish(broker, Plain(subject));
    assert [] + [p] == [p];
    RunSnoc(net, [], p);
  }

  lemma {:induction false} MessagesOne(broadcasts: seq<Broadcast>)
    requires |broadcasts| == 1
    ensures Messages(broadcasts) <= 1
  {
    assert broadcasts[..0] == [];
  }

  /** One message on a subject two nodes share becomes two documents. */
  lemma SharedDoubles(net: Net, a: Subscription, b: Subscription) returns (steps: seq<Step>)
    requires Sized(net) && SharedBy(net, a, b)
    ensures !WithinMessages(Run(net, steps))
  {
    var subject := net.configs[a.node].mappings[a.route].subject;
    var broker := net.brokers[a.node];
    var p0, r1, r2 := Publish(broker, Plain(subject)), Receive(0, a, true, [48], GOOD), Receive(0, b, true, [49], GOOD);
    PlainPublished(net, broker, subject);
    var s1 := Run(net, [p0]);
    RunSnoc(net, [p0], r1);
    PlainStored(net, s1, 0, a, [48]);
    var s2 := Run(net, [p0] + [r1]);
    assert s2.docs == [PlainDoc(net, a, [48], 0)];
    assert [48][0] != [49][0];
    RunSnoc(net, [p0] + [r1], r2);
    PlainStored(net, s2, 0, b, [49]);
    steps := [p0] + [r1] + [r2];
    var s3 := Run(net, steps);
    assert |s3.docs| == 2 && |s3.broadcasts| == 1;
    MessagesOne(s3.broadcasts);
  }

  /** Conservation, exactly: over all runs the mesh holds at most one document per application message if and only if no
      two nodes subscribe to one subject on one broker. */
  lemma DocumentsBoundedIff(net: Net)
    requires ValidNet(net)
    ensures Bounded(net) <==> !Shared(net)
  {
    if Shared(net) {
      var a, b :| SharedBy(net, a, b);
      var steps := SharedDoubles(net, a, b);
    } else {
      forall steps ensures WithinMessages(Run(net, steps)) {
        RunBounded(net, steps);
        HeardBounded(Run(net, steps).broadcasts);
      }
    }
  }

  // ---- relayed documents --------------------------------------------------------------------

  ghost predicate Relays(net: Net, steps: seq<Step>)
    requires Sized(net)
  {
    exists k :: 0 <= k < |Run(net, steps).docs| && Run(net, steps).docs[k].hops > 0
  }

  ghost predicate CanRelay(net: Net)
    requires Sized(net)
  {
    exists steps :: Relays(net, steps)
  }

  /** The steps of a node that takes a document from an empty data directory to its broker. */
  function PublishTrace(event: Event): seq<D.Step> {
    [D.Open(LedgerFile.Durable)] + D.PublishSteps(event)
  }

  lemma {:induction false} TracePublishes(c: Config, event: Event)
    requires Classify(c, event).Item?
    ensures D.Run(c, PublishTrace(event)).publishes == [D.Job(Classify(c, event).item, event)]
  {
    var job := D.Job(Classify(c, event).item, event);
    D.OpenedFirst(c);
    L.FirstOpen(c.hash, LedgerFile.Delivery);
    D.FreshPublish(c, D.Run(c, [D.Open(LedgerFile.Durable)]), job);
    D.RunPublish(c, [D.Open(LedgerFile.Durable)], event);
    assert [] + [job] == [job];
  }

  function Locals(i: nat, trace: seq<D.Step>): seq<Step> {
    if trace == [] then [] else Locals(i, trace[..|trace| - 1]) + [Local(i, trace[|trace| - 1])]
  }

  lemma {:induction false} LocalsRun(net: Net, steps: seq<Step>, i: nat, trace: seq<D.Step>)
    requires Sized(net) && i < |net.configs|
    requires forall k :: 0 <= k < |trace| && trace[k].Deliver? ==> IsDoc(Run(net, steps).docs, trace[k].event)
    ensures var s := Run(net, steps);
            Run(net, steps + Locals(i, trace)) == s.(traces := s.traces[i := s.traces[i] + trace])
  {
    var s := Run(net, steps);
    if trace == [] {
      assert steps + Locals(i, trace) == steps;
      assert s.traces[i] + trace == s.traces[i];
      assert s.traces[i := s.traces[i]] == s.traces;
    } else {
      var init, last := trace[..|trace| - 1], trace[|trace| - 1];
      LocalsRun(net, steps, i, init);
      assert steps + Locals(i, trace) == (steps + Locals(i, init)) + [Local(i, last)];
      RunSnoc(net, steps + Locals(i, init), Local(i, last));
      assert s.traces[i] + init + [last] == s.traces[i] + trace;
      assert s.traces[i := s.traces[i] + init][i := s.traces[i] + trace] == s.traces[i := s.traces[i] + trace];
    }
  }

  /** A first document, stored by node `k` from an application's message on mapping `q`. */
  function SeedSteps(net: Net, k: nat, q: nat): seq<Step>
    requires Sized(net) && k < |net.configs| && q < |net.configs[k].mappings|
  {
    [Publish(net.brokers[k], Plain(net.configs[k].mappings[q].subject))]
    + [Receive(0, Subscription(k, q), true, [48], GOOD)]
  }

  lemma {:induction false} SeedStored(net: Net, k: nat, q: nat)
    requires Sized(net) && k < |net.configs| && q < |net.configs[k].mappings|
    ensures var s := Run(net, SeedSteps(net, k, q));
            && s.docs == [PlainDoc(net, Subscription(k, q), [48], 0)] && s.traces == Start(net).traces
            && |s.broadcasts| == 1 && s.sent == {}
  {
    var subject := net.configs[k].mappings[q].subject;
    PlainPublished(net, net.brokers[k], subject);
    var s := Run(net, [Publish(net.brokers[k], Plain(subject))]);
    PlainStored(net, s, 0, Subscription(k, q), [48]);
    RunSnoc(net, [Publish(net.brokers[k], Plain(subject))], Receive(0, Subscription(k, q), true, [48], GOOD));
  }

  /** From a state in which node `j` has published a document, its broker hands the publication to node `i`. */
  lemma ForwardedStored(net: Net, s: State, j: nat, job: D.Job, sub: Subscription)
    requires ValidNet(net) && |s.traces| == |net.configs| && j < |net.configs| && sub.node != j && s.sent == {}
    requires NodeAt(net, s, j).publishes == [job] && job.item.payload == [48]
    requires Subscribed(net, sub, net.brokers[j], job.item.subject)
    requires !HasKey(s.docs, net.configs[sub.node].mappings[sub.route].collection, [49])
    ensures var s' := Next(net, Next(net, s, Forward(Call(j, 0))), Receive(|s.broadcasts|, sub, true, [49], GOOD));
            |s'.docs| == |s.docs| + 1 && s'.docs[|s.docs|].hops > 0
  {
    var bc := Broadcast(net.brokers[j], Publication(net.configs[j], job.item), 1 + HopsOf(s.docs, job.event), {});
    var s1 := Next(net, s, Forward(Call(j, 0)));
    assert s1 == s.(broadcasts := s.broadcasts + [bc], sent := {Call(j, 0)});
    GoodStores();
    assert Receivable(net, s1, |s.broadcasts|, sub, GOOD);
    assert Stored(net, s1.docs, sub, bc, true, [49], GOOD).Some?;
  }

  lemma SeedClassified(net: Net, i: nat, j: nat, k: nat, r: nat, q: nat)
    requires ValidNet(net) && EchoPath(net, i, j, k, r, q)
    ensures var seed := PlainDoc(net, Subscription(k, q), [48], 0);
            var classified := Classify(net.configs[j], EventOf(seed));
            && classified.Item? && classified.item.payload == [48]
            && Subscribed(net, Subscription(i, r), net.brokers[j], classified.item.subject)
  {
  }

  lemma SeedPublished(net: Net, i: nat, j: nat, k: nat, r: nat, q: nat) returns (steps: seq<Step>)
    requires ValidNet(net) && EchoPath(net, i, j, k, r, q)
    ensures var seed := PlainDoc(net, Subscription(k, q), [48], 0);
            var s := Run(net, steps);
            && s.docs == [seed] && |s.broadcasts| == 1 && s.sent == {} && |s.traces| == |net.configs|
            && NodeAt(net, s, j).publishes == [D.Job(Classify(net.configs[j], EventOf(seed)).item, EventOf(seed))]
  {
    var seed := PlainDoc(net, Subscription(k, q), [48], 0);
    var event := EventOf(seed);
    SeedStored(net, k, q);
    SeedClassified(net, i, j, k, r, q);
    assert EventOf([seed][0]) == event && IsDoc([seed], event);
    PublishedLocally(net, SeedSteps(net, k, q), j, event);
    steps := SeedSteps(net, k, q) + Locals(j, PublishTrace(event));
  }

  lemma {:induction false} PublishedLocally(net: Net, steps: seq<Step>, j: nat, event: Event)
    requires Sized(net) && j < |net.configs| && Run(net, steps).traces[j] == []
    requires IsDoc(Run(net, steps).docs, event) && Classify(net.configs[j], event).Item?
    ensures var s, s' := Run(net, steps), Run(net, steps + Locals(j, PublishTrace(event)));
            && s'.docs == s.docs && s'.broadcasts == s.broadcasts && s'.sent == s.sent
            && NodeAt(net, s', j).publishes == [D.Job(Classify(net.configs[j], event).item, event)]
  {
    LocalsRun(net, steps, j, PublishTrace(event));
    TracePublishes(net.configs[j], event);
    assert [] + PublishTrace(event) == PublishTrace(event);
  }

  /** Along an echo path a publication does become a document again. */
  lemma EchoRelays(net: Net, i: nat, j: nat, k: nat, r: nat, q: nat) returns (steps: seq<Step>)
    requires ValidNet(net) && EchoPath(net, i, j, k, r, q)
    ensures Relays(net, steps)
  {
    var event := EventOf(PlainDoc(net, Subscription(k, q), [48], 0));
    steps := SeedPublished(net, i, j, k, r, q);
    SeedClassified(net, i, j, k, r, q);
    assert [48][0] != [49][0];
    ForwardedStored(net, Run(net, steps), j, D.Job(Classify(net.configs[j], event).item, event), Subscription(i, r));
    var forward, receive := Forward(Call(j, 0)), Receive(1, Subscription(i, r), true, [49], GOOD);
    RunSnoc(net, steps, forward);
    RunSnoc(net, steps + [forward], receive);
    steps := steps + [forward] + [receive];
    assert Run(net, steps).docs[1].hops > 0;
  }

  /** A bridge's publication can become a document again if and only if the configuration has an echo path. */
  lemma RelaysIffEchoPath(net: Net)
    requires ValidNet(net)
    ensures CanRelay(net) <==> CanEcho(net)
  {
    if CanEcho(net) {
      var i: nat, j: nat, k: nat, r: nat, q: nat :| EchoPath(net, i, j, k, r, q);
      var steps := EchoRelays(net, i, j, k, r, q);
    }
    if CanRelay(net) {
      var steps :| Relays(net, steps);
      RunKeeps(net, steps);
      var n :| 0 <= n < |Run(net, steps).docs| && Run(net, steps).docs[n].hops > 0;
      assert DocFrom(net, Run(net, steps).docs[n]);
    }
  }

  // ---- fan-out per node -----------------------------------------------------------------

  /** Documents another node than `id` ingested, as their change events. */
  function ForeignEvents(docs: seq<Doc>, id: Text): set<Event> {
    if docs == [] then {}
    else
      ForeignEvents(docs[..|docs| - 1], id)
      + (if docs[|docs| - 1].envelope.sourceNodeId != id then {EventOf(docs[|docs| - 1])} else {})
  }

  lemma {:induction false} ForeignEventsBounded(docs: seq<Doc>, id: Text)
    ensures |ForeignEvents(docs, id)| <= |docs|
  {
    if docs != [] {
      ForeignEventsBounded(docs[..|docs| - 1], id);
    }
  }

  lemma {:induction false} ForeignEventsHas(docs: seq<Doc>, id: Text, k: nat)
    requires k < |docs| && docs[k].envelope.sourceNodeId != id
    ensures EventOf(docs[k]) in ForeignEvents(docs, id)
  {
    if k < |docs| - 1 {
      ForeignEventsHas(docs[..|docs| - 1], id, k);
    }
  }

  lemma {:induction false} EventsWithin(jobs: seq<D.Job>, events: set<Event>)
    requires forall i :: 0 <= i < |jobs| ==> jobs[i].event in events
    requires forall i, j :: 0 <= i < j < |jobs| ==> jobs[i].event != jobs[j].event
    ensures |jobs| <= |events|
  {
    if jobs != [] {
      var n := |jobs| - 1;
      EventsWithin(jobs[..n], events - {jobs[n].event});
    }
  }

  lemma {:induction false} EventsDiffer(c: Config, trace: seq<D.Step>, k: nat, l: nat)
    requires !D.Run(c, trace).ledger.overrun && k < l < |D.Run(c, trace).publishes|
    ensures D.Run(c, trace).publishes[k].event != D.Run(c, trace).publishes[l].event
  {
    var p := D.Run(c, trace).publishes;
    D.RunKeeps(c, trace);
    assert D.Classed(c, p[k]) && D.Classed(c, p[l]);
    D.PublishAtMostOnce(c, trace, p[k].item.digest);
    if p[k].item.digest == p[l].item.digest {
      D.CountTwo(p, k, l, p[k].item.digest);
    }
  }

  /** As long as its delivery ledger appended nothing after a failed append, a node publishes each document of the other
      nodes at most once over its whole life, whatever crashes and redeliveries there are, and none of its own. */
  lemma {:induction false} PublishesBounded(net: Net, steps: seq<Step>, i: nat)
    requires ValidNet(net) && i < |net.configs| && !NodeAt(net, Run(net, steps), i).ledger.overrun
    ensures var s := Run(net, steps);
            |NodeAt(net, s, i).publishes| <= |ForeignEvents(s.docs, net.configs[i].localNodeId)| <= |s.docs|
  {
    RunKeeps(net, steps);
    var s := Run(net, steps);
    var c, id := net.configs[i], net.configs[i].localNodeId;
    var p := NodeAt(net, s, i).publishes;
    assert NodeFrom(s.docs, NodeAt(net, s, i));
    ForeignEventsBounded(s.docs, id);
    forall k | 0 <= k < |p| ensures p[k].event in ForeignEvents(s.docs, id) {
      D.NeverPublishesOwn(c, s.traces[i], k);
      var n :| 0 <= n < |s.docs| && EventOf(s.docs[n]) == p[k].event;
      ForeignEventsHas(s.docs, id, n);
    }
    forall k, l | 0 <= k < l < |p| ensures p[k].event != p[l].event {
      EventsDiffer(c, s.traces[i], k, l);
    }
    EventsWithin(p, ForeignEvents(s.docs, id));
  }
}
