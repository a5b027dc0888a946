/** Relay chains: how often bridges can pass one application's message on. */
module Relay {
  import opened Wrappers
  import opened Bytes
  import opened Codec
  import opened JournalLog
  import opened Egress
  import opened Mesh
  import D = Delivery
  import L = Ledger
  import LedgerFile
  import Ingress

  predicate Known(net: Net, sub: Subscription) {
    sub.node < |net.configs| && sub.route < |net.configs[sub.node].mappings|
  }

  /** Some node publishes what comes in at `a`, and the publication comes in at `b`. */
  ghost predicate Link(net: Net, a: Subscription, b: Subscription)
    requires Sized(net)
  {
    exists j: nat :: EchoPath(net, b.node, j, a.node, b.route, a.route)
  }

  ghost predicate Walk(net: Net, subs: seq<Subscription>)
    requires Sized(net)
  {
    subs != [] && Known(net, subs[0]) && forall t :: 0 <= t < |subs| - 1 ==> Link(net, subs[t], subs[t + 1])
  }

  /** A walk over `n` links. */
  ghost predicate WalkExists(net: Net, n: nat)
    requires Sized(net)
  {
    exists subs :: Walk(net, subs) && |subs| == n + 1
  }

  /** Some run passes a message on `n` times. */
  ghost predicate CanHop(net: Net, n: nat)
    requires Sized(net)
  {
    exists steps :: Hopped(Run(net, steps), n)
  }

  predicate Hopped(s: State, n: nat) {
    exists k :: 0 <= k < |s.docs| && s.docs[k].hops == n
  }

  // ---- every chain is a walk ----------------------------------------------------------

  ghost predicate Walked(net: Net, d: Doc)
    requires Sized(net)
  {
    exists subs :: WalkedBy(net, d, subs)
  }

  ghost predicate WalkedBy(net: Net, d: Doc, subs: seq<Subscription>)
    requires Sized(net)
  {
    && Walk(net, subs) && |subs| == d.hops + 1
    && IngestedAt(net, d, subs[d.hops].node, subs[d.hops].route)
  }

  /** A bridge's publication is one hop further than its document. */
  ghost predicate HopsOn(net: Net, docs: seq<Doc>, bc: Broadcast)
    requires Sized(net)
  {
    bc.hops > 0 ==> exists j: nat, job: D.Job, n: nat :: PublishedOf(net, docs, bc, j, job, n)
  }

  ghost predicate PublishedOf(net: Net, docs: seq<Doc>, bc: Broadcast, j: nat, job: D.Job, n: nat)
    requires Sized(net)
  {
    && PublishedBy(net, docs, bc, j, job)
    && n < |docs| && EventOf(docs[n]) == job.event && bc.hops == docs[n].hops + 1
  }

  ghost predicate ChainInv(net: Net, s: State)
    requires Sized(net)
  {
    && (forall k :: 0 <= k < |s.docs| ==> Walked(net, s.docs[k]))
    && (forall b :: 0 <= b < |s.broadcasts| ==> HopsOn(net, s.docs, s.broadcasts[b]))
  }

  lemma {:induction false} HopsFound(docs: seq<Doc>, event: Event) returns (n: nat)
    requires IsDoc(docs, event)
    ensures n < |docs| && EventOf(docs[n]) == event && docs[n].hops == HopsOf(docs, event)
  {
    var last := |docs| - 1;
    if EventOf(docs[last]) == event {
      n := last;
    } else {
      var k :| 0 <= k < |docs| && EventOf(docs[k]) == event;
      assert EventOf(docs[..last][k]) == event;
      n := HopsFound(docs[..last], event);
    }
  }

  lemma HopsGrow(net: Net, docs: seq<Doc>, d: Doc, bc: Broadcast)
    requires Sized(net) && HopsOn(net, docs, bc)
    ensures HopsOn(net, docs + [d], bc)
  {
    if bc.hops > 0 {
      var j: nat, job: D.Job, n: nat :| PublishedOf(net, docs, bc, j, job, n);
      IsDocGrows(docs, d, job.event);
      assert PublishedOf(net, docs + [d], bc, j, job, n);
    }
  }

  lemma HopsTaken(net: Net, docs: seq<Doc>, bc: Broadcast, taken: set<Subscription>)
    requires Sized(net) && HopsOn(net, docs, bc)
    ensures HopsOn(net, docs, bc.(taken := taken))
  {
    if bc.hops > 0 {
      var j: nat, job: D.Job, n: nat :| PublishedOf(net, docs, bc, j, job, n);
      assert PublishedOf(net, docs, bc.(taken := taken), j, job, n);
    }
  }

  lemma WalkExtends(net: Net, subs: seq<Subscription>, sub: Subscription)
    requires Sized(net) && Walk(net, subs) && Link(net, subs[|subs| - 1], sub)
    ensures Walk(net, subs + [sub])
  {
    var longer := subs + [sub];
    forall t | 0 <= t < |longer| - 1 ensures Link(net, longer[t], longer[t + 1]) {
      if t < |subs| - 1 {
        assert Link(net, subs[t], subs[t + 1]);
      }
    }
  }

  /** What a subscription stores has come one link further than the document it was published from. */
  lemma StoredWalked(net: Net, s: State, b: nat, sub: Subscription, valid: bool, docId: Text,
                     attempts: seq<Ingress.Attempt>)
    requires Sized(net) && ChainInv(net, s) && Receivable(net, s, b, sub, attempts)
    ensures var stored := Stored(net, s.docs, sub, s.broadcasts[b], valid, docId, attempts);
            stored.Some? ==> Walked(net, stored.value)
  {
    var bc := s.broadcasts[b];
    var stored := Stored(net, s.docs, sub, bc, valid, docId, attempts);
    if stored.Some? {
      assert IngestedAt(net, stored.value, sub.node, sub.route);
      if bc.hops == 0 {
        assert WalkedBy(net, stored.value, [sub]);
      } else {
        assert HopsOn(net, s.docs, bc);
        var j: nat, job: D.Job, n: nat :| PublishedOf(net, s.docs, bc, j, job, n);
        assert Walked(net, s.docs[n]);
        var subs: seq<Subscription> :| WalkedBy(net, s.docs[n], subs);
        var last := subs[s.docs[n].hops];
        EchoRunsAlong(net, s.docs[n], bc, j, job, last.node, last.route, sub, valid);
        assert Link(net, last, sub);
        WalkExtends(net, subs, sub);
        assert WalkedBy(net, stored.value, subs + [sub]);
      }
    }
  }

  lemma ReceivedChain(net: Net, s: State, b: nat, sub: Subscription, valid: bool, docId: Text,
                      attempts: seq<Ingress.Attempt>)
    requires Sized(net) && ChainInv(net, s) && Receivable(net, s, b, sub, attempts)
    ensures ChainInv(net, Received(net, s, b, sub, valid, docId, attempts))
  {
    var bc, s' := s.broadcasts[b], Received(net, s, b, sub, valid, docId, attempts);
    StoredWalked(net, s, b, sub, valid, docId, attempts);
    forall n | 0 <= n < |s'.broadcasts| ensures HopsOn(net, s'.docs, s'.broadcasts[n]) {
      assert HopsOn(net, s.docs, s.broadcasts[n]);
      if n == b {
        HopsTaken(net, s.docs, bc, bc.taken + {sub});
      }
      if |s'.docs| > |s.docs| {
        HopsGrow(net, s.docs, s'.docs[|s.docs|], s'.broadcasts[n]);
      }
    }
  }

  lemma ForwardedChain(net: Net, s: State, call: Call)
    requires Sized(net) && Inv(net, s) && ChainInv(net, s) && Forwardable(net, s, call)
    ensures ChainInv(net, Next(net, s, Forward(call)))
  {
    var c, node := net.configs[call.node], NodeAt(net, s, call.node);
    var job := node.publishes[call.k];
    var s' := Next(net, s, Forward(call));
    D.RunKeeps(c, s.traces[call.node]);
    assert NodeFrom(s.docs, node);
    var bc := s'.broadcasts[|s.broadcasts|];
    assert PublishedBy(net, s.docs, bc, call.node, job);
    var n := HopsFound(s.docs, job.event);
    assert PublishedOf(net, s.docs, bc, call.node, job, n);
    forall b | 0 <= b < |s'.broadcasts| ensures HopsOn(net, s'.docs, s'.broadcasts[b]) {
      if b < |s.broadcasts| {
        assert HopsOn(net, s.docs, s.broadcasts[b]);
      }
    }
  }

  lemma NextChain(net: Net, s: State, step: Step)
    requires Sized(net) && Inv(net, s) && ChainInv(net, s)
    ensures ChainInv(net, Next(net, s, step))
  {
    match step {
      case Publish(broker, message) =>
      case Forward(call) => if Forwardable(net, s, call) { ForwardedChain(net, s, call); }
      case Receive(b, sub, valid, docId, attempts) =>
        if Receivable(net, s, b, sub, attempts) { ReceivedChain(net, s, b, sub, valid, docId, attempts); }
      case Local(i, st) =>
    }
  }

  lemma {:induction false} RunChain(net: Net, steps: seq<Step>)
    requires Sized(net)
    ensures ChainInv(net, Run(net, steps))
  {
    if steps != [] {
      RunChain(net, steps[..|steps| - 1]);
      RunKeeps(net, steps[..|steps| - 1]);
      NextChain(net, Run(net, steps[..|steps| - 1]), steps[|steps| - 1]);
    }
  }

  /** A message is never passed on more often than the configuration has links in a row. */
  lemma {:induction false} HopsNeedWalk(net: Net, n: nat)
    requires Sized(net) && CanHop(net, n)
    ensures WalkExists(net, n)
  {
    var steps :| Hopped(Run(net, steps), n);
    RunChain(net, steps);
    var s := Run(net, steps);
    var k :| 0 <= k < |s.docs| && s.docs[k].hops == n;
    assert Walked(net, s.docs[k]);
    var subs: seq<Subscription> :| WalkedBy(net, s.docs[k], subs);
  }

  // ---- walks of every length need a cycle ------------------------------------------------

  ghost predicate Cycle(net: Net, subs: seq<Subscription>)
    requires Sized(net)
  {
    Walk(net, subs) && |subs| > 1 && subs[0] == subs[|subs| - 1]
  }

  ghost predicate HasCycle(net: Net)
    requires Sized(net)
  {
    exists subs :: Cycle(net, subs)
  }

  function Subscriptions(net: Net): set<Subscription> {
    set i: nat, r: nat | i < |net.configs| && r < |net.configs[i].mappings| :: Subscription(i, r)
  }

  lemma WalkKnown(net: Net, subs: seq<Subscription>, t: nat)
    requires Sized(net) && Walk(net, subs) && t < |subs|
    ensures subs[t] in Subscriptions(net)
  {
    if t > 0 {
      assert Link(net, subs[t - 1], subs[t - 1 + 1]);
    }
    assert Known(net, subs[t]);
  }

  lemma {:induction false} DistinctFit<T>(s: seq<T>, all: set<T>)
    requires forall i :: 0 <= i < |s| ==> s[i] in all
    requires forall i, j :: 0 <= i < j < |s| ==> s[i] != s[j]
    ensures |s| <= |all|
  {
    if s != [] {
      var n := |s| - 1;
      DistinctFit(s[..n], all - {s[n]});
    }
  }

  /** A part of a walk that comes back to where it began. */
  lemma PartCycles(net: Net, subs: seq<Subscription>, i: nat, j: nat)
    requires Sized(net) && Walk(net, subs) && i < j < |subs| && subs[i] == subs[j]
    ensures Cycle(net, subs[i..j + 1])
  {
    var part := subs[i..j + 1];
    WalkKnown(net, subs, i);
    forall t | 0 <= t < |part| - 1 ensures Link(net, part[t], part[t + 1]) {
      assert Link(net, subs[i + t], subs[i + t + 1]);
    }
  }

  lemma LongWalkCycles(net: Net, subs: seq<Subscription>)
    requires Sized(net) && Walk(net, subs) && |subs| > |Subscriptions(net)|
    ensures HasCycle(net)
  {
    forall t | 0 <= t < |subs| ensures subs[t] in Subscriptions(net) {
      WalkKnown(net, subs, t);
    }
    if forall i, j :: 0 <= i < j < |subs| ==> subs[i] != subs[j] {
      DistinctFit(subs, Subscriptions(net));
    } else {
      var i: nat, j: nat :| i < j < |subs| && subs[i] == subs[j];
      PartCycles(net, subs, i, j);
    }
  }

  /** Round and round. */
  lemma {:induction false} CycleWalks(net: Net, cycle: seq<Subscription>, n: nat)
    returns (subs: seq<Subscription>, p: nat)
    requires Sized(net) && Cycle(net, cycle)
    ensures Walk(net, subs) && |subs| == n + 1 && p < |cycle| - 1 && subs[n] == cycle[p]
  {
    if n == 0 {
      subs, p := [cycle[0]], 0;
    } else {
      subs, p := CycleWalks(net, cycle, n - 1);
      assert Link(net, cycle[p], cycle[p + 1]);
      WalkExtends(net, subs, cycle[p + 1]);
      subs, p := subs + [cycle[p + 1]], if p + 1 == |cycle| - 1 then 0 else p + 1;
    }
  }

  /** Walks of every length exist if and only if the relay graph has a cycle. */
  lemma WalksIffCycle(net: Net)
    requires Sized(net)
    ensures (forall n: nat :: WalkExists(net, n)) <==> HasCycle(net)
  {
    if forall n: nat :: WalkExists(net, n) {
      var n := |Subscriptions(net)|;
      assert WalkExists(net, n);
      var subs :| Walk(net, subs) && |subs| == n + 1;
      LongWalkCycles(net, subs);
    }
    if HasCycle(net) {
      var cycle :| Cycle(net, cycle);
      forall n: nat ensures WalkExists(net, n) {
        var subs, p := CycleWalks(net, cycle, n);
      }
    }
  }

  // ---- every walk is a chain -----------------------------------------------------------------

  /** A node with nothing under way whose ledger, if it runs, knows at most the digests `used`. */
  ghost predicate Ready(s: D.Node, used: set<Digest>) {
    && s.callers == [] && s.reserved == [] && s.queue == [] && s.worker == D.Idle
    && (s.ledger.worker.None? ==> s.ledger == L.Start())
    && (s.ledger.worker.Some? ==> ReadyWorker(s.ledger.worker.value, used))
  }

  ghost predicate ReadyWorker(w: L.Worker, used: set<Digest>) {
    w.healthy && w.queue == [] && w.index.Keys <= used && w.sequence == |w.index|
  }

  lemma OpenReady(c: Config, s: D.Node, used: set<Digest>)
    requires Ready(s, used)
    ensures var s' := D.Next(c, s, D.Open(LedgerFile.Durable));
            Ready(s', used) && s'.ledger.worker.Some? && s'.publishes == s.publishes
  {
  }

  /** The node's part of one hop, once its ledger runs. */
  function HopSteps(c: Config, s: D.Node, event: Event): D.Node {
    var s1 := D.Next(c, D.Next(c, s, D.Deliver(event)), D.Execute(LedgerFile.Durable));
    var s2 := D.Next(c, D.Next(c, s1, D.Enqueue(0, true)), D.Take);
    D.Next(c, D.Next(c, s2, D.Publish(true)), D.Flush(false))
  }

  lemma ReserveReady(c: Config, s: D.Node, used: set<Digest>, job: D.Job)
    requires Ready(s, used) && s.ledger.worker.Some? && D.Classed(c, job)
    requires job.item.digest !in used && |used| < MAX_UNIQUE_ENTRIES
    ensures var s1 := D.Next(c, D.Next(c, s, D.Deliver(job.event)), D.Execute(LedgerFile.Durable));
            && s1.ledger.worker.Some? && ReadyWorker(s1.ledger.worker.value, used + {job.item.digest})
            && s1.callers == [] && s1.reserved == [job] && s1.queue == [] && s1.worker == D.Idle
            && s1.publishes == s.publishes
  {
    var w, g := s.ledger.worker.value, job.item.digest;
    SubsetSize(w.index.Keys, used);
    assert |w.index.Keys| == |w.index|;
    KeysGrow(w.index, g, Reserved);
    var s0 := D.Next(c, s, D.Deliver(job.event));
    assert s0.callers == [D.Deliverer(job)] && s0.ledger.worker.value.queue == [L.Command(g, Reserved)];
    ReserveExecuted(c, s0.ledger, g);
    assert D.Next(c, s0, D.Execute(LedgerFile.Durable)) == D.Answered(c, s0, LedgerFile.Durable);
    assert [D.Deliverer(job)][1..] == [];
  }

  lemma ReserveExecuted(c: Config, l: L.Ledger, g: Digest)
    requires l.worker.Some? && l.worker.value.queue == [L.Command(g, Reserved)]
    requires var w := l.worker.value; g !in w.index && |w.index| < MAX_UNIQUE_ENTRIES && w.sequence < U64_MAX
    ensures L.ReplyOf(LedgerFile.Delivery, l, LedgerFile.Durable) == L.Inserted
    ensures var l' := L.Executed(c.hash, LedgerFile.Delivery, l, LedgerFile.Durable);
            && l'.worker.Some? && l'.worker.value.index == l.worker.value.index[g := Reserved]
            && l'.worker.value.sequence == l.worker.value.sequence + 1
            && l'.worker.value.queue == [] && l'.worker.value.healthy == l.worker.value.healthy
  {
    assert [L.Command(g, Reserved)][1..] == [];
  }

  lemma NodeHops(c: Config, s: D.Node, used: set<Digest>, job: D.Job)
    requires Ready(s, used) && s.ledger.worker.Some? && D.Classed(c, job)
    requires job.item.digest !in used && |used| < MAX_UNIQUE_ENTRIES
    ensures var s' := HopSteps(c, s, job.event);
            Ready(s', used + {job.item.digest}) && s'.publishes == s.publishes + [job]
  {
    ReserveReady(c, s, used, job);
    var s1 := D.Next(c, D.Next(c, s, D.Deliver(job.event)), D.Execute(LedgerFile.Durable));
    var s2 := D.Next(c, s1, D.Enqueue(0, true));
    assert s2 == s1.(reserved := [], queue := [job]);
    assert D.Next(c, s2, D.Take) == s1.(reserved := [], worker := D.Taken(job));
  }

  function HopTrace(event: Event): seq<D.Step> {
    [D.Open(LedgerFile.Durable)] + D.PublishSteps(event) + [D.Flush(false)]
  }

  lemma {:induction false} RunHop(c: Config, trace: seq<D.Step>, event: Event)
    ensures D.Run(c, trace + HopTrace(event)) ==
            HopSteps(c, D.Next(c, D.Run(c, trace), D.Open(LedgerFile.Durable)), event)
  {
    var t1 := trace + [D.Open(LedgerFile.Durable)];
    var t2 := t1 + D.PublishSteps(event);
    D.RunSnoc(c, trace, D.Open(LedgerFile.Durable));
    D.RunPublish(c, t1, event);
    D.RunSnoc(c, t2, D.Flush(false));
    assert trace + HopTrace(event) == t2 + [D.Flush(false)];
  }

  /** Ledger key of the document that hop `u` of a walk stores, as one node computes it. */
  function KeyAt(net: Net, c: Config, subs: seq<Subscription>, ids: seq<Text>, u: nat): Digest
    requires u < |subs| && u < |ids| && Known(net, subs[u])
  {
    DocumentDigest(c.hash, net.configs[subs[u].node].mappings[subs[u].route].collection, ids[u])
  }

  ghost predicate AllKnown(net: Net, subs: seq<Subscription>) {
    forall t :: 0 <= t < |subs| ==> Known(net, subs[t])
  }

  /** No two documents along the walk have one ledger key on any node. */
  ghost predicate Separate(net: Net, subs: seq<Subscription>, ids: seq<Text>) {
    && |ids| == |subs| && AllKnown(net, subs)
    && forall j, u, v :: 0 <= j < |net.configs| && 0 <= u < v < |subs| ==>
         KeyAt(net, net.configs[j], subs, ids, u) != KeyAt(net, net.configs[j], subs, ids, v)
  }

  function KeysTo(net: Net, c: Config, subs: seq<Subscription>, ids: seq<Text>, t: nat): set<Digest>
    requires AllKnown(net, subs) && t <= |subs| == |ids|
  {
    if t == 0 then {} else KeysTo(net, c, subs, ids, t - 1) + {KeyAt(net, c, subs, ids, t - 1)}
  }

  lemma {:induction false} KeysFit(net: Net, subs: seq<Subscription>, ids: seq<Text>, j: nat, t: nat)
    requires j < |net.configs| && Separate(net, subs, ids) && t <= |subs|
    ensures |KeysTo(net, net.configs[j], subs, ids, t)| <= t
    ensures forall v :: t <= v < |subs| ==>
              KeyAt(net, net.configs[j], subs, ids, v) !in KeysTo(net, net.configs[j], subs, ids, t)
  {
    if t > 0 {
      KeysFit(net, subs, ids, j, t - 1);
    }
  }

  /** The walk's first `t` hops are made. */
  ghost predicate Stage(net: Net, s: State, subs: seq<Subscription>, ids: seq<Text>, t: nat)
    requires Sized(net) && Separate(net, subs, ids) && t < |subs|
  {
    && |s.traces| == |net.configs|
    && StageDocs(net, s.docs, subs, ids, t)
    && NodesReady(net, s.traces, subs, ids, t)
    && CallsMade(net, s.traces, s.sent)
  }

  ghost predicate NodesReady(net: Net, traces: seq<seq<D.Step>>, subs: seq<Subscription>, ids: seq<Text>, t: nat)
    requires Separate(net, subs, ids) && t < |subs| && |traces| == |net.configs|
  {
    forall j :: 0 <= j < |net.configs| ==>
      Ready(D.Run(net.configs[j], traces[j]), KeysTo(net, net.configs[j], subs, ids, t))
  }

  ghost predicate CallsMade(net: Net, traces: seq<seq<D.Step>>, sent: set<Call>)
    requires |traces| == |net.configs|
  {
    forall call :: call in sent ==>
      call.node < |net.configs| && call.k < |D.Run(net.configs[call.node], traces[call.node]).publishes|
  }

  ghost predicate StageDocs(net: Net, docs: seq<Doc>, subs: seq<Subscription>, ids: seq<Text>, t: nat)
    requires Sized(net) && AllKnown(net, subs) && |ids| == |subs| && t < |subs|
  {
    |docs| == t + 1 && forall u :: 0 <= u <= t ==> docs[u] == PlainDoc(net, subs[u], ids[u], u)
  }

  lemma ReadyGrows(s: D.Node, used: set<Digest>, more: set<Digest>)
    requires Ready(s, used) && used <= more
    ensures Ready(s, more)
  {
  }

  /** The document of a link's start is published by the link's node with the link's subject. */
  lemma LinkClassified(net: Net, a: Subscription, b: Subscription, j: nat, docId: Text, hops: nat)
    requires ValidNet(net) && EchoPath(net, b.node, j, a.node, b.route, a.route)
    ensures var doc := PlainDoc(net, a, docId, hops);
            var classified := Classify(net.configs[j], EventOf(doc));
            && classified.Item? && classified.item.payload == [48]
            && classified.item.digest == DocumentDigest(net.configs[j].hash, doc.collection, docId)
            && Subscribed(net, b, net.brokers[j], classified.item.subject)
  {
  }

  lemma {:induction false} NodeHopRun(c: Config, trace: seq<D.Step>, used: set<Digest>, job: D.Job)
    requires Ready(D.Run(c, trace), used) && D.Classed(c, job)
    requires job.item.digest !in used && |used| < MAX_UNIQUE_ENTRIES
    ensures var (s, s') := (D.Run(c, trace), D.Run(c, trace + HopTrace(job.event)));
            Ready(s', used + {job.item.digest}) && s'.publishes == s.publishes + [job]
  {
    var s := D.Run(c, trace);
    RunHop(c, trace, job.event);
    OpenReady(c, s, used);
    NodeHops(c, D.Next(c, s, D.Open(LedgerFile.Durable)), used, job);
  }

  lemma {:induction false} LocalHop(net: Net, steps: seq<Step>, j: nat, event: Event)
    requires Sized(net) && j < |net.configs| && IsDoc(Run(net, steps).docs, event)
    ensures var s := Run(net, steps);
            Run(net, steps + Locals(j, HopTrace(event))) == s.(traces := s.traces[j := s.traces[j] + HopTrace(event)])
  {
    LocalsRun(net, steps, j, HopTrace(event));
  }

  /** Node `j` publishes the latest document; the others stay as they are. */
  lemma {:induction false} NodesHop(net: Net, traces: seq<seq<D.Step>>, traces': seq<seq<D.Step>>,
                                    subs: seq<Subscription>, ids: seq<Text>, t: nat, j: nat, job: D.Job)
    requires Separate(net, subs, ids) && t + 1 < |subs| && t < MAX_UNIQUE_ENTRIES && j < |net.configs|
    requires |traces| == |net.configs| && NodesReady(net, traces, subs, ids, t) && D.Classed(net.configs[j], job)
    requires job.item.digest == KeyAt(net, net.configs[j], subs, ids, t)
    requires traces' == traces[j := traces[j] + HopTrace(job.event)]
    ensures NodesReady(net, traces', subs, ids, t + 1)
    ensures D.Run(net.configs[j], traces'[j]).publishes == D.Run(net.configs[j], traces[j]).publishes + [job]
  {
    KeysFit(net, subs, ids, j, t);
    assert Ready(D.Run(net.configs[j], traces[j]), KeysTo(net, net.configs[j], subs, ids, t));
    NodeHopRun(net.configs[j], traces[j], KeysTo(net, net.configs[j], subs, ids, t), job);
    forall i | 0 <= i < |net.configs|
      ensures Ready(D.Run(net.configs[i], traces'[i]), KeysTo(net, net.configs[i], subs, ids, t + 1))
    {
      if i != j {
        KeysGrowTo(net, net.configs[i], subs, ids, t);
        ReadyGrows(D.Run(net.configs[i], traces[i]), KeysTo(net, net.configs[i], subs, ids, t),
                   KeysTo(net, net.configs[i], subs, ids, t + 1));
      }
    }
  }

  lemma {:induction false} KeysGrowTo(net: Net, c: Config, subs: seq<Subscription>, ids: seq<Text>, t: nat)
    requires AllKnown(net, subs) && t < |subs| == |ids|
    ensures KeysTo(net, c, subs, ids, t) <= KeysTo(net, c, subs, ids, t + 1)
  {
  }

  lemma {:induction false} CallsHop(net: Net, traces: seq<seq<D.Step>>, traces': seq<seq<D.Step>>, sent: set<Call>,
                                    j: nat, job: D.Job)
    requires |traces| == |traces'| == |net.configs| && CallsMade(net, traces, sent) && j < |net.configs|
    requires forall i :: 0 <= i < |net.configs| && i != j ==> traces'[i] == traces[i]
    requires D.Run(net.configs[j], traces'[j]).publishes == D.Run(net.configs[j], traces[j]).publishes + [job]
    ensures CallsMade(net, traces', sent + {Call(j, |D.Run(net.configs[j], traces[j]).publishes|)})
  {
  }

  lemma {:induction false} DocsHop(net: Net, docs: seq<Doc>, subs: seq<Subscription>, ids: seq<Text>, t: nat)
    requires Sized(net) && Separate(net, subs, ids) && t + 1 < |subs| && StageDocs(net, docs, subs, ids, t)
    ensures StageDocs(net, docs + [PlainDoc(net, subs[t + 1], ids[t + 1], t + 1)], subs, ids, t + 1)
  {
  }

  lemma KeyIsFresh(net: Net, docs: seq<Doc>, subs: seq<Subscription>, ids: seq<Text>, t: nat)
    requires Sized(net) && Separate(net, subs, ids) && t + 1 < |subs| && StageDocs(net, docs, subs, ids, t)
    ensures !HasKey(docs, net.configs[subs[t + 1].node].mappings[subs[t + 1].route].collection, ids[t + 1])
  {
    var collection := net.configs[subs[t + 1].node].mappings[subs[t + 1].route].collection;
    var c := net.configs[subs[0].node];
    forall u | 0 <= u < |docs| ensures !(docs[u].collection == collection && docs[u].docId == ids[t + 1]) {
      assert docs[u] == PlainDoc(net, subs[u], ids[u], u);
      assert KeyAt(net, c, subs, ids, u) != KeyAt(net, c, subs, ids, t + 1);
    }
  }

  /** The publication reaches the broker and the next subscription stores it. */
  lemma {:induction false} HopStored(net: Net, s: State, j: nat, job: D.Job, k: nat, b: Subscription, docId: Text,
                                     t: nat)
    requires ValidNet(net) && |s.traces| == |net.configs| && j < |net.configs| && b.node != j && Known(net, b)
    requires k < |NodeAt(net, s, j).publishes| && NodeAt(net, s, j).publishes[k] == job && Call(j, k) !in s.sent
    requires job.item.payload == [48] && Subscribed(net, b, net.brokers[j], job.item.subject)
    requires HopsOf(s.docs, job.event) == t
    requires !HasKey(s.docs, net.configs[b.node].mappings[b.route].collection, docId)
    ensures var s' := Next(net, Next(net, s, Forward(Call(j, k))), Receive(|s.broadcasts|, b, true, docId, GOOD));
            && s'.docs == s.docs + [PlainDoc(net, b, docId, t + 1)] && s'.traces == s.traces
            && s'.sent == s.sent + {Call(j, k)}
  {
    var bc := Broadcast(net.brokers[j], Publication(net.configs[j], job.item), 1 + t, {});
    var s1 := Next(net, s, Forward(Call(j, k)));
    assert s1 == s.(broadcasts := s.broadcasts + [bc], sent := s.sent + {Call(j, k)});
    GoodStores();
    assert Receivable(net, s1, |s.broadcasts|, b, GOOD);
    assert Stored(net, s1.docs, b, bc, true, docId, GOOD) == Some(PlainDoc(net, b, docId, t + 1));
  }

  ghost predicate HopFits(net: Net, s: State, subs: seq<Subscription>, ids: seq<Text>, t: nat, j: nat, job: D.Job)
    requires Sized(net) && Separate(net, subs, ids) && t + 1 < |subs|
  {
    && j < |net.configs| && subs[t + 1].node != j && t < MAX_UNIQUE_ENTRIES && t < |s.docs|
    && job.event == EventOf(s.docs[t]) && D.Classed(net.configs[j], job)
    && job.item.digest == KeyAt(net, net.configs[j], subs, ids, t) && job.item.payload == [48]
    && Subscribed(net, subs[t + 1], net.brokers[j], job.item.subject)
  }

  lemma {:induction false} HopsLatest(net: Net, docs: seq<Doc>, subs: seq<Subscription>, ids: seq<Text>, t: nat)
    requires Sized(net) && Separate(net, subs, ids) && t < |subs| && StageDocs(net, docs, subs, ids, t)
    ensures HopsOf(docs, EventOf(docs[t])) == t
  {
    assert docs[t] == PlainDoc(net, subs[t], ids[t], t);
  }

  /** The mesh's part of one hop, once node `j` has published. */
  lemma {:induction false} HopState(net: Net, s: State, s1: State, subs: seq<Subscription>, ids: seq<Text>, t: nat,
                                    j: nat, job: D.Job)
    requires ValidNet(net) && Separate(net, subs, ids) && t + 1 < |subs|
    requires Stage(net, s, subs, ids, t) && HopFits(net, s, subs, ids, t, j, job)
    requires s1 == s.(traces := s.traces[j := s.traces[j] + HopTrace(job.event)])
    ensures var forward := Forward(Call(j, |NodeAt(net, s, j).publishes|));
            var receive := Receive(|s.broadcasts|, subs[t + 1], true, ids[t + 1], GOOD);
            Stage(net, Next(net, Next(net, s1, forward), receive), subs, ids, t + 1)
  {
    var k := |NodeAt(net, s, j).publishes|;
    NodesHop(net, s.traces, s1.traces, subs, ids, t, j, job);
    assert Call(j, k) !in s.sent;
    KeyIsFresh(net, s.docs, subs, ids, t);
    HopsLatest(net, s.docs, subs, ids, t);
    HopStored(net, s1, j, job, k, subs[t + 1], ids[t + 1], t);
    CallsHop(net, s.traces, s1.traces, s.sent, j, job);
    DocsHop(net, s.docs, subs, ids, t);
  }

  /** One hop, given the link's node and what it publishes. */
  lemma {:induction false} HopBy(net: Net, steps: seq<Step>, subs: seq<Subscription>, ids: seq<Text>, t: nat, j: nat,
                                 job: D.Job) returns (longer: seq<Step>)
    requires ValidNet(net) && Separate(net, subs, ids) && t + 1 < |subs|
    requires Stage(net, Run(net, steps), subs, ids, t) && HopFits(net, Run(net, steps), subs, ids, t, j, job)
    ensures Stage(net, Run(net, longer), subs, ids, t + 1)
  {
    var s := Run(net, steps);
    var local := steps + Locals(j, HopTrace(job.event));
    var forward := Forward(Call(j, |NodeAt(net, s, j).publishes|));
    var receive := Receive(|s.broadcasts|, subs[t + 1], true, ids[t + 1], GOOD);
    assert EventOf(s.docs[t]) == job.event && IsDoc(s.docs, job.event);
    LocalHop(net, steps, j, job.event);
    HopState(net, s, Run(net, local), subs, ids, t, j, job);
    RunSnoc(net, local, forward);
    RunSnoc(net, local + [forward], receive);
    longer := local + [forward] + [receive];
  }

  lemma {:induction false} Hop(net: Net, steps: seq<Step>, subs: seq<Subscription>, ids: seq<Text>, t: nat)
    returns (longer: seq<Step>)
    requires ValidNet(net) && Separate(net, subs, ids) && t + 1 < |subs| && t < MAX_UNIQUE_ENTRIES
    requires Stage(net, Run(net, steps), subs, ids, t) && Link(net, subs[t], subs[t + 1])
    ensures Stage(net, Run(net, longer), subs, ids, t + 1)
  {
    var j: nat :| EchoPath(net, subs[t + 1].node, j, subs[t].node, subs[t + 1].route, subs[t].route);
    var docs := Run(net, steps).docs;
    assert docs[t] == PlainDoc(net, subs[t], ids[t], t);
    LinkClassified(net, subs[t], subs[t + 1], j, ids[t], t);
    var event := EventOf(docs[t]);
    longer := HopBy(net, steps, subs, ids, t, j, D.Job(Classify(net.configs[j], event).item, event));
  }

  /** The application's message that starts the chain. */
  lemma {:induction false} FirstStage(net: Net, subs: seq<Subscription>, ids: seq<Text>) returns (steps: seq<Step>)
    requires Sized(net) && Separate(net, subs, ids) && subs != []
    ensures Stage(net, Run(net, steps), subs, ids, 0)
  {
    var sub := subs[0];
    var broker, subject := net.brokers[sub.node], net.configs[sub.node].mappings[sub.route].subject;
    PlainPublished(net, broker, subject);
    var publish, receive := Publish(broker, Plain(subject)), Receive(0, sub, true, ids[0], GOOD);
    var s := Run(net, [publish]);
    PlainStored(net, s, 0, sub, ids[0]);
    RunSnoc(net, [publish], receive);
    steps := [publish] + [receive];
  }

  lemma {:induction false} StageReached(net: Net, subs: seq<Subscription>, ids: seq<Text>, t: nat)
    returns (steps: seq<Step>)
    requires ValidNet(net) && Walk(net, subs) && Separate(net, subs, ids) && t < |subs| && t <= MAX_UNIQUE_ENTRIES
    ensures Stage(net, Run(net, steps), subs, ids, t)
  {
    if t == 0 {
      steps := FirstStage(net, subs, ids);
    } else {
      steps := StageReached(net, subs, ids, t - 1);
      assert Link(net, subs[t - 1], subs[t - 1 + 1]);
      steps := Hop(net, steps, subs, ids, t - 1);
    }
  }

  /** Along a walk, as long as a ledger's capacity, whose documents have different ledger keys, a message is passed on
      to the end. */
  lemma {:induction false} WalkHops(net: Net, subs: seq<Subscription>, ids: seq<Text>)
    requires ValidNet(net) && Walk(net, subs) && Separate(net, subs, ids) && |subs| - 1 <= MAX_UNIQUE_ENTRIES
    ensures CanHop(net, |subs| - 1)
  {
    var n := |subs| - 1;
    var steps := StageReached(net, subs, ids, n);
    assert Run(net, steps).docs[n] == PlainDoc(net, subs[n], ids[n], n);
    assert Hopped(Run(net, steps), n);
  }

  /** Document ids without colliding ledger keys exist for every walk over `n` links. */
  ghost predicate Separable(net: Net, n: nat)
    requires Sized(net)
  {
    forall subs :: Walk(net, subs) && |subs| == n + 1 ==> exists ids :: Separate(net, subs, ids)
  }

  /** Exactly how often a message can be passed on, up to the capacity of a ledger: as often as the configuration has
      links in a row. */
  lemma HopsIffWalk(net: Net, n: nat)
    requires ValidNet(net) && n <= MAX_UNIQUE_ENTRIES && Separable(net, n)
    ensures CanHop(net, n) <==> WalkExists(net, n)
  {
    if CanHop(net, n) {
      HopsNeedWalk(net, n);
    }
    if WalkExists(net, n) {
      var subs :| Walk(net, subs) && |subs| == n + 1;
      var ids :| Separate(net, subs, ids);
      WalkHops(net, subs, ids);
    }
  }

  /** In a mesh with no more subscriptions than a ledger has room for, and no colliding keys, a message can be passed on
      any number of times up to that room if and only if the relay graph has a cycle. */
  lemma ChainsIffCycle(net: Net)
    requires ValidNet(net) && |Subscriptions(net)| <= MAX_UNIQUE_ENTRIES
    requires forall n: nat :: n <= MAX_UNIQUE_ENTRIES ==> Separable(net, n)
    ensures (forall n: nat :: n <= MAX_UNIQUE_ENTRIES ==> CanHop(net, n)) <==> HasCycle(net)
  {
    if HasCycle(net) {
      WalksIffCycle(net);
      forall n: nat | n <= MAX_UNIQUE_ENTRIES ensures CanHop(net, n) {
        assert WalkExists(net, n);
        HopsIffWalk(net, n);
      }
    }
    if forall n: nat :: n <= MAX_UNIQUE_ENTRIES ==> CanHop(net, n) {
      var n := |Subscriptions(net)|;
      assert CanHop(net, n);
      HopsNeedWalk(net, n);
      var subs :| Walk(net, subs) && |subs| == n + 1;
      LongWalkCycles(net, subs);
    }
  }
}
