/** Properties of whole runs of the relay queue: any interleaving of enqueues and pops. */
module FanoutRuns {
  import opened Fanout

  datatype Op = Enqueue(key: string, kind: FanoutKind) | Pop

  function Do(qos: Qos, q: Queue, op: Op): (q': Queue)
    requires |q.dropped| == 6
    ensures |q'.dropped| == 6
  {
    match op
    case Enqueue(key, kind) => Enqueued(q, QosRank(qos, key), key, kind)
    case Pop => AfterPop(q)
  }

  function Run(qos: Qos, q: Queue, ops: seq<Op>): (q': Queue)
    requires |q.dropped| == 6
    ensures |q'.dropped| == 6
  {
    if ops == [] then q else Do(qos, Run(qos, q, ops[..|ops| - 1]), ops[|ops| - 1])
  }

  lemma DoKeeps(qos: Qos, q: Queue, op: Op)
    requires Valid(q)
    ensures Valid(Do(qos, q, op))
    ensures forall x :: x in Do(qos, q, op).pending ==> x in q.pending || x.seqno == q.nextSeq
    ensures q.nextSeq <= Do(qos, q, op).nextSeq
  {
    match op
    case Enqueue(key, kind) => EnqueueKeeps(q, QosRank(qos, key), key, kind);
    case Pop => PopKeeps(q);
  }

  /** Every run keeps both structures mirrored, ordered and within the bound. */
  lemma {:induction false} RunKeeps(qos: Qos, q: Queue, ops: seq<Op>)
    requires Valid(q)
    ensures Valid(Run(qos, q, ops))
  {
    if ops != [] {
      RunKeeps(qos, q, ops[..|ops| - 1]);
      DoKeeps(qos, Run(qos, q, ops[..|ops| - 1]), ops[|ops| - 1]);
    }
  }

  ghost predicate Ranked(qos: Qos, q: Queue) {
    forall e :: e in q.pending ==> e.rank == QosRank(qos, e.key)
  }

  lemma {:induction false} RunRanked(qos: Qos, ops: seq<Op>)
    ensures Ranked(qos, Run(qos, Empty(), ops))
  {
    if ops != [] {
      var q, op := Run(qos, Empty(), ops[..|ops| - 1]), ops[|ops| - 1];
      RunRanked(qos, ops[..|ops| - 1]);
      RunKeeps(qos, Empty(), ops[..|ops| - 1]);
      match op {
        case Pop => PopKeeps(q);
        case Enqueue(key, kind) =>
          if key !in q.entries {
            AdmitKeeps(q, QosRank(qos, key), key, kind);
            ShedKeeps(Admit(q, QosRank(qos, key), key, kind));
          }
      }
    }
  }

  /** Every pending document waits in the class of its own collection, the text before the first colon of its key. */
  lemma {:induction false} ClassOfCollection(qos: Qos, ops: seq<Op>, e: Entry, collection: string, rest: string)
    requires e in Run(qos, Empty(), ops).pending && e.key == collection + rest
    requires ':' !in collection && (rest == [] || rest[0] == ':')
    ensures e.rank == qos(collection)
  {
    RunRanked(qos, ops);
    CollectionBefore(collection, rest);
  }

  // ---- starvation bound -----------------------------------------------------

  /** Pending entries with a smaller sequence number. */
  function Older(s: seq<Entry>, n: nat): nat {
    if s == [] then 0 else Older(s[..|s| - 1], n) + if s[|s| - 1].seqno < n then 1 else 0
  }

  lemma {:induction false} OlderConcat(a: seq<Entry>, b: seq<Entry>, n: nat)
    ensures Older(a + b, n) == Older(a, n) + Older(b, n)
  {
    if b == [] {
      assert a + b == a;
    } else {
      OlderConcat(a, b[..|b| - 1], n);
      assert (a + b)[..|a + b| - 1] == a + b[..|b| - 1];
    }
  }

  lemma {:induction false} OlderOne(e: Entry, n: nat)
    ensures Older([e], n) == if e.seqno < n then 1 else 0
  {
    assert [e][..0] == [];
  }

  lemma {:induction false} OlderRemove(s: seq<Entry>, i: nat, n: nat)
    requires i < |s|
    ensures Older(s, n) == Older(RemoveAt(s, i), n) + if s[i].seqno < n then 1 else 0
  {
    assert s == s[..i] + ([s[i]] + s[i + 1..]);
    OlderConcat(s[..i], [s[i]] + s[i + 1..], n);
    OlderConcat([s[i]], s[i + 1..], n);
    OlderConcat(s[..i], s[i + 1..], n);
    OlderOne(s[i], n);
  }

  lemma {:induction false} OlderInsert(s: seq<Entry>, e: Entry, n: nat)
    ensures Older(Insert(s, e), n) == Older(s, n) + if e.seqno < n then 1 else 0
  {
    OlderOne(e, n);
    if s == [] {
    } else if Before(e, s[0]) {
      OlderConcat([e], s, n);
    } else {
      OlderInsert(s[1..], e, n);
      OlderConcat([s[0]], Insert(s[1..], e), n);
      OlderConcat([s[0]], s[1..], n);
      assert s == [s[0]] + s[1..];
    }
  }

  ghost predicate Has(q: Queue, n: nat) {
    exists e :: e in q.pending && e.seqno == n
  }

  /** Pops that the entry numbered `n` may still have to wait for. */
  function Wait(q: Queue, n: nat): int {
    9 * Older(q.pending, n) + 9 - q.burst
  }

  lemma EnqueueWait(q: Queue, rank: Rank, key: string, kind: FanoutKind, n: nat)
    requires Valid(q) && n < q.nextSeq
    ensures Wait(Enqueued(q, rank, key, kind), n) <= Wait(q, n)
  {
    if key !in q.entries {
      var q' := Admit(q, rank, key, kind);
      OlderInsert(q.pending, Entry(rank, q.nextSeq, key), n);
      if |q'.pending| > MAX_PENDING {
        var last := |q'.pending| - 1;
        assert q'.pending[..last] == RemoveAt(q'.pending, last);
        OlderRemove(q'.pending, last, n);
      }
    }
  }

  lemma PopWait(q: Queue, n: nat)
    requires Valid(q) && Has(q, n) && Has(AfterPop(q), n)
    ensures Wait(AfterPop(q), n) < Wait(q, n)
  {
    PopKeeps(q);
    var e :| e in AfterPop(q).pending && e.seqno == n;
    var i := Choice(q);
    DistinctEntries(q.pending, i, e);
    OlderRemove(q.pending, i, n);
  }

  lemma DistinctEntries(s: seq<Entry>, i: nat, e: Entry)
    requires DistinctSeqs(s) && i < |s| && e in s && e != s[i]
    ensures e.seqno != s[i].seqno
  {
    var j :| 0 <= j < |s| && s[j] == e;
  }

  function Pops(ops: seq<Op>): nat {
    if ops == [] then 0 else Pops(ops[..|ops| - 1]) + if ops[|ops| - 1].Pop? then 1 else 0
  }

  lemma {:induction false} WaitShrinks(qos: Qos, q: Queue, ops: seq<Op>, n: nat)
    requires Valid(q) && n < q.nextSeq && Has(Run(qos, q, ops), n)
    ensures Has(q, n) && Pops(ops) + Wait(Run(qos, q, ops), n) <= Wait(q, n)
    ensures q.nextSeq <= Run(qos, q, ops).nextSeq
  {
    if ops != [] {
      var (before, op) := (ops[..|ops| - 1], ops[|ops| - 1]);
      var mid := Run(qos, q, before);
      RunKeeps(qos, q, before);
      SequenceGrows(qos, q, before);
      DoKeeps(qos, mid, op);
      assert Has(mid, n);
      WaitShrinks(qos, q, before, n);
      match op
      case Enqueue(key, kind) => EnqueueWait(mid, QosRank(qos, key), key, kind, n);
      case Pop => PopWait(mid, n);
    }
  }

  lemma {:induction false} SequenceGrows(qos: Qos, q: Queue, ops: seq<Op>)
    requires Valid(q)
    ensures q.nextSeq <= Run(qos, q, ops).nextSeq
  {
    if ops != [] { SequenceGrows(qos, q, ops[..|ops| - 1]); }
  }

  /** No starvation: whatever is enqueued meanwhile, an entry with `k` older entries ahead of it is no longer
      pending after 9 * (k + 1) pops. Sequence numbers are never reused, so it was popped or shed. */
  lemma {:induction false} NoStarvation(qos: Qos, q: Queue, ops: seq<Op>, e: Entry)
    requires Valid(q) && e in q.pending
    requires Pops(ops) >= 9 * (Older(q.pending, e.seqno) + 1)
    ensures e !in Run(qos, q, ops).pending
  {
    var end := Run(qos, q, ops);
    if e in end.pending {
      RunKeeps(qos, q, ops);
      WaitShrinks(qos, q, ops, e.seqno);
    }
  }

  // ---- priority -------------------------------------------------------------

  /** Pops that served something other than the highest-priority entry. */
  function FairPops(qos: Qos, q: Queue, ops: seq<Op>): nat
    requires |q.dropped| == 6
  {
    if ops == [] then 0
    else
      var mid := Run(qos, q, ops[..|ops| - 1]);
      FairPops(qos, q, ops[..|ops| - 1])
      + if ops[|ops| - 1].Pop? && mid.pending != [] && Choice(mid) != 0 then 1 else 0
  }

  lemma {:induction false} FairPopsCost(qos: Qos, q: Queue, ops: seq<Op>)
    requires Valid(q)
    ensures 9 * FairPops(qos, q, ops) + Run(qos, q, ops).burst <= Pops(ops) + q.burst
  {
    if ops != [] {
      var mid := Run(qos, q, ops[..|ops| - 1]);
      FairPopsCost(qos, q, ops[..|ops| - 1]);
      RunKeeps(qos, q, ops[..|ops| - 1]);
    }
  }

  /** At most one of any nine consecutive pops departs from strict priority. */
  lemma {:induction false} OneFairPopInNine(qos: Qos, q: Queue, ops: seq<Op>)
    requires Valid(q) && Pops(ops) <= 9
    ensures FairPops(qos, q, ops) <= 1
  {
    FairPopsCost(qos, q, ops);
  }

  // ---- exactly which entry a pop serves -----------------------------------------

  /** A pop takes this entry out. */
  predicate Takes(q: Queue, e: Entry) {
    e in q.pending && e !in AfterPop(q).pending
  }

  /** A pop serves an entry and leaves an older one pending. */
  ghost predicate LeavesOlder(q: Queue) {
    exists e, older :: Takes(q, e) && older in AfterPop(q).pending && older.seqno < e.seqno
  }

  /** How many of the latest pops, in a row, each left an older entry pending; a pop of an empty queue ends the row. */
  ghost function Streak(qos: Qos, ops: seq<Op>): nat {
    if ops == [] then 0
    else
      var before := ops[..|ops| - 1];
      if ops[|ops| - 1].Enqueue? then Streak(qos, before)
      else if LeavesOlder(Run(qos, Empty(), before)) then Streak(qos, before) + 1
      else 0
  }

  ghost predicate BestRanked(q: Queue, e: Entry) {
    e in q.pending && forall x :: x in q.pending && x != e ==> Before(e, x)
  }

  ghost predicate OldestOf(q: Queue, e: Entry) {
    e in q.pending && forall x :: x in q.pending && x != e ==> e.seqno < x.seqno
  }

  lemma TakesChoice(q: Queue, e: Entry)
    requires Valid(q)
    ensures Takes(q, e) <==> q.pending != [] && e == q.pending[Choice(q)]
  {
    if q.pending != [] {
      RemoveElements(q.pending, Choice(q));
    }
  }

  lemma FirstIsBest(q: Queue, e: Entry)
    requires Valid(q) && q.pending != []
    ensures BestRanked(q, e) <==> e == q.pending[0]
  {
    forall x | x in q.pending && x != q.pending[0] ensures Before(q.pending[0], x) {
      var j :| 0 <= j < |q.pending| && q.pending[j] == x;
    }
  }

  lemma OldestIsOldest(q: Queue, e: Entry)
    requires Valid(q) && q.pending != []
    ensures OldestOf(q, e) <==> e == q.pending[Oldest(q.pending)]
  {
    var i := Oldest(q.pending);
    var first := q.pending[i];
    assert first in q.pending;
    forall x | x in q.pending && x != first ensures first.seqno < x.seqno {
      DistinctEntries(q.pending, i, x);
      var j :| 0 <= j < |q.pending| && q.pending[j] == x;
    }
  }

  /** A pop leaves something older behind exactly if it does not serve the oldest entry. */
  lemma LeavesOlderIff(q: Queue)
    requires Valid(q)
    ensures LeavesOlder(q) <==> q.pending != [] && Choice(q) != Oldest(q.pending)
  {
    if q.pending != [] {
      var served, oldest := q.pending[Choice(q)], q.pending[Oldest(q.pending)];
      TakesChoice(q, served);
      TakesChoice(q, oldest);
      OldestIsOldest(q, oldest);
      RemoveElements(q.pending, Choice(q));
      if Choice(q) != Oldest(q.pending) {
        assert q.pending[Choice(q)].seqno != q.pending[Oldest(q.pending)].seqno;
        assert Takes(q, served) && oldest in AfterPop(q).pending;
      } else {
        forall e | Takes(q, e) ensures e == oldest {
          TakesChoice(q, e);
        }
      }
    }
  }

  lemma {:induction false} BurstIsStreak(qos: Qos, ops: seq<Op>)
    ensures Valid(Run(qos, Empty(), ops)) && Run(qos, Empty(), ops).burst == Streak(qos, ops)
  {
    RunKeeps(qos, Empty(), ops);
    if ops != [] {
      BurstIsStreak(qos, ops[..|ops| - 1]);
      LeavesOlderIff(Run(qos, Empty(), ops[..|ops| - 1]));
    }
  }

  /** Over every run of operations: a pop serves the oldest entry if each of the eight pops before it found a nonempty
      queue and left an older entry pending, and the best-ranked one otherwise. */
  lemma {:induction false} PopExact(qos: Qos, ops: seq<Op>, e: Entry)
    ensures var q := Run(qos, Empty(), ops);
            Takes(q, e) <==> if Streak(qos, ops) >= 8 then OldestOf(q, e) else BestRanked(q, e)
  {
    BurstIsStreak(qos, ops);
    var q := Run(qos, Empty(), ops);
    TakesChoice(q, e);
    if q.pending != [] {
      FirstIsBest(q, e);
      OldestIsOldest(q, e);
    }
  }

  // ---- conservation ---------------------------------------------------------

  function Sum(s: seq<nat>): nat {
    if s == [] then 0 else Sum(s[..|s| - 1]) + s[|s| - 1]
  }

  lemma {:induction false} SumUpdate(s: seq<nat>, i: nat)
    requires i < |s|
    ensures Sum(s[i := s[i] + 1]) == Sum(s) + 1
  {
    var (last, s') := (|s| - 1, s[i := s[i] + 1]);
    if i == last {
      assert s'[..last] == s[..last];
    } else {
      SumUpdate(s[..last], i);
      assert s'[..last] == s[..last][i := s[i] + 1];
    }
  }

  /** Pops that returned an entry. */
  function Served(qos: Qos, ops: seq<Op>): nat {
    if ops == [] then 0
    else
      Served(qos, ops[..|ops| - 1])
      + if ops[|ops| - 1].Pop? && Run(qos, Empty(), ops[..|ops| - 1]).pending != [] then 1 else 0
  }

  lemma {:induction false} SumZeros(s: seq<nat>)
    requires forall i :: 0 <= i < |s| ==> s[i] == 0
    ensures Sum(s) == 0
  {
    if s != [] { SumZeros(s[..|s| - 1]); }
  }

  lemma EnqueueConserves(q: Queue, rank: Rank, key: string, kind: FanoutKind)
    requires |q.dropped| == 6
    ensures var q' := Enqueued(q, rank, key, kind);
            q'.nextSeq - |q'.pending| - Sum(q'.dropped) == q.nextSeq - |q.pending| - Sum(q.dropped)
  {
    var q' := Admit(q, rank, key, kind);
    SumUpdate(q'.dropped, q'.pending[|q'.pending| - 1].rank);
  }

  /** Every sequence number ever issued is pending, was served, or is counted as shed. */
  lemma {:induction false} Conservation(qos: Qos, ops: seq<Op>)
    ensures var q := Run(qos, Empty(), ops);
            q.nextSeq == Served(qos, ops) + |q.pending| + Sum(q.dropped)
  {
    if ops == [] {
      SumZeros(Empty().dropped);
    } else {
      var (before, op) := (ops[..|ops| - 1], ops[|ops| - 1]);
      Conservation(qos, before);
      if op.Enqueue? {
        EnqueueConserves(Run(qos, Empty(), before), QosRank(qos, op.key), op.key, op.kind);
      }
    }
  }

  // ---- audience -------------------------------------------------------------

  datatype Event = Sent(key: string, kind: FanoutKind) | Gone(key: string)

  /** What an operation does to documents: a change arrives, an entry is popped or shed. */
  function Events(qos: Qos, q: Queue, op: Op): seq<Event> {
    match op
    case Enqueue(key, kind) =>
      var q' := Admit(q, QosRank(qos, key), key, kind);
      if key !in q.entries && |q'.pending| > MAX_PENDING
      then [Sent(key, kind), Gone(q'.pending[|q'.pending| - 1].key)]
      else [Sent(key, kind)]
    case Pop => if q.pending == [] then [] else [Gone(q.pending[Choice(q)].key)]
  }

  function Trace(qos: Qos, ops: seq<Op>): seq<Event> {
    if ops == [] then []
    else Trace(qos, ops[..|ops| - 1]) + Events(qos, Run(qos, Empty(), ops[..|ops| - 1]), ops[|ops| - 1])
  }

  /** The peers owed something by the changes of a document since it was last popped or shed. */
  function Owed(trace: seq<Event>, key: string, peers: set<string>): set<string> {
    if trace == [] then {}
    else
      var (before, last) := (trace[..|trace| - 1], trace[|trace| - 1]);
      if last.key != key then Owed(before, key, peers)
      else if last.Gone? then {}
      else Owed(before, key, peers) + Audience(last.kind, peers)
  }

  /** A change of the document is for this peer: a local change, or one that another peer sent. */
  predicate MeantFor(e: Event, key: string, peer: string) {
    e.Sent? && e.key == key && e.kind != ExcludeSource(peer)
  }

  /** A peer is owed a document exactly if a change meant for it arrived since the document was last popped or shed. */
  ghost predicate OwedSince(trace: seq<Event>, key: string, peer: string) {
    exists k :: 0 <= k < |trace| && MeantFor(trace[k], key, peer) && Gone(key) !in trace[k..]
  }

  lemma OwedSinceSnoc(trace: seq<Event>, e: Event, key: string, peer: string)
    ensures OwedSince(trace + [e], key, peer) <==>
            MeantFor(e, key, peer) || (OwedSince(trace, key, peer) && e != Gone(key))
  {
    var longer, n := trace + [e], |trace|;
    if MeantFor(e, key, peer) {
      assert longer[n..] == [e] && MeantFor(longer[n], key, peer);
    }
    if OwedSince(trace, key, peer) && e != Gone(key) {
      var k :| 0 <= k < n && MeantFor(trace[k], key, peer) && Gone(key) !in trace[k..];
      assert longer[k..] == trace[k..] + [e] && MeantFor(longer[k], key, peer);
    }
    if OwedSince(longer, key, peer) {
      var k :| 0 <= k < |longer| && MeantFor(longer[k], key, peer) && Gone(key) !in longer[k..];
      assert e == longer[k..][n - k];
      if k < n {
        assert longer[k..] == trace[k..] + [e] && MeantFor(trace[k], key, peer);
      }
    }
  }

  lemma {:induction false} OwedIff(trace: seq<Event>, key: string, peers: set<string>, peer: string)
    ensures peer in Owed(trace, key, peers) <==> peer in peers && OwedSince(trace, key, peer)
  {
    if trace != [] {
      var n := |trace| - 1;
      OwedIff(trace[..n], key, peers, peer);
      OwedSinceSnoc(trace[..n], trace[n], key, peer);
      assert trace[..n] + [trace[n]] == trace;
    }
  }

  lemma {:induction false} OwedGrows(trace: seq<Event>, e: Event, key: string, peers: set<string>)
    ensures Owed(trace + [e], key, peers) ==
            if e.key != key then Owed(trace, key, peers)
            else if e.Gone? then {}
            else Owed(trace, key, peers) + Audience(e.kind, peers)
  {
    assert (trace + [e])[..|trace|] == trace;
  }

  ghost predicate Owes(q: Queue, trace: seq<Event>, key: string, peers: set<string>) {
    Owed(trace, key, peers) == if key in q.entries then Audience(q.entries[key].kind, peers) else {}
  }

  lemma SentOwes(q: Queue, q': Queue, trace: seq<Event>, sent: Event, key: string, peers: set<string>)
    requires sent.Sent? && Owes(q, trace, key, peers)
    requires key != sent.key ==> (key in q'.entries <==> key in q.entries)
                                 && (key in q.entries ==> q'.entries[key] == q.entries[key])
    requires sent.key in q'.entries
    requires q'.entries[sent.key].kind ==
             if sent.key in q.entries then Merge(q.entries[sent.key].kind, sent.kind) else sent.kind
    ensures Owes(q', trace + [sent], key, peers)
  {
    OwedGrows(trace, sent, key, peers);
    if sent.key in q.entries { MergeIsUnion(q.entries[sent.key].kind, sent.kind, peers); }
  }

  lemma GoneOwes(q: Queue, q': Queue, trace: seq<Event>, gone: string, key: string, peers: set<string>)
    requires Owes(q, trace, key, peers) && q'.entries == q.entries - {gone}
    ensures Owes(q', trace + [Gone(gone)], key, peers)
  {
    OwedGrows(trace, Gone(gone), key, peers);
  }

  lemma AdmitOwes(qos: Qos, q: Queue, k: string, kind: FanoutKind, trace: seq<Event>, key: string, peers: set<string>)
    requires |q.dropped| == 6 && Owes(q, trace, key, peers) && k !in q.entries
    ensures Owes(Enqueued(q, QosRank(qos, k), k, kind), trace + Events(qos, q, Enqueue(k, kind)), key, peers)
  {
    var admitted := Admit(q, QosRank(qos, k), k, kind);
    var sent := trace + [Sent(k, kind)];
    SentOwes(q, admitted, trace, Sent(k, kind), key, peers);
    if |admitted.pending| > MAX_PENDING {
      var victim := admitted.pending[|admitted.pending| - 1].key;
      GoneOwes(admitted, Shed(admitted), sent, victim, key, peers);
      assert trace + [Sent(k, kind), Gone(victim)] == sent + [Gone(victim)];
    }
  }

  lemma DoOwes(qos: Qos, q: Queue, op: Op, trace: seq<Event>, key: string, peers: set<string>)
    requires |q.dropped| == 6 && Owes(q, trace, key, peers)
    ensures Owes(Do(qos, q, op), trace + Events(qos, q, op), key, peers)
  {
    if op.Enqueue? {
      if op.key in q.entries {
        SentOwes(q, Do(qos, q, op), trace, Sent(op.key, op.kind), key, peers);
      } else {
        AdmitOwes(qos, q, op.key, op.kind, trace, key, peers);
      }
    } else if q.pending == [] {
      assert trace + [] == trace;
    } else {
      GoneOwes(q, AfterPop(q), trace, q.pending[Choice(q)].key, key, peers);
    }
  }

  /** Coalescing is exact over whole runs: a pending document will be sent to precisely the peers that the
      changes since its last pop or eviction were for, and a document with nothing owed is not pending for
      any peer. */
  lemma {:induction false} AudienceExact(qos: Qos, ops: seq<Op>, key: string, peers: set<string>)
    ensures Owes(Run(qos, Empty(), ops), Trace(qos, ops), key, peers)
  {
    if ops != [] {
      var before := ops[..|ops| - 1];
      AudienceExact(qos, before, key, peers);
      DoOwes(qos, Run(qos, Empty(), before), ops[|ops| - 1], Trace(qos, before), key, peers);
    }
  }

  /** So the worker, when it pops a document, sends it to exactly those peers. */
  lemma PoppedAudience(qos: Qos, ops: seq<Op>, peers: set<string>)
    requires Run(qos, Empty(), ops).pending != []
    ensures Valid(Run(qos, Empty(), ops))
    ensures var (key, kind) := Popped(Run(qos, Empty(), ops)).value;
            Audience(kind, peers) == Owed(Trace(qos, ops), key, peers)
  {
    var q := Run(qos, Empty(), ops);
    RunKeeps(qos, Empty(), ops);
    PopKeeps(q);
    AudienceExact(qos, ops, q.pending[Choice(q)].key, peers);
  }
}
