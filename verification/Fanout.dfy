/** The QoS relay queue of `fanout.rs`: coalescing, bounded eviction and burst-limited priority service. */
module Fanout {
  import opened Wrappers

  // ---- fanout intent --------------------------------------------------------

  datatype FanoutKind = AllPeers | ExcludeSource(source: string)

  function Merge(a: FanoutKind, b: FanoutKind): FanoutKind {
    if a.AllPeers? || b.AllPeers? then AllPeers
    else if a.source == b.source then a
    else AllPeers
  }

  /** The peers the worker sends to when it drains an entry of this kind. */
  function Audience(kind: FanoutKind, peers: set<string>): set<string> {
    match kind
    case AllPeers => peers
    case ExcludeSource(source) => peers - {source}
  }

  /** Coalescing loses no peer and adds none, for every set of connected peers. */
  lemma MergeIsUnion(a: FanoutKind, b: FanoutKind, peers: set<string>)
    ensures Audience(Merge(a, b), peers) == Audience(a, peers) + Audience(b, peers)
  {
  }

  /** The order and the number of coalesced changes do not matter. */
  lemma MergeSemilattice(a: FanoutKind, b: FanoutKind, c: FanoutKind)
    ensures Merge(a, Merge(b, c)) == Merge(Merge(a, b), c)
    ensures Merge(a, b) == Merge(b, a)
    ensures Merge(a, a) == a
  {
  }

  // ---- queue state ----------------------------------------------------------

  const MAX_PENDING: nat := 4096
  const MAX_PRIORITY_BURST: nat := 8

  type Rank = r: nat | 1 <= r <= 5 witness 1
  /** `QoSClass::for_collection`, a library function. */
  type Qos = string -> Rank

  datatype Entry = Entry(rank: Rank, seqno: nat, key: string)
  datatype Slot = Slot(rank: Rank, seqno: nat, kind: FanoutKind)
  /** `pending` lists the ordered set from highest to lowest priority. */
  datatype Queue = Queue(pending: seq<Entry>, entries: map<string, Slot>, nextSeq: nat, dropped: seq<nat>, burst: nat)

  function Empty(): Queue {
    Queue([], map[], 0, [0, 0, 0, 0, 0, 0], 0)
  }

  function Collection(docKey: string): string {
    if docKey == [] || docKey[0] == ':' then [] else [docKey[0]] + Collection(docKey[1..])
  }

  function QosRank(qos: Qos, docKey: string): Rank {
    qos(Collection(docKey))
  }

  /** The collection of a document key is what stands before its first colon, or all of it. */
  lemma {:induction false} CollectionBefore(collection: string, rest: string)
    requires ':' !in collection && (rest == [] || rest[0] == ':')
    ensures Collection(collection + rest) == collection
  {
    if collection == [] {
      assert collection + rest == rest;
    } else {
      CollectionBefore(collection[1..], rest);
      assert (collection + rest)[1..] == collection[1..] + rest;
    }
  }

  predicate Before(a: Entry, b: Entry) {
    a.rank < b.rank || (a.rank == b.rank && a.seqno < b.seqno)
  }

  ghost predicate Sorted(s: seq<Entry>) {
    forall i, j :: 0 <= i < j < |s| ==> Before(s[i], s[j])
  }

  ghost predicate DistinctSeqs(s: seq<Entry>) {
    forall i, j :: 0 <= i < j < |s| ==> s[i].seqno != s[j].seqno
  }

  /** Both structures describe the same keys. */
  ghost predicate Mirrored(q: Queue) {
    && (forall e :: e in q.pending ==>
          e.key in q.entries && q.entries[e.key].rank == e.rank && q.entries[e.key].seqno == e.seqno)
    && (forall k :: k in q.entries ==> Entry(q.entries[k].rank, q.entries[k].seqno, k) in q.pending)
  }

  ghost predicate Shape(q: Queue) {
    && Sorted(q.pending) && DistinctSeqs(q.pending) && Mirrored(q)
    && (forall e :: e in q.pending ==> e.seqno < q.nextSeq)
    && |q.dropped| == 6 && q.burst <= MAX_PRIORITY_BURST
  }

  ghost predicate Valid(q: Queue) {
    Shape(q) && |q.pending| <= MAX_PENDING
  }

  // ---- operations -----------------------------------------------------------

  function Insert(s: seq<Entry>, e: Entry): (r: seq<Entry>)
    ensures |r| == |s| + 1
  {
    if s == [] then [e] else if Before(e, s[0]) then [e] + s else [s[0]] + Insert(s[1..], e)
  }

  function RemoveAt<T>(s: seq<T>, i: nat): (r: seq<T>)
    requires i < |s|
    ensures |r| == |s| - 1
  {
    s[..i] + s[i + 1..]
  }

  /** Position of the smallest sequence number. */
  function Oldest(s: seq<Entry>): (i: nat)
    requires s != []
    ensures i < |s| && forall j :: 0 <= j < |s| ==> s[i].seqno <= s[j].seqno
  {
    if |s| == 1 then 0
    else
      var i := Oldest(s[..|s| - 1]);
      if s[|s| - 1].seqno < s[i].seqno then |s| - 1 else i
  }

  /** One more drop of class `rank`. */
  function OneMore(dropped: seq<nat>, rank: Rank): seq<nat>
    requires |dropped| == 6
  {
    dropped[rank := dropped[rank] + 1]
  }

  /** Shed the lowest-priority, latest entry and count it in its class. */
  function Shed(q: Queue): Queue
    requires q.pending != [] && |q.dropped| == 6
  {
    var victim := q.pending[|q.pending| - 1];
    q.(pending := q.pending[..|q.pending| - 1], entries := q.entries - {victim.key},
       dropped := OneMore(q.dropped, victim.rank))
  }

  function Admit(q: Queue, rank: Rank, key: string, kind: FanoutKind): Queue {
    q.(pending := Insert(q.pending, Entry(rank, q.nextSeq, key)),
       entries := q.entries[key := Slot(rank, q.nextSeq, kind)],
       nextSeq := q.nextSeq + 1)
  }

  function Enqueued(q: Queue, rank: Rank, key: string, kind: FanoutKind): Queue
    requires |q.dropped| == 6
  {
    if key in q.entries then
      q.(entries := q.entries[key := q.entries[key].(kind := Merge(q.entries[key].kind, kind))])
    else
      var q' := Admit(q, rank, key, kind);
      if |q'.pending| > MAX_PENDING then Shed(q') else q'
  }

  /** Which pending entry `pop` serves. */
  function Choice(q: Queue): (i: nat)
    requires q.pending != []
    ensures i < |q.pending|
  {
    if Oldest(q.pending) != 0 && q.burst >= MAX_PRIORITY_BURST then Oldest(q.pending) else 0
  }

  function AfterPop(q: Queue): Queue {
    if q.pending == [] then q.(burst := 0)
    else
      q.(pending := RemoveAt(q.pending, Choice(q)), entries := q.entries - {q.pending[Choice(q)].key},
         burst := if Oldest(q.pending) == 0 || q.burst >= MAX_PRIORITY_BURST then 0 else q.burst + 1)
  }

  ghost function Popped(q: Queue): (r: Option<(string, FanoutKind)>)
    requires Valid(q)
    ensures r.Some? <==> q.pending != []
  {
    if q.pending == [] then None
    else
      var key := q.pending[Choice(q)].key;
      assert q.pending[Choice(q)] in q.pending;
      Some((key, q.entries[key].kind))
  }

  // ---- what the operations keep ---------------------------------------------

  lemma {:induction false} InsertElements(s: seq<Entry>, e: Entry)
    ensures forall x :: x in Insert(s, e) <==> x in s || x == e
  {
    if s != [] && !Before(e, s[0]) {
      InsertElements(s[1..], e);
      assert s == [s[0]] + s[1..];
    }
  }

  lemma {:induction false} InsertSorted(s: seq<Entry>, e: Entry)
    requires Sorted(s) && forall x :: x in s ==> x.seqno < e.seqno
    ensures Sorted(Insert(s, e))
  {
    if s != [] && !Before(e, s[0]) {
      assert forall x :: x in s[1..] ==> x in s;
      InsertSorted(s[1..], e);
      InsertElements(s[1..], e);
      var r := Insert(s[1..], e);
      forall j | 0 <= j < |r| ensures Before(s[0], r[j]) {
        assert r[j] in r;
        if r[j] != e {
          var i :| 0 <= i < |s[1..]| && s[1..][i] == r[j];
          assert s[i + 1] == r[j];
        } else {
          assert s[0] in s;
        }
      }
    }
  }

  lemma {:induction false} InsertDistinct(s: seq<Entry>, e: Entry)
    requires DistinctSeqs(s) && forall x :: x in s ==> x.seqno < e.seqno
    ensures DistinctSeqs(Insert(s, e))
  {
    if s != [] && !Before(e, s[0]) {
      assert forall x :: x in s[1..] ==> x in s;
      InsertDistinct(s[1..], e);
      InsertElements(s[1..], e);
      var r := Insert(s[1..], e);
      forall j | 0 <= j < |r| ensures r[j].seqno != s[0].seqno {
        assert r[j] in r;
        if r[j] != e {
          var i :| 0 <= i < |s[1..]| && s[1..][i] == r[j];
          assert s[i + 1] == r[j];
        } else {
          assert s[0] in s;
        }
      }
    }
  }

  lemma RemoveElements(s: seq<Entry>, i: nat)
    requires i < |s| && DistinctSeqs(s)
    ensures forall x :: x in RemoveAt(s, i) <==> x in s && x != s[i]
  {
    var r := RemoveAt(s, i);
    forall x | x in s && x != s[i] ensures x in r {
      var j :| 0 <= j < |s| && s[j] == x;
      assert r[if j < i then j else j - 1] == x;
    }
    forall x | x in r ensures x in s && x != s[i] {
      var j :| 0 <= j < |r| && r[j] == x;
      assert s[if j < i then j else j + 1] == x;
    }
  }

  lemma RemoveOrder(s: seq<Entry>, i: nat)
    requires i < |s| && Sorted(s) && DistinctSeqs(s)
    ensures Sorted(RemoveAt(s, i)) && DistinctSeqs(RemoveAt(s, i))
  {
    var r := RemoveAt(s, i);
    forall j, k | 0 <= j < k < |r| ensures Before(r[j], r[k]) && r[j].seqno != r[k].seqno {
      var (j', k') := (if j < i then j else j + 1, if k < i then k else k + 1);
      assert r[j] == s[j'] && r[k] == s[k'] && j' < k';
    }
  }

  /** Removing an entry from both structures, as eviction and `pop` do. */
  lemma RemoveKeeps(q: Queue, i: nat, q': Queue)
    requires Shape(q) && i < |q.pending|
    requires q'.pending == RemoveAt(q.pending, i) && q'.entries == q.entries - {q.pending[i].key}
    requires q'.nextSeq == q.nextSeq && |q'.dropped| == 6 && q'.burst <= MAX_PRIORITY_BURST
    ensures Shape(q')
    ensures forall x :: x in q'.pending <==> x in q.pending && x != q.pending[i]
  {
    RemoveElements(q.pending, i);
    RemoveOrder(q.pending, i);
    RemoveMirrored(q, q.pending[i], q');
  }

  lemma RemoveMirrored(q: Queue, e: Entry, q': Queue)
    requires Mirrored(q) && e in q.pending && q'.entries == q.entries - {e.key}
    requires forall x :: x in q'.pending <==> x in q.pending && x != e
    ensures Mirrored(q')
  {
    assert forall x :: x in q'.pending ==> x.key != e.key;
  }

  lemma AdmitKeeps(q: Queue, rank: Rank, key: string, kind: FanoutKind)
    requires Shape(q) && key !in q.entries
    ensures Shape(Admit(q, rank, key, kind))
    ensures forall x :: x in Admit(q, rank, key, kind).pending <==> x in q.pending || x == Entry(rank, q.nextSeq, key)
  {
    var e := Entry(rank, q.nextSeq, key);
    InsertElements(q.pending, e);
    InsertSorted(q.pending, e);
    InsertDistinct(q.pending, e);
  }

  lemma ShedKeeps(q: Queue)
    requires Shape(q) && q.pending != []
    ensures Shape(Shed(q))
    ensures forall x :: x in Shed(q).pending <==> x in q.pending && x != q.pending[|q.pending| - 1]
  {
    var last := |q.pending| - 1;
    assert q.pending[..last] == RemoveAt(q.pending, last);
    RemoveKeeps(q, last, Shed(q));
  }

  lemma EnqueueKeeps(q: Queue, rank: Rank, key: string, kind: FanoutKind)
    requires Valid(q)
    ensures Valid(Enqueued(q, rank, key, kind))
    ensures forall x :: x in Enqueued(q, rank, key, kind).pending ==> x in q.pending || x.seqno == q.nextSeq
  {
    if key !in q.entries {
      AdmitKeeps(q, rank, key, kind);
      var q' := Admit(q, rank, key, kind);
      if |q'.pending| > MAX_PENDING { ShedKeeps(q'); }
    } else {
      var q' := Enqueued(q, rank, key, kind);
      assert Mirrored(q');
    }
  }

  lemma PopKeeps(q: Queue)
    requires Valid(q)
    ensures Valid(AfterPop(q))
    ensures forall x :: x in AfterPop(q).pending ==> x in q.pending
    ensures q.pending != [] ==> q.pending[Choice(q)].key in q.entries && q.pending[Choice(q)] !in AfterPop(q).pending
  {
    if q.pending != [] {
      RemoveKeeps(q, Choice(q), AfterPop(q));
      assert q.pending[Choice(q)] in q.pending;
    }
  }

  /** The served entry is the earliest of its QoS class; it is the highest-priority one, or, after a full burst
      of eight, the oldest of all. */
  lemma PopServes(q: Queue, e: Entry)
    requires Valid(q) && e in q.pending
    ensures var served := q.pending[Choice(q)];
            && (e.rank == served.rank ==> served.seqno <= e.seqno)
            && (e == served || Before(served, e) || (q.burst == MAX_PRIORITY_BURST && served.seqno < e.seqno))
  {
    var j :| 0 <= j < |q.pending| && q.pending[j] == e;
    if Choice(q) != 0 {
      assert q.pending[Choice(q)].seqno <= q.pending[j].seqno;
      if j < Choice(q) { assert q.pending[j].seqno != q.pending[Choice(q)].seqno; }
      if j > Choice(q) { assert q.pending[j].seqno != q.pending[Choice(q)].seqno; }
    } else if j > 0 {
      assert Before(q.pending[0], q.pending[j]);
    }
  }

  lemma ShedLast(q: Queue, shed: Entry, kept: Entry)
    requires Shape(q) && shed in q.pending && shed !in Shed(q).pending && kept in Shed(q).pending
    ensures Before(kept, shed) && Shed(q).dropped == OneMore(q.dropped, shed.rank)
  {
    ShedKeeps(q);
    var i :| 0 <= i < |Shed(q).pending| && Shed(q).pending[i] == kept;
    assert Before(q.pending[i], q.pending[|q.pending| - 1]);
  }

  /** A new document grows the queue up to 4096 entries; from then on every one of them costs one entry. */
  lemma PendingExact(q: Queue, rank: Rank, key: string, kind: FanoutKind)
    requires Valid(q)
    ensures var q' := Enqueued(q, rank, key, kind);
            |q'.pending| == if key in q.entries || |q.pending| == 4096 then |q.pending| else |q.pending| + 1
  {
    EnqueueKeeps(q, rank, key, kind);
  }

  lemma EnqueueOverflows(q: Queue, rank: Rank, key: string, kind: FanoutKind, shed: Entry)
    requires Valid(q)
    requires shed in q.pending || shed == Entry(rank, q.nextSeq, key)
    requires key !in q.entries && shed !in Enqueued(q, rank, key, kind).pending
    ensures var q' := Admit(q, rank, key, kind);
            && Shape(q') && shed in q'.pending && q'.dropped == q.dropped
            && Enqueued(q, rank, key, kind) == Shed(q') && |Shed(q').pending| == MAX_PENDING
  {
    AdmitKeeps(q, rank, key, kind);
  }

  /** An admission sheds at most one entry, and no entry that stays is of a worse class, or of the same class
      and later. */
  lemma EnqueueSheds(q: Queue, rank: Rank, key: string, kind: FanoutKind, shed: Entry, kept: Entry)
    requires Valid(q)
    requires shed in q.pending || shed == Entry(rank, q.nextSeq, key)
    requires key !in q.entries && shed !in Enqueued(q, rank, key, kind).pending
    requires kept in Enqueued(q, rank, key, kind).pending
    ensures Before(kept, shed)
    ensures Enqueued(q, rank, key, kind).dropped == OneMore(q.dropped, shed.rank)
    ensures |Enqueued(q, rank, key, kind).pending| == MAX_PENDING
  {
    EnqueueOverflows(q, rank, key, kind, shed);
    ShedLast(Admit(q, rank, key, kind), shed, kept);
  }

  // ---- the shared object ----------------------------------------------------

  class PriorityFanout {
    const qos: Qos
    var pending: seq<Entry>
    var entries: map<string, Slot>
    var nextSeq: nat
    var dropped: seq<nat>
    var burst: nat

    ghost function State(): Queue
      reads this
    {
      Queue(pending, entries, nextSeq, dropped, burst)
    }

    constructor (qos: Qos)
      ensures State() == Empty() && Valid(State()) && this.qos == qos
    {
      this.qos := qos;
      pending, entries, nextSeq, dropped, burst := [], map[], 0, [0, 0, 0, 0, 0, 0], 0;
    }

    /** `enqueue`, up to the notification. `notify` is false exactly when the change was coalesced. */
    method Enqueue(docKey: string, kind: FanoutKind) returns (notify: bool)
      requires Valid(State())
      modifies this
      ensures State() == Enqueued(old(State()), QosRank(qos, docKey), docKey, kind)
      ensures Valid(State())
      ensures notify <==> docKey !in old(entries)
    {
      EnqueueKeeps(State(), QosRank(qos, docKey), docKey, kind);
      notify := Coalesce(docKey, kind);
    }

    method Coalesce(docKey: string, kind: FanoutKind) returns (notify: bool)
      requires |dropped| == 6 && |pending| <= MAX_PENDING
      modifies this
      ensures State() == Enqueued(old(State()), QosRank(qos, docKey), docKey, kind)
      ensures notify <==> docKey !in old(entries)
    {
      if docKey in entries {
        entries := entries[docKey := entries[docKey].(kind := Merge(entries[docKey].kind, kind))];
        return false;
      }
      var rank := QosRank(qos, docKey);
      pending := Insert(pending, Entry(rank, nextSeq, docKey));
      entries := entries[docKey := Slot(rank, nextSeq, kind)];
      nextSeq := nextSeq + 1;
      ShedExcess();
      return true;
    }

    /** The eviction loop; one admission leaves at most one entry too many. */
    method ShedExcess()
      requires |dropped| == 6 && |pending| <= MAX_PENDING + 1
      modifies this
      ensures State() == if |old(pending)| > MAX_PENDING then Shed(old(State())) else old(State())
    {
      while |pending| > MAX_PENDING
        invariant |pending| == |old(pending)| ==> State() == old(State())
        invariant |pending| < |old(pending)| ==> |old(pending)| > MAX_PENDING && State() == Shed(old(State()))
        invariant |pending| <= |old(pending)|
      {
        var victim := pending[|pending| - 1];
        pending := pending[..|pending| - 1];
        entries := entries - {victim.key};
        dropped := dropped[victim.rank := dropped[victim.rank] + 1];
      }
    }

    /** `pop`. */
    method Pop() returns (r: Option<(string, FanoutKind)>)
      requires Valid(State())
      modifies this
      ensures State() == AfterPop(old(State())) && Valid(State())
      ensures r.Some? <==> old(pending) != []
      ensures r.Some? ==>
                var served := old(pending)[Choice(old(State()))];
                r.value.0 == served.key && served.key in old(entries) && r.value.1 == old(entries)[served.key].kind
    {
      PopKeeps(State());
      r := Serve();
    }

    method Serve() returns (r: Option<(string, FanoutKind)>)
      requires pending != [] ==> pending[Choice(State())].key in entries
      modifies this
      ensures State() == AfterPop(old(State()))
      ensures r.Some? <==> old(pending) != []
      ensures r.Some? ==>
                var served := old(pending)[Choice(old(State()))];
                r.value.0 == served.key && r.value.1 == old(entries)[served.key].kind
    {
      if pending == [] {
        burst := 0;
        return None;
      }
      var oldest := Oldest(pending);
      var chosen := 0;
      if oldest == 0 {
        burst := 0;
      } else if burst >= MAX_PRIORITY_BURST {
        burst := 0;
        chosen := oldest;
      } else {
        burst := burst + 1;
      }
      var key := pending[chosen].key;
      pending := RemoveAt(pending, chosen);
      var kind := entries[key].kind;
      entries := entries - {key};
      return Some((key, kind));
    }
  }
}
