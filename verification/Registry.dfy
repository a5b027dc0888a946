/** The bundle handle table of `attachments/registry.rs`: records, the reverse index from distribution to bundle,
    least-recently-used eviction, retention, and the two-phase resubmission check. Clock readings are parameters. */
module Registry {
  import opened Wrappers
  datatype BundleId = BundleId(name: string)
  datatype DistributionId = DistributionId(name: string)
  datatype Identity = Identity(files: seq<string>)

  datatype Status = Pending | InProgress | Completed | Partial | Failed | Cancelled

  predicate IsTerminal(s: Status) {
    s.Completed? || s.Partial? || s.Failed? || s.Cancelled?
  }

  predicate AllowsReuse(s: Status) {
    s.Failed? || s.Cancelled?
  }

  datatype Record = Record(
    bundleId: BundleId, identity: Identity, handles: seq<DistributionId>, status: Status, createdAt: int,
    touchedAt: int)

  datatype Lookup = Idempotent(record: Record) | Conflict(createdAt: int) | NotFound

  /** Everything under the registry's lock. */
  datatype Table = Table(bundles: map<BundleId, Record>, index: map<DistributionId, BundleId>)

  // ---- the index mirrors the records -------------------------------------------

  ghost predicate Keyed(t: Table) {
    forall b :: b in t.bundles ==> t.bundles[b].bundleId == b
  }

  ghost predicate Owned(t: Table) {
    forall d :: d in t.index ==> t.index[d] in t.bundles && d in t.bundles[t.index[d]].handles
  }

  ghost predicate Indexed(t: Table) {
    forall b, d :: b in t.bundles && d in t.bundles[b].handles ==> d in t.index && t.index[d] == b
  }

  /** A distribution resolves to a bundle exactly when that resident bundle holds it; no two bundles share one. */
  ghost predicate Exact(t: Table) {
    Keyed(t) && Owned(t) && Indexed(t)
  }

  ghost predicate Fits(t: Table, cap: nat) {
    cap > 0 ==> |t.bundles| <= cap
  }

  /** Reference for every removal: the bundles go, and with them whatever resolved to them. */
  ghost function Without(t: Table, gone: set<BundleId>): Table {
    Table(t.bundles - gone, map d | d in t.index && t.index[d] !in gone :: t.index[d])
  }

  lemma WithoutExact(t: Table, gone: set<BundleId>)
    requires Exact(t)
    ensures Exact(Without(t, gone))
  {
  }

  lemma WithoutTwice(t: Table, a: set<BundleId>, b: set<BundleId>)
    ensures Without(Without(t, a), b) == Without(t, a + b)
  {
    assert t.bundles - a - b == t.bundles - (a + b);
  }

  lemma WithoutSize(t: Table, b: BundleId)
    requires b in t.bundles
    ensures |Without(t, {b}).bundles| == |t.bundles| - 1
  {
    assert (t.bundles - {b}).Keys == t.bundles.Keys - {b};
    assert |t.bundles| == |t.bundles.Keys| && |t.bundles - {b}| == |(t.bundles - {b}).Keys|;
  }

  function IdSet(handles: seq<DistributionId>): set<DistributionId> {
    set d | d in handles
  }

  /** In an exact table a record's handles are what resolves to it. */
  lemma HandlesOf(t: Table, r: Record)
    requires Exact(t) && r.bundleId in t.bundles && t.bundles[r.bundleId].handles == r.handles
    ensures forall d :: d in r.handles <==> d in t.index && t.index[d] == r.bundleId
  {
  }

  // ---- insertion ------------------------------------------------------------------

  function IndexWith(index: map<DistributionId, BundleId>, handles: seq<DistributionId>, b: BundleId)
    : map<DistributionId, BundleId>
  {
    if handles == [] then index else IndexWith(index, handles[..|handles| - 1], b)[handles[|handles| - 1] := b]
  }

  function Put(t: Table, r: Record): Table {
    Table(t.bundles[r.bundleId := r], IndexWith(t.index, r.handles, r.bundleId))
  }

  lemma {:induction false} IndexedBy(index: map<DistributionId, BundleId>, handles: seq<DistributionId>, b: BundleId)
    ensures forall d :: d in IndexWith(index, handles, b) <==> d in index || d in handles
    ensures forall d :: d in handles ==> IndexWith(index, handles, b)[d] == b
    ensures forall d :: d in index && d !in handles ==> IndexWith(index, handles, b)[d] == index[d]
  {
    if handles != [] {
      var init, last := handles[..|handles| - 1], handles[|handles| - 1];
      IndexedBy(index, init, b);
      assert handles == init + [last];
      assert forall d :: d in handles <==> d in init || d == last;
    }
  }

  ghost predicate Fresh(t: Table, r: Record) {
    forall d :: d in r.handles ==> d !in t.index
  }

  /** Storing a record keeps the index exact if and only if none of its distributions already resolves. */
  lemma PutExactIff(t: Table, r: Record)
    requires Exact(t) && r.bundleId !in t.bundles
    ensures Exact(Put(t, r)) <==> Fresh(t, r)
  {
    IndexedBy(t.index, r.handles, r.bundleId);
    var t' := Put(t, r);
    if Fresh(t, r) {
      PutExact(t, r);
    } else {
      var d :| d in r.handles && d in t.index;
      var owner := t.index[d];
      assert owner in t'.bundles && d in t'.bundles[owner].handles && t'.index[d] != owner;
    }
  }

  lemma PutExact(t: Table, r: Record)
    requires Exact(t) && r.bundleId !in t.bundles && Fresh(t, r)
    ensures Exact(Put(t, r))
  {
    IndexedBy(t.index, r.handles, r.bundleId);
    var t' := Put(t, r);
    forall d | d in t'.index ensures t'.index[d] in t'.bundles && d in t'.bundles[t'.index[d]].handles {
      if d !in r.handles {
        assert t'.index[d] == t.index[d];
      }
    }
    forall b, d | b in t'.bundles && d in t'.bundles[b].handles ensures d in t'.index && t'.index[d] == b {
      if b != r.bundleId {
        assert b in t.bundles && d in t.index;
      }
    }
  }

  /** `insert` first drops any record under the same id. */
  ghost function Cleared(t: Table, b: BundleId): Table {
    if b in t.bundles then Without(t, {b}) else t
  }

  /** No resident was touched longer ago. */
  ghost predicate Oldest(t: Table, b: BundleId) {
    b in t.bundles && forall o :: o in t.bundles ==> t.bundles[b].touchedAt <= t.bundles[o].touchedAt
  }

  /** The table a record is stored into: cleared, and one least-recently-used resident short when full. */
  ghost function Room(t: Table, b: BundleId, evicted: Option<BundleId>): Table {
    if evicted.Some? then Without(Cleared(t, b), {evicted.value}) else Cleared(t, b)
  }

  // ---- resubmission, as one critical section ----------------------------------------

  function Touched(t: Table, b: BundleId, now: int): Table
    requires b in t.bundles
  {
    t.(bundles := t.bundles[b := t.bundles[b].(touchedAt := now)])
  }

  /** Reference: what a resubmission means if it held the lock throughout. */
  ghost function Resubmitted(t: Table, b: BundleId, identity: Identity, now: int): (Lookup, Table) {
    if b !in t.bundles then (NotFound, t)
    else
      var r := t.bundles[b];
      if AllowsReuse(r.status) then (NotFound, Without(t, {b}))
      else if r.identity == identity then (Idempotent(r.(touchedAt := now)), Touched(t, b, now))
      else (Conflict(r.createdAt), t)
  }

  /** Which bundles a resubmission finds, and in which state: a Failed or Cancelled one makes way; any other keeps its
      id, and answers by its identity. Nothing else in the table changes. */
  lemma ResubmitExact(t: Table, b: BundleId, identity: Identity, now: int)
    requires Exact(t)
    ensures var (verdict, t') := Resubmitted(t, b, identity, now);
            && (verdict == NotFound <==> b !in t.bundles || t.bundles[b].status in {Failed, Cancelled})
            && (verdict.Idempotent? <==>
                  b in t.bundles && t.bundles[b].status in {Pending, InProgress, Completed, Partial}
                  && t.bundles[b].identity == identity)
            && (verdict.Conflict? ==> verdict.createdAt == t.bundles[b].createdAt && t' == t)
            && (verdict.Idempotent? ==> verdict.record == t.bundles[b].(touchedAt := now) && t'.index == t.index)
            && (b in t'.bundles <==> !verdict.NotFound?)
            && (verdict.Idempotent? ==> t'.bundles[b] == verdict.record)
            && (forall o :: o != b ==>
                  (o in t'.bundles <==> o in t.bundles) && (o in t.bundles ==> t'.bundles[o] == t.bundles[o]))
            && (forall d :: d in t'.index <==> d in t.index && t.index[d] in t'.bundles)
            && (forall d :: d in t'.index ==> t'.index[d] == t.index[d])
  {
  }

  /** Which bundles retention keeps: every one that is still going on, and every one touched at the cutoff or later. */
  lemma ExpiryExact(t: Table, cutoff: int, b: BundleId)
    requires Exact(t) && b in t.bundles
    ensures var t' := Without(t, ExpiredIds(t, cutoff));
            && (b in t'.bundles <==> t.bundles[b].status in {Pending, InProgress} || t.bundles[b].touchedAt >= cutoff)
            && (b in t'.bundles ==> t'.bundles[b] == t.bundles[b])
            && (forall d :: d in t.bundles[b].handles ==> (d in t'.index <==> b in t'.bundles))
  {
  }

  lemma TouchedExact(t: Table, b: BundleId, r: Record)
    requires Exact(t) && b in t.bundles && r.bundleId == b && r.handles == t.bundles[b].handles
    ensures Exact(t.(bundles := t.bundles[b := r]))
    ensures |t.bundles[b := r]| == |t.bundles|
  {
    assert t.bundles[b := r].Keys == t.bundles.Keys;
    assert |t.bundles| == |t.bundles.Keys| && |t.bundles[b := r]| == |t.bundles[b := r].Keys|;
  }

  predicate Expired(r: Record, cutoff: int) {
    IsTerminal(r.status) && r.touchedAt < cutoff
  }

  ghost function ExpiredIds(t: Table, cutoff: int): set<BundleId> {
    set b | b in t.bundles && Expired(t.bundles[b], cutoff)
  }

  class BundleRegistry {
    var bundles: map<BundleId, Record>
    var index: map<DistributionId, BundleId>
    const retentionSecs: nat
    const cap: nat

    ghost function Contents(): Table
      reads this
    {
      Table(bundles, index)
    }

    ghost predicate Valid()
      reads this
    {
      Exact(Contents()) && Fits(Contents(), cap)
    }

    constructor (retentionSecs: nat, cap: nat)
      ensures Valid() && bundles == map[] && this.retentionSecs == retentionSecs && this.cap == cap
    {
      this.retentionSecs, this.cap := retentionSecs, cap;
      bundles, index := map[], map[];
    }

    /** `drop_record_indexes_only`. */
    method DropIndexes(r: Record)
      modifies this`index
      ensures index == old(index) - IdSet(r.handles)
    {
      var i := 0;
      while i < |r.handles|
        invariant 0 <= i <= |r.handles|
        invariant index == old(index) - IdSet(r.handles[..i])
      {
        index := index - {r.handles[i]};
        assert r.handles[..i + 1] == r.handles[..i] + [r.handles[i]];
        assert IdSet(r.handles[..i + 1]) == IdSet(r.handles[..i]) + {r.handles[i]};
        i := i + 1;
      }
      assert r.handles[..i] == r.handles;
    }

    /** `drop_record`. */
    method DropRecord(r: Record)
      requires Exact(Contents()) && r.bundleId in bundles && bundles[r.bundleId].handles == r.handles
      modifies this
      ensures Contents() == Without(old(Contents()), {r.bundleId})
    {
      ghost var t := Contents();
      bundles := bundles - {r.bundleId};
      DropIndexes(r);
      HandlesOf(t, r);
    }

    /** `evict_lru`. */
    method EvictLru() returns (evicted: Option<BundleId>)
      requires Exact(Contents())
      modifies this
      ensures evicted.Some? <==> old(bundles) != map[]
      ensures evicted.Some? ==> Oldest(old(Contents()), evicted.value)
      ensures Contents() == if evicted.Some? then Without(old(Contents()), {evicted.value}) else old(Contents())
    {
      var todo := bundles.Keys;
      evicted := None;
      while todo != {}
        invariant todo <= bundles.Keys && Contents() == old(Contents())
        invariant evicted.None? <==> todo == bundles.Keys
        invariant evicted.Some? ==> evicted.value in bundles
        invariant evicted.Some? ==>
                    forall o :: o in bundles && o !in todo ==> bundles[evicted.value].touchedAt <= bundles[o].touchedAt
        decreases |todo|
      {
        var b :| b in todo;
        todo := todo - {b};
        if evicted.None? || bundles[b].touchedAt < bundles[evicted.value].touchedAt {
          evicted := Some(b);
        }
      }
      if evicted.Some? {
        DropRecord(bundles[evicted.value]);
      } else {
        assert bundles.Keys == {};
      }
    }

    /** `insert`: exactness survives if and only if the new distributions are fresh, and the table never outgrows
        its cap. */
    method Insert(record: Record) returns (evicted: Option<BundleId>)
      requires Valid()
      modifies this
      ensures var cleared := Cleared(old(Contents()), record.bundleId);
              && (evicted.Some? <==> cap > 0 && |cleared.bundles| >= cap)
              && (evicted.Some? ==> Oldest(cleared, evicted.value))
      ensures Contents() == Put(Room(old(Contents()), record.bundleId, evicted), record)
      ensures Fits(Contents(), cap)
      ensures Valid() <==> Fresh(Room(old(Contents()), record.bundleId, evicted), record)
    {
      ghost var t := Contents();
      if record.bundleId in bundles {
        WithoutExact(t, {record.bundleId});
        WithoutSize(t, record.bundleId);
        DropRecord(bundles[record.bundleId]);
      }
      ghost var cleared := Contents();
      assert cleared == Cleared(t, record.bundleId) && Exact(cleared);
      evicted := None;
      if cap > 0 && |bundles| >= cap {
        evicted := EvictLru();
        WithoutExact(cleared, {evicted.value});
        WithoutSize(cleared, evicted.value);
      }
      ghost var room := Contents();
      assert room == Room(t, record.bundleId, evicted) && record.bundleId !in room.bundles;
      PutExactIff(room, record);
      IndexHandles(record);
      bundles := bundles[record.bundleId := record];
    }

    method IndexHandles(record: Record)
      modifies this`index
      ensures index == IndexWith(old(index), record.handles, record.bundleId)
    {
      var i := 0;
      while i < |record.handles|
        invariant 0 <= i <= |record.handles|
        invariant index == IndexWith(old(index), record.handles[..i], record.bundleId)
      {
        index := index[record.handles[i] := record.bundleId];
        assert record.handles[..i + 1][..i] == record.handles[..i];
        i := i + 1;
      }
      assert record.handles[..i] == record.handles;
    }

    /** `get` touches what it returns. */
    method Get(b: BundleId, now: int) returns (r: Option<Record>)
      requires Valid()
      modifies this
      ensures Valid()
      ensures r.Some? <==> b in old(bundles)
      ensures r.Some? ==> Contents() == Touched(old(Contents()), b, now) && r.value == bundles[b]
      ensures r.None? ==> Contents() == old(Contents())
    {
      if b in bundles {
        TouchedExact(Contents(), b, bundles[b].(touchedAt := now));
        bundles := bundles[b := bundles[b].(touchedAt := now)];
        return Some(bundles[b]);
      }
      return None;
    }

    /** `lookup_distribution`: an indexed distribution always finds its record, and the record holds it. */
    method LookupDistribution(d: DistributionId) returns (r: Option<(BundleId, Record)>)
      requires Valid()
      ensures r.Some? <==> exists b :: b in bundles && d in bundles[b].handles
      ensures r.Some? ==> r.value.0 in bundles && bundles[r.value.0] == r.value.1 && d in r.value.1.handles
                          && r.value.1.bundleId == r.value.0
    {
      if d !in index {
        return None;
      }
      var b := index[d];
      if b !in bundles {
        return None;
      }
      return Some((b, bundles[b]));
    }

    method UpdateStatus(b: BundleId, status: Status, now: int)
      requires Valid()
      modifies this
      ensures Valid() && index == old(index)
      ensures bundles == if b in old(bundles)
                         then old(bundles)[b := old(bundles)[b].(status := status, touchedAt := now)] else old(bundles)
    {
      if b in bundles {
        var r := bundles[b].(status := status, touchedAt := now);
        TouchedExact(Contents(), b, r);
        bundles := bundles[b := r];
      }
    }

    /** First loop of `evict_expired`. */
    method CollectExpired(cutoff: int) returns (drop: seq<Record>)
      requires Exact(Contents())
      ensures forall i :: 0 <= i < |drop| ==> drop[i].bundleId in bundles && bundles[drop[i].bundleId] == drop[i]
      ensures forall i, j :: 0 <= i < j < |drop| ==> drop[i].bundleId != drop[j].bundleId
      ensures forall b :: b in ExpiredIds(Contents(), cutoff) <==> exists i :: 0 <= i < |drop| && drop[i].bundleId == b
    {
      var todo := bundles.Keys;
      drop := [];
      while todo != {}
        invariant todo <= bundles.Keys
        invariant forall i :: 0 <= i < |drop| ==>
                    drop[i].bundleId in bundles && bundles[drop[i].bundleId] == drop[i] && drop[i].bundleId !in todo
        invariant forall i, j :: 0 <= i < j < |drop| ==> drop[i].bundleId != drop[j].bundleId
        invariant forall i :: 0 <= i < |drop| ==> Expired(drop[i], cutoff)
        invariant forall b :: b in bundles && b !in todo && Expired(bundles[b], cutoff) ==>
                    exists i :: 0 <= i < |drop| && drop[i].bundleId == b
        decreases |todo|
      {
        var b :| b in todo;
        ghost var before := drop;
        todo := todo - {b};
        if Expired(bundles[b], cutoff) {
          drop := drop + [bundles[b]];
          assert drop[|before|].bundleId == b;
        }
        assert forall i :: 0 <= i < |before| ==> drop[i] == before[i];
      }
    }

    /** `evict_expired`: exactly the terminal bundles untouched since the cutoff go, with their distributions. */
    method EvictExpired(now: int)
      requires Valid()
      modifies this
      ensures Valid()
      ensures Contents() == if retentionSecs == 0 then old(Contents())
                            else Without(old(Contents()), ExpiredIds(old(Contents()), now - retentionSecs))
    {
      if retentionSecs == 0 {
        return;
      }
      ghost var t := Contents();
      var drop := CollectExpired(now - retentionSecs);
      ghost var gone := {};
      assert Without(t, {}) == t;
      var i := 0;
      while i < |drop|
        invariant 0 <= i <= |drop|
        invariant Contents() == Without(t, gone)
        invariant forall b :: b in gone <==> exists j :: 0 <= j < i && drop[j].bundleId == b
      {
        WithoutExact(t, gone);
        WithoutTwice(t, gone, {drop[i].bundleId});
        DropRecord(drop[i]);
        gone := gone + {drop[i].bundleId};
        i := i + 1;
      }
      assert gone == ExpiredIds(t, now - retentionSecs);
      WithoutExact(t, gone);
      WithoutSmaller(t, gone);
    }

    /** Phase 1 of `check_resubmit`, under the read lock: a verdict only where nothing would change. */
    method Probe(b: BundleId, identity: Identity) returns (verdict: Option<Lookup>)
      ensures verdict.Some? ==> forall now :: Resubmitted(Contents(), b, identity, now) == (verdict.value, Contents())
      ensures verdict.None? <==> b in bundles && (AllowsReuse(bundles[b].status) || bundles[b].identity == identity)
    {
      if b !in bundles {
        return Some(NotFound);
      }
      if !AllowsReuse(bundles[b].status) && bundles[b].identity != identity {
        return Some(Conflict(bundles[b].createdAt));
      }
      return None;
    }

    /** Phase 2, under the write lock, on whatever the table has become meanwhile. */
    method Settle(b: BundleId, identity: Identity, now: int) returns (verdict: Lookup)
      requires Valid()
      modifies this
      ensures Valid()
      ensures (verdict, Contents()) == Resubmitted(old(Contents()), b, identity, now)
    {
      if b !in bundles {
        return NotFound;
      }
      var existing := bundles[b];
      if AllowsReuse(existing.status) {
        WithoutExact(Contents(), {b});
        WithoutSize(Contents(), b);
        DropRecord(existing);
        return NotFound;
      } else if existing.identity == identity {
        var r := existing.(touchedAt := now);
        TouchedExact(Contents(), b, r);
        bundles := bundles[b := r];
        return Idempotent(r);
      } else {
        return Conflict(existing.createdAt);
      }
    }
  }

  lemma WithoutSmaller(t: Table, gone: set<BundleId>)
    ensures |Without(t, gone).bundles| <= |t.bundles|
  {
    var kept := (t.bundles - gone).Keys;
    assert kept == t.bundles.Keys - gone;
    assert |t.bundles| == |t.bundles.Keys| && |t.bundles - gone| == |kept|;
    assert t.bundles.Keys == kept + (t.bundles.Keys - kept);
  }
}
