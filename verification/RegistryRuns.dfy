/** The registry under concurrent callers. Every operation is one critical section except `check_resubmit`, which
    probes under the read lock and settles under the write lock; anything may happen in between. */
module RegistryRuns {
  import opened Wrappers
  import opened Registry

  /** An operation at the moment it takes effect. */
  datatype Op =
    | Store(record: Record, evicted: Option<BundleId>)
    | Touch(bundle: BundleId, now: int)
    | SetStatus(bundle: BundleId, status: Status, now: int)
    | Expire(cutoff: int)
    | Resubmit(bundle: BundleId, identity: Identity, now: int, verdict: Lookup)

  datatype Phase = Probing | Settling | Done(verdict: Lookup)

  /** `since` and `effect` are history: operations that had taken effect when the call was made, and where its own
      did. */
  datatype Call = Call(bundle: BundleId, identity: Identity, phase: Phase, since: nat, effect: nat)

  /** `issued` and `ops` are history: every distribution id handed out, and the operations in order of effect. */
  datatype State = State(table: Table, calls: seq<Call>, issued: set<DistributionId>, ops: seq<Op>)

  datatype Step =
    | Atomic(op: Op)
    | Submit(bundle: BundleId, identity: Identity)
    | ProbeStep(i: nat)
    | SettleStep(i: nat, now: int)

  function Start(): State {
    State(Table(map[], map[]), [], {}, [])
  }

  /** What an insertion may do: evict a least-recently-used resident exactly when the cleared table is full, and
      bring distribution ids never issued before. */
  ghost predicate StoreAllowed(cap: nat, s: State, record: Record, evicted: Option<BundleId>) {
    var cleared := Cleared(s.table, record.bundleId);
    && (evicted.Some? <==> cap > 0 && |cleared.bundles| >= cap)
    && (evicted.Some? ==> Oldest(cleared, evicted.value))
    && (forall d :: d in record.handles ==> d !in s.issued)
  }

  ghost function Apply(t: Table, op: Op): Table {
    match op
    case Store(record, evicted) => Put(Room(t, record.bundleId, evicted), record)
    case Touch(b, now) => if b in t.bundles then Touched(t, b, now) else t
    case SetStatus(b, status, now) =>
      if b in t.bundles then t.(bundles := t.bundles[b := t.bundles[b].(status := status, touchedAt := now)]) else t
    case Expire(cutoff) => Without(t, ExpiredIds(t, cutoff))
    case Resubmit(b, identity, now, _) => Resubmitted(t, b, identity, now).1
  }

  function Issued(op: Op): set<DistributionId> {
    if op.Store? then IdSet(op.record.handles) else {}
  }

  ghost function Commit(s: State, op: Op): State {
    s.(table := Apply(s.table, op), ops := s.ops + [op], issued := s.issued + Issued(op))
  }

  function Advance(s: State, i: nat, phase: Phase): State
    requires i < |s.calls|
  {
    s.(calls := s.calls[i := s.calls[i].(phase := phase, effect := |s.ops|)])
  }

  /** Phase 1: answer if nothing would change, otherwise go for the write lock. */
  ghost function Probed(s: State, i: nat): State
    requires i < |s.calls|
  {
    var c := s.calls[i];
    var t := s.table;
    if !c.phase.Probing? then s
    else if c.bundle !in t.bundles then
      Commit(Advance(s, i, Done(NotFound)), Resubmit(c.bundle, c.identity, 0, NotFound))
    else if !AllowsReuse(t.bundles[c.bundle].status) && t.bundles[c.bundle].identity != c.identity then
      var verdict := Conflict(t.bundles[c.bundle].createdAt);
      Commit(Advance(s, i, Done(verdict)), Resubmit(c.bundle, c.identity, 0, verdict))
    else Advance(s, i, Settling)
  }

  ghost function SettledCall(s: State, i: nat, now: int): State
    requires i < |s.calls|
  {
    var c := s.calls[i];
    if !c.phase.Settling? then s
    else
      var verdict := Resubmitted(s.table, c.bundle, c.identity, now).0;
      Commit(Advance(s, i, Done(verdict)), Resubmit(c.bundle, c.identity, now, verdict))
  }

  ghost function Next(cap: nat, s: State, step: Step): State {
    match step
    case Atomic(op) =>
      if op.Resubmit? || (op.Store? && !StoreAllowed(cap, s, op.record, op.evicted)) then s else Commit(s, op)
    case Submit(b, identity) => s.(calls := s.calls + [Call(b, identity, Probing, |s.ops|, 0)])
    case ProbeStep(i) => if i < |s.calls| then Probed(s, i) else s
    case SettleStep(i, now) => if i < |s.calls| then SettledCall(s, i, now) else s
  }

  ghost function Run(cap: nat, steps: seq<Step>): State {
    if steps == [] then Start() else Next(cap, Run(cap, steps[..|steps| - 1]), steps[|steps| - 1])
  }

  // ---- the table stays exact and bounded ------------------------------------------

  ghost predicate Inv(cap: nat, s: State) {
    && Exact(s.table)
    && Fits(s.table, cap)
    && s.table.index.Keys <= s.issued
  }

  lemma StoreKeeps(cap: nat, s: State, record: Record, evicted: Option<BundleId>)
    requires Inv(cap, s) && StoreAllowed(cap, s, record, evicted)
    ensures Inv(cap, Commit(s, Store(record, evicted)))
  {
    var cleared := Cleared(s.table, record.bundleId);
    if record.bundleId in s.table.bundles {
      WithoutExact(s.table, {record.bundleId});
      WithoutSize(s.table, record.bundleId);
    }
    var room := Room(s.table, record.bundleId, evicted);
    if evicted.Some? {
      WithoutExact(cleared, {evicted.value});
      WithoutSize(cleared, evicted.value);
    }
    PutExactIff(room, record);
    IndexedBy(room.index, record.handles, record.bundleId);
  }

  lemma ApplyKeeps(cap: nat, s: State, op: Op)
    requires Inv(cap, s) && !op.Store?
    ensures Inv(cap, Commit(s, op))
  {
    var t := s.table;
    match op {
      case Touch(b, now) => if b in t.bundles { TouchedExact(t, b, t.bundles[b].(touchedAt := now)); }
      case SetStatus(b, status, now) =>
        if b in t.bundles { TouchedExact(t, b, t.bundles[b].(status := status, touchedAt := now)); }
      case Expire(cutoff) =>
        WithoutExact(t, ExpiredIds(t, cutoff));
        WithoutSmaller(t, ExpiredIds(t, cutoff));
      case Resubmit(b, identity, now, _) =>
        if b in t.bundles {
          WithoutExact(t, {b});
          WithoutSmaller(t, {b});
          TouchedExact(t, b, t.bundles[b].(touchedAt := now));
        }
    }
  }

  lemma ProbeReads(s: State, i: nat)
    requires i < |s.calls|
    ensures Probed(s, i).table == s.table && Probed(s, i).issued == s.issued
  {
  }

  lemma SettleKeeps(cap: nat, s: State, i: nat, now: int)
    requires Inv(cap, s) && i < |s.calls|
    ensures Inv(cap, SettledCall(s, i, now))
  {
    var c := s.calls[i];
    var op := Resubmit(c.bundle, c.identity, now, Resubmitted(s.table, c.bundle, c.identity, now).0);
    ApplyKeeps(cap, s, op);
    if c.phase.Settling? {
      assert SettledCall(s, i, now).table == Commit(s, op).table;
    }
  }

  lemma NextKeeps(cap: nat, s: State, step: Step)
    requires Inv(cap, s)
    ensures Inv(cap, Next(cap, s, step))
  {
    match step {
      case Atomic(op) =>
        if op.Store? {
          if StoreAllowed(cap, s, op.record, op.evicted) {
            StoreKeeps(cap, s, op.record, op.evicted);
          }
        } else {
          ApplyKeeps(cap, s, op);
        }
      case Submit(b, identity) =>
      case ProbeStep(i) => if i < |s.calls| { ProbeReads(s, i); }
      case SettleStep(i, now) => if i < |s.calls| { SettleKeeps(cap, s, i, now); }
    }
  }

  /** In every run, whatever the callers, a distribution resolves exactly to the resident bundle that holds it and
      the table stays within its cap. */
  lemma {:induction false} RunKeeps(cap: nat, steps: seq<Step>)
    ensures Inv(cap, Run(cap, steps))
  {
    if steps != [] {
      RunKeeps(cap, steps[..|steps| - 1]);
      NextKeeps(cap, Run(cap, steps[..|steps| - 1]), steps[|steps| - 1]);
    }
  }

  // ---- what stopped resolving stays gone ------------------------------------------

  lemma ApplyShrinks(t: Table, op: Op)
    requires !op.Store?
    ensures Apply(t, op).index.Keys <= t.index.Keys
  {
  }

  lemma StoreStaysGone(t: Table, record: Record, evicted: Option<BundleId>, d: DistributionId)
    requires d !in record.handles && d !in t.index
    ensures d !in Apply(t, Store(record, evicted)).index
  {
    var room := Room(t, record.bundleId, evicted);
    assert d !in room.index;
    IndexedBy(room.index, record.handles, record.bundleId);
  }

  /** Only an insertion makes a distribution resolve, and it uses ids not issued before. */
  lemma StaysGoneStep(cap: nat, s: State, step: Step, d: DistributionId)
    requires d in s.issued && d !in s.table.index
    ensures d in Next(cap, s, step).issued && d !in Next(cap, s, step).table.index
  {
    match step {
      case Atomic(op) =>
        if op.Store? {
          if StoreAllowed(cap, s, op.record, op.evicted) {
            StoreStaysGone(s.table, op.record, op.evicted, d);
          }
        } else {
          ApplyShrinks(s.table, op);
        }
      case Submit(b, identity) =>
      case ProbeStep(i) => if i < |s.calls| { ProbeReads(s, i); }
      case SettleStep(i, now) =>
        if i < |s.calls| {
          ApplyShrinks(s.table, Resubmit(s.calls[i].bundle, s.calls[i].identity, now, NotFound));
        }
    }
  }

  ghost function Continue(cap: nat, s: State, steps: seq<Step>): State {
    if steps == [] then s else Next(cap, Continue(cap, s, steps[..|steps| - 1]), steps[|steps| - 1])
  }

  /** A distribution that was issued and no longer resolves never resolves again. */
  lemma {:induction false} StaysGone(cap: nat, s: State, steps: seq<Step>, d: DistributionId)
    requires Inv(cap, s) && d in s.issued && d !in s.table.index
    ensures Inv(cap, Continue(cap, s, steps))
    ensures d in Continue(cap, s, steps).issued && d !in Continue(cap, s, steps).table.index
  {
    if steps != [] {
      var before := Continue(cap, s, steps[..|steps| - 1]);
      StaysGone(cap, s, steps[..|steps| - 1], d);
      NextKeeps(cap, before, steps[|steps| - 1]);
      StaysGoneStep(cap, before, steps[|steps| - 1], d);
    }
  }

  // ---- the two-phase check is one operation ------------------------------------------

  ghost function Replay(ops: seq<Op>): Table {
    if ops == [] then Table(map[], map[]) else Apply(Replay(ops[..|ops| - 1]), ops[|ops| - 1])
  }

  /** Run one at a time in this order, every resubmission gets the answer it got. */
  ghost predicate Explained(ops: seq<Op>) {
    forall k :: 0 <= k < |ops| && ops[k].Resubmit? ==>
      ops[k].verdict == Resubmitted(Replay(ops[..k]), ops[k].bundle, ops[k].identity, ops[k].now).0
  }

  /** An answered call took effect once, between its invocation and its answer. */
  ghost predicate Effective(ops: seq<Op>, c: Call) {
    && c.since <= |ops|
    && (c.phase.Done? ==>
          c.since <= c.effect < |ops| && ops[c.effect].Resubmit? && ops[c.effect].bundle == c.bundle
          && ops[c.effect].identity == c.identity && ops[c.effect].verdict == c.phase.verdict)
  }

  ghost predicate Linear(s: State) {
    && s.table == Replay(s.ops)
    && Explained(s.ops)
    && (forall i :: 0 <= i < |s.calls| ==> Effective(s.ops, s.calls[i]))
  }

  lemma CommitLinear(s: State, op: Op)
    requires s.table == Replay(s.ops) && Explained(s.ops)
    requires op.Resubmit? ==> op.verdict == Resubmitted(s.table, op.bundle, op.identity, op.now).0
    ensures Commit(s, op).table == Replay(s.ops + [op]) && Explained(s.ops + [op])
  {
    var ops := s.ops + [op];
    assert ops[..|s.ops|] == s.ops;
    forall k | 0 <= k < |ops| && ops[k].Resubmit?
      ensures ops[k].verdict == Resubmitted(Replay(ops[..k]), ops[k].bundle, ops[k].identity, ops[k].now).0 {
      assert k < |s.ops| ==> ops[..k] == s.ops[..k];
    }
  }

  lemma CallsLinear(s: State, s': State, op: Op)
    requires forall i :: 0 <= i < |s.calls| ==> Effective(s.ops, s.calls[i])
    requires s'.ops == s.ops + [op] && |s'.calls| == |s.calls|
    requires forall i :: 0 <= i < |s.calls| ==> s'.calls[i] == s.calls[i] || Effective(s'.ops, s'.calls[i])
    ensures forall i :: 0 <= i < |s'.calls| ==> Effective(s'.ops, s'.calls[i])
  {
    forall i | 0 <= i < |s'.calls| ensures Effective(s'.ops, s'.calls[i]) {
      assert Effective(s.ops, s.calls[i]);
    }
  }

  lemma AnswerLinear(s: State, i: nat, op: Op)
    requires Linear(s) && i < |s.calls|
    requires op.Resubmit? && op.bundle == s.calls[i].bundle && op.identity == s.calls[i].identity
    requires op.verdict == Resubmitted(s.table, op.bundle, op.identity, op.now).0
    ensures Linear(Commit(Advance(s, i, Done(op.verdict)), op))
  {
    var s1 := Advance(s, i, Done(op.verdict));
    CommitLinear(s1, op);
    assert Effective(s.ops, s.calls[i]);
    CallsLinear(s, Commit(s1, op), op);
  }

  lemma NextLinear(cap: nat, s: State, step: Step)
    requires Linear(s)
    ensures Linear(Next(cap, s, step))
  {
    match step {
      case Atomic(op) =>
        if Next(cap, s, step) != s {
          CommitLinear(s, op);
          CallsLinear(s, Commit(s, op), op);
        }
      case Submit(b, identity) =>
      case ProbeStep(i) =>
        if i < |s.calls| {
          var c := s.calls[i];
          assert Effective(s.ops, c);
          if c.phase.Probing? && Probed(s, i).calls[i].phase.Done? {
            AnswerLinear(s, i, Resubmit(c.bundle, c.identity, 0, Probed(s, i).calls[i].phase.verdict));
          }
        }
      case SettleStep(i, now) =>
        if i < |s.calls| && s.calls[i].phase.Settling? {
          var c := s.calls[i];
          AnswerLinear(s, i, Resubmit(c.bundle, c.identity, now, Resubmitted(s.table, c.bundle, c.identity, now).0));
        }
    }
  }

  /** Linearizability: in every run each answered `check_resubmit` took effect as a single operation at one point
      between call and answer, and all operations in that order explain the table and every answer. */
  lemma {:induction false} Linearizable(cap: nat, steps: seq<Step>)
    ensures Linear(Run(cap, steps))
  {
    if steps != [] {
      Linearizable(cap, steps[..|steps| - 1]);
      NextLinear(cap, Run(cap, steps[..|steps| - 1]), steps[|steps| - 1]);
    }
  }

  // ---- one bundle's history explains what is known of it ------------------------------

  /** What one operation, and the answer it gave, leaves of a bundle. */
  function After(was: Option<Record>, op: Op, b: BundleId): Option<Record> {
    match op
    case Store(record, evicted) =>
      if record.bundleId == b then Some(record) else if evicted == Some(b) then None else was
    case Touch(x, now) => if x == b && was.Some? then Some(was.value.(touchedAt := now)) else was
    case SetStatus(x, status, now) =>
      if x == b && was.Some? then Some(was.value.(status := status, touchedAt := now)) else was
    case Expire(cutoff) =>
      if was.Some? && was.value.status !in {Pending, InProgress} && was.value.touchedAt < cutoff then None else was
    case Resubmit(x, _, _, verdict) =>
      if x != b || verdict.Conflict? then was else if verdict.Idempotent? then Some(verdict.record) else None
  }

  function Left(ops: seq<Op>, b: BundleId): Option<Record> {
    if ops == [] then None else After(Left(ops[..|ops| - 1], b), ops[|ops| - 1], b)
  }

  function RecordOf(t: Table, b: BundleId): Option<Record> {
    if b in t.bundles then Some(t.bundles[b]) else None
  }

  lemma ApplyAfter(t: Table, op: Op, b: BundleId)
    requires op.Resubmit? ==> op.verdict == Resubmitted(t, op.bundle, op.identity, op.now).0
    ensures RecordOf(Apply(t, op), b) == After(RecordOf(t, b), op, b)
  {
  }

  lemma {:induction false} ReplayLeft(ops: seq<Op>, b: BundleId)
    requires Explained(ops)
    ensures RecordOf(Replay(ops), b) == Left(ops, b)
  {
    if ops != [] {
      var init := ops[..|ops| - 1];
      assert forall k :: 0 <= k < |init| ==> init[k] == ops[k] && init[..k] == ops[..k];
      ReplayLeft(init, b);
      ApplyAfter(Replay(init), ops[|ops| - 1], b);
    }
  }

  /** In every run a distribution resolves to a bundle exactly when that bundle's own history leaves it in the table
      holding the distribution: no operation on another bundle matters, but an eviction. */
  lemma {:induction false} ResolvesIff(cap: nat, steps: seq<Step>, d: DistributionId, b: BundleId)
    ensures var s := Run(cap, steps);
            d in s.table.index && s.table.index[d] == b
            <==> Left(s.ops, b).Some? && d in Left(s.ops, b).value.handles
  {
    RunKeeps(cap, steps);
    Linearizable(cap, steps);
    ReplayLeft(Run(cap, steps).ops, b);
  }

  /** In every run each answered `check_resubmit` says what the bundle's history came to when it took effect: gone or
      given up, the same submission, or another one under the same id. */
  lemma {:induction false} AnswerExact(cap: nat, steps: seq<Step>, i: nat)
    requires i < |Run(cap, steps).calls| && Run(cap, steps).calls[i].phase.Done?
    ensures var s := Run(cap, steps);
            var c := s.calls[i];
            && c.since <= c.effect < |s.ops|
            && s.ops[c.effect].Resubmit?
            && var was := Left(s.ops[..c.effect], c.bundle);
               match c.phase.verdict
               case NotFound => was.None? || was.value.status in {Failed, Cancelled}
               case Idempotent(r) =>
                 was.Some? && was.value.status !in {Failed, Cancelled} && was.value.identity == c.identity
                 && r == was.value.(touchedAt := s.ops[c.effect].now)
               case Conflict(createdAt) =>
                 was.Some? && was.value.status !in {Failed, Cancelled} && was.value.identity != c.identity
                 && createdAt == was.value.createdAt
  {
    var s := Run(cap, steps);
    var c := s.calls[i];
    Linearizable(cap, steps);
    assert Effective(s.ops, c);
    var before := s.ops[..c.effect];
    assert forall k :: 0 <= k < |before| ==> before[k] == s.ops[k] && before[..k] == s.ops[..k];
    ReplayLeft(before, c.bundle);
  }
}
