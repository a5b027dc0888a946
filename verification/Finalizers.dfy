/** Bundle finalization (`maybe_finalize_bundle` in `attachments/handlers.rs`) by watchers and cancellations, racing
    with further updates: the counter test, the snapshot and the registry write are separate steps. */
module Finalizers {
  import opened Wrappers
  import opened Progress

  datatype Final = AllCompleted | SomeFailed | SomeCancelled

  /** Failure outranks cancellation outranks completion. */
  function Aggregate(slots: seq<DistributionState>): Final {
    if Failed in slots then SomeFailed else if Cancelled in slots then SomeCancelled else AllCompleted
  }

  /** The aggregation loop. */
  method AggregateLoop(slots: seq<DistributionState>) returns (status: Final)
    ensures status == Aggregate(slots)
  {
    var anyFailed, anyCancelled := false, false;
    for i := 0 to |slots|
      invariant anyFailed <==> Failed in slots[..i]
      invariant anyCancelled <==> Cancelled in slots[..i]
    {
      match slots[i] {
        case Failed => anyFailed := true;
        case Cancelled => anyCancelled := true;
        case _ =>
      }
      assert slots[..i + 1] == slots[..i] + [slots[i]];
    }
    assert slots[..|slots|] == slots;
    status := if anyFailed then SomeFailed else if anyCancelled then SomeCancelled else AllCompleted;
  }

  /** A caller after its update: still watching its distribution, about to finalize, passed the counter test, read the
      slots, returned. */
  datatype Caller = Watching | Waiting | Passed | Holding(status: Final, saw: bool) | Returned

  /** `callers[u]` made update `u`; `others` finalize with no accepted update of their own. History: `read` says that
      some caller read the slots, `cleared` that the last Failed slot was relabelled after that; a caller `saw` it if
      its own read came later still, and `saw` of the race is that of the status' writer. */
  datatype Race = Race(
    bundle: Bundle, callers: seq<Caller>, others: seq<Caller>, status: Option<Final>,
    read: bool, cleared: bool, saw: bool)

  datatype Who = Updater(u: nat) | Other(u: nat)

  datatype Step =
    | CallProgress(i: nat, state: DistributionState)
    | CallCancel(i: nat)
    | CountStep(u: nat)
    | SendStep(u: nat)
    | Follow(u: nat, v: nat)
    | End(u: nat)
    | Leave
    | Test(who: Who)
    | ReadSlots(who: Who)
    | Write(who: Who)

  function Start(n: nat): Race {
    Race(Progress.Start(n).bundle, [], [], None, false, false, false)
  }

  /** The bundle after an update call, with its caller: a watcher goes on watching, a cancellation finalizes even when
      it was refused. */
  function Updated(s: Race, b: Bundle, caller: Caller): Race {
    var s' := s.(bundle := b, cleared := s.cleared || (s.read && Failed in s.bundle.slots && Failed !in b.slots));
    if |b.updates| > |s.bundle.updates| then s'.(callers := s.callers + [caller])
    else if caller.Waiting? then s'.(others := s.others + [caller])
    else s'
  }

  predicate Exists(s: Race, who: Who) {
    match who
    case Updater(u) => u < |s.callers| && u < |s.bundle.updates|
    case Other(u) => u < |s.others|
  }

  function At(s: Race, who: Who): Caller
    requires Exists(s, who)
  {
    match who
    case Updater(u) => s.callers[u]
    case Other(u) => s.others[u]
  }

  function Put(s: Race, who: Who, caller: Caller): Race
    requires Exists(s, who)
  {
    match who
    case Updater(u) => s.(callers := s.callers[u := caller])
    case Other(u) => s.(others := s.others[u := caller])
  }

  /** The update call itself has returned. */
  predicate Free(s: Race, who: Who)
    requires Exists(s, who)
  {
    who.Updater? ==> s.bundle.updates[who.u].at.Sent?
  }

  /** Updates `u` and `v`, in this order, are of one watcher that still watches. */
  predicate Followed(s: Race, u: nat, v: nat) {
    && u < v < |s.callers| && |s.callers| == |s.bundle.updates|
    && s.callers[u].Watching? && s.callers[v].Watching?
    && s.bundle.updates[u].at.Sent?
    && s.bundle.updates[u].frame.distribution == s.bundle.updates[v].frame.distribution
  }

  function Next(s: Race, step: Step): Race {
    match step
    case CallProgress(i, state) => Updated(s, Apply(s.bundle, i, state), Watching)
    case CallCancel(i) => Updated(s, Cancel(s.bundle, i), Waiting)
    case CountStep(u) => s.(bundle := Count(s.bundle, u))
    case SendStep(u) => s.(bundle := Send(s.bundle, u))
    case Follow(u, v) => if Followed(s, u, v) then Put(s, Updater(u), Returned) else s
    case End(u) => if u < |s.callers| && s.callers[u].Watching? then s.(callers := s.callers[u := Waiting]) else s
    case Leave => s.(others := s.others + [Waiting])
    case Test(who) =>
      if Exists(s, who) && At(s, who).Waiting? && Free(s, who)
      then Put(s, who, if s.bundle.terminalCount >= |s.bundle.slots| then Passed else Returned) else s
    case ReadSlots(who) =>
      if Exists(s, who) && At(s, who).Passed?
      then Put(s, who, Holding(Aggregate(s.bundle.slots), s.cleared)).(read := true) else s
    case Write(who) =>
      if Exists(s, who) && At(s, who).Holding?
      then Put(s, who, Returned).(status := Some(At(s, who).status), saw := At(s, who).saw) else s
  }

  function Run(n: nat, steps: seq<Step>): Race {
    if steps == [] then Start(n) else Next(Run(n, steps[..|steps| - 1]), steps[|steps| - 1])
  }

  // ---- what every step keeps --------------------------------------------------------

  ghost predicate AllTerminal(slots: seq<DistributionState>) {
    forall i :: 0 <= i < |slots| ==> Terminal(slots[i])
  }

  /** A status is the aggregate of the slots, unless the last Failed slot went after its reader had read them: then it
      is Failed. */
  predicate Possible(s: Race, status: Final, saw: bool) {
    && (saw ==> s.cleared)
    && (saw || !s.cleared ==> status == Aggregate(s.bundle.slots))
    && (s.cleared && !saw ==> status == SomeFailed)
  }

  /** A caller that passed the test knows every slot terminal. */
  ghost predicate CallerOk(s: Race, caller: Caller) {
    && (caller.Passed? || caller.Holding? ==> s.bundle.terminalCount >= |s.bundle.slots|)
    && (caller.Holding? ==> s.read && Possible(s, caller.status, caller.saw))
  }

  ghost predicate StatusOk(s: Race) {
    && (s.status.Some? ==> s.read && Possible(s, s.status.value, s.saw))
    && (s.read ==> s.bundle.terminalCount >= |s.bundle.slots|)
    && (s.cleared ==> s.read && Failed !in s.bundle.slots)
  }

  /** An update that is not broadcast yet has its caller inside the call; once the counter is full somebody will
      write. */
  ghost predicate SomebodyWrites(s: Race) {
    && |s.callers| == |s.bundle.updates|
    && (forall u :: 0 <= u < |s.callers| && !s.bundle.updates[u].at.Sent? ==>
          s.callers[u].Watching? || s.callers[u].Waiting?)
    && (s.bundle.terminalCount >= |s.bundle.slots| > 0 ==>
          s.status.Some? || exists u :: 0 <= u < |s.callers| && !s.callers[u].Returned?)
  }

  ghost predicate Inv(s: Race) {
    && BundleInv(s.bundle)
    && (forall u :: 0 <= u < |s.callers| ==> CallerOk(s, s.callers[u]))
    && (forall u :: 0 <= u < |s.others| ==> CallerOk(s, s.others[u]))
    && StatusOk(s)
    && SomebodyWrites(s)
  }

  /** A full counter means every slot is terminal, so only a relabelling changes them. */
  lemma FullIsTerminal(b: Bundle)
    requires BundleInv(b) && b.terminalCount >= |b.slots|
    ensures AllTerminal(b.slots) && b.terminalCount == |b.slots|
  {
    TerminalSlotsBound(b.slots);
    OutstandingNonNegative(b.updates, 0);
  }

  /** Once the counter is full, slots change only by relabelling a Failed one. */
  predicate Relabels(s: Race, b: Bundle) {
    s.bundle.terminalCount >= |s.bundle.slots| && b.slots != s.bundle.slots ==> Failed in s.bundle.slots
  }

  lemma UpdatedKeeps(s: Race, b: Bundle, caller: Caller)
    requires Relabels(s, b)
    requires Inv(s) && BundleInv(b) && |b.slots| == |s.bundle.slots| && b.terminalCount == s.bundle.terminalCount
    requires caller.Watching? || caller.Waiting?
    requires b.updates == s.bundle.updates
             || (|b.updates| == |s.bundle.updates| + 1 && b.updates[..|s.bundle.updates|] == s.bundle.updates)
    ensures Inv(Updated(s, b, caller))
  {
    var s' := Updated(s, b, caller);
    forall u | 0 <= u < |s'.callers| ensures CallerOk(s', s'.callers[u]) {
      if u < |s.callers| {
        assert CallerOk(s, s.callers[u]);
      }
    }
    forall u | 0 <= u < |s'.others| ensures CallerOk(s', s'.others[u]) {
      if u < |s.others| {
        assert CallerOk(s, s.others[u]);
      }
    }
    UpdatedPending(s, b, caller);
  }

  lemma UpdatedPending(s: Race, b: Bundle, caller: Caller)
    requires caller.Watching? || caller.Waiting?
    requires SomebodyWrites(s) && |b.slots| == |s.bundle.slots| && b.terminalCount == s.bundle.terminalCount
    requires b.updates == s.bundle.updates
             || (|b.updates| == |s.bundle.updates| + 1 && b.updates[..|s.bundle.updates|] == s.bundle.updates)
    ensures SomebodyWrites(Updated(s, b, caller))
  {
    var s' := Updated(s, b, caller);
    forall u | 0 <= u < |s'.callers| && !b.updates[u].at.Sent?
      ensures s'.callers[u].Watching? || s'.callers[u].Waiting?
    {
      if u < |s.callers| {
        assert b.updates[u] == s.bundle.updates[u];
      }
    }
    if s.bundle.terminalCount >= |s.bundle.slots| > 0 && s.status.None? {
      var u :| 0 <= u < |s.callers| && !s.callers[u].Returned?;
      assert s'.callers[u] == s.callers[u];
    }
  }

  /** The bundle moves on below the callers. */
  lemma BundleMoves(s: Race, b: Bundle)
    requires Inv(s) && BundleInv(b) && b.slots == s.bundle.slots && b.terminalCount >= s.bundle.terminalCount
    requires |b.updates| == |s.bundle.updates|
    requires forall u :: 0 <= u < |b.updates| && !b.updates[u].at.Sent? ==> !s.bundle.updates[u].at.Sent?
    requires b.terminalCount > s.bundle.terminalCount ==> exists u :: 0 <= u < |b.updates| && !b.updates[u].at.Sent?
    ensures Inv(s.(bundle := b))
  {
    var s' := s.(bundle := b);
    forall u | 0 <= u < |s'.callers| ensures CallerOk(s', s'.callers[u]) {
      assert CallerOk(s, s.callers[u]);
    }
    forall u | 0 <= u < |s'.others| ensures CallerOk(s', s'.others[u]) {
      assert CallerOk(s, s.others[u]);
    }
    if b.terminalCount > s.bundle.terminalCount {
      var u :| 0 <= u < |b.updates| && !b.updates[u].at.Sent?;
      assert !s.callers[u].Returned?;
    }
  }

  lemma CountStepKeeps(s: Race, u: nat)
    requires Inv(s)
    ensures Inv(Next(s, CountStep(u)))
  {
    CountKeeps(s.bundle, u);
    var b := Count(s.bundle, u);
    if b.terminalCount > s.bundle.terminalCount {
      assert !b.updates[u].at.Sent?;
    }
    BundleMoves(s, b);
  }

  lemma SendStepKeeps(s: Race, u: nat)
    requires Inv(s)
    ensures Inv(Next(s, SendStep(u)))
  {
    SendKeeps(s.bundle, u);
    BundleMoves(s, Send(s.bundle, u));
  }

  lemma PutCallers(s: Race, who: Who, caller: Caller, status: Option<Final>, saw: bool, read: bool)
    requires Exists(s, who) && (s.read ==> read) && CallerOk(s.(read := read), caller)
    requires forall u :: 0 <= u < |s.callers| ==> CallerOk(s, s.callers[u])
    requires forall u :: 0 <= u < |s.others| ==> CallerOk(s, s.others[u])
    ensures var s' := Put(s, who, caller).(status := status, saw := saw, read := read);
            && (forall u :: 0 <= u < |s'.callers| ==> CallerOk(s', s'.callers[u]))
            && (forall u :: 0 <= u < |s'.others| ==> CallerOk(s', s'.others[u]))
  {
    var s' := Put(s, who, caller).(status := status, saw := saw, read := read);
    forall u | 0 <= u < |s'.callers| ensures CallerOk(s', s'.callers[u]) {
      assert CallerOk(s, s.callers[u]);
    }
    forall u | 0 <= u < |s'.others| ensures CallerOk(s', s'.others[u]) {
      assert CallerOk(s, s.others[u]);
    }
  }

  /** One caller moves on. */
  lemma PutKeeps(s: Race, who: Who, caller: Caller, status: Option<Final>, saw: bool, read: bool)
    requires Inv(s) && Exists(s, who) && !At(s, who).Returned? && Free(s, who)
    requires (s.read ==> read) && (status == s.status || status.Some?)
    requires CallerOk(s.(read := read), caller) && StatusOk(s.(status := status, saw := saw, read := read))
    requires caller.Returned? ==>
               || status.Some? || s.bundle.terminalCount < |s.bundle.slots|
               || exists v :: 0 <= v < |s.callers| && who != Updater(v) && !s.callers[v].Returned?
    ensures Inv(Put(s, who, caller).(status := status, saw := saw, read := read))
  {
    PutCallers(s, who, caller, status, saw, read);
    PutWrites(s, who, caller, status, saw, read);
  }

  lemma PutWrites(s: Race, who: Who, caller: Caller, status: Option<Final>, saw: bool, read: bool)
    requires SomebodyWrites(s) && Exists(s, who) && !At(s, who).Returned? && Free(s, who)
    requires status == s.status || status.Some?
    requires caller.Returned? ==>
               || status.Some? || s.bundle.terminalCount < |s.bundle.slots|
               || exists v :: 0 <= v < |s.callers| && who != Updater(v) && !s.callers[v].Returned?
    ensures SomebodyWrites(Put(s, who, caller).(status := status, saw := saw, read := read))
  {
    var s' := Put(s, who, caller).(status := status, saw := saw, read := read);
    if s.bundle.terminalCount >= |s.bundle.slots| > 0 && status.None? {
      var u: nat :| u < |s.callers| && !s.callers[u].Returned? && (caller.Returned? ==> who != Updater(u));
      assert !s'.callers[u].Returned?;
    }
  }

  lemma WatcherKeeps(s: Race, step: Step)
    requires Inv(s) && (step.Follow? || step.End? || step.Leave?)
    ensures Inv(Next(s, step))
  {
    match step {
      case Follow(u, v) =>
        if Followed(s, u, v) {
          assert CallerOk(s, Returned) && Updater(u) != Updater(v);
          PutKeeps(s, Updater(u), Returned, s.status, s.saw, s.read);
        }
      case End(u) =>
        if u < |s.callers| && s.callers[u].Watching? {
          EndKeeps(s, u);
        }
      case _ => LeaveKeeps(s);
    }
  }

  lemma EndKeeps(s: Race, u: nat)
    requires Inv(s) && u < |s.callers| && s.callers[u].Watching?
    ensures Inv(s.(callers := s.callers[u := Waiting]))
  {
    var s' := s.(callers := s.callers[u := Waiting]);
    forall v | 0 <= v < |s'.callers| ensures CallerOk(s', s'.callers[v]) {
      assert CallerOk(s, s.callers[v]);
    }
    forall v | 0 <= v < |s'.others| ensures CallerOk(s', s'.others[v]) {
      assert CallerOk(s, s.others[v]);
    }
    assert !s'.callers[u].Returned?;
  }

  lemma LeaveKeeps(s: Race)
    requires Inv(s)
    ensures Inv(Next(s, Leave))
  {
    var s' := Next(s, Leave);
    forall v | 0 <= v < |s'.callers| ensures CallerOk(s', s'.callers[v]) {
      assert CallerOk(s, s.callers[v]);
    }
    forall v | 0 <= v < |s'.others| ensures CallerOk(s', s'.others[v]) {
      if v < |s.others| {
        assert CallerOk(s, s.others[v]);
      }
    }
  }

  lemma FreeAfterWaiting(s: Race, who: Who)
    requires Inv(s) && Exists(s, who) && !At(s, who).Watching? && !At(s, who).Waiting?
    ensures Free(s, who)
  {
  }

  lemma CallerKeeps(s: Race, who: Who, step: Step)
    requires Inv(s) && Exists(s, who) && step in {Test(who), ReadSlots(who), Write(who)}
    ensures Inv(Next(s, step))
  {
    var caller := At(s, who);
    assert CallerOk(s, caller);
    match step {
      case Test(_) =>
        if caller.Waiting? && Free(s, who) {
          var full := s.bundle.terminalCount >= |s.bundle.slots|;
          PutKeeps(s, who, if full then Passed else Returned, s.status, s.saw, s.read);
        }
      case ReadSlots(_) =>
        if caller.Passed? {
          FreeAfterWaiting(s, who);
          PutKeeps(s, who, Holding(Aggregate(s.bundle.slots), s.cleared), s.status, s.saw, true);
        }
      case Write(_) =>
        if caller.Holding? {
          FreeAfterWaiting(s, who);
          PutKeeps(s, who, Returned, Some(caller.status), caller.saw, s.read);
        }
      case _ =>
    }
  }

  lemma ApplyShape(b: Bundle, i: nat, state: DistributionState)
    ensures var b' := Apply(b, i, state);
            && |b'.slots| == |b.slots| && b'.terminalCount == b.terminalCount
            && (b'.updates == b.updates || (|b'.updates| == |b.updates| + 1 && b'.updates[..|b.updates|] == b.updates))
  {
  }

  lemma CancelShape(b: Bundle, i: nat)
    ensures var b' := Cancel(b, i);
            && |b'.slots| == |b.slots| && b'.terminalCount == b.terminalCount
            && (b'.updates == b.updates || (|b'.updates| == |b.updates| + 1 && b'.updates[..|b.updates|] == b.updates))
  {
  }

  lemma ApplyRelabels(s: Race, i: nat, state: DistributionState)
    requires Inv(s)
    ensures Relabels(s, Apply(s.bundle, i, state))
  {
    if s.bundle.terminalCount >= |s.bundle.slots| {
      FullIsTerminal(s.bundle);
    }
  }

  lemma CancelRelabels(s: Race, i: nat)
    requires Inv(s)
    ensures Relabels(s, Cancel(s.bundle, i))
  {
    if s.bundle.terminalCount >= |s.bundle.slots| {
      FullIsTerminal(s.bundle);
    }
  }

  lemma NextKeeps(s: Race, step: Step)
    requires Inv(s)
    ensures Inv(Next(s, step))
  {
    match step {
      case CallProgress(i, state) =>
        ApplyRelabels(s, i, state);
        ApplyKeeps(s.bundle, i, state);
        ApplyShape(s.bundle, i, state);
        UpdatedKeeps(s, Apply(s.bundle, i, state), Watching);
      case CallCancel(i) =>
        CancelRelabels(s, i);
        CancelKeeps(s.bundle, i);
        CancelShape(s.bundle, i);
        UpdatedKeeps(s, Cancel(s.bundle, i), Waiting);
      case CountStep(u) => CountStepKeeps(s, u);
      case SendStep(u) => SendStepKeeps(s, u);
      case Follow(_, _) => WatcherKeeps(s, step);
      case End(_) => WatcherKeeps(s, step);
      case Leave => WatcherKeeps(s, step);
      case Test(who) => if Exists(s, who) { CallerKeeps(s, who, step); }
      case ReadSlots(who) => if Exists(s, who) { CallerKeeps(s, who, step); }
      case Write(who) => if Exists(s, who) { CallerKeeps(s, who, step); }
    }
  }

  lemma {:induction false} RunKeeps(n: nat, steps: seq<Step>)
    ensures Inv(Run(n, steps))
  {
    if steps == [] {
      Progress.RunKeeps(n, []);
    } else {
      RunKeeps(n, steps[..|steps| - 1]);
      NextKeeps(Run(n, steps[..|steps| - 1]), steps[|steps| - 1]);
    }
  }

  /** Calls that end in the test for completion: every cancellation, every watcher that leaves, and every accepted
      progress report. */
  function Calls(n: nat, steps: seq<Step>): nat {
    if steps == [] then 0
    else
      var slots, last := Run(n, steps[..|steps| - 1]).bundle.slots, steps[|steps| - 1];
      var accepted := last.CallProgress? && last.i < |slots| && !Terminal(slots[last.i]);
      Calls(n, steps[..|steps| - 1]) + (if last.CallCancel? || last.Leave? || accepted then 1 else 0)
  }

  lemma CallAdds(s: Race, step: Step)
    ensures var slots := s.bundle.slots;
            var accepted := step.CallProgress? && step.i < |slots| && !Terminal(slots[step.i]);
            |Next(s, step).callers| + |Next(s, step).others| ==
            |s.callers| + |s.others| + (if step.CallCancel? || step.Leave? || accepted then 1 else 0)
  {
  }

  /** In every run each of these calls, accepted or not, is one caller that goes on to the test. */
  lemma {:induction false} EveryCallTests(n: nat, steps: seq<Step>)
    ensures |Run(n, steps).callers| + |Run(n, steps).others| == Calls(n, steps)
  {
    if steps != [] {
      EveryCallTests(n, steps[..|steps| - 1]);
      CallAdds(Run(n, steps[..|steps| - 1]), steps[|steps| - 1]);
    }
  }

  // ---- results -------------------------------------------------------------------------

  /** Every update is broadcast, every caller has returned, every slot is terminal. */
  ghost predicate Quiet(s: Race) {
    && (forall u :: 0 <= u < |s.bundle.updates| ==> s.bundle.updates[u].at.Sent?)
    && (forall u :: 0 <= u < |s.callers| ==> s.callers[u].Returned?)
    && AllTerminal(s.bundle.slots)
  }

  lemma {:induction false} NoneUncounted(updates: seq<Update>)
    requires forall u :: 0 <= u < |updates| ==> updates[u].at.Sent?
    ensures Uncounted(updates) == 0
  {
    if updates != [] {
      NoneUncounted(updates[..|updates| - 1]);
    }
  }

  /** Some caller always finalizes a bundle that has distributions. Its status is the aggregate of the final slots if
      and only if the last Failed slot was not relabelled after the status' writer had read the slots. */
  lemma {:induction false} FinalStatus(n: nat, steps: seq<Step>)
    requires n > 0 && Quiet(Run(n, steps))
    ensures var s := Run(n, steps);
            && s.status.Some?
            && (s.status.value == Aggregate(s.bundle.slots) <==> !(s.cleared && !s.saw))
  {
    RunKeeps(n, steps);
    var s := Run(n, steps);
    SlotsStay(n, steps);
    TerminalSlotsBound(s.bundle.slots);
    NoneUncounted(s.bundle.updates);
  }

  lemma NextSlots(s: Race, step: Step)
    ensures |Next(s, step).bundle.slots| == |s.bundle.slots|
  {
  }

  lemma {:induction false} SlotsStay(n: nat, steps: seq<Step>)
    ensures |Run(n, steps).bundle.slots| == n
  {
    if steps != [] {
      SlotsStay(n, steps[..|steps| - 1]);
      NextSlots(Run(n, steps[..|steps| - 1]), steps[|steps| - 1]);
    }
  }

  /** That does happen: a watcher that read Failed writes it after the cancellation has finalized. */
  lemma StaleStatus() returns (steps: seq<Step>)
    ensures var s := Run(1, steps); Quiet(s) && s.bundle.slots == [Cancelled] && s.status == Some(SomeFailed)
  {
    steps := CancelHolds();
    RunSnoc(1, steps, Write(Updater(1)));
    steps := steps + [Write(Updater(1))];
    RunSnoc(1, steps, Write(Updater(0)));
    steps := steps + [Write(Updater(0))];
  }

  /** The one distribution after it failed, relabelled or not. */
  function FailedBundle(updates: seq<Update>): Bundle {
    var cancelled := |updates| > 1;
    Bundle([if cancelled then Cancelled else Failed], 1, updates,
           [Frame(0, Failed)] + if cancelled then [Frame(0, Cancelled)] else [], if cancelled then {0} else {})
  }

  const FAILED := Update(Frame(0, Failed), Sent)

  const CANCELLED := Update(Frame(0, Cancelled), Sent)

  lemma CancelHolds() returns (steps: seq<Step>)
    ensures Run(1, steps) ==
            Race(FailedBundle([FAILED, CANCELLED]), [Holding(SomeFailed, false), Holding(SomeCancelled, true)], [],
                 None, true, true, false)
  {
    steps := CancelSent();
    RunSnoc(1, steps, Test(Updater(1)));
    steps := steps + [Test(Updater(1))];
    RunSnoc(1, steps, ReadSlots(Updater(1)));
    steps := steps + [ReadSlots(Updater(1))];
  }

  lemma CancelSent() returns (steps: seq<Step>)
    ensures Run(1, steps) ==
            Race(FailedBundle([FAILED, CANCELLED]), [Holding(SomeFailed, false), Waiting], [], None, true, true, false)
  {
    steps := WatcherHolds();
    RunSnoc(1, steps, CallCancel(0));
    steps := steps + [CallCancel(0)];
    RunSnoc(1, steps, SendStep(1));
    steps := steps + [SendStep(1)];
  }

  lemma WatcherHolds() returns (steps: seq<Step>)
    ensures Run(1, steps) == Race(FailedBundle([FAILED]), [Holding(SomeFailed, false)], [], None, true, false, false)
  {
    steps := WatcherFailed();
    RunSnoc(1, steps, Test(Updater(0)));
    steps := steps + [Test(Updater(0))];
    RunSnoc(1, steps, ReadSlots(Updater(0)));
    steps := steps + [ReadSlots(Updater(0))];
  }

  lemma WatcherFailed() returns (steps: seq<Step>)
    ensures Run(1, steps) == Race(FailedBundle([FAILED]), [Waiting], [], None, false, false, false)
  {
    steps := [];
    RunSnoc(1, steps, CallProgress(0, Failed));
    steps := steps + [CallProgress(0, Failed)];
    RunSnoc(1, steps, CountStep(0));
    steps := steps + [CountStep(0)];
    RunSnoc(1, steps, SendStep(0));
    steps := steps + [SendStep(0)];
    RunSnoc(1, steps, End(0));
    steps := steps + [End(0)];
  }

  lemma {:induction false} RunSnoc(n: nat, steps: seq<Step>, step: Step)
    ensures Run(n, steps + [step]) == Next(Run(n, steps), step)
  {
    assert (steps + [step])[..|steps|] == steps;
  }
}
