/** Reconciliation triggers of `reconcile.rs`: any number of concurrent `trigger` calls, `close`, and the
    reconciler, interleaved at every atomic access and channel operation. */
module Reconcile {
  /** Where a `trigger` call is. */
  datatype At =
    | Entered              // about to load `closed`
    | Accepted             // not closed; about to count the trigger
    | Counted              // about to try_send
    | Full                 // try_send failed; about to swap `pending`
    | Coalescing           // set `pending` first; about to count it
    | Done                 // returned after its send attempt
    | Refused              // returned because the trigger was closed

  /** `began` is history: how many scans had started when the call was made. */
  datatype Call = Call(at: At, began: nat)

  datatype Phase =
    | Waiting              // rx.recv()
    | Got                  // about to load `closed`
    | Starting             // about to start a scan
    | Scanning             // scan running
    | Swapping             // not closed after the scan; about to swap `pending`
    | Stopped              // finished, receiver dropped

  datatype State = State(
    queued: bool, pending: bool, closed: bool, triggers: nat, coalesced: nat, scans: nat, reconciler: Phase,
    calls: seq<Call>)

  datatype Step = Invoke | Advance(i: nat) | TakeTurn | SetClosed | ClearPending

  function Start(): State {
    State(false, false, false, 0, 0, 0, Waiting, [])
  }

  function Move(s: State, i: nat, at: At): State
    requires i < |s.calls|
  {
    s.(calls := s.calls[i := s.calls[i].(at := at)])
  }

  /** One step of `trigger`. The channel holds one message; a finished reconciler has dropped its receiver. */
  function Call1(s: State, i: nat): State
    requires i < |s.calls|
  {
    match s.calls[i].at
    case Entered => if s.closed then Move(s, i, Refused) else Move(s, i, Accepted)
    case Accepted => Move(s, i, Counted).(triggers := s.triggers + 1)
    case Counted =>
      if s.queued || s.reconciler.Stopped? then Move(s, i, Full) else Move(s, i, Done).(queued := true)
    case Full => if s.pending then Move(s, i, Done) else Move(s, i, Coalescing).(pending := true)
    case Coalescing => Move(s, i, Done).(coalesced := s.coalesced + 1)
    case _ => s
  }

  /** One step of the reconciler. */
  function Turn(s: State): State {
    match s.reconciler
    case Waiting => if s.queued then s.(queued := false, reconciler := Got) else s
    case Got => s.(reconciler := if s.closed then Stopped else Starting)
    case Starting => s.(scans := s.scans + 1, reconciler := Scanning)
    case Scanning => s.(reconciler := if s.closed then Waiting else Swapping)
    case Swapping => s.(pending := false, reconciler := if s.pending then Starting else Waiting)
    case Stopped => s
  }

  function Next(s: State, step: Step): State {
    match step
    case Invoke => s.(calls := s.calls + [Call(Entered, s.scans)])
    case Advance(i) => if i < |s.calls| then Call1(s, i) else s
    case TakeTurn => Turn(s)
    case SetClosed => s.(closed := true)
    case ClearPending => if s.closed then s.(pending := false) else s
  }

  function Run(s: State, steps: seq<Step>): State {
    if steps == [] then s else Next(Run(s, steps[..|steps| - 1]), steps[|steps| - 1])
  }

  // ---- no trigger is lost ----------------------------------------------------

  /** The call made its send attempt. */
  predicate Sent(c: Call) {
    c.at.Full? || c.at.Coalescing? || c.at.Done?
  }

  /** A scan will start without any further trigger. */
  predicate Coming(s: State) {
    s.queued || s.reconciler.Got? || s.reconciler.Starting?
  }

  ghost predicate Inv(s: State) {
    && (s.reconciler.Stopped? ==> s.closed)
    && (forall i :: 0 <= i < |s.calls| ==> s.calls[i].began <= s.scans)
    && (!s.closed ==> forall i :: 0 <= i < |s.calls| && Sent(s.calls[i]) && s.calls[i].began == s.scans ==> Coming(s))
  }

  lemma CallKeeps(s: State, i: nat)
    requires Inv(s) && i < |s.calls|
    ensures Inv(Call1(s, i))
  {
  }

  lemma NextKeeps(s: State, step: Step)
    requires Inv(s)
    ensures Inv(Next(s, step))
  {
    match step {
      case Advance(i) => if i < |s.calls| { CallKeeps(s, i); }
      case _ =>
    }
  }

  lemma {:induction false} RunKeeps(s: State, steps: seq<Step>)
    requires Inv(s)
    ensures Inv(Run(s, steps))
  {
    if steps != [] {
      RunKeeps(s, steps[..|steps| - 1]);
      NextKeeps(Run(s, steps[..|steps| - 1]), steps[|steps| - 1]);
    }
  }

  /** Whenever an open reconciler is idle on an empty channel, every call that made its send attempt has had a
      scan start after the call was made. */
  lemma {:induction false} IdleMeansScanned(steps: seq<Step>, i: nat)
    requires var s := Run(Start(), steps);
             s.reconciler.Waiting? && !s.queued && !s.closed && i < |s.calls| && Sent(s.calls[i])
    ensures Run(Start(), steps).scans > Run(Start(), steps).calls[i].began
  {
    RunKeeps(Start(), steps);
  }

  /** Own steps the reconciler needs at most until a scan starts, once one is coming. */
  function Left(s: State): nat {
    match s.reconciler
    case Starting => 1
    case Got => 2
    case Waiting => 3
    case Swapping => 4
    case Scanning => 5
    case Stopped => 0
  }

  function Turns(steps: seq<Step>): nat {
    if steps == [] then 0 else Turns(steps[..|steps| - 1]) + (if steps[|steps| - 1].TakeTurn? then 1 else 0)
  }

  /** One step towards the next scan, while the trigger stays open. */
  lemma Approaches(s: State, step: Step)
    requires !s.closed && !s.reconciler.Stopped? && Coming(s) && !step.SetClosed?
    ensures var s' := Next(s, step);
            && !s'.closed && !s'.reconciler.Stopped?
            && (s'.scans > s.scans || (s'.scans == s.scans && Coming(s')
                                       && Left(s') <= Left(s) - (if step.TakeTurn? then 1 else 0)))
  {
  }

  lemma OpenKept(s: State, step: Step)
    requires !s.closed && !s.reconciler.Stopped? && !step.SetClosed?
    ensures !Next(s, step).closed && !Next(s, step).reconciler.Stopped? && Next(s, step).scans >= s.scans
  {
  }

  lemma {:induction false} ScanComes(s: State, steps: seq<Step>)
    requires !s.closed && !s.reconciler.Stopped? && Coming(s) && SetClosed !in steps
    ensures var s' := Run(s, steps);
            && !s'.closed && !s'.reconciler.Stopped?
            && (s'.scans > s.scans || (s'.scans == s.scans && Coming(s') && Left(s') + Turns(steps) <= Left(s)))
  {
    if steps != [] {
      var init, last := steps[..|steps| - 1], steps[|steps| - 1];
      assert last in steps && SetClosed !in init;
      ScanComes(s, init);
      OpenKept(Run(s, init), last);
      if Run(s, init).scans == s.scans {
        Approaches(Run(s, init), last);
      }
    }
  }

  /** No trigger is lost: in any reachable state, once a call has made its send attempt and while the trigger stays
      open, five steps of the reconciler start a scan that follows the call, however other calls interleave. */
  lemma {:induction false} NoLostTrigger(before: seq<Step>, i: nat, after: seq<Step>)
    requires var s := Run(Start(), before); !s.closed && i < |s.calls| && Sent(s.calls[i])
    requires SetClosed !in after && Turns(after) >= 5
    ensures var s := Run(Start(), before); Run(s, after).scans > s.calls[i].began
  {
    var s := Run(Start(), before);
    RunKeeps(Start(), before);
    if s.calls[i].began == s.scans {
      ScanComes(s, after);
    } else {
      ScansGrow(s, after);
    }
  }

  lemma {:induction false} ScansGrow(s: State, steps: seq<Step>)
    ensures Run(s, steps).scans >= s.scans
  {
    if steps != [] {
      ScansGrow(s, steps[..|steps| - 1]);
    }
  }

  // ---- scans are paid for by triggers ----------------------------------------

  /** The call was counted and has neither queued a message nor set `pending`. */
  predicate Unspent(c: Call) {
    c.at.Counted? || c.at.Full?
  }

  /** How many calls are at such a point. */
  function Having(calls: seq<Call>, p: Call -> bool): nat {
    if calls == [] then 0 else Having(calls[..|calls| - 1], p) + (if p(calls[|calls| - 1]) then 1 else 0)
  }

  lemma {:induction false} HavingUpdate(calls: seq<Call>, p: Call -> bool, i: nat, c: Call)
    requires i < |calls|
    ensures Having(calls[i := c], p) + (if p(calls[i]) then 1 else 0) == Having(calls, p) + (if p(c) then 1 else 0)
  {
    var n := |calls| - 1;
    if i < n {
      HavingUpdate(calls[..n], p, i, c);
      assert calls[i := c][..n] == calls[..n][i := c];
    } else {
      assert calls[i := c][..n] == calls[..n];
    }
  }

  function Bit(b: bool): nat {
    if b then 1 else 0
  }

  /** Every scan done or coming is charged to a trigger of its own. */
  predicate Charged(s: State) {
    Taken(s) + Having(s.calls, Unspent) <= s.triggers
  }

  function Taken(s: State): nat {
    s.scans + Bit(s.queued) + Bit(s.pending) + Bit(s.reconciler.Got? || s.reconciler.Starting?)
  }

  lemma CallPays(s: State, i: nat)
    requires i < |s.calls|
    ensures var s' := Call1(s, i);
            && |s'.calls| == |s.calls| && s'.calls == s.calls[i := s'.calls[i]]
            && Taken(s') + Bit(Unspent(s'.calls[i])) + s.triggers <= Taken(s) + Bit(Unspent(s.calls[i])) + s'.triggers
  {
  }

  lemma CallCharged(s: State, i: nat)
    requires Charged(s) && i < |s.calls|
    ensures Charged(Call1(s, i))
  {
    var s' := Call1(s, i);
    CallPays(s, i);
    HavingUpdate(s.calls, Unspent, i, s'.calls[i]);
  }

  lemma TurnCharged(s: State)
    requires Charged(s)
    ensures Charged(Turn(s))
  {
  }

  lemma NextCharged(s: State, step: Step)
    requires Charged(s)
    ensures Charged(Next(s, step))
  {
    match step {
      case Invoke => assert (s.calls + [Call(Entered, s.scans)])[..|s.calls|] == s.calls;
      case Advance(i) => if i < |s.calls| { CallCharged(s, i); }
      case TakeTurn => TurnCharged(s);
      case _ =>
    }
  }

  /** Coalescing never invents work: there are at most as many scans as accepted triggers. */
  lemma {:induction false} ScansBounded(steps: seq<Step>)
    ensures Charged(Run(Start(), steps))
    ensures Run(Start(), steps).scans <= Run(Start(), steps).triggers
  {
    if steps != [] {
      ScansBounded(steps[..|steps| - 1]);
      NextCharged(Run(Start(), steps[..|steps| - 1]), steps[|steps| - 1]);
    }
  }

  // ---- every message and every flag is accounted for ------------------------------

  /** The call queues a message. */
  predicate Sends(s: State, step: Step) {
    && step.Advance? && step.i < |s.calls| && s.calls[step.i].at.Counted?
    && !s.queued && !s.reconciler.Stopped?
  }

  /** The call raises `pending`. */
  predicate Flags(s: State, step: Step) {
    step.Advance? && step.i < |s.calls| && s.calls[step.i].at.Full? && !s.pending
  }

  /** Closing throws away a message taken after it, or clears the flag. */
  predicate Drops(s: State, step: Step) {
    s.closed && ((step == TakeTurn && s.reconciler.Got?) || (step == ClearPending && s.pending))
  }

  function Times(p: (State, Step) -> bool, steps: seq<Step>): nat {
    if steps == [] then 0
    else Times(p, steps[..|steps| - 1]) + Bit(p(Run(Start(), steps[..|steps| - 1]), steps[|steps| - 1]))
  }

  predicate Raising(c: Call) {
    c.at.Coalescing?
  }

  predicate PastCounting(c: Call) {
    c.at.Counted? || c.at.Full? || c.at.Coalescing? || c.at.Done?
  }

  lemma StepTakes(s: State, step: Step)
    ensures Taken(Next(s, step)) + Bit(Drops(s, step)) == Taken(s) + Bit(Sends(s, step)) + Bit(Flags(s, step))
  {
  }

  lemma CallCounts(s: State, i: nat)
    requires i < |s.calls|
    ensures var (s', c, c') := (Call1(s, i), s.calls[i], Call1(s, i).calls[i]);
            && s'.triggers + Bit(PastCounting(c)) == s.triggers + Bit(PastCounting(c'))
            && s'.coalesced + Bit(Raising(c')) == s.coalesced + Bit(Raising(c)) + Bit(c.at.Full? && !s.pending)
  {
  }

  lemma CallsKept(s: State, step: Step)
    requires !step.Advance?
    ensures var s' := Next(s, step);
            s'.triggers == s.triggers && s'.coalesced == s.coalesced
            && s'.calls == if step.Invoke? then s.calls + [Call(Entered, s.scans)] else s.calls
  {
  }

  lemma StepCounts(s: State, step: Step)
    ensures var s' := Next(s, step);
            && s'.triggers + Having(s.calls, PastCounting) == s.triggers + Having(s'.calls, PastCounting)
            && s'.coalesced + Having(s'.calls, Raising) == s.coalesced + Having(s.calls, Raising) + Bit(Flags(s, step))
  {
    if !step.Advance? {
      CallsKept(s, step);
      assert (s.calls + [Call(Entered, s.scans)])[..|s.calls|] == s.calls;
    } else if step.i < |s.calls| {
      var c := Call1(s, step.i).calls[step.i];
      CallPays(s, step.i);
      CallCounts(s, step.i);
      HavingUpdate(s.calls, PastCounting, step.i, c);
      HavingUpdate(s.calls, Raising, step.i, c);
    }
  }

  /** In every run each queued message and each raised flag has become exactly one scan, is still waiting, or was
      dropped by closing. */
  lemma {:induction false} ScansAccounted(steps: seq<Step>)
    ensures Taken(Run(Start(), steps)) + Times(Drops, steps) == Times(Sends, steps) + Times(Flags, steps)
  {
    if steps != [] {
      ScansAccounted(steps[..|steps| - 1]);
      StepTakes(Run(Start(), steps[..|steps| - 1]), steps[|steps| - 1]);
    }
  }

  /** In every run a call is counted as a trigger once, and as coalesced exactly when it raised the flag. */
  lemma {:induction false} CallsAccounted(steps: seq<Step>)
    ensures var s := Run(Start(), steps);
            && s.triggers == Having(s.calls, PastCounting)
            && s.coalesced + Having(s.calls, Raising) == Times(Flags, steps)
  {
    if steps != [] {
      CallsAccounted(steps[..|steps| - 1]);
      StepCounts(Run(Start(), steps[..|steps| - 1]), steps[|steps| - 1]);
    }
  }

  // ---- closing --------------------------------------------------------------------

  /** A call made after closing is refused, and nothing else comes of it. */
  lemma {:induction false} LateRefused(s: State, steps: seq<Step>, i: nat)
    requires s.closed && i >= |s.calls|
    ensures var s' := Run(s, steps);
            s'.closed && (i < |s'.calls| ==> s'.calls[i].at.Entered? || s'.calls[i].at.Refused?)
  {
    if steps != [] {
      LateRefused(s, steps[..|steps| - 1], i);
    }
  }

  /** While open no call is refused. */
  lemma {:induction false} OpenAccepts(steps: seq<Step>)
    ensures var s := Run(Start(), steps);
            s.closed || forall i :: 0 <= i < |s.calls| ==> !s.calls[i].at.Refused?
  {
    if steps != [] {
      OpenAccepts(steps[..|steps| - 1]);
    }
  }

  lemma ClosedStep(s: State, step: Step)
    requires s.closed
    ensures var s' := Next(s, step);
            s'.closed && s'.scans + Bit(s'.reconciler.Starting? || s'.reconciler.Swapping?)
                         <= s.scans + Bit(s.reconciler.Starting? || s.reconciler.Swapping?)
  {
  }

  /** After closing at most one more scan starts, and only if the reconciler was past its last look at the flag. */
  lemma {:induction false} ClosedScans(s: State, steps: seq<Step>)
    requires s.closed
    ensures var s' := Run(s, steps);
            s'.closed && s'.scans + Bit(s'.reconciler.Starting? || s'.reconciler.Swapping?)
                         <= s.scans + Bit(s.reconciler.Starting? || s.reconciler.Swapping?)
  {
    if steps != [] {
      ClosedScans(s, steps[..|steps| - 1]);
      ClosedStep(Run(s, steps[..|steps| - 1]), steps[|steps| - 1]);
    }
  }

  lemma {:induction false} RunSnoc(steps: seq<Step>, step: Step)
    ensures Run(Start(), steps + [step]) == Next(Run(Start(), steps), step)
  {
    assert (steps + [step])[..|steps|] == steps;
  }

  /** Closing is where triggers may go unanswered: a call accepted just before `close` need not be followed by a
      scan. */
  lemma ClosedMayDrop()
    ensures exists steps ::
              var s := Run(Start(), steps);
              s.reconciler.Stopped? && |s.calls| == 1 && s.calls[0].at.Done? && s.scans == 0
  {
    var steps := [];
    RunSnoc(steps, Invoke);
    steps := steps + [Invoke];
    RunSnoc(steps, Advance(0));
    steps := steps + [Advance(0)];
    RunSnoc(steps, Advance(0));
    steps := steps + [Advance(0)];
    RunSnoc(steps, Advance(0));
    steps := steps + [Advance(0)];
    RunSnoc(steps, SetClosed);
    steps := steps + [SetClosed];
    RunSnoc(steps, TakeTurn);
    steps := steps + [TakeTurn];
    RunSnoc(steps, TakeTurn);
    steps := steps + [TakeTurn];
    assert Run(Start(), steps).reconciler.Stopped?;
  }
}
