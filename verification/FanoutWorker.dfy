/** The drain worker of `fanout.rs` against concurrent `enqueue` and `close` calls: a one-permit notification
    (tokio's `Notify`), a lock around the queue, and a closed flag. Each step is one atomic action. */
module FanoutWorker {
  import opened Fanout

  /** Where the worker is in `run`. */
  datatype Phase =
    | AtPop      // about to pop
    | Draining   // sending a popped document
    | SawEmpty   // popped nothing, has not read `closed`
    | WillPark   // read `closed` as false, has not polled the notification
    | Parked
    | Exited

  /** `notifying` and `closing` count callers of `enqueue` and `close` that have released the lock or stored the
      flag and have not notified yet. `arrived` is history: admissions since the worker's last empty pop. */
  datatype State = State(
    q: Queue, permit: bool, closed: bool, worker: Phase, notifying: nat, closing: nat, arrived: nat)

  datatype Step =
    | EnqueueLocked(key: string, kind: FanoutKind)
    | EnqueueNotify
    | CloseStore
    | CloseNotify
    | Work  // the worker's next action

  function Start(): State {
    State(Empty(), false, false, AtPop, 0, 0, 0)
  }

  /** `notify_one`: wake a parked worker, or store the permit. */
  function NotifyOne(s: State): State {
    if s.worker.Parked? then s.(worker := AtPop) else s.(permit := true)
  }

  function Next(qos: Qos, s: State, step: Step): (s': State)
    requires |s.q.dropped| == 6
    ensures |s'.q.dropped| == 6
  {
    match step
    case EnqueueLocked(key, kind) =>
      var q' := Enqueued(s.q, QosRank(qos, key), key, kind);
      if key in s.q.entries then s.(q := q')
      else s.(q := q', notifying := s.notifying + 1, arrived := s.arrived + 1)
    case EnqueueNotify => if s.notifying == 0 then s else NotifyOne(s.(notifying := s.notifying - 1))
    case CloseStore => s.(closed := true, closing := s.closing + 1)
    case CloseNotify => if s.closing == 0 then s else NotifyOne(s.(closing := s.closing - 1))
    case Work =>
      match s.worker
      case AtPop =>
        if s.q.pending == [] then s.(q := AfterPop(s.q), worker := SawEmpty, arrived := 0)
        else s.(q := AfterPop(s.q), worker := Draining)
      case Draining => s.(worker := AtPop)
      case SawEmpty => s.(worker := if s.closed then Exited else WillPark)
      case WillPark => if s.permit then s.(permit := false, worker := AtPop) else s.(worker := Parked)
      case Parked => s
      case Exited => s
  }

  function Run(qos: Qos, steps: seq<Step>): (s: State)
    ensures |s.q.dropped| == 6
  {
    if steps == [] then Start() else Next(qos, Run(qos, steps[..|steps| - 1]), steps[|steps| - 1])
  }

  ghost predicate Inv(s: State) {
    Valid(s.q) && Phases(s)
  }

  ghost predicate Phases(s: State) {
    && (s.q.pending != [] ==> s.permit || s.notifying > 0 || s.worker.AtPop? || s.worker.Draining? || s.worker.Exited?)
    && (s.closed ==> s.permit || s.closing > 0 || !(s.worker.WillPark? || s.worker.Parked?))
    && (s.worker.Exited? ==> s.closed)
    && (s.worker.Parked? ==> !s.permit)
    && (s.worker.AtPop? || s.worker.Draining?
        || (|s.q.pending| <= s.arrived && (s.q.pending == [] <==> s.arrived == 0)))
  }

  lemma NextValid(qos: Qos, s: State, step: Step)
    requires Valid(s.q)
    ensures Valid(Next(qos, s, step).q)
  {
    match step
    case EnqueueLocked(key, kind) => EnqueueKeeps(s.q, QosRank(qos, key), key, kind);
    case Work => PopKeeps(s.q);
    case _ =>
  }

  lemma NextPhases(qos: Qos, s: State, step: Step)
    requires Phases(s) && |s.q.dropped| == 6
    ensures Phases(Next(qos, s, step))
  {
  }

  lemma {:induction false} RunKeeps(qos: Qos, steps: seq<Step>)
    ensures Inv(Run(qos, steps))
  {
    if steps != [] {
      RunKeeps(qos, steps[..|steps| - 1]);
      NextValid(qos, Run(qos, steps[..|steps| - 1]), steps[|steps| - 1]);
      NextPhases(qos, Run(qos, steps[..|steps| - 1]), steps[|steps| - 1]);
    }
  }

  /** No lost wakeup: in every interleaving, a parked worker with nobody about to notify it has an empty queue
      and an open channel, although coalescing enqueues never notify. */
  lemma {:induction false} NoLostWakeup(qos: Qos, steps: seq<Step>)
    ensures var s := Run(qos, steps);
            && (s.worker == Parked && s.notifying == 0 ==> s.q.pending == [])
            && (s.worker == Parked && s.closing == 0 ==> !s.closed)
  {
    RunKeeps(qos, steps);
  }

  /** The worker exits only once closed, and what is pending then arrived after its last, empty pop: the queue is
      drained exactly when nothing arrived since. */
  lemma {:induction false} ExitsDrained(qos: Qos, steps: seq<Step>)
    requires Run(qos, steps).worker == Exited
    ensures var s := Run(qos, steps);
            s.closed && |s.q.pending| <= s.arrived && (s.q.pending == [] <==> s.arrived == 0)
  {
    RunKeeps(qos, steps);
  }

  /** That remainder need not be empty: an enqueue and a close that both fall between the empty pop and the
      read of the flag leave the document behind. */
  lemma ExitMayLeaveEntry(qos: Qos, key: string, kind: FanoutKind)
    ensures var s := Run(qos, [Work, EnqueueLocked(key, kind), CloseStore, Work]);
            s.worker == Exited && |s.q.pending| == 1
  {
    var enqueue := EnqueueLocked(key, kind);
    ArrivesLate(qos, key, kind);
    RunSnoc(qos, [Work, enqueue], CloseStore);
    assert [Work, enqueue] + [CloseStore] == [Work, enqueue, CloseStore];
    RunSnoc(qos, [Work, enqueue, CloseStore], Work);
    assert [Work, enqueue, CloseStore] + [Work] == [Work, enqueue, CloseStore, Work];
  }

  lemma ArrivesLate(qos: Qos, key: string, kind: FanoutKind)
    ensures var s := Run(qos, [Work, EnqueueLocked(key, kind)]);
            s.worker == SawEmpty && |s.q.pending| == 1
  {
    var enqueue := EnqueueLocked(key, kind);
    FoundEmpty(qos);
    RunSnoc(qos, [Work], enqueue);
    assert [Work] + [enqueue] == [Work, enqueue];
    FirstEnqueue(QosRank(qos, key), key, kind);
  }

  lemma FoundEmpty(qos: Qos)
    ensures Run(qos, [Work]) == State(Empty(), false, false, SawEmpty, 0, 0, 0)
  {
    RunSnoc(qos, [], Work);
    assert [] + [Work] == [Work];
  }

  lemma FirstEnqueue(rank: Rank, key: string, kind: FanoutKind)
    ensures key !in Empty().entries && |Enqueued(Empty(), rank, key, kind).pending| == 1
  {
    assert Insert([], Entry(rank, 0, key)) == [Entry(rank, 0, key)];
  }

  // ---- an undisturbed worker drains the queue and parks -----------------------------

  /** The worker's next `n` actions, undisturbed. */
  function Works(qos: Qos, s: State, n: nat): State
    requires |s.q.dropped| == 6
    decreases n
  {
    if n == 0 then s else Works(qos, Next(qos, s, Work), n - 1)
  }

  /** Actions it takes at most until it parks or exits. */
  function Distance(s: State): nat {
    match s.worker
    case AtPop => 2 * |s.q.pending| + (if s.permit then 6 else 3)
    case Draining => 2 * |s.q.pending| + (if s.permit then 7 else 4)
    case SawEmpty => 2 * |s.q.pending| + (if s.permit then 5 else 2)
    case WillPark => if s.permit then 2 * |s.q.pending| + 4 else 1
    case Parked => 0
    case Exited => 0
  }

  lemma WorkApproaches(qos: Qos, s: State)
    requires Inv(s)
    ensures var s' := Next(qos, s, Work);
            && (Distance(s) > 0 ==> Distance(s') < Distance(s)) && (Distance(s) == 0 ==> s' == s)
            && s'.notifying == s.notifying && s'.closing == s.closing && s'.closed == s.closed
  {
  }

  ghost predicate AtRest(s: State) {
    s.worker == (if s.closed then Exited else Parked) && (!s.closed ==> s.q.pending == [])
  }

  lemma NoDistance(s: State)
    requires Phases(s) && s.notifying == 0 && s.closing == 0 && Distance(s) == 0
    ensures AtRest(s)
  {
  }

  lemma {:induction false} Drains(qos: Qos, s: State, n: nat)
    requires Inv(s) && s.notifying == 0 && s.closing == 0 && n >= Distance(s)
    ensures Works(qos, s, n).closed == s.closed && AtRest(Works(qos, s, n))
    decreases n
  {
    if n == 0 {
      NoDistance(s);
    } else {
      WorkApproaches(qos, s);
      NextValid(qos, s, Work);
      NextPhases(qos, s, Work);
      Drains(qos, Next(qos, s, Work), n - 1);
    }
  }

  lemma DistanceBounded(s: State)
    ensures Distance(s) <= 2 * |s.q.pending| + 7
  {
  }

  /** Once every caller has notified, the worker serves what is pending and parks, or exits if closed, within two
      actions per document and seven more: it neither spins nor stops early, wherever the callers left it. */
  lemma {:induction false} WorkerSettles(qos: Qos, steps: seq<Step>, n: nat)
    requires var s := Run(qos, steps); s.notifying == 0 && s.closing == 0 && n >= 2 * |s.q.pending| + 7
    ensures var s, s' := Run(qos, steps), Works(qos, Run(qos, steps), n); s'.closed == s.closed && AtRest(s')
  {
    RunKeeps(qos, steps);
    DistanceBounded(Run(qos, steps));
    Drains(qos, Run(qos, steps), n);
  }

  // ---- one notification per admission --------------------------------------------

  /** Enqueues that found no pending entry of their document, and the notifications sent for them. */
  function Admissions(qos: Qos, steps: seq<Step>): nat {
    if steps == [] then 0
    else
      var init, step := steps[..|steps| - 1], steps[|steps| - 1];
      var admitted := step.EnqueueLocked? && step.key !in Run(qos, init).q.entries;
      Admissions(qos, init) + (if admitted then 1 else 0)
  }

  function Notified(qos: Qos, steps: seq<Step>): nat {
    if steps == [] then 0
    else
      var init := steps[..|steps| - 1];
      var sent := steps[|steps| - 1] == EnqueueNotify && Notified(qos, init) < Admissions(qos, init);
      Notified(qos, init) + (if sent then 1 else 0)
  }

  lemma NotifyStep(qos: Qos, s: State, step: Step)
    requires |s.q.dropped| == 6
    ensures Next(qos, s, step).notifying
            == s.notifying + (if step.EnqueueLocked? && step.key !in s.q.entries then 1 else 0)
               - (if step == EnqueueNotify && s.notifying > 0 then 1 else 0)
  {
  }

  /** Every admission, and no coalescing enqueue, owes exactly one notification. */
  lemma {:induction false} NotifiesOnce(qos: Qos, steps: seq<Step>)
    ensures Admissions(qos, steps) == Notified(qos, steps) + Run(qos, steps).notifying
  {
    if steps != [] {
      NotifiesOnce(qos, steps[..|steps| - 1]);
      NotifyStep(qos, Run(qos, steps[..|steps| - 1]), steps[|steps| - 1]);
    }
  }

  lemma {:induction false} RunSnoc(qos: Qos, steps: seq<Step>, step: Step)
    ensures Run(qos, steps + [step]) == Next(qos, Run(qos, steps), step)
  {
    assert (steps + [step])[..|steps|] == steps;
  }
}
