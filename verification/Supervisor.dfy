/** The client supervisor of `runtime.rs` against concurrently delivered broker events, health changes,
    generation endings and barrier completions. Each await of the loop ends a step, so events interleave
    anywhere the source can be interrupted. */
module Supervisor {
  import opened Wrappers
  import opened Bytes
  import opened Readiness

  /** Where the loop is between awaits. */
  datatype Phase =
    | Idle
    | Handling(delivered: Snapshot)   // took a lifecycle change, stopped a stale barrier
    | Building(delivered: Snapshot)   // subscribing a first generation
    | Ending(rebuild: bool)           // a generation ended, its readiness is withdrawn
    | Rebuilding                      // subscribing the next generation
    | Stopped

  /** `spawned` is history: how many events had been delivered when the round trip started. */
  datatype Barrier = Barrier(tags: BarrierTags, spawned: nat)

  /** `events` and `committed` are history: everything delivered, and the last committed barrier. */
  datatype State = State(
    snapshot: Snapshot, status: Status, ingress: bool, phase: Phase,
    generation: Option<nat>, nextGeneration: nat, handledConnection: nat, handledInvalidation: nat,
    barrier: Option<Barrier>, events: seq<LifecycleEvent>, committed: Option<Barrier>)

  datatype Step =
    | Deliver(event: LifecycleEvent)
    | SetHealth(delivery: bool, exclusion: bool)
    | BeginShutdown
    | Observed                         // lifecycle_rx.changed()
    | HandleConnection
    | Built(ok: bool)
    | GenerationEnded(id: nat)
    | Ended
    | Rebuilt(ok: bool)
    | BarrierDone(ok: bool)
    | Shutdown

  function Start(configured: set<string>, ingress: bool): State {
    State(NewSnapshot(), NewStatus(configured), ingress, Idle, None, 1, 0, 0, None, [], None)
  }

  /** `start_barrier`. */
  function StartBarrier(s: State, snapshot: Snapshot): Option<Barrier> {
    if s.generation.None? then None
    else
      var tags := BarrierTags(snapshot.connectionEpoch, snapshot.invalidationEpoch, s.generation.value);
      Some(Barrier(tags, |s.events|))
  }

  function WithBarrier(s: State, snapshot: Snapshot): State {
    if BarrierAllowed(snapshot) then s.(barrier := StartBarrier(s, snapshot)) else s
  }

  /** `build_subscription_generation` came back. */
  function WithGeneration(s: State, ok: bool): State {
    s.(generation := if ok then Some(s.nextGeneration) else None, nextGeneration := Bump(s.nextGeneration),
       phase := Idle)
  }

  function Next(s: State, step: Step): State {
    match step
    case Deliver(event) =>
      if event.Initial? then s
      else s.(snapshot := Observe(s.snapshot, event), status := React(s.status, event), events := s.events + [event])
    case SetHealth(delivery, exclusion) =>
      s.(status := s.status.(deliveryHealthy := delivery, exclusionHealthy := exclusion))
    case BeginShutdown => s.(status := s.status.(accepting := false))
    case Observed =>
      if !s.phase.Idle? then s
      else if s.snapshot.invalidationEpoch != s.handledInvalidation then
        s.(handledInvalidation := s.snapshot.invalidationEpoch, barrier := None, phase := Handling(s.snapshot))
      else s.(phase := Handling(s.snapshot))
    case HandleConnection =>
      if !s.phase.Handling? then s
      else
        var delivered := s.phase.delivered;
        if delivered.connectionEpoch == s.handledConnection then s.(phase := Idle)
        else
          var s' := s.(handledConnection := delivered.connectionEpoch, phase := Idle);
          if !s.ingress then s'
          else if s.generation.None? then s'.(phase := Building(delivered))
          else WithBarrier(s', delivered)
    case Built(ok) =>
      if !s.phase.Building? then s else WithBarrier(WithGeneration(s, ok), s.phase.delivered)
    case GenerationEnded(id) =>
      if !s.phase.Idle? || s.generation != Some(id) then s
      else s.(status := s.status.(established := {}), barrier := None, phase := Ending(s.status.connected))
    case Ended =>
      if !s.phase.Ending? then s
      else s.(generation := None, phase := if s.phase.rebuild && s.ingress then Rebuilding else Idle)
    case Rebuilt(ok) =>
      if !s.phase.Rebuilding? then s else WithBarrier(WithGeneration(s, ok), s.snapshot)
    case BarrierDone(ok) =>
      if !s.phase.Idle? || s.barrier.None? then s
      else if ok && BarrierTagsMatch(s.barrier.value.tags, s.snapshot, s.generation) then
        s.(barrier := None, status := s.status.(established := s.status.configured), committed := s.barrier)
      else s.(barrier := None)
    case Shutdown =>
      if !s.phase.Idle? then s
      else s.(status := s.status.(accepting := false), barrier := None, generation := None, phase := Stopped)
  }

  function Run(s: State, steps: seq<Step>): State {
    if steps == [] then s else Next(Run(s, steps[..|steps| - 1]), steps[|steps| - 1])
  }

  // ---- snapshots and the events behind them ---------------------------------

  function SnapshotOf(events: seq<LifecycleEvent>): Snapshot {
    if events == [] then NewSnapshot() else Observe(SnapshotOf(events[..|events| - 1]), events[|events| - 1])
  }

  ghost predicate Broker(events: seq<LifecycleEvent>) {
    forall i :: 0 <= i < |events| ==> events[i] != Initial
  }

  function Min(a: nat, b: nat): nat {
    if a < b then a else b
  }

  /** Disconnects and errors so far, and where the last event of either kind came. */
  function Invalidations(events: seq<LifecycleEvent>): nat {
    if events == [] then 0
    else Invalidations(events[..|events| - 1]) + (if events[|events| - 1] == Connected then 0 else 1)
  }

  function LastInvalidation(events: seq<LifecycleEvent>): nat {
    if events == [] then 0
    else if events[|events| - 1] == Connected then LastInvalidation(events[..|events| - 1]) else |events|
  }

  function LastConnected(events: seq<LifecycleEvent>): nat {
    if events == [] then 0
    else if events[|events| - 1] == Connected then |events| else LastConnected(events[..|events| - 1])
  }

  lemma {:induction false} PositionsFit(events: seq<LifecycleEvent>)
    ensures Invalidations(events) <= LastInvalidation(events) <= |events| && LastConnected(events) <= |events|
  {
    if events != [] {
      PositionsFit(events[..|events| - 1]);
    }
  }

  /** One more event in saturating counters. */
  lemma ObserveCounts(s: Snapshot, event: LifecycleEvent, length: nat, invalidations: nat)
    requires event != Initial && s.sequence == Min(length, U64_MAX)
             && s.invalidationEpoch == Min(invalidations, U64_MAX)
    ensures var s' := Observe(s, event);
            && s'.sequence == Min(length + 1, U64_MAX)
            && (if event == Connected
                then s'.connectedSequence == s'.sequence && s'.invalidationSequence == s.invalidationSequence
                     && s'.invalidationEpoch == s.invalidationEpoch
                else s'.connectedSequence == s.connectedSequence && s'.invalidationSequence == s'.sequence
                     && s'.invalidationEpoch == Min(invalidations + 1, U64_MAX))
  {
  }

  /** The snapshot's counters are these, up to saturation. */
  lemma {:induction false} SnapshotCounts(events: seq<LifecycleEvent>)
    requires Broker(events)
    ensures var s := SnapshotOf(events);
            && s.sequence == Min(|events|, U64_MAX)
            && s.invalidationEpoch == Min(Invalidations(events), U64_MAX)
            && s.invalidationSequence == Min(LastInvalidation(events), U64_MAX)
            && s.connectedSequence == Min(LastConnected(events), U64_MAX)
  {
    if events != [] {
      var before := events[..|events| - 1];
      SnapshotCounts(before);
      ObserveCounts(SnapshotOf(before), events[|events| - 1], |before|, Invalidations(before));
    }
  }

  /** A barrier is allowed only when the latest event is Connected, and its invalidation epoch has not saturated:
      the sequence numbers would have first. */
  lemma {:induction false} AllowedIsFresh(events: seq<LifecycleEvent>)
    requires Broker(events) && BarrierAllowed(SnapshotOf(events))
    ensures events != [] && events[|events| - 1] == Connected
    ensures SnapshotOf(events).invalidationEpoch == Invalidations(events) < U64_MAX
  {
    SnapshotCounts(events);
    PositionsFit(events);
  }

  lemma {:induction false} NoneInvalidated(events: seq<LifecycleEvent>, n: nat)
    requires n <= |events|
    ensures Invalidations(events[..n]) <= Invalidations(events)
    ensures Invalidations(events[..n]) == Invalidations(events) ==>
              forall i :: n <= i < |events| ==> events[i] == Connected
  {
    if n < |events| {
      var init := events[..|events| - 1];
      NoneInvalidated(init, n);
      assert init[..n] == events[..n];
    } else {
      assert events[..n] == events;
    }
  }

  // ---- what every step keeps ------------------------------------------------

  /** A barrier was tagged with the snapshot after `n` events, which allowed it, before it was spawned. */
  ghost predicate Tagged(s: State, b: Barrier) {
    exists n :: 0 <= n <= b.spawned <= |s.events|
                && BarrierAllowed(SnapshotOf(s.events[..n]))
                && b.tags.invalidationEpoch == SnapshotOf(s.events[..n]).invalidationEpoch
  }

  /** The witness readiness needs: the latest event was Connected when the barrier was spawned, nothing but
      Connected was delivered since, and its generation is the current one. */
  ghost predicate Witness(s: State) {
    && s.committed.Some?
    && 0 < s.committed.value.spawned <= |s.events|
    && (forall i :: s.committed.value.spawned - 1 <= i < |s.events| ==> s.events[i] == Connected)
    && s.generation == Some(s.committed.value.tags.generation)
  }

  ghost predicate Seen(s: State, delivered: Snapshot) {
    exists n :: 0 <= n <= |s.events| && delivered == SnapshotOf(s.events[..n])
  }

  ghost predicate Inv(s: State) {
    && Broker(s.events)
    && s.snapshot == SnapshotOf(s.events)
    && (s.phase.Handling? || s.phase.Building? ==> Seen(s, s.phase.delivered))
    && (s.barrier.Some? ==> s.generation == Some(s.barrier.value.tags.generation) && Tagged(s, s.barrier.value))
    && (s.phase.Building? || s.phase.Rebuilding? ==> s.generation.None?)
    && (s.phase.Ending? ==> s.barrier.None? && s.status.established == {})
    && (s.status.accepting && s.status.established != {} ==> Witness(s))
  }

  lemma DeliverKeeps(s: State, event: LifecycleEvent)
    requires Inv(s)
    ensures Inv(Next(s, Deliver(event)))
  {
    if event.Initial? {
      return;
    }
    var s' := Next(s, Deliver(event));
    assert s'.events[..|s.events|] == s.events;
    forall n | 0 <= n <= |s.events| ensures s'.events[..n] == s.events[..n] {}
    if s.phase.Handling? || s.phase.Building? {
      var n :| 0 <= n <= |s.events| && s.phase.delivered == SnapshotOf(s.events[..n]);
      assert s'.phase.delivered == SnapshotOf(s'.events[..n]);
    }
    if s.barrier.Some? {
      var b := s.barrier.value;
      var n :| 0 <= n <= b.spawned <= |s.events| && BarrierAllowed(SnapshotOf(s.events[..n]))
               && b.tags.invalidationEpoch == SnapshotOf(s.events[..n]).invalidationEpoch;
      assert s'.events[..n] == s.events[..n];
    }
  }

  lemma BarrierStarts(s: State, delivered: Snapshot)
    requires Seen(s, delivered) && BarrierAllowed(delivered) && s.generation.Some?
    ensures Tagged(s, StartBarrier(s, delivered).value)
  {
    var n :| 0 <= n <= |s.events| && delivered == SnapshotOf(s.events[..n]);
    var b := StartBarrier(s, delivered).value;
    assert n <= b.spawned;
  }

  /** A snapshot that allowed a barrier has the current invalidation epoch only if nothing was invalidated since. */
  lemma {:induction false} EpochsCount(events: seq<LifecycleEvent>, n: nat)
    requires Broker(events) && n <= |events|
    requires SnapshotOf(events[..n]).invalidationEpoch == SnapshotOf(events).invalidationEpoch
    requires BarrierAllowed(SnapshotOf(events[..n]))
    ensures n > 0 && forall i :: n - 1 <= i < |events| ==> events[i] == Connected
  {
    AllowedIsFresh(events[..n]);
    SnapshotCounts(events);
    NoneInvalidated(events, n);
    assert events[..n][n - 1] == events[n - 1];
  }

  /** A barrier whose tags still match was spawned after the latest invalidation. */
  lemma CommitIsCurrent(s: State)
    requires Inv(s) && s.barrier.Some? && BarrierTagsMatch(s.barrier.value.tags, s.snapshot, s.generation)
    ensures var spawned := s.barrier.value.spawned;
            0 < spawned <= |s.events| && forall i :: spawned - 1 <= i < |s.events| ==> s.events[i] == Connected
  {
    var b := s.barrier.value;
    var n :| 0 <= n <= b.spawned <= |s.events| && BarrierAllowed(SnapshotOf(s.events[..n]))
             && b.tags.invalidationEpoch == SnapshotOf(s.events[..n]).invalidationEpoch;
    EpochsCount(s.events, n);
  }

  lemma SeenNow(s: State)
    requires s.snapshot == SnapshotOf(s.events)
    ensures Seen(s, s.snapshot)
  {
    assert s.events[..|s.events|] == s.events;
  }

  lemma BarrierSetUp(s: State, delivered: Snapshot)
    requires Inv(s) && Seen(s, delivered) && s.phase.Idle?
    ensures Inv(WithBarrier(s, delivered))
  {
    if BarrierAllowed(delivered) && s.generation.Some? {
      BarrierStarts(s, delivered);
    }
  }

  lemma HandleKeeps(s: State)
    requires Inv(s)
    ensures Inv(Next(s, HandleConnection))
  {
    if !s.phase.Handling? {
      return;
    }
    var delivered := s.phase.delivered;
    var s' := s.(handledConnection := delivered.connectionEpoch, phase := Idle);
    assert Inv(s');
    assert Seen(s', delivered);
    if delivered.connectionEpoch == s.handledConnection {
      assert Inv(s.(phase := Idle));
    } else if s.ingress && s.generation.Some? {
      BarrierSetUp(s', delivered);
    }
  }

  lemma GenerationKeeps(s: State, ok: bool, delivered: Snapshot)
    requires Inv(s) && (s.phase.Building? || s.phase.Rebuilding?) && Seen(s, delivered)
    ensures Inv(WithBarrier(WithGeneration(s, ok), delivered))
  {
    var s' := WithGeneration(s, ok);
    assert Inv(s');
    assert Seen(s', delivered);
    BarrierSetUp(s', delivered);
  }

  lemma CommitKeeps(s: State, ok: bool)
    requires Inv(s)
    ensures Inv(Next(s, BarrierDone(ok)))
  {
    if s.phase.Idle? && s.barrier.Some? && ok && BarrierTagsMatch(s.barrier.value.tags, s.snapshot, s.generation) {
      CommitIsCurrent(s);
    }
  }

  lemma ObservedKeeps(s: State)
    requires Inv(s)
    ensures Inv(Next(s, Observed))
  {
    if s.phase.Idle? {
      var s' := Next(s, Observed);
      SeenNow(s');
      assert Seen(s', s'.phase.delivered);
      if s'.barrier.Some? {
        TagsStay(s, s', s.barrier.value);
      }
    }
  }

  lemma TagsStay(s: State, s': State, b: Barrier)
    requires Tagged(s, b) && s'.events == s.events
    ensures Tagged(s', b)
  {
  }

  lemma BuiltKeeps(s: State, ok: bool)
    requires Inv(s)
    ensures Inv(Next(s, Built(ok))) && Inv(Next(s, Rebuilt(ok)))
  {
    SeenNow(s);
    if s.phase.Building? {
      GenerationKeeps(s, ok, s.phase.delivered);
    } else if s.phase.Rebuilding? {
      GenerationKeeps(s, ok, s.snapshot);
    }
  }

  /** Health, shutdown and the end of a generation only withdraw. */
  lemma WithdrawKeeps(s: State, step: Step)
    requires Inv(s)
    requires step.SetHealth? || step.BeginShutdown? || step.GenerationEnded? || step.Ended? || step.Shutdown?
    ensures Inv(Next(s, step))
  {
  }

  lemma NextKeeps(s: State, step: Step)
    requires Inv(s)
    ensures Inv(Next(s, step))
  {
    match step {
      case Deliver(event) => DeliverKeeps(s, event);
      case Observed => ObservedKeeps(s);
      case HandleConnection => HandleKeeps(s);
      case Built(ok) => BuiltKeeps(s, ok);
      case Rebuilt(ok) => BuiltKeeps(s, ok);
      case BarrierDone(ok) => CommitKeeps(s, ok);
      case _ => WithdrawKeeps(s, step);
    }
  }

  lemma {:induction false} RunKeeps(s: State, steps: seq<Step>)
    requires Inv(s)
    ensures Inv(Run(s, steps))
  {
    if steps != [] {
      var before := Run(s, steps[..|steps| - 1]);
      assert Inv(before) by { RunKeeps(s, steps[..|steps| - 1]); }
      NextKeeps(before, steps[|steps| - 1]);
    }
  }

  lemma StepKeepsConfigured(s: State, step: Step)
    ensures Next(s, step).status.configured == s.status.configured
  {
    match step {
      case Deliver(_) =>
      case HandleConnection =>
      case Built(_) =>
      case Rebuilt(_) =>
      case BarrierDone(_) =>
      case _ =>
    }
  }

  lemma {:induction false} ConfiguredKept(s: State, steps: seq<Step>)
    ensures Run(s, steps).status.configured == s.status.configured
  {
    if steps != [] {
      ConfiguredKept(s, steps[..|steps| - 1]);
      StepKeepsConfigured(Run(s, steps[..|steps| - 1]), steps[|steps| - 1]);
    }
  }

  // ---- readiness, over the steps of a run ---------------------------------------

  /** Neither shutdown step was taken. */
  ghost predicate NoShutdown(s: State, steps: seq<Step>) {
    forall k :: 0 <= k < |steps| ==>
      steps[k] != BeginShutdown && !(steps[k] == Shutdown && Run(s, steps[..k]).phase.Idle?)
  }

  /** What the ledgers' latest health reports say; both start healthy. */
  function DeliveryReported(steps: seq<Step>): bool {
    if steps == [] then true
    else if steps[|steps| - 1].SetHealth? then steps[|steps| - 1].delivery
    else DeliveryReported(steps[..|steps| - 1])
  }

  function ExclusionReported(steps: seq<Step>): bool {
    if steps == [] then true
    else if steps[|steps| - 1].SetHealth? then steps[|steps| - 1].exclusion
    else ExclusionReported(steps[..|steps| - 1])
  }

  /** The latest connect or disconnect was a connect. */
  function ConnectionReported(steps: seq<Step>): bool {
    if steps == [] then false
    else if steps[|steps| - 1] == Deliver(Connected) then true
    else if steps[|steps| - 1] == Deliver(Disconnected) then false
    else ConnectionReported(steps[..|steps| - 1])
  }

  /** This step commits the barrier that is out. */
  predicate Commits(s: State, step: Step) {
    && step == BarrierDone(true) && s.phase.Idle? && s.barrier.Some?
    && BarrierTagsMatch(s.barrier.value.tags, s.snapshot, s.generation)
  }

  /** This step takes the subscriptions back: a disconnect, an error, or the end of the current generation. */
  predicate Withdraws(s: State, step: Step) {
    || step == Deliver(Disconnected) || step == Deliver(Error)
    || (step.GenerationEnded? && s.phase.Idle? && s.generation == Some(step.id))
  }

  /** Step `n` committed a barrier and no later step took it back. */
  predicate WithdrawnAt(s: State, steps: seq<Step>, k: nat) {
    k < |steps| && Withdraws(Run(s, steps[..k]), steps[k])
  }

  ghost predicate CommittedAt(s: State, steps: seq<Step>, n: nat) {
    && n < |steps| && Commits(Run(s, steps[..n]), steps[n])
    && forall k: nat :: n < k < |steps| ==> !WithdrawnAt(s, steps, k)
  }

  ghost predicate Committed(s: State, steps: seq<Step>) {
    exists n: nat :: CommittedAt(s, steps, n)
  }

  lemma {:induction false} CommittedGrows(s: State, steps: seq<Step>, m: nat)
    requires steps != [] && m < |steps| - 1
    ensures CommittedAt(s, steps, m) <==>
            CommittedAt(s, steps[..|steps| - 1], m) && !Withdraws(Run(s, steps[..|steps| - 1]), steps[|steps| - 1])
  {
    var n := |steps| - 1;
    var init := steps[..n];
    assert init[..m] == steps[..m];
    forall k: nat | k < n ensures WithdrawnAt(s, init, k) <==> WithdrawnAt(s, steps, k) {
      assert init[..k] == steps[..k];
    }
    assert WithdrawnAt(s, steps, n) <==> Withdraws(Run(s, init), steps[n]);
  }

  lemma {:induction false} CommittedSnoc(s: State, steps: seq<Step>)
    requires steps != []
    ensures var (init, last) := (steps[..|steps| - 1], steps[|steps| - 1]);
            Committed(s, steps) <==>
            Commits(Run(s, init), last) || (Committed(s, init) && !Withdraws(Run(s, init), last))
  {
    var n := |steps| - 1;
    var (init, last) := (steps[..n], steps[n]);
    if Commits(Run(s, init), last) {
      assert CommittedAt(s, steps, n);
    }
    if Committed(s, init) && !Withdraws(Run(s, init), last) {
      var m: nat :| CommittedAt(s, init, m);
      CommittedGrows(s, steps, m);
    }
    if Committed(s, steps) {
      var m: nat :| CommittedAt(s, steps, m);
      if m < n {
        CommittedGrows(s, steps, m);
      }
    }
  }

  lemma {:induction false} NoShutdownSnoc(s: State, steps: seq<Step>)
    requires steps != []
    ensures var (init, last) := (steps[..|steps| - 1], steps[|steps| - 1]);
            NoShutdown(s, steps) <==>
            NoShutdown(s, init) && last != BeginShutdown && !(last == Shutdown && Run(s, init).phase.Idle?)
  {
    var n := |steps| - 1;
    var init := steps[..n];
    forall k | 0 <= k <= n ensures init[..k] == steps[..k] {}
    assert init[..n] == init;
    if NoShutdown(s, steps) {
      assert steps[n] != BeginShutdown && !(steps[n] == Shutdown && Run(s, steps[..n]).phase.Idle?);
      forall k | 0 <= k < |init|
        ensures init[k] != BeginShutdown && !(init[k] == Shutdown && Run(s, init[..k]).phase.Idle?)
      {
        assert steps[k] != BeginShutdown && !(steps[k] == Shutdown && Run(s, steps[..k]).phase.Idle?);
      }
    }
  }

  /** The status inputs are what the steps say. */
  ghost predicate Reported(s: State, steps: seq<Step>) {
    var status := Run(s, steps).status;
    && status.enabled
    && (status.accepting <==> NoShutdown(s, steps))
    && (status.deliveryHealthy <==> DeliveryReported(steps))
    && (status.exclusionHealthy <==> ExclusionReported(steps))
    && (status.connected <==> ConnectionReported(steps))
    && status.established == (if Committed(s, steps) then status.configured else {})
  }

  /** What one step does to them. */
  predicate Changes(s: State, step: Step, now: Status) {
    var was := s.status;
    && now.enabled == was.enabled && now.configured == was.configured
    && (now.accepting <==> was.accepting && step != BeginShutdown && !(step == Shutdown && s.phase.Idle?))
    && now.deliveryHealthy == (if step.SetHealth? then step.delivery else was.deliveryHealthy)
    && now.exclusionHealthy == (if step.SetHealth? then step.exclusion else was.exclusionHealthy)
    && now.connected == (step == Deliver(Connected) || (was.connected && step != Deliver(Disconnected)))
    && now.established == (if Commits(s, step) then was.configured
                           else if Withdraws(s, step) then {} else was.established)
  }

  lemma DeliverReports(s: State, event: LifecycleEvent)
    ensures Changes(s, Deliver(event), Next(s, Deliver(event)).status)
  {
  }

  lemma LoopReports(s: State, step: Step)
    requires step.Observed? || step.HandleConnection? || step.Built? || step.Rebuilt? || step.Ended?
    ensures Changes(s, step, Next(s, step).status)
  {
    assert Next(s, step).status == s.status;
  }

  lemma StatusReports(s: State, step: Step)
    requires step.SetHealth? || step.BeginShutdown? || step.GenerationEnded? || step.BarrierDone? || step.Shutdown?
    ensures Changes(s, step, Next(s, step).status)
  {
  }

  lemma StepReports(s: State, step: Step)
    ensures Changes(s, step, Next(s, step).status)
  {
    match step {
      case Deliver(event) => DeliverReports(s, event);
      case SetHealth(_, _) => StatusReports(s, step);
      case BeginShutdown => StatusReports(s, step);
      case GenerationEnded(_) => StatusReports(s, step);
      case BarrierDone(_) => StatusReports(s, step);
      case Shutdown => StatusReports(s, step);
      case _ => LoopReports(s, step);
    }
  }

  lemma {:induction false} RunReported(configured: set<string>, ingress: bool, steps: seq<Step>)
    ensures Reported(Start(configured, ingress), steps)
  {
    if steps != [] {
      var s, init, last := Start(configured, ingress), steps[..|steps| - 1], steps[|steps| - 1];
      RunReported(configured, ingress, init);
      StepReports(Run(s, init), last);
      CommittedSnoc(s, steps);
      NoShutdownSnoc(s, steps);
    }
  }

  /** Exactly when a bridge with a configured subject is ready, in every run: no shutdown began, both ledgers' latest
      reports are healthy, the latest connect or disconnect was a connect, and a committed barrier was not taken
      back. */
  lemma {:induction false} ReadyIff(configured: set<string>, ingress: bool, steps: seq<Step>)
    requires configured != {}
    ensures var s := Start(configured, ingress);
            IsReady(Run(s, steps).status) <==>
            && NoShutdown(s, steps) && DeliveryReported(steps) && ExclusionReported(steps)
            && ConnectionReported(steps) && Committed(s, steps)
  {
    RunReported(configured, ingress, steps);
    ConfiguredKept(Start(configured, ingress), steps);
  }

  // ---- a bridge becomes ready -----------------------------------------------------

  ghost predicate Handled(s: State) {
    s.handledConnection <= s.snapshot.connectionEpoch
    && (s.phase.Handling? ==> s.phase.delivered.connectionEpoch <= s.snapshot.connectionEpoch)
  }

  lemma NextHandled(s: State, step: Step)
    requires Handled(s)
    ensures Handled(Next(s, step))
  {
    match step {
      case HandleConnection =>
      case Built(_) =>
      case Rebuilt(_) =>
      case _ =>
    }
  }

  lemma {:induction false} RunHandled(configured: set<string>, ingress: bool, steps: seq<Step>)
    ensures Handled(Run(Start(configured, ingress), steps))
  {
    if steps != [] {
      RunHandled(configured, ingress, steps[..|steps| - 1]);
      NextHandled(Run(Start(configured, ingress), steps[..|steps| - 1]), steps[|steps| - 1]);
    }
  }

  /** The broker connects, the loop takes the change, subscribes if it has no generation, and the round trip comes
      back. */
  function Connecting(s: State): State {
    var handled := Next(Next(Next(s, Deliver(Connected)), Observed), HandleConnection);
    Next(Next(handled, Built(true)), BarrierDone(true))
  }

  lemma ConnectingReady(s: State)
    requires Handled(s) && s.phase.Idle? && s.ingress && s.snapshot.connectionEpoch < U64_MAX
    requires s.snapshot.invalidationSequence <= s.snapshot.sequence < U64_MAX
    requires s.status.enabled && s.status.accepting && s.status.deliveryHealthy && s.status.exclusionHealthy
    ensures IsReady(Connecting(s).status)
  {
    var s1 := Next(s, Deliver(Connected));
    assert BarrierAllowed(s1.snapshot);
    var s2 := Next(s1, Observed);
    assert s2.phase == Handling(s1.snapshot) && s2.handledConnection < s1.snapshot.connectionEpoch;
    var s3 := Next(s2, HandleConnection);
    var s4 := Next(s3, Built(true));
    assert s4.phase.Idle? && s4.barrier.Some? && s4.snapshot == s1.snapshot && s4.status == s1.status;
    assert BarrierTagsMatch(s4.barrier.value.tags, s4.snapshot, s4.generation);
  }

  /** A generation that ends while connected is replaced. */
  lemma RebuildingReady(s: State, id: nat)
    requires s.phase.Idle? && s.ingress && s.generation == Some(id) && BarrierAllowed(s.snapshot)
    requires s.status.enabled && s.status.accepting && s.status.deliveryHealthy && s.status.exclusionHealthy
    requires s.status.connected
    ensures var ended := Next(Next(s, GenerationEnded(id)), Ended);
            && (s.status.configured != {} ==> !IsReady(ended.status))
            && IsReady(Next(Next(ended, Rebuilt(true)), BarrierDone(true)).status)
  {
    var ended := Next(Next(s, GenerationEnded(id)), Ended);
    assert ended.phase == Rebuilding && ended.snapshot == s.snapshot;
    var built := Next(ended, Rebuilt(true));
    assert built.phase.Idle? && built.barrier.Some? && built.status == ended.status;
    assert BarrierTagsMatch(built.barrier.value.tags, built.snapshot, built.generation);
  }

  /** From wherever a run has left an idle loop with subscriptions to make, a connect makes the bridge ready, unless a
      shutdown began, a ledger is reported unhealthy, or the event numbers are used up. */
  lemma {:induction false} BecomesReady(configured: set<string>, steps: seq<Step>)
    requires var s := Run(Start(configured, true), steps); s.phase.Idle? && |s.events| < U64_MAX
    requires NoShutdown(Start(configured, true), steps) && DeliveryReported(steps) && ExclusionReported(steps)
    ensures IsReady(Connecting(Run(Start(configured, true), steps)).status)
  {
    var s := Run(Start(configured, true), steps);
    RunKeeps(Start(configured, true), steps);
    RunReported(configured, true, steps);
    RunHandled(configured, true, steps);
    SnapshotCounts(s.events);
    PositionsFit(s.events);
    ConnectionsFit(s.events);
    IngressKept(Start(configured, true), steps);
    ConnectingReady(s);
  }

  lemma {:induction false} ConnectionsFit(events: seq<LifecycleEvent>)
    ensures SnapshotOf(events).connectionEpoch <= |events|
  {
    if events != [] {
      ConnectionsFit(events[..|events| - 1]);
    }
  }

  lemma StepKeepsIngress(s: State, step: Step)
    ensures Next(s, step).ingress == s.ingress
  {
    match step {
      case HandleConnection =>
      case Built(_) =>
      case Rebuilt(_) =>
      case _ =>
    }
  }

  lemma {:induction false} IngressKept(s: State, steps: seq<Step>)
    ensures Run(s, steps).ingress == s.ingress
  {
    if steps != [] {
      IngressKept(s, steps[..|steps| - 1]);
      StepKeepsIngress(Run(s, steps[..|steps| - 1]), steps[|steps| - 1]);
    }
  }

  // ---- results --------------------------------------------------------------

  /** Readiness never comes from a stale barrier. In every interleaving, saturated counters included, a ready bridge
      with a configured subject has a committed barrier that began when the latest delivered event was Connected, with
      no disconnect or error delivered since, for the supervisor's current generation. */
  lemma {:induction false} ReadyHasFreshBarrier(configured: set<string>, ingress: bool, steps: seq<Step>)
    requires configured != {} && IsReady(Run(Start(configured, ingress), steps).status)
    ensures Witness(Run(Start(configured, ingress), steps))
  {
    RunKeeps(Start(configured, ingress), steps);
    ConfiguredKept(Start(configured, ingress), steps);
  }
}
