/** Whole turns of the supervisor loop of `runtime.rs`: what handling a lifecycle change, losing a generation, ending a
    barrier or shutting down comes to, with broker events, health reports and a shutdown request arriving before any of
    the loop's own steps. */
module Turns {
  import opened Wrappers
  import opened Bytes
  import opened Readiness
  import opened Supervisor

  /** What only the loop itself changes. */
  datatype Loop = Loop(
    phase: Phase, ingress: bool, generation: Option<nat>, nextGeneration: nat, handledConnection: nat,
    handledInvalidation: nat, barrier: Option<Barrier>, committed: Option<Barrier>)

  function LoopOf(s: State): Loop {
    Loop(s.phase, s.ingress, s.generation, s.nextGeneration, s.handledConnection, s.handledInvalidation, s.barrier,
         s.committed)
  }

  predicate AllOutside(steps: seq<Step>) {
    forall k :: 0 <= k < |steps| ==> steps[k].Deliver? || steps[k].SetHealth? || steps[k].BeginShutdown?
  }

  lemma {:induction false} OutsideKeeps(s: State, steps: seq<Step>)
    requires AllOutside(steps)
    ensures LoopOf(Run(s, steps)) == LoopOf(s)
  {
    if steps != [] {
      OutsideKeeps(s, steps[..|steps| - 1]);
    }
  }

  /** A step of the loop after whatever arrived before it. */
  function Then(s: State, arrived: seq<Step>, step: Step): State {
    Next(Run(s, arrived), step)
  }

  // ---- a lifecycle change ------------------------------------------------------

  function AfterChange(s: State, a: seq<Step>, b: seq<Step>, c: seq<Step>, ok: bool): State {
    Then(Then(Then(s, a, Observed), b, HandleConnection), c, Built(ok))
  }

  lemma {:induction false} LookedAt(s: State, a: seq<Step>, b: seq<Step>)
    requires s.phase.Idle? && AllOutside(a) && AllOutside(b)
    ensures var seen := Run(s, a).snapshot;
            var stale := seen.invalidationEpoch != s.handledInvalidation;
            LoopOf(Run(Then(s, a, Observed), b))
            == LoopOf(s).(phase := Handling(seen), handledInvalidation := seen.invalidationEpoch,
                          barrier := if stale then None else s.barrier)
  {
    OutsideKeeps(s, a);
    OutsideKeeps(Then(s, a, Observed), b);
  }

  /** The barrier a new connection gets: tagged with the snapshot that announced it, whatever arrived since. */
  function Announced(seen: Snapshot, generation: Option<nat>, spawned: nat): Option<Barrier> {
    if generation.None? then None
    else Some(Barrier(BarrierTags(seen.connectionEpoch, seen.invalidationEpoch, generation.value), spawned))
  }

  /** An idle loop handles the lifecycle it looked at, and no later one. An invalidation drops the barrier in flight. A
      new connection subscribes if there is no generation and starts a barrier for the one it has. */
  lemma {:induction false} ChangeExact(s: State, a: seq<Step>, b: seq<Step>, c: seq<Step>, ok: bool)
    requires s.phase.Idle? && AllOutside(a) && AllOutside(b) && AllOutside(c)
    ensures var seen := Run(s, a).snapshot;
            var s' := AfterChange(s, a, b, c, ok);
            var opens := s.ingress && seen.connectionEpoch != s.handledConnection;
            var builds := opens && s.generation.None?;
            var stale := seen.invalidationEpoch != s.handledInvalidation;
            var spawned := if builds then |s'.events| else |Run(Then(s, a, Observed), b).events|;
            && s'.phase == Idle && s'.ingress == s.ingress && s'.committed == s.committed
            && s'.handledConnection == seen.connectionEpoch && s'.handledInvalidation == seen.invalidationEpoch
            && s'.generation == (if !builds then s.generation else if ok then Some(s.nextGeneration) else None)
            && s'.nextGeneration == (if builds then Bump(s.nextGeneration) else s.nextGeneration)
            && s'.barrier == (if opens && BarrierAllowed(seen) then Announced(seen, s'.generation, spawned)
                              else if stale then None else s.barrier)
  {
    var s1 := Then(s, a, Observed);
    LookedAt(s, a, b);
    var s2 := Then(s1, b, HandleConnection);
    OutsideKeeps(s2, c);
  }

  // ---- a generation ends --------------------------------------------------------

  /** A generation that ends is not ready any more. It is replaced if and only if the broker was connected when it
      ended, and the barrier of its successor is tagged with the lifecycle as it is by then. */
  lemma {:induction false} ReplacementExact(s: State, a: seq<Step>, b: seq<Step>, c: seq<Step>, id: nat, ok: bool)
    requires s.phase.Idle? && s.generation == Some(id) && AllOutside(a) && AllOutside(b) && AllOutside(c)
    ensures var ended := Then(s, a, GenerationEnded(id));
            var s' := Then(Then(ended, b, Ended), c, Rebuilt(ok));
            var builds := s.ingress && Run(s, a).status.connected;
            && ended.status.established == {} && ended.barrier == None
            && s'.generation == (if builds && ok then Some(s.nextGeneration) else None)
            && s'.barrier == (if BarrierAllowed(s'.snapshot) then Announced(s'.snapshot, s'.generation, |s'.events|)
                              else None)
            && LoopOf(s') == LoopOf(s).(generation := s'.generation, barrier := s'.barrier,
                                        nextGeneration := if builds then Bump(s.nextGeneration) else s.nextGeneration)
  {
    OutsideKeeps(s, a);
    var ended := Then(s, a, GenerationEnded(id));
    OutsideKeeps(ended, b);
    var stopped := Then(ended, b, Ended);
    OutsideKeeps(stopped, c);
  }

  /** The end of any other generation is ignored. */
  lemma OthersIgnored(s: State, id: nat)
    requires s.generation != Some(id)
    ensures Next(s, GenerationEnded(id)) == s
  {
  }

  // ---- a barrier ends -------------------------------------------------------------

  /** A finished round trip is gone, and makes the subscriptions established if and only if it succeeded and since it
      began nothing was invalidated, no further connection was made and the generation is still the same. */
  lemma {:induction false} BarrierExact(s: State, a: seq<Step>, ok: bool)
    requires s.phase.Idle? && s.barrier.Some? && AllOutside(a)
    ensures var (now, s', tags) := (Run(s, a), Then(s, a, BarrierDone(ok)), s.barrier.value.tags);
            var commits := ok && now.snapshot.connected && now.snapshot.connectionEpoch == tags.connectionEpoch
                           && now.snapshot.invalidationEpoch == tags.invalidationEpoch
                           && s.generation == Some(tags.generation);
            && LoopOf(s') == LoopOf(s).(barrier := None, committed := if commits then s.barrier else s.committed)
            && s'.status == (if commits then now.status.(established := now.status.configured) else now.status)
            && s'.snapshot == now.snapshot && s'.events == now.events
  {
    OutsideKeeps(s, a);
  }

  // ---- shutdown --------------------------------------------------------------------

  lemma StoppedStep(s: State, step: Step)
    requires s.phase.Stopped? && s.generation == None && s.barrier == None && !s.status.accepting
    ensures var s' := Next(s, step);
            s'.phase.Stopped? && s'.generation == None && s'.barrier == None && !s'.status.accepting
  {
  }

  /** After a shutdown nothing is subscribed, no round trip is in flight, and the bridge is never ready again. */
  lemma {:induction false} ShutdownIsFinal(s: State, steps: seq<Step>)
    requires s.phase.Idle?
    ensures var s' := Run(Next(s, Shutdown), steps);
            s'.phase.Stopped? && s'.generation == None && s'.barrier == None && !s'.status.accepting
            && !IsReady(s'.status)
  {
    if steps != [] {
      ShutdownIsFinal(s, steps[..|steps| - 1]);
      StoppedStep(Run(Next(s, Shutdown), steps[..|steps| - 1]), steps[|steps| - 1]);
    }
  }

  // ---- the lifecycle snapshot ---------------------------------------------------------

  function Connects(steps: seq<Step>): nat {
    if steps == [] then 0
    else Connects(steps[..|steps| - 1]) + (if steps[|steps| - 1] == Deliver(Connected) then 1 else 0)
  }

  function Breaks(steps: seq<Step>): nat {
    if steps == [] then 0
    else Breaks(steps[..|steps| - 1]) + (if steps[|steps| - 1] in {Deliver(Disconnected), Deliver(Error)} then 1 else 0)
  }

  lemma LoopKeepsSnapshot(s: State, step: Step)
    requires !step.Deliver?
    ensures Next(s, step).snapshot == s.snapshot
  {
    match step {
      case HandleConnection =>
      case Built(_) =>
      case Rebuilt(_) =>
      case _ =>
    }
  }

  /** What the snapshot says, in every run: the latest connect or disconnect, and how many connects and how many
      disconnects or errors there were, up to saturation. The readiness status never contradicts it. */
  lemma {:induction false} SnapshotExact(configured: set<string>, ingress: bool, steps: seq<Step>)
    ensures var s := Run(Start(configured, ingress), steps);
            && s.snapshot.connected == s.status.connected == ConnectionReported(steps)
            && s.snapshot.connectionEpoch == Min(Connects(steps), U64_MAX)
            && s.snapshot.invalidationEpoch == Min(Breaks(steps), U64_MAX)
  {
    RunReported(configured, ingress, steps);
    if steps != [] {
      SnapshotExact(configured, ingress, steps[..|steps| - 1]);
      if !steps[|steps| - 1].Deliver? {
        LoopKeepsSnapshot(Run(Start(configured, ingress), steps[..|steps| - 1]), steps[|steps| - 1]);
      }
    }
  }
}
