/** Bridge readiness and broker lifecycle state (`readiness.rs` and `LifecycleControl` in `runtime.rs`). */
module Readiness {
  import opened Wrappers
  import opened Bytes

  datatype Status = Status(
    enabled: bool, accepting: bool, deliveryHealthy: bool, exclusionHealthy: bool, connected: bool,
    established: set<string>, configured: set<string>)

  datatype Transition = Transition(wasReady: bool, isReady: bool, changed: bool, status: Status)

  datatype LifecycleEvent = Initial | Connected | Disconnected | Error

  datatype Snapshot = Snapshot(
    sequence: nat, connectionEpoch: nat, invalidationEpoch: nat, connected: bool, lastEvent: LifecycleEvent,
    connectedSequence: nat, invalidationSequence: nat)

  datatype BarrierTags = BarrierTags(connectionEpoch: nat, invalidationEpoch: nat, generation: nat)

  predicate IsReady(s: Status) {
    s.enabled && s.accepting && s.deliveryHealthy && s.exclusionHealthy && s.connected && s.established == s.configured
  }

  function NewStatus(configured: set<string>): Status {
    Status(true, true, true, true, false, {}, configured)
  }

  function NewSnapshot(): Snapshot {
    Snapshot(0, 0, 0, false, Initial, 0, 0)
  }

  /** `u64::saturating_add(1)`. */
  function Bump(n: nat): nat {
    if n < U64_MAX then n + 1 else n
  }

  /** Snapshot after the broker client delivered an event. */
  function Observe(s: Snapshot, event: LifecycleEvent): Snapshot {
    var next := s.(sequence := Bump(s.sequence), lastEvent := event);
    match event
    case Initial => s
    case Connected =>
      next.(connectionEpoch := Bump(s.connectionEpoch), connected := true, connectedSequence := next.sequence)
    case Disconnected =>
      next.(invalidationEpoch := Bump(s.invalidationEpoch), connected := false, invalidationSequence := next.sequence)
    case Error =>
      next.(invalidationEpoch := Bump(s.invalidationEpoch), invalidationSequence := next.sequence)
  }

  /** Readiness inputs after the same event. */
  function React(s: Status, event: LifecycleEvent): Status {
    match event
    case Initial => s
    case Connected => s.(connected := true)
    case Disconnected => s.(connected := false, established := {})
    case Error => s.(established := {})
  }

  predicate BarrierTagsMatch(tags: BarrierTags, s: Snapshot, generation: Option<nat>) {
    && s.connected
    && s.connectionEpoch == tags.connectionEpoch
    && s.invalidationEpoch == tags.invalidationEpoch
    && generation == Some(tags.generation)
  }

  predicate BarrierAllowed(s: Snapshot) {
    s.connected && s.connectedSequence > s.invalidationSequence
  }

  class BridgeReadiness {
    var status: Status

    constructor (subjects: set<string>)
      ensures status == NewStatus(subjects) && !IsReady(status)
    {
      status := NewStatus(subjects);
    }

    /** `update`: every mutation reports the readiness boundary it crossed. */
    method Update(next: Status) returns (t: Transition)
      modifies this
      ensures status == next && t.status == next
      ensures t.wasReady == old(IsReady(status)) && t.isReady == IsReady(status)
      ensures t.changed <==> status != old(status)
      ensures t.wasReady != t.isReady ==> t.changed
    {
      t := Transition(IsReady(status), IsReady(next), status != next, next);
      status := next;
    }

    method SetConnected() returns (t: Transition)
      modifies this
      ensures status == old(status).(connected := true) && t.isReady == IsReady(status)
    { t := Update(status.(connected := true)); }

    method MarkAllSubscriptionsEstablished() returns (t: Transition)
      modifies this
      ensures status == old(status).(established := old(status).configured)
      ensures t.wasReady == old(IsReady(status)) && t.isReady == IsReady(status)
    { t := Update(status.(established := status.configured)); }

    method InvalidateSubscriptionGeneration() returns (t: Transition)
      modifies this
      ensures status == old(status).(established := {})
      ensures t.isReady ==> status.configured == {}
    { t := Update(status.(established := {})); }

    method MarkDisconnected() returns (t: Transition)
      modifies this
      ensures status == old(status).(connected := false, established := {}) && !t.isReady
    { t := Update(status.(connected := false, established := {})); }
  }

  class LifecycleControl {
    var snapshot: Snapshot
    const readiness: BridgeReadiness

    constructor (readiness: BridgeReadiness)
      ensures this.readiness == readiness && snapshot == NewSnapshot()
    {
      this.readiness := readiness;
      snapshot := NewSnapshot();
    }

    /** `delivered`, under the transition lock. */
    method Delivered(event: LifecycleEvent)
      modifies this, readiness
      ensures snapshot == Observe(old(snapshot), event)
      ensures readiness.status == React(old(readiness.status), event)
    {
      if event.Initial? {
        return;
      }
      if event.Connected? {
        var t := readiness.SetConnected();
      } else if event.Disconnected? {
        var t := readiness.MarkDisconnected();
      } else {
        var t := readiness.InvalidateSubscriptionGeneration();
      }
      snapshot := snapshot.(sequence := Bump(snapshot.sequence), lastEvent := event);
      if event.Connected? {
        snapshot := snapshot.(connectionEpoch := Bump(snapshot.connectionEpoch), connected := true,
                              connectedSequence := snapshot.sequence);
      } else {
        snapshot := snapshot.(invalidationEpoch := Bump(snapshot.invalidationEpoch),
                              invalidationSequence := snapshot.sequence);
        if event.Disconnected? {
          snapshot := snapshot.(connected := false);
        }
      }
    }

    /** `commit_barrier`, under the transition lock: true exactly when this commit made the bridge ready. */
    method CommitBarrier(tags: BarrierTags, generation: Option<nat>) returns (becameReady: bool)
      modifies readiness
      ensures var matched, was := BarrierTagsMatch(tags, snapshot, generation), old(readiness.status);
              && readiness.status == (if matched then was.(established := was.configured) else was)
              && (becameReady <==> matched && !old(IsReady(readiness.status)) && IsReady(readiness.status))
    {
      if !BarrierTagsMatch(tags, snapshot, generation) {
        return false;
      }
      var t := readiness.MarkAllSubscriptionsEstablished();
      return !t.wasReady && t.isReady;
    }
  }
}
