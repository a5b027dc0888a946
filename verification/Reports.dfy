/** What progress frames say, over every run of module Progress: which ending a subscriber is told, and where a frame
    comes from. */
module Reports {
  import opened Progress

  /** A terminal frame reports the distribution's slot, or Failed where a cancellation has relabelled it since. */
  ghost predicate Truthful(b: Bundle, f: Frame) {
    && f.distribution < |b.slots|
    && (Terminal(f.state) ==>
          f.state == b.slots[f.distribution] || (f.state == Failed && f.distribution in b.relabelled))
  }

  ghost predicate AllTruthful(b: Bundle, frames: seq<Frame>) {
    forall k :: 0 <= k < |frames| ==> Truthful(b, frames[k])
  }

  ghost predicate TruthInv(s: State) {
    && (forall u :: 0 <= u < |s.bundle.updates| ==> Truthful(s.bundle, s.bundle.updates[u].frame))
    && AllTruthful(s.bundle, s.bundle.channel)
    && AllTruthful(s.bundle, s.sub.queue) && AllTruthful(s.bundle, s.sub.delivered)
  }

  /** An update call turns a slot that had not ended, or a Failed one into a relabelled Cancelled one. */
  ghost predicate Moves(b: Bundle, b': Bundle) {
    && |b'.slots| == |b.slots| && b.relabelled <= b'.relabelled
    && forall i :: 0 <= i < |b.slots| ==>
         b'.slots[i] == b.slots[i] || !Terminal(b.slots[i])
         || (b.slots[i].Failed? && b'.slots[i].Cancelled? && i in b'.relabelled)
  }

  lemma StaysTruthful(b: Bundle, b': Bundle, f: Frame)
    requires BundleInv(b) && Moves(b, b') && Truthful(b, f)
    ensures Truthful(b', f)
  {
    assert Balanced(b, f.distribution);
  }

  lemma BundleTruthful(s: State, b': Bundle)
    requires BundleInv(s.bundle) && TruthInv(s) && Moves(s.bundle, b')
    requires forall u :: 0 <= u < |b'.updates| ==>
               (u < |s.bundle.updates| && b'.updates[u].frame == s.bundle.updates[u].frame)
               || Truthful(b', b'.updates[u].frame)
    requires forall k :: 0 <= k < |b'.channel| ==>
               (k < |s.bundle.channel| && b'.channel[k] == s.bundle.channel[k])
               || exists u :: 0 <= u < |b'.updates| && b'.channel[k] == b'.updates[u].frame
    ensures TruthInv(s.(bundle := b'))
  {
    forall f | Truthful(s.bundle, f) ensures Truthful(b', f) {
      StaysTruthful(s.bundle, b', f);
    }
  }

  lemma UpdateTruthful(s: State, step: Step)
    requires BundleInv(s.bundle) && TruthInv(s)
    requires step.Progressed? || step.CancelAccepted? || step.CountUpdate? || step.SendUpdate?
    ensures TruthInv(Next(s, step))
  {
    BundleTruthful(s, Next(s, step).bundle);
  }

  lemma SubscriberTruthful(s: State, step: Step)
    requires TruthInv(s) && (step.Subscribe? || step.TakeSnapshot? || step.Poll?)
    ensures TruthInv(Next(s, step))
  {
    if step.TakeSnapshot? {
      SnapshotExact(s.bundle.slots);
      forall k | 0 <= k < |SnapshotFrames(s.bundle.slots)|
        ensures Truthful(s.bundle, SnapshotFrames(s.bundle.slots)[k]) {
        assert SnapshotFrames(s.bundle.slots)[k] in SnapshotFrames(s.bundle.slots);
      }
    }
  }

  lemma {:induction false} RunTruthful(n: nat, steps: seq<Step>)
    ensures TruthInv(Run(n, steps))
  {
    if steps != [] {
      var s, step := Run(n, steps[..|steps| - 1]), steps[|steps| - 1];
      RunTruthful(n, steps[..|steps| - 1]);
      RunKeeps(n, steps[..|steps| - 1]);
      if step.Subscribe? || step.TakeSnapshot? || step.Poll? {
        SubscriberTruthful(s, step);
      } else {
        UpdateTruthful(s, step);
      }
    }
  }

  /** Whatever ending a subscriber is told, from the snapshot or from the channel, is the distribution's own, or the
      failure that a cancellation has relabelled. */
  lemma {:induction false} DeliveredTrue(n: nat, steps: seq<Step>, f: Frame)
    requires f in Run(n, steps).sub.delivered && Terminal(f.state)
    ensures var b := Run(n, steps).bundle;
            && f.distribution < n && |b.slots| == n
            && (f.state == b.slots[f.distribution] || (f.state == Failed && f.distribution in b.relabelled))
  {
    RunTruthful(n, steps);
    RunKeeps(n, steps);
  }

  // ---- where frames come from ---------------------------------------------------------

  /** This step made the call that the frame reports. */
  predicate Calls(step: Step, f: Frame) {
    step == Progressed(f.distribution, f.state) || (step == CancelAccepted(f.distribution) && f.state == Cancelled)
  }

  ghost predicate Called(steps: seq<Step>, f: Frame) {
    exists k :: 0 <= k < |steps| && Calls(steps[k], f)
  }

  ghost predicate CallInv(steps: seq<Step>, b: Bundle) {
    && (forall u :: 0 <= u < |b.updates| ==> Called(steps, b.updates[u].frame))
    && (forall k :: 0 <= k < |b.channel| ==> Called(steps, b.channel[k]))
    && (forall i :: 0 <= i < |b.slots| ==> b.slots[i] == Pending || Called(steps, Frame(i, b.slots[i])))
  }

  lemma CalledGrows(steps: seq<Step>, step: Step, f: Frame)
    ensures Called(steps, f) || Calls(step, f) ==> Called(steps + [step], f)
  {
    if Calls(step, f) {
      assert Calls((steps + [step])[|steps|], f);
    } else if Called(steps, f) {
      var k :| 0 <= k < |steps| && Calls(steps[k], f);
      assert Calls((steps + [step])[k], f);
    }
  }

  lemma CallKept(steps: seq<Step>, s: State, step: Step)
    requires CallInv(steps, s.bundle)
    ensures CallInv(steps + [step], Next(s, step).bundle)
  {
    forall f | Called(steps, f) || Calls(step, f) ensures Called(steps + [step], f) {
      CalledGrows(steps, step, f);
    }
  }

  /** Every slot and every frame on the channel reports a call of the run. */
  lemma {:induction false} FramesReportCalls(n: nat, steps: seq<Step>)
    ensures CallInv(steps, Run(n, steps).bundle)
  {
    if steps != [] {
      FramesReportCalls(n, steps[..|steps| - 1]);
      CallKept(steps[..|steps| - 1], Run(n, steps[..|steps| - 1]), steps[|steps| - 1]);
      assert steps[..|steps| - 1] + [steps[|steps| - 1]] == steps;
    }
  }

  // ---- the stream, frame by frame -------------------------------------------------------

  function Ended(slots: seq<DistributionState>): set<nat> {
    set i | 0 <= i < |slots| && Terminal(slots[i])
  }

  /** Frames of distributions outside the snapshot, in order. */
  function Unseen(frames: seq<Frame>, seen: set<nat>): seq<Frame> {
    if frames == [] then []
    else
      var last := frames[|frames| - 1];
      Unseen(frames[..|frames| - 1], seen) + (if last.distribution in seen then [] else [last])
  }

  /** Step `k` subscribed. */
  ghost predicate SubscribedAt(n: nat, steps: seq<Step>, k: nat) {
    k < |steps| && steps[k] == Subscribe && Run(n, steps[..k]).sub.phase.Detached?
  }

  ghost predicate SnapshotAt(n: nat, steps: seq<Step>, m: nat) {
    m < |steps| && steps[m] == TakeSnapshot && Run(n, steps[..m]).sub.phase.Subscribed?
  }

  /** What was delivered and what is queued is the snapshot of step `m`, then what the channel carried from step `k`
      on. */
  ghost predicate StreamOf(n: nat, steps: seq<Step>, k: nat, m: nat) {
    SubscribedAt(n, steps, k) && SnapshotAt(n, steps, m) && k < m
    && StreamIs(Run(n, steps), |Run(n, steps[..k]).bundle.channel|, Run(n, steps[..m]).bundle.slots)
  }

  ghost predicate StreamIs(s: State, start: nat, slots: seq<DistributionState>) {
    && start <= s.sub.position <= |s.bundle.channel| && s.sub.seen == Ended(slots)
    && s.sub.delivered + s.sub.queue ==
       SnapshotFrames(slots) + Unseen(s.bundle.channel[start..s.sub.position], s.sub.seen)
  }

  lemma {:induction false} UnseenSnoc(frames: seq<Frame>, f: Frame, seen: set<nat>)
    ensures Unseen(frames + [f], seen) == Unseen(frames, seen) + (if f.distribution in seen then [] else [f])
  {
    assert (frames + [f])[..|frames|] == frames;
  }

  lemma PollStream(s: State, start: nat, slots: seq<DistributionState>)
    requires StreamIs(s, start, slots) && Next(s, Poll).sub.missed == []
    ensures StreamIs(Next(s, Poll), start, slots)
  {
    var (b, sub) := (s.bundle, s.sub);
    if sub.phase.Streaming? && !sub.closed {
      if sub.queue != [] {
        assert sub.delivered + [sub.queue[0]] + sub.queue[1..] == sub.delivered + sub.queue;
      } else if Lagging(b, sub) {
        assert false;
      } else if sub.position < |b.channel| {
        var f := b.channel[sub.position];
        assert b.channel[start..sub.position + 1] == b.channel[start..sub.position] + [f];
        UnseenSnoc(b.channel[start..sub.position], f, sub.seen);
        ReadOn(sub.delivered, SnapshotFrames(slots), Unseen(b.channel[start..sub.position], sub.seen), f);
      }
    }
  }

  lemma ReadOn(delivered: seq<Frame>, snapshot: seq<Frame>, unseen: seq<Frame>, f: Frame)
    requires delivered + [] == snapshot + unseen
    ensures delivered + [f] + [] == snapshot + (unseen + [f]) && delivered + [] == snapshot + (unseen + [])
  {
    assert delivered + [] == delivered && unseen + [] == unseen;
    assert snapshot + (unseen + [f]) == snapshot + unseen + [f];
  }

  lemma BundleStream(s: State, b': Bundle, start: nat, slots: seq<DistributionState>)
    requires StreamIs(s, start, slots)
    requires |b'.channel| >= |s.bundle.channel| && b'.channel[..|s.bundle.channel|] == s.bundle.channel
    ensures StreamIs(s.(bundle := b'), start, slots)
  {
    assert s.bundle.channel == b'.channel[..|s.bundle.channel|];
    assert b'.channel[..|s.bundle.channel|][start..s.sub.position] == b'.channel[start..s.sub.position];
  }

  lemma ChannelGrows(s: State, step: Step)
    ensures var (b, b') := (s.bundle, Next(s, step).bundle);
            |b'.channel| >= |b.channel| && b'.channel[..|b.channel|] == b.channel
    ensures step.Progressed? || step.CancelAccepted? || step.CountUpdate? || step.SendUpdate? ==>
              Next(s, step) == s.(bundle := Next(s, step).bundle)
    ensures step.Subscribe? || step.TakeSnapshot? || step.Poll? ==> Next(s, step).bundle == s.bundle
  {
  }

  lemma StreamStep(s: State, step: Step, start: nat, slots: seq<DistributionState>)
    requires StreamIs(s, start, slots) && s.sub.phase.Streaming? && Next(s, step).sub.missed == []
    ensures StreamIs(Next(s, step), start, slots)
  {
    ChannelGrows(s, step);
    if step.Poll? {
      PollStream(s, start, slots);
    } else if !step.Subscribe? && !step.TakeSnapshot? {
      BundleStream(s, Next(s, step).bundle, start, slots);
    }
  }

  /** Where the subscriber is, in terms of the steps that brought it there. */
  ghost predicate Placed(n: nat, steps: seq<Step>) {
    var s := Run(n, steps);
    && (s.sub.phase.Detached? ==> s.sub == Start(n).sub)
    && (s.sub.phase.Subscribed? ==>
          s.sub == Start(n).sub.(phase := Subscribed, position := s.sub.position)
          && exists k: nat :: SubscribedAt(n, steps, k) && s.sub.position == |Run(n, steps[..k]).bundle.channel|)
    && (s.sub.phase.Streaming? && s.sub.missed == [] ==> exists k: nat, m: nat :: StreamOf(n, steps, k, m))
    && s.sub.position <= |s.bundle.channel|
  }

  lemma {:induction false} PlacesShift(n: nat, steps: seq<Step>, k: nat)
    requires steps != [] && k < |steps| - 1
    ensures steps[..|steps| - 1][..k] == steps[..k]
    ensures SubscribedAt(n, steps[..|steps| - 1], k) <==> SubscribedAt(n, steps, k)
    ensures SnapshotAt(n, steps[..|steps| - 1], k) <==> SnapshotAt(n, steps, k)
  {
    assert steps[..|steps| - 1][..k] == steps[..k];
  }

  lemma MissedStays(s: State, step: Step)
    requires Next(s, step).sub.missed == [] && s.sub.phase.Streaming?
    ensures s.sub.missed == [] && Next(s, step).sub.phase.Streaming?
  {
    assert |Next(s, step).sub.missed| >= |s.sub.missed|;
  }

  lemma {:induction false} StreamingPlaced(n: nat, steps: seq<Step>)
    requires steps != [] && Placed(n, steps[..|steps| - 1]) && Run(n, steps[..|steps| - 1]).sub.phase.Streaming?
    ensures Placed(n, steps)
  {
    var init, last := steps[..|steps| - 1], steps[|steps| - 1];
    var s, s' := Run(n, init), Run(n, steps);
    RunKeeps(n, steps);
    if s'.sub.missed == [] {
      MissedStays(s, last);
      var k: nat, m: nat :| StreamOf(n, init, k, m);
      PlacesShift(n, steps, k);
      PlacesShift(n, steps, m);
      StreamStep(s, last, |Run(n, init[..k]).bundle.channel|, Run(n, init[..m]).bundle.slots);
      assert StreamOf(n, steps, k, m);
    }
  }

  lemma {:induction false} SubscribedPlaced(n: nat, steps: seq<Step>)
    requires steps != [] && Placed(n, steps[..|steps| - 1]) && Run(n, steps[..|steps| - 1]).sub.phase.Subscribed?
    ensures Placed(n, steps)
  {
    var init, last := steps[..|steps| - 1], steps[|steps| - 1];
    var s, s' := Run(n, init), Run(n, steps);
    RunKeeps(n, steps);
    ChannelGrows(s, last);
    var k: nat :| SubscribedAt(n, init, k) && s.sub.position == |Run(n, init[..k]).bundle.channel|;
    PlacesShift(n, steps, k);
    if last == TakeSnapshot {
      var m := |init|;
      assert steps[..m] == init;
      SnapshotStream(s);
      assert StreamOf(n, steps, k, m);
    }
  }

  lemma SnapshotStream(s: State)
    requires s.sub.phase.Subscribed? && s.sub.position <= |s.bundle.channel| && s.sub.delivered == []
    ensures StreamIs(Next(s, TakeSnapshot), s.sub.position, s.bundle.slots)
  {
    var frames := SnapshotFrames(s.bundle.slots);
    assert [] + frames == frames + [];
    assert s.bundle.channel[s.sub.position..s.sub.position] == [];
  }

  lemma {:induction false} RunPlaced(n: nat, steps: seq<Step>)
    ensures Placed(n, steps)
  {
    if steps != [] {
      var init, last := steps[..|steps| - 1], steps[|steps| - 1];
      var s := Run(n, init);
      RunPlaced(n, init);
      if s.sub.phase.Streaming? {
        StreamingPlaced(n, steps);
      } else if s.sub.phase.Subscribed? {
        SubscribedPlaced(n, steps);
      } else {
        ChannelGrows(s, last);
        if last == Subscribe {
          assert steps[..|init|] == init;
          assert SubscribedAt(n, steps, |init|);
        }
      }
    }
  }

  /** A subscriber that lost nothing to lag gets, in order, the snapshot's endings and then every frame that the channel
      carried from its subscription on, but for distributions the snapshot covered. */
  lemma {:induction false} StreamExact(n: nat, steps: seq<Step>) returns (k: nat, m: nat)
    requires Run(n, steps).sub.phase.Streaming? && Run(n, steps).sub.missed == []
    ensures StreamOf(n, steps, k, m)
  {
    RunPlaced(n, steps);
    k, m :| StreamOf(n, steps, k, m);
  }
}
