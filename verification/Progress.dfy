/** Progress of one attachment bundle (`attachments/runtime.rs`) and a subscriber's stream over it
    (`attachments/handlers.rs`), interleaved between the slot update, the terminal counter, the broadcast and the
    subscriber's own steps. */
module Progress {
  datatype DistributionState = Pending | InProgress | Completed | Failed | Cancelled

  predicate Terminal(s: DistributionState) {
    s.Completed? || s.Failed? || s.Cancelled?
  }

  datatype Frame = Frame(distribution: nat, state: DistributionState)

  /** Where an accepted update is after it released the slots. */
  datatype At = Counting | Sending | Sent

  datatype Update = Update(frame: Frame, at: At)

  /** `relabelled` is history: distributions whose Failed slot a cancellation turned into Cancelled. `channel` is
      everything broadcast so far. */
  datatype Bundle = Bundle(
    slots: seq<DistributionState>, terminalCount: int, updates: seq<Update>, channel: seq<Frame>, relabelled: set<nat>)

  datatype Phase = Detached | Subscribed | Streaming

  /** Frames a broadcast channel keeps for a slow receiver. */
  const PROGRESS_BACKLOG: nat := 64

  /** `queue` holds snapshot frames not yet delivered, `seen` the distributions they cover. `missed` is history: frames
      the channel no longer had when the subscriber came to read them. */
  datatype Subscriber = Subscriber(
    phase: Phase, position: nat, seen: set<nat>, queue: seq<Frame>, delivered: seq<Frame>, terminals: int, closed: bool,
    missed: seq<Frame>)

  datatype State = State(bundle: Bundle, sub: Subscriber)

  datatype Step =
    | Progressed(i: nat, state: DistributionState)
    | CancelAccepted(i: nat)
    | CountUpdate(u: nat)
    | SendUpdate(u: nat)
    | Subscribe
    | TakeSnapshot
    | Poll

  function Start(n: nat): State {
    State(Bundle(seq(n, i => Pending), 0, [], [], {}), Subscriber(Detached, 0, {}, [], [], 0, false, []))
  }

  /** `apply_progress` under the slot lock: terminal is final. */
  function Apply(b: Bundle, i: nat, state: DistributionState): Bundle {
    if i >= |b.slots| || Terminal(b.slots[i]) then b
    else
      b.(slots := b.slots[i := state],
         updates := b.updates + [Update(Frame(i, state), if Terminal(state) then Counting else Sending)])
  }

  /** `apply_cancellation` under the slot lock: it also takes over a Failed slot. */
  function Cancel(b: Bundle, i: nat): Bundle {
    if i >= |b.slots| || b.slots[i].Completed? || b.slots[i].Cancelled? then b
    else
      b.(slots := b.slots[i := Cancelled],
         updates := b.updates + [Update(Frame(i, Cancelled), if Terminal(b.slots[i]) then Sending else Counting)],
         relabelled := if Terminal(b.slots[i]) then b.relabelled + {i} else b.relabelled)
  }

  function Count(b: Bundle, u: nat): Bundle {
    if u < |b.updates| && b.updates[u].at.Counting?
    then b.(terminalCount := b.terminalCount + 1, updates := b.updates[u := b.updates[u].(at := Sending)])
    else b
  }

  function Send(b: Bundle, u: nat): Bundle {
    if u < |b.updates| && b.updates[u].at.Sending?
    then b.(channel := b.channel + [b.updates[u].frame], updates := b.updates[u := b.updates[u].(at := Sent)])
    else b
  }

  function SnapshotFrames(slots: seq<DistributionState>): seq<Frame> {
    if slots == [] then []
    else
      var n := |slots| - 1;
      SnapshotFrames(slots[..n]) + (if Terminal(slots[n]) then [Frame(n, slots[n])] else [])
  }

  /** `StreamCloser`: pass a frame on, and close with the frame that completes the total. */
  function Deliver(sub: Subscriber, f: Frame, total: nat): Subscriber {
    var terminals := sub.terminals + (if Terminal(f.state) then 1 else 0);
    sub.(delivered := sub.delivered + [f], terminals := terminals,
         closed := sub.closed || (Terminal(f.state) && terminals >= total))
  }

  predicate Lagging(b: Bundle, sub: Subscriber) {
    |b.channel| - sub.position > PROGRESS_BACKLOG
  }

  /** A receiver too far behind goes on with the oldest frame the channel still has. */
  function Skipped(b: Bundle, sub: Subscriber): Subscriber
    requires Lagging(b, sub)
  {
    var kept := |b.channel| - PROGRESS_BACKLOG;
    sub.(position := kept, missed := sub.missed + b.channel[sub.position..kept])
  }

  function Polled(b: Bundle, sub: Subscriber): Subscriber {
    if !sub.phase.Streaming? || sub.closed then sub
    else if sub.queue != [] then Deliver(sub.(queue := sub.queue[1..]), sub.queue[0], |b.slots|)
    else if Lagging(b, sub) then Skipped(b, sub)
    else if sub.position >= |b.channel| then sub
    else
      var f := b.channel[sub.position];
      var read := sub.(position := sub.position + 1);
      if f.distribution in sub.seen then read else Deliver(read, f, |b.slots|)
  }

  function Snapshotted(b: Bundle, sub: Subscriber): Subscriber {
    sub.(phase := Streaming, seen := (set i | 0 <= i < |b.slots| && Terminal(b.slots[i])),
         queue := SnapshotFrames(b.slots), closed := |b.slots| == 0)
  }

  function Next(s: State, step: Step): State {
    match step
    case Progressed(i, state) => s.(bundle := Apply(s.bundle, i, state))
    case CancelAccepted(i) => s.(bundle := Cancel(s.bundle, i))
    case CountUpdate(u) => s.(bundle := Count(s.bundle, u))
    case SendUpdate(u) => s.(bundle := Send(s.bundle, u))
    case Subscribe =>
      if s.sub.phase.Detached? then s.(sub := s.sub.(phase := Subscribed, position := |s.bundle.channel|)) else s
    case TakeSnapshot => if s.sub.phase.Subscribed? then s.(sub := Snapshotted(s.bundle, s.sub)) else s
    case Poll => s.(sub := Polled(s.bundle, s.sub))
  }

  function Run(n: nat, steps: seq<Step>): State {
    if steps == [] then Start(n) else Next(Run(n, steps[..|steps| - 1]), steps[|steps| - 1])
  }

  // ---- counting -------------------------------------------------------------------

  function Bit(b: bool): int {
    if b then 1 else 0
  }

  predicate Ends(f: Frame, i: nat) {
    f.distribution == i && Terminal(f.state)
  }

  /** Terminal frames for distribution `i`. */
  function Endings(frames: seq<Frame>, i: nat): int {
    if frames == [] then 0 else Endings(frames[..|frames| - 1], i) + Bit(Ends(frames[|frames| - 1], i))
  }

  /** Accepted terminal updates of distribution `i` not yet broadcast. */
  function Outstanding(updates: seq<Update>, i: nat): int {
    if updates == [] then 0
    else
      var u := updates[|updates| - 1];
      Outstanding(updates[..|updates| - 1], i) + Bit(!u.at.Sent? && Ends(u.frame, i))
  }

  function Uncounted(updates: seq<Update>): int {
    if updates == [] then 0 else Uncounted(updates[..|updates| - 1]) + Bit(updates[|updates| - 1].at.Counting?)
  }

  function TerminalSlots(slots: seq<DistributionState>): int {
    if slots == [] then 0 else TerminalSlots(slots[..|slots| - 1]) + Bit(Terminal(slots[|slots| - 1]))
  }

  lemma {:induction false} EndingsNonNegative(frames: seq<Frame>, i: nat)
    ensures Endings(frames, i) >= 0
  {
    if frames != [] {
      EndingsNonNegative(frames[..|frames| - 1], i);
    }
  }

  lemma {:induction false} OutstandingNonNegative(updates: seq<Update>, i: nat)
    ensures Outstanding(updates, i) >= 0 && Uncounted(updates) >= 0
  {
    if updates != [] {
      OutstandingNonNegative(updates[..|updates| - 1], i);
    }
  }

  lemma {:induction false} EndingsSnoc(frames: seq<Frame>, f: Frame, i: nat)
    ensures Endings(frames + [f], i) == Endings(frames, i) + Bit(Ends(f, i))
  {
    assert (frames + [f])[..|frames|] == frames;
  }

  lemma {:induction false} EndingsAppend(a: seq<Frame>, b: seq<Frame>, i: nat)
    ensures Endings(a + b, i) == Endings(a, i) + Endings(b, i)
  {
    if b == [] {
      assert a + b == a;
    } else {
      var init, last := b[..|b| - 1], b[|b| - 1];
      EndingsAppend(a, init, i);
      assert a + b == (a + init) + [last];
      EndingsSnoc(a + init, last, i);
    }
  }

  lemma {:induction false} EndingsFrom(frames: seq<Frame>, k: nat, i: nat)
    requires k < |frames|
    ensures Endings(frames[k..], i) == Bit(Ends(frames[k], i)) + Endings(frames[k + 1..], i)
  {
    assert frames[k..] == [frames[k]] + frames[k + 1..];
    EndingsAppend([frames[k]], frames[k + 1..], i);
    EndingsSnoc([], frames[k], i);
    assert [] + [frames[k]] == [frames[k]];
  }

  lemma {:induction false} OutstandingSnoc(updates: seq<Update>, u: Update, i: nat)
    ensures Outstanding(updates + [u], i) == Outstanding(updates, i) + Bit(!u.at.Sent? && Ends(u.frame, i))
    ensures Uncounted(updates + [u]) == Uncounted(updates) + Bit(u.at.Counting?)
  {
    assert (updates + [u])[..|updates|] == updates;
  }

  lemma {:induction false} OutstandingMove(updates: seq<Update>, u: nat, at: At, i: nat)
    requires u < |updates|
    ensures var moved := updates[u := updates[u].(at := at)];
            && Outstanding(moved, i) + Bit(!updates[u].at.Sent? && Ends(updates[u].frame, i)) ==
               Outstanding(updates, i) + Bit(!at.Sent? && Ends(updates[u].frame, i))
            && Uncounted(moved) + Bit(updates[u].at.Counting?) == Uncounted(updates) + Bit(at.Counting?)
  {
    var n := |updates| - 1;
    var moved := updates[u := updates[u].(at := at)];
    if u < n {
      OutstandingMove(updates[..n], u, at, i);
      assert moved[..n] == updates[..n][u := updates[u].(at := at)];
    } else {
      assert moved[..n] == updates[..n];
    }
  }

  lemma {:induction false} TerminalSlotsUpdate(slots: seq<DistributionState>, i: nat, state: DistributionState)
    requires i < |slots|
    ensures TerminalSlots(slots[i := state]) + Bit(Terminal(slots[i])) == TerminalSlots(slots) + Bit(Terminal(state))
  {
    var n := |slots| - 1;
    if i < n {
      TerminalSlotsUpdate(slots[..n], i, state);
      assert slots[i := state][..n] == slots[..n][i := state];
    } else {
      assert slots[i := state][..n] == slots[..n];
    }
  }

  lemma {:induction false} TerminalSlotsBound(slots: seq<DistributionState>)
    ensures TerminalSlots(slots) <= |slots|
    ensures TerminalSlots(slots) == |slots| <==> forall i :: 0 <= i < |slots| ==> Terminal(slots[i])
  {
    if slots != [] {
      TerminalSlotsBound(slots[..|slots| - 1]);
    }
  }

  lemma {:induction false} SnapshotEndings(slots: seq<DistributionState>, i: nat)
    ensures Endings(SnapshotFrames(slots), i) == Bit(i < |slots| && Terminal(slots[i]))
  {
    if slots != [] {
      var n := |slots| - 1;
      var init := SnapshotFrames(slots[..n]);
      SnapshotEndings(slots[..n], i);
      if Terminal(slots[n]) {
        EndingsSnoc(init, Frame(n, slots[n]), i);
      } else {
        assert SnapshotFrames(slots) == init;
      }
    }
  }

  lemma {:induction false} SnapshotInRange(slots: seq<DistributionState>)
    ensures forall k :: 0 <= k < |SnapshotFrames(slots)| ==> SnapshotFrames(slots)[k].distribution < |slots|
  {
    if slots != [] {
      SnapshotInRange(slots[..|slots| - 1]);
    }
  }

  /** The slot of this distribution is terminal, in the state that the frame reports. */
  predicate EndsAs(slots: seq<DistributionState>, f: Frame) {
    f.distribution < |slots| && Terminal(slots[f.distribution]) && f.state == slots[f.distribution]
  }

  /** The snapshot reports the ending of every ended distribution, as it is, and nothing else. */
  lemma {:induction false} SnapshotExact(slots: seq<DistributionState>)
    ensures forall f :: f in SnapshotFrames(slots) <==> EndsAs(slots, f)
  {
    if slots != [] {
      var n := |slots| - 1;
      SnapshotExact(slots[..n]);
      forall f ensures f in SnapshotFrames(slots) <==> EndsAs(slots, f) {
        assert EndsAs(slots, f) <==> EndsAs(slots[..n], f) || (f == Frame(n, slots[n]) && Terminal(slots[n]));
      }
    }
  }

  // ---- the runtime ------------------------------------------------------------------

  /** Every terminal update has exactly one frame, broadcast or on its way, plus one per relabelling. */
  ghost predicate Balanced(b: Bundle, i: nat)
    requires i < |b.slots|
  {
    && Endings(b.channel, i) + Outstanding(b.updates, i) == Bit(Terminal(b.slots[i])) + Bit(i in b.relabelled)
    && (i in b.relabelled ==> b.slots[i].Cancelled?)
  }

  ghost predicate InRange(b: Bundle) {
    && (forall u :: 0 <= u < |b.updates| ==> b.updates[u].frame.distribution < |b.slots|)
    && (forall k :: 0 <= k < |b.channel| ==> b.channel[k].distribution < |b.slots|)
  }

  ghost predicate BundleInv(b: Bundle) {
    && InRange(b)
    && b.terminalCount + Uncounted(b.updates) == TerminalSlots(b.slots)
    && (forall u :: 0 <= u < |b.updates| && b.updates[u].at.Counting? ==> Terminal(b.updates[u].frame.state))
    && (forall i :: 0 <= i < |b.slots| ==> Balanced(b, i))
  }

  /** What accepting an update does to the account of one distribution. */
  lemma AcceptBalances(b: Bundle, b': Bundle, i: nat, u: Update, j: nat)
    requires i < |b.slots| && j < |b.slots| && Balanced(b, j) && !u.at.Sent? && u.frame == Frame(i, u.frame.state)
    requires b'.slots == b.slots[i := u.frame.state] && b'.updates == b.updates + [u] && b'.channel == b.channel
    requires j != i ==> (j in b'.relabelled <==> j in b.relabelled)
    requires j == i ==> Bit(Terminal(u.frame.state)) + Bit(Terminal(b.slots[i])) + Bit(i in b.relabelled) ==
                        Bit(Terminal(u.frame.state)) + Bit(i in b'.relabelled)
    requires j == i && i in b'.relabelled ==> u.frame.state.Cancelled?
    ensures Balanced(b', j)
  {
    OutstandingSnoc(b.updates, u, j);
  }

  lemma ApplyKeeps(b: Bundle, i: nat, state: DistributionState)
    requires BundleInv(b)
    ensures BundleInv(Apply(b, i, state))
  {
    var b' := Apply(b, i, state);
    if i < |b.slots| && !Terminal(b.slots[i]) {
      var u := Update(Frame(i, state), if Terminal(state) then Counting else Sending);
      TerminalSlotsUpdate(b.slots, i, state);
      OutstandingSnoc(b.updates, u, i);
      forall j | 0 <= j < |b'.slots| ensures Balanced(b', j) {
        AcceptBalances(b, b', i, u, j);
      }
    }
  }

  lemma CancelKeeps(b: Bundle, i: nat)
    requires BundleInv(b)
    ensures BundleInv(Cancel(b, i))
  {
    var b' := Cancel(b, i);
    if i < |b.slots| && !b.slots[i].Completed? && !b.slots[i].Cancelled? {
      assert Balanced(b, i);
      var u := Update(Frame(i, Cancelled), if Terminal(b.slots[i]) then Sending else Counting);
      TerminalSlotsUpdate(b.slots, i, Cancelled);
      OutstandingSnoc(b.updates, u, i);
      forall j | 0 <= j < |b'.slots| ensures Balanced(b', j) {
        AcceptBalances(b, b', i, u, j);
      }
    }
  }

  lemma CountKeeps(b: Bundle, u: nat)
    requires BundleInv(b)
    ensures BundleInv(Count(b, u))
  {
    var b' := Count(b, u);
    if u < |b.updates| && b.updates[u].at.Counting? {
      OutstandingMove(b.updates, u, Sending, 0);
      forall j | 0 <= j < |b'.slots| ensures Balanced(b', j) {
        assert Balanced(b, j);
        OutstandingMove(b.updates, u, Sending, j);
      }
    }
  }

  lemma SendKeeps(b: Bundle, u: nat)
    requires BundleInv(b)
    ensures BundleInv(Send(b, u))
  {
    var b' := Send(b, u);
    if u < |b.updates| && b.updates[u].at.Sending? {
      OutstandingMove(b.updates, u, Sent, 0);
      forall j | 0 <= j < |b'.slots| ensures Balanced(b', j) {
        assert Balanced(b, j);
        OutstandingMove(b.updates, u, Sent, j);
        EndingsSnoc(b.channel, b.updates[u].frame, j);
      }
    }
  }

  // ---- the stream --------------------------------------------------------------------

  function Terminals(frames: seq<Frame>): int {
    if frames == [] then 0 else Terminals(frames[..|frames| - 1]) + Bit(Terminal(frames[|frames| - 1].state))
  }

  lemma {:induction false} TerminalsSnoc(frames: seq<Frame>, f: Frame)
    ensures Terminals(frames + [f]) == Terminals(frames) + Bit(Terminal(f.state))
  {
    assert (frames + [f])[..|frames|] == frames;
  }

  /** Where the terminal frames of distribution `i` are, for a streaming subscriber. */
  ghost predicate Tracked(b: Bundle, sub: Subscriber, i: nat)
    requires sub.position <= |b.channel|
  {
    if i in sub.seen then Endings(sub.delivered, i) + Endings(sub.queue, i) == 1
    else
      && Endings(sub.queue, i) == 0
      && Endings(sub.delivered, i) + Endings(sub.missed, i) + Endings(b.channel[sub.position..], i) ==
         Endings(b.channel, i)
  }

  ghost predicate Closing(sub: Subscriber, n: nat) {
    && sub.terminals == Terminals(sub.delivered)
    && sub.terminals <= n
    && (sub.closed <==> sub.terminals == n)
    && (forall k :: 0 <= k < |sub.delivered| ==> sub.delivered[k].distribution < n)
    && (forall k :: 0 <= k < |sub.queue| ==> sub.queue[k].distribution < n)
  }

  ghost predicate SubInv(b: Bundle, sub: Subscriber) {
    && sub.position <= |b.channel|
    && (!sub.phase.Streaming? ==> sub.delivered == [] && sub.terminals == 0 && sub.missed == [])
    && (sub.phase.Streaming? ==> Closing(sub, |b.slots|) && forall i :: 0 <= i < |b.slots| ==> Tracked(b, sub, i))
  }

  /** The bundle moves on without the subscriber. */
  lemma SubStays(b: Bundle, b': Bundle, sub: Subscriber)
    requires SubInv(b, sub) && |b'.slots| == |b.slots|
    requires b'.channel == b.channel || (|b'.channel| == |b.channel| + 1 && b'.channel[..|b.channel|] == b.channel)
    ensures SubInv(b', sub)
  {
    if sub.phase.Streaming? && b'.channel == b.channel {
      forall i | 0 <= i < |b'.slots| ensures Tracked(b', sub, i) {
        assert Tracked(b, sub, i);
      }
    } else if sub.phase.Streaming? {
      var f := b'.channel[|b.channel|];
      assert b'.channel == b.channel + [f];
      assert b'.channel[sub.position..] == b.channel[sub.position..] + [f];
      forall i | 0 <= i < |b'.slots| ensures Tracked(b', sub, i) {
        assert Tracked(b, sub, i);
        EndingsSnoc(b.channel, f, i);
        EndingsSnoc(b.channel[sub.position..], f, i);
      }
    }
  }

  /** Subscribing before the snapshot loses nothing: what is not terminal in the snapshot ends on the channel later. */
  lemma SnapshotKeeps(b: Bundle, sub: Subscriber)
    requires BundleInv(b) && SubInv(b, sub) && sub.phase.Subscribed?
    ensures SubInv(b, Snapshotted(b, sub))
  {
    var sub' := Snapshotted(b, sub);
    forall i | 0 <= i < |b.slots| ensures Tracked(b, sub', i) {
      SnapshotEndings(b.slots, i);
      assert Balanced(b, i);
      assert b.channel == b.channel[..sub.position] + b.channel[sub.position..];
      EndingsAppend(b.channel[..sub.position], b.channel[sub.position..], i);
      EndingsNonNegative(b.channel[..sub.position], i);
      EndingsNonNegative(b.channel[sub.position..], i);
      OutstandingNonNegative(b.updates, i);
    }
    SnapshotInRange(b.slots);
  }

  lemma DeliverCloses(sub: Subscriber, f: Frame, n: nat)
    requires Closing(sub, n) && !sub.closed && f.distribution < n
    ensures Closing(Deliver(sub, f, n), n)
  {
    TerminalsSnoc(sub.delivered, f);
  }

  lemma {:induction false} EndingsHead(frames: seq<Frame>, i: nat)
    requires frames != []
    ensures Endings(frames, i) == Bit(Ends(frames[0], i)) + Endings(frames[1..], i)
    ensures Endings(frames[1..], i) >= 0
  {
    assert frames[0..] == frames;
    EndingsFrom(frames, 0, i);
    EndingsNonNegative(frames[1..], i);
  }

  lemma {:induction false} QueueFrameTracked(b: Bundle, sub: Subscriber, f: Frame, rest: seq<Frame>, n: nat, i: nat)
    requires sub.position <= |b.channel| && Tracked(b, sub, i)
    requires Endings(sub.queue, i) == Bit(Ends(f, i)) + Endings(rest, i) && Endings(rest, i) >= 0
    ensures Tracked(b, Deliver(sub.(queue := rest), f, n), i)
  {
    EndingsSnoc(sub.delivered, f, i);
  }

  lemma PollQueueKeeps(b: Bundle, sub: Subscriber)
    requires SubInv(b, sub) && sub.phase.Streaming? && !sub.closed && sub.queue != []
    ensures SubInv(b, Polled(b, sub))
  {
    var f, rest := sub.queue[0], sub.queue[1..];
    DeliverCloses(sub.(queue := rest), f, |b.slots|);
    forall i | 0 <= i < |b.slots| ensures Tracked(b, Polled(b, sub), i) {
      EndingsHead(sub.queue, i);
      QueueFrameTracked(b, sub, f, rest, |b.slots|, i);
    }
  }

  lemma ChannelFrameTracked(b: Bundle, sub: Subscriber, i: nat)
    requires sub.position < |b.channel| && Tracked(b, sub, i) && sub.queue == []
    ensures var read := sub.(position := sub.position + 1);
            && (b.channel[sub.position].distribution in sub.seen ==> Tracked(b, read, i))
            && (b.channel[sub.position].distribution !in sub.seen ==>
                  Tracked(b, Deliver(read, b.channel[sub.position], |b.slots|), i))
  {
    EndingsFrom(b.channel, sub.position, i);
    EndingsSnoc(sub.delivered, b.channel[sub.position], i);
  }

  lemma PollChannelKeeps(b: Bundle, sub: Subscriber)
    requires InRange(b) && SubInv(b, sub) && sub.phase.Streaming? && !sub.closed && sub.queue == []
    requires sub.position < |b.channel| && !Lagging(b, sub)
    ensures SubInv(b, Polled(b, sub))
  {
    var f := b.channel[sub.position];
    if f.distribution !in sub.seen {
      DeliverCloses(sub.(position := sub.position + 1), f, |b.slots|);
    }
    forall i | 0 <= i < |b.slots| ensures Tracked(b, Polled(b, sub), i) {
      ChannelFrameTracked(b, sub, i);
    }
  }

  lemma SkipTracked(b: Bundle, sub: Subscriber, i: nat)
    requires sub.position <= |b.channel| && Lagging(b, sub) && Tracked(b, sub, i)
    ensures Tracked(b, Skipped(b, sub), i)
  {
    var kept := |b.channel| - PROGRESS_BACKLOG;
    var skipped := b.channel[sub.position..kept];
    SplitUnread(b.channel, sub.position, kept);
    EndingsAppend(skipped, b.channel[kept..], i);
    EndingsAppend(sub.missed, skipped, i);
  }

  lemma SplitUnread(channel: seq<Frame>, from: nat, to: nat)
    requires from <= to <= |channel|
    ensures channel[from..] == channel[from..to] + channel[to..]
  {
  }

  lemma SkipKeeps(b: Bundle, sub: Subscriber)
    requires SubInv(b, sub) && sub.phase.Streaming? && Lagging(b, sub)
    ensures SubInv(b, Skipped(b, sub))
  {
    forall i | 0 <= i < |b.slots| ensures Tracked(b, Skipped(b, sub), i) {
      SkipTracked(b, sub, i);
    }
  }

  ghost predicate Inv(n: nat, s: State) {
    |s.bundle.slots| == n && BundleInv(s.bundle) && SubInv(s.bundle, s.sub)
  }

  lemma BundleStep(n: nat, s: State, b': Bundle)
    requires Inv(n, s) && BundleInv(b') && |b'.slots| == n
    requires b'.channel == s.bundle.channel
             || (|b'.channel| == |s.bundle.channel| + 1 && b'.channel[..|s.bundle.channel|] == s.bundle.channel)
    ensures Inv(n, s.(bundle := b'))
  {
    SubStays(s.bundle, b', s.sub);
  }

  lemma NextKeeps(n: nat, s: State, step: Step)
    requires Inv(n, s)
    ensures Inv(n, Next(s, step))
  {
    var b, sub := s.bundle, s.sub;
    match step {
      case Progressed(i, state) => ApplyKeeps(b, i, state); BundleStep(n, s, Apply(b, i, state));
      case CancelAccepted(i) => CancelKeeps(b, i); BundleStep(n, s, Cancel(b, i));
      case CountUpdate(u) => CountKeeps(b, u); BundleStep(n, s, Count(b, u));
      case SendUpdate(u) => SendKeeps(b, u); BundleStep(n, s, Send(b, u));
      case Subscribe =>
      case TakeSnapshot => if sub.phase.Subscribed? { SnapshotKeeps(b, sub); }
      case Poll =>
        if sub.phase.Streaming? && !sub.closed {
          if sub.queue != [] {
            PollQueueKeeps(b, sub);
          } else if Lagging(b, sub) {
            SkipKeeps(b, sub);
          } else if sub.position < |b.channel| {
            PollChannelKeeps(b, sub);
          }
        }
    }
  }

  lemma {:induction false} NoneTerminal(slots: seq<DistributionState>)
    requires forall i :: 0 <= i < |slots| ==> slots[i].Pending?
    ensures TerminalSlots(slots) == 0 && SnapshotFrames(slots) == []
  {
    if slots != [] {
      NoneTerminal(slots[..|slots| - 1]);
    }
  }

  lemma {:induction false} RunKeeps(n: nat, steps: seq<Step>)
    ensures Inv(n, Run(n, steps))
  {
    if steps == [] {
      NoneTerminal(Start(n).bundle.slots);
    } else {
      RunKeeps(n, steps[..|steps| - 1]);
      NextKeeps(n, Run(n, steps[..|steps| - 1]), steps[|steps| - 1]);
    }
  }

  // ---- results ---------------------------------------------------------------------------

  /** The lock-free counter never runs ahead: when it reaches the total, every slot is terminal. */
  lemma {:induction false} AllTerminalSound(n: nat, steps: seq<Step>)
    ensures var b := Run(n, steps).bundle;
            && b.terminalCount <= n
            && (b.terminalCount >= n ==> forall i :: 0 <= i < |b.slots| ==> Terminal(b.slots[i]))
  {
    RunKeeps(n, steps);
    TerminalSlotsBound(Run(n, steps).bundle.slots);
    OutstandingNonNegative(Run(n, steps).bundle.updates, 0);
  }

  /** A subscriber gets at most one terminal frame per distribution, and a second one only for a distribution
      relabelled from Failed to Cancelled outside its snapshot. */
  lemma {:induction false} AtMostOneEnding(n: nat, steps: seq<Step>, i: nat)
    requires i < n && Run(n, steps).sub.phase.Streaming?
    ensures var s := Run(n, steps);
            Endings(s.sub.delivered, i) <= 1 + Bit(i in s.bundle.relabelled && i !in s.sub.seen)
  {
    RunKeeps(n, steps);
    var s := Run(n, steps);
    assert Balanced(s.bundle, i) && Tracked(s.bundle, s.sub, i);
    EndingsNonNegative(s.sub.queue, i);
    EndingsNonNegative(s.sub.missed, i);
    EndingsNonNegative(s.bundle.channel[s.sub.position..], i);
    OutstandingNonNegative(s.bundle.updates, i);
  }

  /** Distributions below `n` with no terminal frame, and terminal frames beyond the first. */
  function Missing(frames: seq<Frame>, n: nat): int {
    if n == 0 then 0 else Missing(frames, n - 1) + Bit(Endings(frames, n - 1) == 0)
  }

  function Repeats(frames: seq<Frame>, n: nat): int {
    if n == 0 then 0
    else Repeats(frames, n - 1) + (if Endings(frames, n - 1) > 1 then Endings(frames, n - 1) - 1 else 0)
  }

  function Sum(frames: seq<Frame>, n: nat): int {
    if n == 0 then 0 else Sum(frames, n - 1) + Endings(frames, n - 1)
  }

  lemma {:induction false} SumSplits(frames: seq<Frame>, n: nat)
    ensures Sum(frames, n) + Missing(frames, n) == n + Repeats(frames, n)
  {
    if n > 0 {
      SumSplits(frames, n - 1);
      EndingsNonNegative(frames, n - 1);
    }
  }

  lemma {:induction false} SumSnoc(frames: seq<Frame>, f: Frame, n: nat)
    ensures Sum(frames + [f], n) == Sum(frames, n) + Bit(Terminal(f.state) && f.distribution < n)
  {
    if n > 0 {
      SumSnoc(frames, f, n - 1);
      EndingsSnoc(frames, f, n - 1);
    }
  }

  lemma {:induction false} SumOfNone(n: nat)
    ensures Sum([], n) == 0
  {
    if n > 0 {
      SumOfNone(n - 1);
    }
  }

  lemma {:induction false} SumIsTerminals(frames: seq<Frame>, n: nat)
    requires forall k :: 0 <= k < |frames| ==> frames[k].distribution < n
    ensures Sum(frames, n) == Terminals(frames)
  {
    if frames == [] {
      SumOfNone(n);
    } else {
      var init, last := frames[..|frames| - 1], frames[|frames| - 1];
      SumIsTerminals(init, n);
      assert frames == init + [last];
      SumSnoc(init, last, n);
      TerminalsSnoc(init, last);
    }
  }

  /** A closed stream misses exactly as many distributions as it repeated terminal frames: it is complete if and
      only if nothing was delivered twice. */
  lemma {:induction false} ClosedMissesRepeats(n: nat, steps: seq<Step>)
    requires Run(n, steps).sub.phase.Streaming? && Run(n, steps).sub.closed
    ensures var sub := Run(n, steps).sub; Missing(sub.delivered, n) == Repeats(sub.delivered, n)
  {
    RunKeeps(n, steps);
    var sub := Run(n, steps).sub;
    SumSplits(sub.delivered, n);
    SumIsTerminals(sub.delivered, n);
  }

  lemma {:induction false} NoRepeats(frames: seq<Frame>, n: nat)
    requires forall i :: 0 <= i < n ==> Endings(frames, i) <= 1
    ensures Repeats(frames, n) == 0
  {
    if n > 0 {
      NoRepeats(frames, n - 1);
    }
  }

  lemma {:induction false} MissingNonNegative(frames: seq<Frame>, n: nat)
    ensures Missing(frames, n) >= 0 && Repeats(frames, n) >= 0
  {
    if n > 0 {
      MissingNonNegative(frames, n - 1);
    }
  }

  lemma {:induction false} NothingMissing(frames: seq<Frame>, n: nat, i: nat)
    requires Missing(frames, n) == 0 && i < n
    ensures Endings(frames, i) > 0
  {
    EndingsNonNegative(frames, i);
    MissingNonNegative(frames, n - 1);
    if i < n - 1 {
      NothingMissing(frames, n - 1, i);
    }
  }

  /** Without such a relabelling, a closed stream delivered exactly one terminal frame for every distribution. */
  lemma {:induction false} ClosedIsComplete(n: nat, steps: seq<Step>, i: nat)
    requires i < n && Run(n, steps).sub.phase.Streaming? && Run(n, steps).sub.closed
    requires Run(n, steps).bundle.relabelled <= Run(n, steps).sub.seen
    ensures Endings(Run(n, steps).sub.delivered, i) == 1
  {
    var s := Run(n, steps);
    forall j | 0 <= j < n ensures Endings(s.sub.delivered, j) <= 1 {
      AtMostOneEnding(n, steps, j);
    }
    NoRepeats(s.sub.delivered, n);
    ClosedMissesRepeats(n, steps);
    NothingMissing(s.sub.delivered, n, i);
  }

  /** Terminal frames of `i` that the subscriber took from the channel: broadcast before its position and not lost to
      lag. */
  function EndingsRead(b: Bundle, sub: Subscriber, i: nat): int
    requires sub.position <= |b.channel|
  {
    Endings(b.channel[..sub.position], i) - Endings(sub.missed, i)
  }

  /** What reaches the subscriber of a distribution outside its snapshot is what it took from the channel. */
  lemma {:induction false} DeliveredIsRead(n: nat, steps: seq<Step>, i: nat)
    requires i < n && Run(n, steps).sub.phase.Streaming?
    ensures var s := Run(n, steps);
            && s.sub.position <= |s.bundle.channel|
            && (if i in s.sub.seen then Endings(s.sub.delivered, i) <= 1
                else Endings(s.sub.delivered, i) == EndingsRead(s.bundle, s.sub, i))
  {
    RunKeeps(n, steps);
    TrackedIsRead(Run(n, steps).bundle, Run(n, steps).sub, i);
  }

  lemma {:induction false} TrackedIsRead(b: Bundle, sub: Subscriber, i: nat)
    requires sub.position <= |b.channel| && Tracked(b, sub, i)
    ensures if i in sub.seen then Endings(sub.delivered, i) <= 1
            else Endings(sub.delivered, i) == EndingsRead(b, sub, i)
  {
    EndingsNonNegative(sub.queue, i);
    EndingsAppend(b.channel[..sub.position], b.channel[sub.position..], i);
    assert b.channel[..sub.position] + b.channel[sub.position..] == b.channel;
  }

  /** One terminal frame for every distribution. */
  ghost predicate Complete(frames: seq<Frame>, n: nat) {
    forall i :: 0 <= i < n ==> Endings(frames, i) == 1
  }

  /** No second terminal frame of a distribution outside the snapshot was taken from the channel. */
  ghost predicate NoneReadTwice(s: State) {
    && s.sub.position <= |s.bundle.channel|
    && forall i :: 0 <= i < |s.bundle.slots| && i !in s.sub.seen ==> EndingsRead(s.bundle, s.sub, i) <= 1
  }

  /** Exactly when a closed stream is complete. */
  lemma {:induction false} ClosedCompleteIff(n: nat, steps: seq<Step>)
    requires Run(n, steps).sub.phase.Streaming? && Run(n, steps).sub.closed
    ensures Complete(Run(n, steps).sub.delivered, n) <==> NoneReadTwice(Run(n, steps))
  {
    RunKeeps(n, steps);
    var s := Run(n, steps);
    if Complete(s.sub.delivered, n) {
      forall i | 0 <= i < n && i !in s.sub.seen ensures EndingsRead(s.bundle, s.sub, i) <= 1 {
        DeliveredIsRead(n, steps, i);
      }
    }
    if NoneReadTwice(s) {
      forall i | 0 <= i < n ensures Endings(s.sub.delivered, i) <= 1 {
        DeliveredIsRead(n, steps, i);
      }
      NoRepeats(s.sub.delivered, n);
      ClosedMissesRepeats(n, steps);
      forall i | 0 <= i < n ensures Endings(s.sub.delivered, i) == 1 {
        NothingMissing(s.sub.delivered, n, i);
      }
    }
  }

  lemma {:induction false} NoneMissing(frames: seq<Frame>, n: nat)
    requires forall i :: 0 <= i < n ==> Endings(frames, i) > 0
    ensures Missing(frames, n) == 0
  {
    if n > 0 {
      NoneMissing(frames, n - 1);
    }
  }

  lemma {:induction false} AllSent(updates: seq<Update>, i: nat)
    requires forall u :: 0 <= u < |updates| ==> updates[u].at.Sent?
    ensures Outstanding(updates, i) == 0
  {
    if updates != [] {
      AllSent(updates[..|updates| - 1], i);
    }
  }

  /** Everything terminal, broadcast and read. */
  ghost predicate Settled(s: State) {
    && s.sub.phase.Streaming? && s.sub.queue == [] && s.sub.position == |s.bundle.channel|
    && (forall i :: 0 <= i < |s.bundle.slots| ==> Terminal(s.bundle.slots[i]))
    && (forall u :: 0 <= u < |s.bundle.updates| ==> s.bundle.updates[u].at.Sent?)
  }

  /** No terminal frame of a distribution outside the snapshot was lost to lag. */
  ghost predicate NoneLost(s: State) {
    forall i :: 0 <= i < |s.bundle.slots| && i !in s.sub.seen ==> Endings(s.sub.missed, i) == 0
  }

  /** A subscriber that lost no terminal frame to lag is closed once everything is terminal, broadcast and read. */
  lemma {:induction false} DrainedIsClosed(n: nat, steps: seq<Step>)
    requires Settled(Run(n, steps)) && NoneLost(Run(n, steps))
    ensures Run(n, steps).sub.closed
  {
    RunKeeps(n, steps);
    var b, sub := Run(n, steps).bundle, Run(n, steps).sub;
    forall i | 0 <= i < n ensures Endings(sub.delivered, i) > 0 {
      assert Balanced(b, i) && Tracked(b, sub, i);
      AllSent(b.updates, i);
    }
    NoneMissing(sub.delivered, n);
    SumSplits(sub.delivered, n);
    MissingNonNegative(sub.delivered, n);
    SumIsTerminals(sub.delivered, n);
  }

  /** One that lost a terminal frame never closes, in this state or later, unless a relabelling repeats another. */
  lemma {:induction false} LostEndingLeavesOpen(n: nat, steps: seq<Step>, i: nat)
    requires i < n && Run(n, steps).sub.phase.Streaming? && i !in Run(n, steps).sub.seen
    requires Run(n, steps).bundle.relabelled <= Run(n, steps).sub.seen && Endings(Run(n, steps).sub.missed, i) > 0
    ensures !Run(n, steps).sub.closed
  {
    RunKeeps(n, steps);
    var s := Run(n, steps);
    assert Balanced(s.bundle, i) && Tracked(s.bundle, s.sub, i);
    EndingsNonNegative(s.bundle.channel[s.sub.position..], i);
    OutstandingNonNegative(s.bundle.updates, i);
    EndingsNonNegative(s.sub.delivered, i);
    if s.sub.closed {
      ClosedIsComplete(n, steps, i);
    }
  }

  /** Among the distributions below `n` outside the snapshot: terminal frames lost to lag, and relabellings. */
  function Lost(sub: Subscriber, n: nat): int {
    if n == 0 then 0 else Lost(sub, n - 1) + (if n - 1 in sub.seen then 0 else Endings(sub.missed, n - 1))
  }

  function Relabelled(s: State, n: nat): int {
    if n == 0 then 0 else Relabelled(s, n - 1) + Bit(n - 1 in s.bundle.relabelled && n - 1 !in s.sub.seen)
  }

  lemma {:induction false} SettledEndings(n: nat, steps: seq<Step>, i: nat)
    requires i < n && Settled(Run(n, steps))
    ensures var s := Run(n, steps);
            Endings(s.sub.delivered, i) ==
            1 + Bit(i in s.bundle.relabelled && i !in s.sub.seen)
            - (if i in s.sub.seen then 0 else Endings(s.sub.missed, i))
  {
    RunKeeps(n, steps);
    var s := Run(n, steps);
    assert Balanced(s.bundle, i) && Tracked(s.bundle, s.sub, i);
    AllSent(s.bundle.updates, i);
  }

  lemma {:induction false} SettledSum(n: nat, steps: seq<Step>, m: nat)
    requires m <= n && Settled(Run(n, steps))
    ensures var s := Run(n, steps); Sum(s.sub.delivered, m) == m + Relabelled(s, m) - Lost(s.sub, m)
  {
    if m > 0 {
      SettledSum(n, steps, m - 1);
      SettledEndings(n, steps, m - 1);
    }
  }

  /** A settled stream is closed if and only if lag cost it as many terminal frames as relabellings had added outside
      its snapshot; it never costs fewer. */
  lemma {:induction false} SettledClosedIff(n: nat, steps: seq<Step>)
    requires Settled(Run(n, steps))
    ensures var s := Run(n, steps);
            && (s.sub.closed <==> Lost(s.sub, n) == Relabelled(s, n))
            && Lost(s.sub, n) >= Relabelled(s, n)
  {
    RunKeeps(n, steps);
    SettledSum(n, steps, n);
    SumIsTerminals(Run(n, steps).sub.delivered, n);
  }

  /** What a poll loses: exactly the unread frames that at least 64 others follow. */
  lemma PollLosesIff(b: Bundle, sub: Subscriber, p: nat)
    requires sub.phase.Streaming? && !sub.closed && sub.queue == [] && sub.position <= p < |b.channel|
    ensures var sub' := Polled(b, sub);
            && (sub'.missed != sub.missed && p < sub'.position <==> |b.channel| - p > PROGRESS_BACKLOG)
            && (Lagging(b, sub) ==> sub'.missed == sub.missed + b.channel[sub.position..sub'.position])
            && (!Lagging(b, sub) ==> sub'.missed == sub.missed)
  {
    if Lagging(b, sub) {
      assert |Polled(b, sub).missed| > |sub.missed|;
    }
  }

  lemma {:induction false} RunSnoc(n: nat, steps: seq<Step>, step: Step)
    ensures Run(n, steps + [step]) == Next(Run(n, steps), step)
  {
    assert (steps + [step])[..|steps|] == steps;
  }

  lemma FailureWatched() returns (steps: seq<Step>)
    ensures var s := Run(2, steps);
            && s.bundle == Bundle([Failed, Pending], 1, [Update(Frame(0, Failed), Sending)], [], {})
            && s.sub == Subscriber(Streaming, 0, {}, [], [], 0, false, [])
  {
    steps := [];
    RunSnoc(2, steps, Subscribe);
    steps := steps + [Subscribe];
    RunSnoc(2, steps, TakeSnapshot);
    steps := steps + [TakeSnapshot];
    NoneTerminal(Start(2).bundle.slots);
    RunSnoc(2, steps, Progressed(0, Failed));
    steps := steps + [Progressed(0, Failed)];
    RunSnoc(2, steps, CountUpdate(0));
    steps := steps + [CountUpdate(0)];
  }

  /** A relabelling does close a stream early: two terminal frames of one distribution, none of the other. */
  lemma RelabellingClosesEarly() returns (steps: seq<Step>)
    ensures var s := Run(2, steps); s.sub.closed && s.sub.delivered == [Frame(0, Failed), Frame(0, Cancelled)]
  {
    steps := FailureWatched();
    RunSnoc(2, steps, SendUpdate(0));
    steps := steps + [SendUpdate(0)];
    RunSnoc(2, steps, CancelAccepted(0));
    steps := steps + [CancelAccepted(0)];
    RunSnoc(2, steps, SendUpdate(1));
    steps := steps + [SendUpdate(1)];
    RunSnoc(2, steps, Poll);
    steps := steps + [Poll];
    RunSnoc(2, steps, Poll);
    steps := steps + [Poll];
  }

  /** The watched failure of distribution 0 has been broadcast; distribution 1 is still going on. */
  ghost predicate Padding(s: State, k: nat) {
    && s.bundle.slots[..] == [Failed, InProgress] && s.bundle.relabelled == {}
    && |s.bundle.channel| == k + 1 && s.bundle.channel[0] == Frame(0, Failed)
    && s.sub == Subscriber(Streaming, 0, {}, [], [], 0, false, [])
  }

  lemma PadOnce(s: State, k: nat)
    requires Padding(s, k)
    ensures Padding(Next(Next(s, Progressed(1, InProgress)), SendUpdate(|s.bundle.updates|)), k + 1)
  {
    var s1 := Next(s, Progressed(1, InProgress));
    assert s1.bundle.updates == s.bundle.updates + [Update(Frame(1, InProgress), Sending)];
    assert s1.bundle.slots == [Failed, InProgress];
  }

  lemma {:induction false} Padded(k: nat) returns (steps: seq<Step>)
    ensures Padding(Run(2, steps), k)
  {
    if k == 0 {
      steps := FailureWatched();
      RunSnoc(2, steps, SendUpdate(0));
      steps := steps + [SendUpdate(0)];
      RunSnoc(2, steps, Progressed(1, InProgress));
      steps := steps + [Progressed(1, InProgress)];
    } else {
      steps := Padded(k - 1);
      var s := Run(2, steps);
      PadOnce(s, k - 1);
      RunSnoc(2, steps, Progressed(1, InProgress));
      RunSnoc(2, steps + [Progressed(1, InProgress)], SendUpdate(|s.bundle.updates|));
      steps := steps + [Progressed(1, InProgress)] + [SendUpdate(|s.bundle.updates|)];
    }
  }

  /** A run that loses a terminal frame: 64 frames of another distribution follow it before the subscriber's first
      poll. The stream is open from then on. */
  lemma LagLosesEnding() returns (steps: seq<Step>)
    ensures var s := Run(2, steps);
            && s.sub.phase.Streaming? && s.sub.missed == [Frame(0, Failed)]
            && s.bundle.relabelled == {} && s.sub.seen == {}
            && Endings(s.sub.missed, 0) > 0
  {
    steps := Padded(64);
    var s := Run(2, steps);
    RunSnoc(2, steps, Poll);
    steps := steps + [Poll];
    assert [] + s.bundle.channel[0..1] == [Frame(0, Failed)];
    EndingsSnoc([], Frame(0, Failed), 0);
    assert [] + [Frame(0, Failed)] == [Frame(0, Failed)];
  }

  // ---- the objects -----------------------------------------------------------------------------

  /** The slots as one caller alone would leave them; the machine above is what happens with many. */
  class BundleRuntime {
    var slots: seq<DistributionState>
    var terminalCount: int
    var channel: seq<Frame>

    ghost predicate Valid()
      reads this
    {
      terminalCount == TerminalSlots(slots)
    }

    constructor (n: nat)
      ensures Valid() && |slots| == n && channel == [] && terminalCount == 0
    {
      slots, terminalCount, channel := seq(n, i => Pending), 0, [];
      new;
      NoneTerminal(slots);
    }

    /** `apply_progress`: true exactly on the first terminal transition. */
    method ApplyProgress(i: nat, state: DistributionState) returns (first: bool)
      requires Valid()
      modifies this
      ensures Valid()
      ensures var accepted := i < |old(slots)| && !Terminal(old(slots)[i]);
              && slots == (if accepted then old(slots)[i := state] else old(slots))
              && channel == old(channel) + (if accepted then [Frame(i, state)] else [])
              && (first <==> accepted && Terminal(state))
              && terminalCount == old(terminalCount) + Bit(first)
    {
      if i >= |slots| || Terminal(slots[i]) {
        return false;
      }
      TerminalSlotsUpdate(slots, i, state);
      slots := slots[i := state];
      if Terminal(state) {
        terminalCount := terminalCount + 1;
      }
      channel := channel + [Frame(i, state)];
      return Terminal(state);
    }

    /** `apply_cancellation`: takes over a Failed slot without counting it again. */
    method ApplyCancellation(i: nat) returns (first: bool)
      requires Valid()
      modifies this
      ensures Valid()
      ensures var accepted := i < |old(slots)| && !old(slots)[i].Completed? && !old(slots)[i].Cancelled?;
              && slots == (if accepted then old(slots)[i := Cancelled] else old(slots))
              && channel == old(channel) + (if accepted then [Frame(i, Cancelled)] else [])
              && (first <==> accepted && !old(slots)[i].Failed?)
              && terminalCount == old(terminalCount) + Bit(first)
    {
      if i >= |slots| || slots[i].Completed? || slots[i].Cancelled? {
        return false;
      }
      TerminalSlotsUpdate(slots, i, Cancelled);
      first := !Terminal(slots[i]);
      slots := slots[i := Cancelled];
      if first {
        terminalCount := terminalCount + 1;
      }
      channel := channel + [Frame(i, Cancelled)];
    }

    /** `all_terminal`. */
    method AllTerminal() returns (all: bool)
      requires Valid()
      ensures all <==> forall i :: 0 <= i < |slots| ==> Terminal(slots[i])
    {
      TerminalSlotsBound(slots);
      all := terminalCount >= |slots|;
    }
  }

  /** Alone, a caller's three machine steps amount to one call of the method. */
  lemma Uninterrupted(b: Bundle, i: nat, state: DistributionState)
    ensures var (u, accepted) := (|b.updates|, i < |b.slots| && !Terminal(b.slots[i]));
            var b' := Send(Count(Apply(b, i, state), u), u);
            && (!accepted ==> b' == b)
            && (accepted ==>
                  && b'.slots == b.slots[i := state] && b'.channel == b.channel + [Frame(i, state)]
                  && b'.terminalCount == b.terminalCount + Bit(Terminal(state)) && b'.relabelled == b.relabelled
                  && b'.updates == b.updates + [Update(Frame(i, state), Sent)])
  {
  }

  lemma UninterruptedCancel(b: Bundle, i: nat)
    ensures var (u, accepted) := (|b.updates|, i < |b.slots| && !b.slots[i].Completed? && !b.slots[i].Cancelled?);
            var b' := Send(Count(Cancel(b, i), u), u);
            && (!accepted ==> b' == b)
            && (accepted ==>
                  && b'.slots == b.slots[i := Cancelled] && b'.channel == b.channel + [Frame(i, Cancelled)]
                  && b'.terminalCount == b.terminalCount + Bit(!b.slots[i].Failed?)
                  && b'.relabelled == b.relabelled + (if b.slots[i].Failed? then {i} else {})
                  && b'.updates == b.updates + [Update(Frame(i, Cancelled), Sent)])
  {
  }

  /** The snapshot loop of `subscribe_attachment_bundle`. */
  method SnapshotLoop(slots: seq<DistributionState>) returns (frames: seq<Frame>, seen: set<nat>)
    ensures frames == SnapshotFrames(slots)
    ensures seen == set i | 0 <= i < |slots| && Terminal(slots[i])
    ensures forall f :: f in frames <==> EndsAs(slots, f)
  {
    SnapshotExact(slots);
    frames, seen := [], {};
    for i := 0 to |slots|
      invariant frames == SnapshotFrames(slots[..i])
      invariant seen == set j | 0 <= j < i && Terminal(slots[j])
    {
      if Terminal(slots[i]) {
        seen := seen + {i};
        frames := frames + [Frame(i, slots[i])];
      }
      assert slots[..i + 1][..i] == slots[..i];
    }
    assert slots[..|slots|] == slots;
  }
}
