/** One ledger worker of `ledger.rs` over its journal file: callers test its health and queue a command, the worker
    executes queued commands without testing it again, appends may fail after any number of bytes, the process may stop
    at any moment, and opening writes a header or recovers the file. */
module Ledger {
  import opened Wrappers
  import opened Bytes
  import opened Codec
  import opened LedgerFile
  import opened JournalLog
  import opened TornJournal

  const COMMAND_CAPACITY: nat := 64

  datatype Command = Command(digest: Digest, state: RecordState)

  /** `torn` is history: an append of this process failed. */
  datatype Worker = Worker(
    index: Index, sequence: nat, records: nat, healthy: bool, queue: seq<Command>, torn: bool)

  /** History: `log` and `tail` are what the file holds, records and the bytes behind them, as long as nothing was
      appended after a failed append; `overrun` says that something was; `acked` are the digests a caller was told are
      recorded. */
  datatype Ledger = Ledger(
    disk: seq<byte>, worker: Option<Worker>, log: seq<Record>, tail: seq<byte>, overrun: bool, acked: set<Digest>)

  datatype Reply = Inserted | Suppressed | Failed

  datatype Step = Submit(command: Command) | Execute(io: Io) | Open(io: Io) | Stop

  function Start(): Ledger {
    Ledger([], None, [], [], false, {})
  }

  function Min(a: nat, b: nat): nat {
    if a < b then a else b
  }

  /** `Worker::record` up to `try_send`. The channel holds so many commands besides the one the worker has taken. */
  predicate Accepts(l: Ledger) {
    l.worker.Some? && l.worker.value.healthy && |l.worker.value.queue| <= COMMAND_CAPACITY
  }

  function Submitted(l: Ledger, command: Command): Ledger {
    if Accepts(l) then l.(worker := Some(l.worker.value.(queue := l.worker.value.queue + [command]))) else l
  }

  predicate Busy(l: Ledger) {
    l.worker.Some? && l.worker.value.queue != []
  }

  /** What `record_inner` decides about the command at the head of the queue. */
  function Decided(kind: JournalKind, l: Ledger): Decision
    requires Busy(l)
  {
    var w := l.worker.value;
    var d := Decide(kind, w.index, w.queue[0].digest, w.queue[0].state);
    if d == Append && w.sequence >= U64_MAX then Refuse(Capacity) else d
  }

  function Upcoming(l: Ledger): Record
    requires Busy(l) && l.worker.value.sequence < U64_MAX
  {
    var w := l.worker.value;
    Record(w.sequence + 1, w.queue[0].state, w.queue[0].digest)
  }

  function ReplyOf(kind: JournalKind, l: Ledger, io: Io): Reply
    requires Busy(l)
  {
    match Decided(kind, l)
    case Refuse(_) => Failed
    case Known => Suppressed
    case Append => if io.Durable? then Inserted else Failed
  }

  /** The append part of `record_inner`. */
  function Appended(hash: Hash, l: Ledger, io: Io): Ledger
    requires Busy(l) && l.worker.value.sequence < U64_MAX
  {
    var w := l.worker.value;
    var r := Upcoming(l);
    var bytes := EncodeRecord(hash, r);
    var after := w.(sequence := w.sequence + 1, queue := w.queue[1..]);
    if io.Durable? then
      Ledger(l.disk + bytes, Some(after.(index := w.index[r.digest := r.state], records := w.records + 1)),
             l.log + [r], [], l.overrun || w.torn, l.acked + {r.digest})
    else if io.written < RECORD_LEN then
      Ledger(l.disk + bytes[..io.written], Some(after.(healthy := false, torn := true)),
             l.log, bytes[..io.written], l.overrun || w.torn, l.acked)
    else
      Ledger(l.disk + bytes, Some(after.(healthy := false, torn := true)), l.log + [r], [],
             l.overrun || w.torn, l.acked)
  }

  /** The worker takes the command at the head of its queue. */
  function Executed(hash: Hash, kind: JournalKind, l: Ledger, io: Io): Ledger
    requires Busy(l)
  {
    var w := l.worker.value;
    match Decided(kind, l)
    case Refuse(_) => l.(worker := Some(w.(queue := w.queue[1..], healthy := false)))
    case Known => l.(worker := Some(w.(queue := w.queue[1..])), acked := l.acked + {w.queue[0].digest})
    case Append => Appended(hash, l, io)
  }

  function Running(r: Recovered): Worker {
    Worker(r.index, r.sequence, r.records, true, [], false)
  }

  /** `Journal::open`: the first header or the cut of a torn tail may fail. */
  function Opened(hash: Hash, kind: JournalKind, l: Ledger, io: Io): Ledger
    requires l.worker.None?
  {
    var found := OpenResult(hash, kind, l.disk);
    if l.disk == [] then
      if io.Durable? then l.(disk := Header(kind), worker := Some(Running(Recovered(0, 0, map[]))))
      else l.(disk := Header(kind)[..Min(io.written, HEADER_LEN)])
    else if found.Err? then l
    else if io.Durable? then
      l.(disk := RecoveredBytes(hash, kind, l.disk), tail := [], worker := Some(Running(found.value)))
    else if io.written == 0 then l
    else l.(disk := RecoveredBytes(hash, kind, l.disk), tail := [])
  }

  function Stopped(l: Ledger): Ledger {
    l.(worker := None)
  }

  function Next(hash: Hash, kind: JournalKind, l: Ledger, step: Step): Ledger {
    match step
    case Submit(command) => Submitted(l, command)
    case Execute(io) => if Busy(l) then Executed(hash, kind, l, io) else l
    case Open(io) => if l.worker.None? then Opened(hash, kind, l, io) else l
    case Stop => Stopped(l)
  }

  function Run(hash: Hash, kind: JournalKind, steps: seq<Step>): Ledger {
    if steps == [] then Start() else Next(hash, kind, Run(hash, kind, steps[..|steps| - 1]), steps[|steps| - 1])
  }

  // ---- compaction is never reached, whatever fails ------------------------------------

  /** Each indexed digest costs a record, and a completed one at most another. */
  ghost predicate Bounded(w: Worker) {
    && w.records <= |w.index| + |CompletedKeys(w.index)|
    && |w.index| <= MAX_UNIQUE_ENTRIES
  }

  /** `record_inner` never calls `compact`: an accepted record finds fewer than the limit. */
  lemma RoomForRecord(kind: JournalKind, w: Worker, d: Digest, state: RecordState)
    requires Bounded(w) && Decide(kind, w.index, d, state) == Append
    ensures w.records < MAX_RECORDS
  {
    var done := CompletedKeys(w.index);
    assert |w.index.Keys| == |w.index|;
    SubsetSize(done, w.index.Keys);
    if d in w.index {
      SubsetSize(done, w.index.Keys - {d});
    }
  }

  lemma OpenedBounded(hash: Hash, kind: JournalKind, disk: seq<byte>)
    requires OpenResult(hash, kind, disk).Ok?
    ensures Bounded(Running(OpenResult(hash, kind, disk).value))
  {
    var file := if disk == [] then Header(kind) else disk;
    var log, tail := HeldIfRecovered(hash, kind, file);
    RecoverHeld(hash, kind, file, log, tail);
    RecordsBounded(kind, log);
  }

  lemma ExecutedBounded(hash: Hash, kind: JournalKind, l: Ledger, io: Io)
    requires Busy(l) && Bounded(l.worker.value)
    ensures Executed(hash, kind, l, io).worker.Some? && Bounded(Executed(hash, kind, l, io).worker.value)
  {
    var w := l.worker.value;
    if Decided(kind, l) == Append {
      KeysGrow(w.index, w.queue[0].digest, w.queue[0].state);
      CompletedGrow(w.index, w.queue[0].digest, w.queue[0].state);
    }
  }

  lemma EmptyBounded()
    ensures Bounded(Running(Recovered(0, 0, map[])))
  {
    assert CompletedKeys(map[]) == {};
  }

  /** In every run, with failures anywhere, an accepted record finds the journal below its record limit: the call of
      `compact` is never reached. */
  lemma {:induction false} NeverCompacts(hash: Hash, kind: JournalKind, steps: seq<Step>)
    ensures var l := Run(hash, kind, steps);
            && (l.worker.Some? ==> Bounded(l.worker.value))
            && (Busy(l) && Decided(kind, l) == Append ==> l.worker.value.records < MAX_RECORDS)
  {
    if steps != [] {
      var l, step := Run(hash, kind, steps[..|steps| - 1]), steps[|steps| - 1];
      NeverCompacts(hash, kind, steps[..|steps| - 1]);
      BoundedStep(hash, kind, l, step);
      var l' := Run(hash, kind, steps);
      if Busy(l') && Decided(kind, l') == Append {
        RoomForRecord(kind, l'.worker.value, l'.worker.value.queue[0].digest, l'.worker.value.queue[0].state);
      }
    }
  }

  lemma BoundedStep(hash: Hash, kind: JournalKind, l: Ledger, step: Step)
    requires l.worker.Some? ==> Bounded(l.worker.value)
    ensures var l' := Next(hash, kind, l, step); l'.worker.Some? ==> Bounded(l'.worker.value)
  {
    match step {
      case Submit(command) =>
      case Execute(io) => if Busy(l) { ExecutedBounded(hash, kind, l, io); }
      case Open(io) =>
        EmptyBounded();
        if OpenResult(hash, kind, l.disk).Ok? { OpenedBounded(hash, kind, l.disk); }
      case Stop =>
    }
  }

  // ---- what a command is answered, whatever failed before -------------------------------------

  ghost predicate Permitted(kind: JournalKind, l: Ledger) {
    l.worker.Some? ==> forall d :: d in l.worker.value.index ==> Permits(kind, l.worker.value.index[d])
  }

  lemma {:induction false} OpenedPermitted(hash: Hash, kind: JournalKind, disk: seq<byte>)
    requires OpenResult(hash, kind, disk).Ok?
    ensures var index := OpenResult(hash, kind, disk).value.index; forall d :: d in index ==> Permits(kind, index[d])
  {
    var file := if disk == [] then Header(kind) else disk;
    var log, tail := HeldIfRecovered(hash, kind, file);
    RecoverHeld(hash, kind, file, log, tail);
    LivePermits(kind, log);
  }

  lemma {:induction false} RunPermitted(hash: Hash, kind: JournalKind, steps: seq<Step>)
    ensures Permitted(kind, Run(hash, kind, steps))
  {
    if steps != [] {
      var l, step := Run(hash, kind, steps[..|steps| - 1]), steps[|steps| - 1];
      RunPermitted(hash, kind, steps[..|steps| - 1]);
      NextPermitted(hash, kind, l, step);
    }
  }

  lemma NextPermitted(hash: Hash, kind: JournalKind, l: Ledger, step: Step)
    requires Permitted(kind, l)
    ensures Permitted(kind, Next(hash, kind, l, step))
  {
    match step {
      case Execute(io) => if Busy(l) { ExecutedPermitted(hash, kind, l, io); }
      case Open(io) => if OpenResult(hash, kind, l.disk).Ok? { OpenedPermitted(hash, kind, l.disk); }
      case _ =>
    }
  }

  lemma ExecutedPermitted(hash: Hash, kind: JournalKind, l: Ledger, io: Io)
    requires Permitted(kind, l) && Busy(l)
    ensures Permitted(kind, Executed(hash, kind, l, io))
  {
  }

  /** In every run: a command of the journal's own states is suppressed exactly if its digest is covered, and then
      neither the file nor the worker's health changes; it is refused only when the index is full, the sequence numbers
      are used up, or the write fails. */
  lemma {:induction false} AnswerExact(hash: Hash, kind: JournalKind, steps: seq<Step>, io: Io)
    requires Busy(Run(hash, kind, steps)) && Belongs(kind, Run(hash, kind, steps).worker.value.queue[0].state)
    ensures var l := Run(hash, kind, steps);
            var (w, c, l') := (l.worker.value, l.worker.value.queue[0], Executed(hash, kind, l, io));
            var full := c.digest !in w.index && |w.index| >= MAX_UNIQUE_ENTRIES;
            var covered := Covers(w.index, c.digest, c.state);
            && (ReplyOf(kind, l, io) == Suppressed <==> covered)
            && (ReplyOf(kind, l, io) == Inserted <==> !covered && !full && w.sequence < U64_MAX && io == Durable)
            && (covered ==> l'.disk == l.disk && l'.worker == Some(w.(queue := w.queue[1..])))
            && (ReplyOf(kind, l, io) == Failed ==> l'.worker.Some? && !l'.worker.value.healthy)
  {
    RunPermitted(hash, kind, steps);
    var w := Run(hash, kind, steps).worker.value;
    DecideExact(kind, w.index, w.queue[0].digest, w.queue[0].state);
  }

  // ---- what every step keeps while no append follows a failed one --------------------------

  ghost predicate History(kind: JournalKind, log: seq<Record>) {
    Live(kind, log) && ReserveFirst(log) && |log| <= MAX_RECORDS
  }

  /** A header cut short, or the history with less than one record behind it. */
  ghost predicate FileHolds(hash: Hash, kind: JournalKind, disk: seq<byte>, log: seq<Record>, tail: seq<byte>) {
    if |disk| < HEADER_LEN then log == [] && tail == []
    else disk == Image(hash, kind, log) + tail && |tail| < RECORD_LEN && |disk| <= MAX_FILE_BYTES
  }

  ghost predicate InStep(l: Ledger, w: Worker) {
    && |l.disk| >= HEADER_LEN
    && (if w.torn then !w.healthy && w.index.Keys <= IndexOf(l.log).Keys
        else l.tail == [] && w.index == IndexOf(l.log) && w.sequence == |l.log|)
  }

  ghost predicate Reserving(queue: seq<Command>, log: seq<Record>) {
    forall k :: 0 <= k < |queue| && queue[k].state == Completed ==> queue[k].digest in IndexOf(log)
  }

  /** File, history and index are in step; a completion without its reservation is not excluded. */
  ghost predicate Intact(hash: Hash, kind: JournalKind, l: Ledger) {
    && Live(kind, l.log)
    && FileHolds(hash, kind, l.disk, l.log, l.tail)
    && (l.worker.Some? ==> InStep(l, l.worker.value))
  }

  ghost predicate Sound(hash: Hash, kind: JournalKind, l: Ledger) {
    && Intact(hash, kind, l)
    && History(kind, l.log)
    && (l.worker.Some? ==> Reserving(l.worker.value.queue, l.log))
  }

  lemma {:induction false} AppendHistory(hash: Hash, kind: JournalKind, log: seq<Record>, r: Record)
    requires History(kind, log) && r.sequence == |log| + 1 && Decide(kind, IndexOf(log), r.digest, r.state) == Append
    requires r.state == Completed ==> r.digest in IndexOf(log)
    ensures History(kind, log + [r]) && IndexOf(log + [r]) == IndexOf(log)[r.digest := r.state]
  {
    LiveExtends(kind, log, r);
    LogFits(kind, log + [r]);
  }

  lemma {:induction false} AppendFile(hash: Hash, kind: JournalKind, disk: seq<byte>, log: seq<Record>, r: Record)
    requires FileHolds(hash, kind, disk, log, []) && |disk| >= HEADER_LEN && Live(kind, log)
    requires Decide(kind, IndexOf(log), r.digest, r.state) == Append
    ensures FileHolds(hash, kind, disk + EncodeRecord(hash, r), log + [r], [])
    ensures forall n :: 0 <= n < RECORD_LEN ==>
              FileHolds(hash, kind, disk + EncodeRecord(hash, r)[..n], log, EncodeRecord(hash, r)[..n])
  {
    var image := Image(hash, kind, log);
    assert image + [] == image;
    CompactionUnreachable(kind, log, r.digest, r.state);
    ImageExtends(hash, kind, log, r);
    assert image + EncodeRecord(hash, r) + [] == image + EncodeRecord(hash, r);
  }

  lemma {:induction false} ReservingRest(queue: seq<Command>, log: seq<Record>, log': seq<Record>)
    requires queue != [] && Reserving(queue, log) && IndexOf(log).Keys <= IndexOf(log').Keys
    ensures Reserving(queue[1..], log')
  {
    forall k | 0 <= k < |queue[1..]| && queue[1..][k].state == Completed ensures queue[1..][k].digest in IndexOf(log') {
      assert queue[1..][k] == queue[k + 1];
      assert queue[k + 1].digest in IndexOf(log).Keys;
    }
  }

  lemma {:induction false} AppendedFile(hash: Hash, kind: JournalKind, l: Ledger, io: Io)
    requires FileHolds(hash, kind, l.disk, l.log, []) && |l.disk| >= HEADER_LEN && Live(kind, l.log)
    requires Busy(l) && l.worker.value.sequence < U64_MAX
    requires Decide(kind, IndexOf(l.log), Upcoming(l).digest, Upcoming(l).state) == Append
    ensures var l' := Appended(hash, l, io); FileHolds(hash, kind, l'.disk, l'.log, l'.tail)
  {
    AppendFile(hash, kind, l.disk, l.log, Upcoming(l));
  }

  lemma AppendedHistory(hash: Hash, kind: JournalKind, l: Ledger, io: Io)
    requires History(kind, l.log) && Busy(l) && l.worker.value.sequence == |l.log| < U64_MAX
    requires Decide(kind, IndexOf(l.log), Upcoming(l).digest, Upcoming(l).state) == Append
    requires Upcoming(l).state == Completed ==> Upcoming(l).digest in IndexOf(l.log)
    ensures History(kind, Appended(hash, l, io).log)
    ensures IndexOf(l.log + [Upcoming(l)]) == IndexOf(l.log)[Upcoming(l).digest := Upcoming(l).state]
    ensures IndexOf(l.log).Keys <= IndexOf(Appended(hash, l, io).log).Keys
  {
    AppendHistory(hash, kind, l.log, Upcoming(l));
  }

  lemma {:induction false} AppendedLive(hash: Hash, kind: JournalKind, l: Ledger, io: Io)
    requires Live(kind, l.log) && Busy(l) && l.worker.value.sequence == |l.log| < U64_MAX
    requires Decide(kind, IndexOf(l.log), Upcoming(l).digest, Upcoming(l).state) == Append
    ensures Live(kind, Appended(hash, l, io).log)
    ensures IndexOf(l.log + [Upcoming(l)]) == IndexOf(l.log)[Upcoming(l).digest := Upcoming(l).state]
  {
    LiveExtends(kind, l.log, Upcoming(l));
  }

  lemma AppendedInStep(hash: Hash, kind: JournalKind, l: Ledger, io: Io)
    requires Busy(l) && l.worker.value.sequence < U64_MAX && InStep(l, l.worker.value) && !l.worker.value.torn
    requires IndexOf(l.log + [Upcoming(l)]) == IndexOf(l.log)[Upcoming(l).digest := Upcoming(l).state]
    ensures var l' := Appended(hash, l, io); l'.worker.Some? && InStep(l', l'.worker.value)
  {
  }

  lemma AppendedIntact(hash: Hash, kind: JournalKind, l: Ledger, io: Io)
    requires Intact(hash, kind, l) && Busy(l) && Decided(kind, l) == Append && !l.worker.value.torn
    ensures Intact(hash, kind, Appended(hash, l, io))
    ensures IndexOf(l.log + [Upcoming(l)]) == IndexOf(l.log)[Upcoming(l).digest := Upcoming(l).state]
  {
    AppendedLive(hash, kind, l, io);
    AppendedFile(hash, kind, l, io);
    AppendedInStep(hash, kind, l, io);
  }

  lemma AppendedSound(hash: Hash, kind: JournalKind, l: Ledger, io: Io)
    requires Sound(hash, kind, l) && Busy(l) && Decided(kind, l) == Append && !l.worker.value.torn
    ensures Sound(hash, kind, Appended(hash, l, io))
    ensures IndexOf(l.log + [Upcoming(l)]) == IndexOf(l.log)[Upcoming(l).digest := Upcoming(l).state]
  {
    var l' := Appended(hash, l, io);
    AppendedHistory(hash, kind, l, io);
    AppendedIntact(hash, kind, l, io);
    ReservingRest(l.worker.value.queue, l.log, l'.log);
  }

  lemma ExecutedIntact(hash: Hash, kind: JournalKind, l: Ledger, io: Io)
    requires Intact(hash, kind, l) && Busy(l) && !Executed(hash, kind, l, io).overrun
    ensures Intact(hash, kind, Executed(hash, kind, l, io))
  {
    var w := l.worker.value;
    match Decided(kind, l) {
      case Refuse(_) => QuietIntact(hash, kind, l, w.(queue := w.queue[1..], healthy := false), l.acked);
      case Known => QuietIntact(hash, kind, l, w.(queue := w.queue[1..]), l.acked + {w.queue[0].digest});
      case Append => AppendedIntact(hash, kind, l, io);
    }
  }

  lemma QuietIntact(hash: Hash, kind: JournalKind, l: Ledger, w: Worker, acked: set<Digest>)
    requires Intact(hash, kind, l) && l.worker.Some?
    requires var was := l.worker.value;
             w.index == was.index && w.sequence == was.sequence && w.torn == was.torn && (w.healthy ==> was.healthy)
    ensures Intact(hash, kind, l.(worker := Some(w), acked := acked))
  {
  }

  lemma ExecutedSound(hash: Hash, kind: JournalKind, l: Ledger, io: Io)
    requires Sound(hash, kind, l) && Busy(l) && !Executed(hash, kind, l, io).overrun
    ensures Sound(hash, kind, Executed(hash, kind, l, io))
  {
    if Decided(kind, l) == Append {
      AppendedSound(hash, kind, l, io);
      assert Executed(hash, kind, l, io) == Appended(hash, l, io);
    } else {
      ExecutedIntact(hash, kind, l, io);
      ReservingRest(l.worker.value.queue, l.log, l.log);
    }
  }

  /** The history grows by at most the record at hand, and by it when the caller is told so. */
  lemma ExecutedGrows(hash: Hash, kind: JournalKind, l: Ledger, io: Io)
    requires Intact(hash, kind, l) && Busy(l) && !Executed(hash, kind, l, io).overrun
    ensures var (was, now, c) := (IndexOf(l.log), IndexOf(Executed(hash, kind, l, io).log), l.worker.value.queue[0]);
            && (now == was || (Decided(kind, l) == Append && now == was[c.digest := c.state]))
            && (ReplyOf(kind, l, io) == Inserted ==> Decided(kind, l) == Append && now == was[c.digest := c.state])
  {
    if Decided(kind, l) == Append {
      AppendedLive(hash, kind, l, io);
      assert Executed(hash, kind, l, io) == Appended(hash, l, io);
    }
  }

  lemma {:induction false} HeldByFile(hash: Hash, kind: JournalKind, disk: seq<byte>, log: seq<Record>, tail: seq<byte>)
    requires History(kind, log) && FileHolds(hash, kind, disk, log, tail) && |disk| >= HEADER_LEN
    ensures OpenResult(hash, kind, disk) == Ok(Recovered(|log|, |log|, IndexOf(log)))
    ensures RecoveredBytes(hash, kind, disk) == Image(hash, kind, log)
  {
    RecoverHeld(hash, kind, disk, log, tail);
  }

  lemma FreshFile(hash: Hash, kind: JournalKind)
    ensures FileHolds(hash, kind, Header(kind), [], [])
  {
    assert Image(hash, kind, []) + [] == Header(kind);
  }

  lemma ImageAlone(hash: Hash, kind: JournalKind, log: seq<Record>)
    requires History(kind, log)
    ensures FileHolds(hash, kind, Image(hash, kind, log), log, [])
  {
    assert Image(hash, kind, log) + [] == Image(hash, kind, log);
  }

  /** Reopening reads exactly the history, unless the process stopped inside the very first header write: then the
      file is refused, and nothing had been recorded. */
  lemma ReopensIffHeader(hash: Hash, kind: JournalKind, l: Ledger)
    requires Sound(hash, kind, l)
    ensures var found := OpenResult(hash, kind, l.disk);
            && (found.Ok? <==> !(0 < |l.disk| < HEADER_LEN))
            && (found.Ok? ==> found.value == Recovered(|l.log|, |l.log|, IndexOf(l.log)))
            && (found.Err? ==> l.log == [] && l.worker.None?)
  {
    if |l.disk| >= HEADER_LEN {
      HeldByFile(hash, kind, l.disk, l.log, l.tail);
    } else {
      FreshFile(hash, kind);
      HeldByFile(hash, kind, Header(kind), [], []);
    }
  }

  lemma OpenedSound(hash: Hash, kind: JournalKind, l: Ledger, io: Io)
    requires Sound(hash, kind, l) && l.worker.None?
    ensures Sound(hash, kind, Opened(hash, kind, l, io))
    ensures Opened(hash, kind, l, io).worker.Some? ==> Opened(hash, kind, l, io).worker.value.index == IndexOf(l.log)
  {
    if |l.disk| >= HEADER_LEN {
      HeldByFile(hash, kind, l.disk, l.log, l.tail);
      ImageAlone(hash, kind, l.log);
    } else {
      ReopensIffHeader(hash, kind, l);
      FreshFile(hash, kind);
      assert Header(kind)[..HEADER_LEN] == Header(kind);
    }
  }

  /** A new file whose first open fails can be opened again if and only if none or all of its header was written. */
  lemma FirstOpenFails(hash: Hash, kind: JournalKind, l: Ledger, written: nat)
    requires Sound(hash, kind, l) && l.worker.None? && l.disk == []
    ensures var l' := Opened(hash, kind, l, FailedAfter(written));
            l'.worker.None? && (Opened(hash, kind, l', Durable).worker.Some? <==> !(0 < written < HEADER_LEN))
  {
    var l' := Opened(hash, kind, l, FailedAfter(written));
    OpenedSound(hash, kind, l, FailedAfter(written));
    ReopensIffHeader(hash, kind, l');
  }

  /** What the callers of a ledger owe it: a completion is only asked for after its reservation. */
  ghost predicate Proper(l: Ledger, step: Step) {
    step.Submit? && step.command.state == Completed ==> step.command.digest in IndexOf(l.log)
  }

  lemma SubmittedSound(hash: Hash, kind: JournalKind, l: Ledger, command: Command)
    requires Sound(hash, kind, l) && (command.state == Completed ==> command.digest in IndexOf(l.log))
    ensures Sound(hash, kind, Submitted(l, command))
  {
  }

  lemma OpenedKeepsLog(hash: Hash, kind: JournalKind, l: Ledger, io: Io)
    requires l.worker.None?
    ensures var l' := Opened(hash, kind, l, io);
            l'.log == l.log && l'.overrun == l.overrun && (l'.worker.Some? ==> l'.worker.value.queue == [])
  {
  }

  lemma ExecutedPops(hash: Hash, kind: JournalKind, l: Ledger, io: Io)
    requires Busy(l)
    ensures var l' := Executed(hash, kind, l, io);
            l'.worker.Some? && l'.worker.value.queue == l.worker.value.queue[1..]
  {
  }

  lemma NextSound(hash: Hash, kind: JournalKind, l: Ledger, step: Step)
    requires Sound(hash, kind, l) && Proper(l, step) && !Next(hash, kind, l, step).overrun
    ensures Sound(hash, kind, Next(hash, kind, l, step))
  {
    match step {
      case Submit(command) =>
      case Execute(io) => if Busy(l) { ExecutedSound(hash, kind, l, io); }
      case Open(io) => if l.worker.None? { OpenedSound(hash, kind, l, io); }
      case Stop =>
    }
  }

  lemma OpenedIntact(hash: Hash, kind: JournalKind, l: Ledger, io: Io)
    requires Intact(hash, kind, l) && l.worker.None?
    ensures Intact(hash, kind, Opened(hash, kind, l, io))
  {
    LogFits(kind, l.log);
    if ReserveFirst(l.log) {
      OpenedSound(hash, kind, l, io);
    } else {
      RefusedByOrder(hash, kind, l.disk, l.log, l.tail);
    }
  }

  /** A file with a completion before its reservation is refused. */
  lemma {:induction false} RefusedByOrder(hash: Hash, kind: JournalKind, disk: seq<byte>, log: seq<Record>,
                                          tail: seq<byte>)
    requires Live(kind, log) && !ReserveFirst(log) && FileHolds(hash, kind, disk, log, tail)
    ensures |disk| >= HEADER_LEN && OpenResult(hash, kind, disk).Err?
  {
    LogFits(kind, log);
    SplitFile(hash, kind, disk, log, tail);
    ReplayOfLog(hash, kind, disk[HEADER_LEN..], log);
  }

  lemma NextIntact(hash: Hash, kind: JournalKind, l: Ledger, step: Step)
    requires Intact(hash, kind, l) && !Next(hash, kind, l, step).overrun
    ensures Intact(hash, kind, Next(hash, kind, l, step))
  {
    match step {
      case Submit(command) =>
      case Execute(io) => if Busy(l) { ExecutedIntact(hash, kind, l, io); }
      case Open(io) => if l.worker.None? { OpenedIntact(hash, kind, l, io); }
      case Stop =>
    }
  }

  /** While no append follows a failed one, whatever a caller was told is recorded stays recorded. */
  ghost predicate Remembers(l: Ledger) {
    l.acked <= IndexOf(l.log).Keys
  }

  lemma ExecutedRemembers(hash: Hash, kind: JournalKind, l: Ledger, io: Io)
    requires Intact(hash, kind, l) && Remembers(l) && Busy(l) && !Executed(hash, kind, l, io).overrun
    ensures Remembers(Executed(hash, kind, l, io))
  {
    ExecutedGrows(hash, kind, l, io);
    if Decided(kind, l) == Known {
      assert l.worker.value.queue[0].digest in l.worker.value.index.Keys;
    }
  }

  lemma NextRemembers(hash: Hash, kind: JournalKind, l: Ledger, step: Step)
    requires Intact(hash, kind, l) && Remembers(l) && !Next(hash, kind, l, step).overrun
    ensures Remembers(Next(hash, kind, l, step))
  {
    if step.Execute? && Busy(l) {
      ExecutedRemembers(hash, kind, l, step.io);
    }
  }

  /** So a worker whose process never appended after a failed append knows everything it acknowledged. */
  lemma {:induction false} NeverForgets(hash: Hash, kind: JournalKind, steps: seq<Step>)
    requires !Run(hash, kind, steps).overrun
    ensures Intact(hash, kind, Run(hash, kind, steps)) && Remembers(Run(hash, kind, steps))
    ensures forall d :: !Forgot(Run(hash, kind, steps), d)
  {
    if steps != [] {
      var init, last := steps[..|steps| - 1], steps[|steps| - 1];
      var l := Run(hash, kind, init);
      OverrunStays(hash, kind, l, last);
      NeverForgets(hash, kind, init);
      NextIntact(hash, kind, l, last);
      NextRemembers(hash, kind, l, last);
    }
  }

  lemma OverrunStays(hash: Hash, kind: JournalKind, l: Ledger, step: Step)
    ensures l.overrun ==> Next(hash, kind, l, step).overrun
  {
  }

  /** A caller was told this digest is recorded, and the running worker does not know it. */
  predicate Forgot(l: Ledger, d: Digest) {
    l.worker.Some? && l.worker.value.healthy && d in l.acked && d !in l.worker.value.index
  }

  // ---- forgetting -------------------------------------------------------------------------------

  function PairQueued(state: RecordState, d1: Digest, d2: Digest): seq<Step> {
    [Open(Durable)] + [Submit(Command(d1, state))] + [Submit(Command(d2, state))]
  }

  function PairTorn(state: RecordState, d1: Digest, d2: Digest, written: nat): seq<Step> {
    PairQueued(state, d1, d2) + [Execute(FailedAfter(written))] + [Execute(Durable)]
  }

  /** Two records queued together; the append of the first fails after `written` bytes, the second succeeds, and the
      process restarts. */
  function TwoRecords(state: RecordState, d1: Digest, d2: Digest, written: nat): seq<Step> {
    PairTorn(state, d1, d2, written) + [Stop] + [Open(Durable)]
  }

  lemma {:induction false} RunSnoc(hash: Hash, kind: JournalKind, steps: seq<Step>, step: Step)
    ensures Run(hash, kind, steps + [step]) == Next(hash, kind, Run(hash, kind, steps), step)
  {
    assert (steps + [step])[..|steps|] == steps;
  }

  lemma {:induction false} FirstOpen(hash: Hash, kind: JournalKind)
    ensures Run(hash, kind, [Open(Durable)]) ==
            Ledger(Header(kind), Some(Worker(map[], 0, 0, true, [], false)), [], [], false, {})
  {
    assert [] + [Open(Durable)] == [Open(Durable)];
    RunSnoc(hash, kind, [], Open(Durable));
  }

  lemma {:induction false} PairQueuedWorker(hash: Hash, kind: JournalKind, state: RecordState, d1: Digest, d2: Digest)
    ensures var l := Run(hash, kind, PairQueued(state, d1, d2));
            && l.disk == Header(kind) && l.acked == {}
            && l.worker == Some(Worker(map[], 0, 0, true, [Command(d1, state), Command(d2, state)], false))
  {
    FirstOpen(hash, kind);
    RunSnoc(hash, kind, [Open(Durable)], Submit(Command(d1, state)));
    RunSnoc(hash, kind, [Open(Durable)] + [Submit(Command(d1, state))], Submit(Command(d2, state)));
    assert [] + [Command(d1, state)] + [Command(d2, state)] == [Command(d1, state), Command(d2, state)];
  }

  lemma {:induction false} TwoRecordsFile(hash: Hash, kind: JournalKind, state: RecordState, d1: Digest, d2: Digest,
                                          written: nat)
    requires Permits(kind, state) && d1 != d2 && written <= RECORD_LEN
    ensures var l := Run(hash, kind, PairTorn(state, d1, d2, written) + [Stop]);
            && l.worker.None? && l.acked == {d2}
            && l.disk == TornFile(hash, kind, [], Record(1, state, d1), Record(2, state, d2), written)
  {
    var pair := PairQueued(state, d1, d2);
    PairQueuedWorker(hash, kind, state, d1, d2);
    RunSnoc(hash, kind, pair, Execute(FailedAfter(written)));
    RunSnoc(hash, kind, pair + [Execute(FailedAfter(written))], Execute(Durable));
    TwoRecordsTail(hash, kind, state, d1, d2, written, Run(hash, kind, pair));
    RunSnoc(hash, kind, PairTorn(state, d1, d2, written), Stop);
  }

  lemma TwoRecordsTail(hash: Hash, kind: JournalKind, state: RecordState, d1: Digest, d2: Digest, written: nat,
                       l: Ledger)
    requires Permits(kind, state) && d1 != d2 && written <= RECORD_LEN && l.acked == {} && l.disk == Header(kind)
    requires l.worker == Some(Worker(map[], 0, 0, true, [Command(d1, state), Command(d2, state)], false))
    ensures var l1 := Next(hash, kind, l, Execute(FailedAfter(written)));
            var l2 := Next(hash, kind, l1, Execute(Durable));
            && l2.acked == {d2}
            && l2.disk == TornFile(hash, kind, [], Record(1, state, d1), Record(2, state, d2), written)
  {
    var l1 := Next(hash, kind, l, Execute(FailedAfter(written)));
    var r1, r2 := Record(1, state, d1), Record(2, state, d2);
    assert EncodeRecord(hash, r1)[..RECORD_LEN] == EncodeRecord(hash, r1);
    assert Header(kind) == Image(hash, kind, []);
    assert l1.disk == Image(hash, kind, []) + EncodeRecord(hash, r1)[..written];
    assert l1.worker.value.queue == [Command(d2, state)] && l1.worker.value.sequence == 1;
    assert l1.worker.value.index == map[];
  }

  lemma Reopened(hash: Hash, kind: JournalKind, l: Ledger)
    requires l.worker.None? && HEADER_LEN <= |l.disk| <= MAX_FILE_BYTES
    ensures var found := RecoverResult(hash, kind, l.disk);
            var l' := Next(hash, kind, l, Open(Durable));
            && l'.acked == l.acked
            && (l'.worker.Some? <==> found.Ok?)
            && (found.Ok? ==> l'.worker == Some(Running(found.value)))
  {
  }

  lemma PartialForgets(hash: Hash, kind: JournalKind, state: RecordState, d1: Digest, d2: Digest, written: nat)
    requires written < RECORD_LEN
    ensures var file := TornFile(hash, kind, [], Record(1, state, d1), Record(2, state, d2), written);
            var found := RecoverResult(hash, kind, file);
            found.Ok? && d2 !in found.value.index <==>
            ReadsWithout(hash, kind, MergedPair(hash, state, d1, d2, written), d2)
    ensures var file := TornFile(hash, kind, [], Record(1, state, d1), Record(2, state, d2), written);
            var found := RecoverResult(hash, kind, file);
            found.Ok? ==> found.value.sequence == 1 && |found.value.index| == 1
  {
    assert IndexOf([]) == map[] && Live(kind, []) && ReserveFirst([]);
    NextAfterPartial(hash, kind, [], Record(1, state, d1), Record(2, state, d2), written);
  }

  lemma WholeRemembers(hash: Hash, kind: JournalKind, state: RecordState, d1: Digest, d2: Digest)
    requires Permits(kind, state) && state != Completed && d1 != d2
    ensures var file := TornFile(hash, kind, [], Record(1, state, d1), Record(2, state, d2), RECORD_LEN);
            var found := RecoverResult(hash, kind, file);
            found.Ok? ==> d2 in found.value.index
  {
    assert IndexOf([]) == map[] && Live(kind, []) && ReserveFirst([]);
    NextAfterWhole(hash, kind, [], Record(1, state, d1), Record(2, state, d2));
  }

  /** The acknowledged second record is forgotten exactly when the first was cut off before its last byte and the
      bytes of the two merge into an acceptable record of another digest. */
  lemma {:induction false} TwoRecordsForgetIff(hash: Hash, kind: JournalKind, state: RecordState, d1: Digest,
                                               d2: Digest, written: nat)
    requires Permits(kind, state) && state != Completed && d1 != d2 && written <= RECORD_LEN
    ensures Forgot(Run(hash, kind, TwoRecords(state, d1, d2, written)), d2) <==>
            written < RECORD_LEN
            && ReadsWithout(hash, kind, MergedPair(hash, state, d1, d2, written), d2)
    ensures var l := Run(hash, kind, TwoRecords(state, d1, d2, written));
            && l.acked == {d2}
            && (l.worker.Some? ==> l.worker.value.healthy)
            && (Forgot(l, d2) ==> l.worker.value.sequence == |l.worker.value.index| == 1 && l.worker.value.queue == [])
  {
    var steps := PairTorn(state, d1, d2, written) + [Stop];
    TwoRecordsFile(hash, kind, state, d1, d2, written);
    RunSnoc(hash, kind, steps, Open(Durable));
    Reopened(hash, kind, Run(hash, kind, steps));
    if written < RECORD_LEN {
      PartialForgets(hash, kind, state, d1, d2, written);
    } else {
      WholeRemembers(hash, kind, state, d1, d2);
    }
  }

  /** Recovery accepts these bytes as the first record of a journal, and it is not this digest's. */
  predicate ReadsWithout(hash: Hash, kind: JournalKind, chunk: seq<byte>, d: Digest) {
    var read := ReplayChunk(hash, kind, chunk, 1, map[]);
    read.Ok? && d !in read.value
  }

  function MergedPair(hash: Hash, state: RecordState, d1: Digest, d2: Digest, written: nat): seq<byte>
    requires written < RECORD_LEN
  {
    Merged(EncodeRecord(hash, Record(1, state, d1))[..written], EncodeRecord(hash, Record(2, state, d2)))
  }
}
