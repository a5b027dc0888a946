/** The delivery protocol of one node: `DeliveryCoordinator::deliver` called by the live event router and by
    reconciliation, the ledger worker with its command queue, the bounded egress queue, `run_egress_worker`, crashes and
    restarts. Every interleaving of these is a sequence of steps of this machine. */
module Delivery {
  import opened Wrappers
  import opened Bytes
  import opened Codec
  import opened LedgerFile
  import opened JournalLog
  import opened TornJournal
  import opened Egress
  import L = Ledger

  const EGRESS_QUEUE_CAPACITY: nat := 256

  /** A classified item together with the event it came from. */
  datatype Job = Job(item: EgressItem, event: Event)

  /** Who waits for the answer to a ledger command. */
  datatype Caller = Deliverer(job: Job) | Completer

  datatype Worker = Idle | Taken(job: Job) | Published(job: Job) | Flushed(job: Job) | Completing(job: Job)

  /** `callers` wait for the ledger's queued commands, in order; `reserved` were told to go on and have not reached
      `try_send` yet. `publishes` and `flushed` are history: every call of `publish` since the data directory was
      created, and the digests whose publish and flush both succeeded. */
  datatype Node = Node(
    ledger: L.Ledger, callers: seq<Caller>, reserved: seq<Job>, queue: seq<Job>, worker: Worker,
    publishes: seq<Job>, flushed: set<Digest>)

  datatype Step =
    | Deliver(event: Event)
    | Execute(io: Io)
    | Enqueue(caller: nat, open: bool)
    | Take
    | Publish(ok: bool)
    | Flush(ok: bool)
    | Complete
    | Crash
    | Open(io: Io)

  function Start(): Node {
    Node(L.Start(), [], [], [], Idle, [], {})
  }

  /** `Worker::record` up to the queue; a caller that is refused gives up. */
  function Sent(s: Node, command: L.Command, caller: Caller): Node {
    if L.Accepts(s.ledger) then s.(ledger := L.Submitted(s.ledger, command), callers := s.callers + [caller]) else s
  }

  /** `deliver` up to the ledger. */
  function Delivered(c: Config, s: Node, event: Event): Node {
    var classified := Classify(c, event);
    if classified.Skipped? then s
    else Sent(s, L.Command(classified.item.digest, Reserved), Deliverer(Job(classified.item, event)))
  }

  /** The ledger worker executes one command and answers its caller. */
  function Answered(c: Config, s: Node, io: Io): Node
    requires L.Busy(s.ledger) && s.callers != []
  {
    var reply := L.ReplyOf(LedgerFile.Delivery, s.ledger, io);
    var s' := s.(ledger := L.Executed(c.hash, LedgerFile.Delivery, s.ledger, io), callers := s.callers[1..]);
    match s.callers[0]
    case Deliverer(job) => if reply.Inserted? then s'.(reserved := s.reserved + [job]) else s'
    case Completer => if s.worker.Completing? then s'.(worker := Idle) else s'
  }

  /** `try_send` by a caller that holds a reservation; a full or closed queue loses the job. */
  function Queued(s: Node, i: nat, open: bool): Node
    requires i < |s.reserved|
  {
    var rest := s.reserved[..i] + s.reserved[i + 1..];
    if open && |s.queue| < EGRESS_QUEUE_CAPACITY then s.(reserved := rest, queue := s.queue + [s.reserved[i]])
    else s.(reserved := rest)
  }

  /** `run_egress_worker` between its awaits. */
  function Worked(s: Node, step: Step): Node
    requires step.Take? || step.Publish? || step.Flush?
  {
    match step
    case Take => if s.worker.Idle? && s.queue != [] then s.(queue := s.queue[1..], worker := Taken(s.queue[0])) else s
    case Publish(ok) =>
      if s.worker.Taken?
      then s.(publishes := s.publishes + [s.worker.job], worker := if ok then Published(s.worker.job) else Idle)
      else s
    case Flush(ok) =>
      if !s.worker.Published? then s
      else if ok then s.(flushed := s.flushed + {s.worker.job.item.digest}, worker := Flushed(s.worker.job))
      else s.(worker := Idle)
  }

  /** `mark_completed`; an unhealthy or full ledger leaves the digest reserved. */
  function Finished(s: Node): Node {
    if !s.worker.Flushed? then s
    else if L.Accepts(s.ledger) then
      Sent(s, L.Command(s.worker.job.item.digest, Completed), Completer).(worker := Completing(s.worker.job))
    else s.(worker := Idle)
  }

  function Crashed(s: Node): Node {
    s.(ledger := L.Stopped(s.ledger), callers := [], reserved := [], queue := [], worker := Idle)
  }

  /** The machine. A step that is not enabled leaves the node as it is. */
  function Next(c: Config, s: Node, step: Step): Node {
    match step
    case Deliver(event) => Delivered(c, s, event)
    case Execute(io) => if L.Busy(s.ledger) && s.callers != [] then Answered(c, s, io) else s
    case Enqueue(i, open) => if i < |s.reserved| then Queued(s, i, open) else s
    case Complete => Finished(s)
    case Crash => Crashed(s)
    case Open(io) =>
      if s.ledger.worker.None? then s.(ledger := L.Opened(c.hash, LedgerFile.Delivery, s.ledger, io)) else s
    case _ => Worked(s, step)
  }

  function Run(c: Config, steps: seq<Step>): Node {
    if steps == [] then Start() else Next(c, Run(c, steps[..|steps| - 1]), steps[|steps| - 1])
  }

  lemma {:induction false} RunSnoc(c: Config, steps: seq<Step>, step: Step)
    ensures Run(c, steps + [step]) == Next(c, Run(c, steps), step)
  {
    assert (steps + [step])[..|steps|] == steps;
  }

  // ---- counting jobs -----------------------------------------------------------------

  predicate Has(job: Job, d: Digest) {
    job.item.digest == d
  }

  function Bit(b: bool): int {
    if b then 1 else 0
  }

  function Count(jobs: seq<Job>, d: Digest): int {
    if jobs == [] then 0 else Count(jobs[..|jobs| - 1], d) + Bit(Has(jobs[|jobs| - 1], d))
  }

  lemma {:induction false} CountNonNegative(jobs: seq<Job>, d: Digest)
    ensures Count(jobs, d) >= 0
  {
    if jobs != [] {
      CountNonNegative(jobs[..|jobs| - 1], d);
    }
  }

  lemma {:induction false} CountSnoc(jobs: seq<Job>, job: Job, d: Digest)
    ensures Count(jobs + [job], d) == Count(jobs, d) + Bit(Has(job, d))
  {
    assert (jobs + [job])[..|jobs|] == jobs;
  }

  lemma {:induction false} CountConcat(a: seq<Job>, b: seq<Job>, d: Digest)
    ensures Count(a + b, d) == Count(a, d) + Count(b, d)
  {
    if b == [] {
      assert a + b == a;
    } else {
      var init, last := b[..|b| - 1], b[|b| - 1];
      CountConcat(a, init, d);
      assert a + b == (a + init) + [last];
      CountSnoc(a + init, last, d);
    }
  }

  lemma {:induction false} CountRemove(jobs: seq<Job>, i: nat, d: Digest)
    requires i < |jobs|
    ensures Count(jobs, d) == Count(jobs[..i] + jobs[i + 1..], d) + Bit(Has(jobs[i], d))
  {
    var left, right := jobs[..i], jobs[i + 1..];
    assert jobs == (left + [jobs[i]]) + right;
    CountConcat(left + [jobs[i]], right, d);
    CountSnoc(left, jobs[i], d);
    CountConcat(left, right, d);
  }

  lemma {:induction false} CountHead(jobs: seq<Job>, d: Digest)
    requires jobs != []
    ensures Count(jobs, d) == Count(jobs[1..], d) + Bit(Has(jobs[0], d))
  {
    CountRemove(jobs, 0, d);
    assert jobs[..0] + jobs[1..] == jobs[1..];
  }

  /** How often a digest is on its way to `publish`, and with every call made. */
  function Waiting(s: Node, d: Digest): int {
    Count(s.reserved, d) + Count(s.queue, d) + Bit(s.worker.Taken? && Has(s.worker.job, d))
  }

  function Total(s: Node, d: Digest): int {
    Waiting(s, d) + Count(s.publishes, d)
  }

  lemma {:induction false} TotalNonNegative(s: Node, d: Digest)
    ensures Waiting(s, d) >= 0 && Count(s.publishes, d) >= 0 && Total(s, d) >= 0
  {
    CountNonNegative(s.reserved, d);
    CountNonNegative(s.queue, d);
    CountNonNegative(s.publishes, d);
  }

  lemma {:induction false} QueuedTotal(s: Node, i: nat, open: bool, d: Digest)
    requires i < |s.reserved|
    ensures Total(Queued(s, i, open), d) <= Total(s, d)
    ensures Count(Queued(s, i, open).publishes, d) == Count(s.publishes, d)
  {
    CountRemove(s.reserved, i, d);
    CountSnoc(s.queue, s.reserved[i], d);
  }

  lemma TakeTotal(s: Node, d: Digest)
    requires s.worker.Idle? && s.queue != []
    ensures Total(Worked(s, Take), d) == Total(s, d)
  {
    CountHead(s.queue, d);
  }

  lemma {:induction false} PublishTotal(s: Node, ok: bool, d: Digest)
    requires s.worker.Taken?
    ensures Total(Worked(s, Publish(ok)), d) == Total(s, d)
    ensures Count(Worked(s, Publish(ok)).publishes, d) == Count(s.publishes, d) + Bit(Has(s.worker.job, d))
  {
    CountSnoc(s.publishes, s.worker.job, d);
  }

  lemma WorkedTotal(s: Node, step: Step, d: Digest)
    requires step.Take? || step.Publish? || step.Flush?
    ensures Total(Worked(s, step), d) == Total(s, d)
  {
    if step.Take? && s.worker.Idle? && s.queue != [] {
      TakeTotal(s, d);
    } else if step.Publish? && s.worker.Taken? {
      PublishTotal(s, step.ok, d);
    }
  }

  lemma {:induction false} CrashedTotal(s: Node, d: Digest)
    ensures Total(Crashed(s), d) == Count(s.publishes, d) <= Total(s, d)
  {
    TotalNonNegative(s, d);
  }

  // ---- at most once, per digest and in every run ------------------------------------------

  /** The ledger was reopened without a digest that was published, with room to reserve it again. */
  predicate Forgot(s: Node, d: Digest) {
    && s.ledger.worker.Some?
    && Count(s.publishes, d) > 0
    && Reservable(s.ledger.worker.value, d)
    && s.ledger.worker.value.healthy && s.ledger.worker.value.queue == []
    && s.callers == [] && s.reserved == [] && s.queue == [] && s.worker == Idle
  }

  /** The ledger would accept a reservation of this digest. */
  predicate Reservable(w: L.Worker, d: Digest) {
    d !in w.index && |w.index| < MAX_UNIQUE_ENTRIES && w.sequence < U64_MAX
  }

  /** What keeps a digest from being reserved twice; a node that is down has nothing on its way. */
  ghost predicate Once(s: Node, d: Digest) {
    && Total(s, d) <= 1
    && (s.ledger.worker.Some? && Total(s, d) > 0 ==> !Reservable(s.ledger.worker.value, d))
    && (s.ledger.worker.None? ==> s.callers == [] && s.reserved == [] && s.queue == [] && s.worker == Idle)
  }

  lemma IndexOnlyGrows(c: Config, l: L.Ledger, io: Io, d: Digest)
    requires L.Busy(l)
    ensures var l' := L.Executed(c.hash, LedgerFile.Delivery, l, io);
            && l'.worker.Some?
            && (!Reservable(l.worker.value, d) ==> !Reservable(l'.worker.value, d))
  {
    var w := l.worker.value;
    if L.Decided(LedgerFile.Delivery, l) == Append {
      KeysGrow(w.index, w.queue[0].digest, w.queue[0].state);
    }
  }

  /** A caller is told to go on only for a digest that was free, and then it is free no longer. */
  lemma InsertedCloses(c: Config, l: L.Ledger, io: Io)
    requires L.Busy(l) && l.worker.value.queue[0].state == Reserved
    requires L.ReplyOf(LedgerFile.Delivery, l, io) == L.Inserted
    ensures var d := l.worker.value.queue[0].digest;
            Reservable(l.worker.value, d) && !Reservable(L.Executed(c.hash, LedgerFile.Delivery, l, io).worker.value, d)
  {
  }

  /** Callers and queued commands correspond. */
  ghost predicate Matched(s: Node) {
    var queue := if s.ledger.worker.Some? then s.ledger.worker.value.queue else [];
    && |s.callers| == |queue|
    && forall k :: 0 <= k < |queue| ==> Fits(s.callers[k], queue[k])
  }

  predicate Fits(caller: Caller, command: L.Command) {
    match caller
    case Deliverer(job) => command == L.Command(job.item.digest, Reserved)
    case Completer => command.state == Completed
  }

  lemma AnsweredOnce(c: Config, s: Node, io: Io, d: Digest)
    requires L.Busy(s.ledger) && s.callers != [] && Matched(s) && Once(s, d)
    ensures Once(Answered(c, s, io), d)
  {
    assert Fits(s.callers[0], s.ledger.worker.value.queue[0]);
    IndexOnlyGrows(c, s.ledger, io, d);
    if s.callers[0].Deliverer? && L.ReplyOf(LedgerFile.Delivery, s.ledger, io) == L.Inserted {
      InsertedCloses(c, s.ledger, io);
      CountSnoc(s.reserved, s.callers[0].job, d);
      TotalNonNegative(s, d);
    }
  }

  lemma OpenedOnce(c: Config, s: Node, io: Io, d: Digest)
    requires s.ledger.worker.None? && Once(s, d) && !Forgot(Next(c, s, Open(io)), d)
    ensures Once(Next(c, s, Open(io)), d)
  {
    TotalNonNegative(s, d);
  }

  lemma NextMatched(c: Config, s: Node, step: Step)
    requires Matched(s)
    ensures Matched(Next(c, s, step))
  {
    match step {
      case Execute(io) =>
        if L.Busy(s.ledger) && s.callers != [] {
          AnsweredMatched(c, s, io);
        }
      case Deliver(event) => DeliveredMatched(c, s, event);
      case Complete => FinishedMatched(s);
      case _ =>
    }
  }

  lemma SentMatched(s: Node, command: L.Command, caller: Caller)
    requires Matched(s) && Fits(caller, command)
    ensures Matched(Sent(s, command, caller))
  {
  }

  lemma DeliveredMatched(c: Config, s: Node, event: Event)
    requires Matched(s)
    ensures Matched(Delivered(c, s, event))
  {
    var classified := Classify(c, event);
    if classified.Item? {
      SentMatched(s, L.Command(classified.item.digest, Reserved), Deliverer(Job(classified.item, event)));
    }
  }

  lemma FinishedMatched(s: Node)
    requires Matched(s)
    ensures Matched(Finished(s))
  {
    if s.worker.Flushed? && L.Accepts(s.ledger) {
      SentMatched(s, L.Command(s.worker.job.item.digest, Completed), Completer);
    }
  }

  lemma AnsweredMatched(c: Config, s: Node, io: Io)
    requires L.Busy(s.ledger) && s.callers != [] && Matched(s)
    ensures Matched(Answered(c, s, io))
  {
    var s' := Answered(c, s, io);
    var queue := s.ledger.worker.value.queue;
    assert s'.ledger.worker.value.queue == queue[1..] && s'.callers == s.callers[1..];
    forall k | 0 <= k < |queue[1..]| ensures Fits(s'.callers[k], queue[1..][k]) {
      assert Fits(s.callers[k + 1], queue[k + 1]);
    }
  }

  lemma DeliveredOnce(c: Config, s: Node, event: Event, d: Digest)
    requires Once(s, d)
    ensures Once(Delivered(c, s, event), d)
  {
  }

  lemma FinishedOnce(s: Node, d: Digest)
    requires Once(s, d)
    ensures Once(Finished(s), d)
  {
  }

  lemma NextOnce(c: Config, s: Node, step: Step, d: Digest)
    requires Matched(s) && Once(s, d) && !Forgot(Next(c, s, step), d)
    ensures Once(Next(c, s, step), d)
  {
    match step {
      case Deliver(event) => DeliveredOnce(c, s, event, d);
      case Execute(io) => if L.Busy(s.ledger) && s.callers != [] { AnsweredOnce(c, s, io, d); }
      case Enqueue(i, open) => if i < |s.reserved| { QueuedTotal(s, i, open, d); }
      case Complete => FinishedOnce(s, d);
      case Crash => CrashedTotal(s, d);
      case Open(io) => if s.ledger.worker.None? { OpenedOnce(c, s, io, d); }
      case _ => WorkedTotal(s, step, d);
    }
  }

  // ---- what holds as long as no append follows a failed one ------------------------------------

  /** Everything waiting or published is in the journal's history. */
  ghost predicate Backed(s: Node) {
    forall d :: Total(s, d) > 0 ==> d in IndexOf(s.ledger.log)
  }

  /** Completion follows a flush, which follows a publish. */
  ghost predicate Completions(s: Node) {
    && AllFlushed(IndexOf(s.ledger.log), s.flushed)
    && (s.ledger.worker.Some? ==> Awaited(s.ledger.worker.value.queue, s.flushed))
  }

  ghost predicate AllFlushed(index: Index, flushed: set<Digest>) {
    forall d :: d in index && index[d] == Completed ==> d in flushed
  }

  ghost predicate Awaited(queue: seq<L.Command>, flushed: set<Digest>) {
    forall k :: 0 <= k < |queue| && queue[k].state == Completed ==> queue[k].digest in flushed
  }

  ghost predicate Flushes(s: Node) {
    && (forall d :: d in s.flushed ==> Count(s.publishes, d) > 0)
    && (s.worker.Published? ==> Count(s.publishes, s.worker.job.item.digest) > 0)
    && (s.worker.Flushed? || s.worker.Completing? ==> s.worker.job.item.digest in s.flushed)
  }

  lemma {:induction false} PublishesGrow(s: Node, step: Step, d: Digest)
    requires step.Take? || step.Publish? || step.Flush?
    ensures Count(Worked(s, step).publishes, d) >= Count(s.publishes, d)
  {
    if step.Publish? && s.worker.Taken? {
      CountSnoc(s.publishes, s.worker.job, d);
    }
  }

  lemma WorkedFlushes(s: Node, step: Step)
    requires Flushes(s) && (step.Take? || step.Publish? || step.Flush?)
    ensures Flushes(Worked(s, step))
  {
    forall d | d in s.flushed ensures Count(Worked(s, step).publishes, d) > 0 {
      PublishesGrow(s, step, d);
    }
    if step.Publish? && s.worker.Taken? {
      CountSnoc(s.publishes, s.worker.job, s.worker.job.item.digest);
      CountNonNegative(s.publishes, s.worker.job.item.digest);
    }
  }

  lemma NextFlushes(c: Config, s: Node, step: Step)
    requires Flushes(s)
    ensures Flushes(Next(c, s, step))
  {
    if step.Take? || step.Publish? || step.Flush? {
      WorkedFlushes(s, step);
    }
  }

  ghost predicate Guarded(c: Config, s: Node) {
    && L.Sound(c.hash, LedgerFile.Delivery, s.ledger)
    && Backed(s)
    && Completions(s)
    && Flushes(s)
  }

  lemma AnsweredTotal(c: Config, s: Node, io: Io, d: Digest)
    requires L.Busy(s.ledger) && s.callers != []
    ensures var inserted := s.callers[0].Deliverer? && L.ReplyOf(LedgerFile.Delivery, s.ledger, io) == L.Inserted;
            Total(Answered(c, s, io), d) == Total(s, d) + Bit(inserted && Has(s.callers[0].job, d))
  {
    if s.callers[0].Deliverer? {
      CountSnoc(s.reserved, s.callers[0].job, d);
    }
  }

  lemma AnsweredBacked(c: Config, s: Node, io: Io)
    requires L.Busy(s.ledger) && s.callers != [] && Matched(s) && Backed(s)
    requires L.Sound(c.hash, LedgerFile.Delivery, s.ledger) && !Answered(c, s, io).ledger.overrun
    ensures Backed(Answered(c, s, io))
  {
    var s' := Answered(c, s, io);
    assert Fits(s.callers[0], s.ledger.worker.value.queue[0]);
    L.ExecutedGrows(c.hash, LedgerFile.Delivery, s.ledger, io);
    assert IndexOf(s.ledger.log).Keys <= IndexOf(s'.ledger.log).Keys;
    forall d | Total(s', d) > 0 ensures d in IndexOf(s'.ledger.log).Keys {
      AnsweredTotal(c, s, io, d);
    }
  }

  lemma CompletedFlushed(was: Index, now: Index, command: L.Command, flushed: set<Digest>)
    requires AllFlushed(was, flushed) && (command.state == Completed ==> command.digest in flushed)
    requires now == was || now == was[command.digest := command.state]
    ensures AllFlushed(now, flushed)
  {
  }

  lemma AnsweredCompletions(c: Config, s: Node, io: Io)
    requires L.Busy(s.ledger) && s.callers != [] && Completions(s)
    requires L.Sound(c.hash, LedgerFile.Delivery, s.ledger) && !Answered(c, s, io).ledger.overrun
    ensures Completions(Answered(c, s, io))
  {
    var queue := s.ledger.worker.value.queue;
    var l' := L.Executed(c.hash, LedgerFile.Delivery, s.ledger, io);
    L.ExecutedGrows(c.hash, LedgerFile.Delivery, s.ledger, io);
    L.ExecutedPops(c.hash, LedgerFile.Delivery, s.ledger, io);
    CompletedFlushed(IndexOf(s.ledger.log), IndexOf(l'.log), queue[0], s.flushed);
    AwaitedRest(queue, s.flushed);
  }

  lemma AwaitedRest(queue: seq<L.Command>, flushed: set<Digest>)
    requires queue != [] && Awaited(queue, flushed)
    ensures Awaited(queue[1..], flushed)
  {
    forall k | 0 <= k < |queue[1..]| && queue[1..][k].state == Completed ensures queue[1..][k].digest in flushed {
      assert queue[1..][k] == queue[k + 1];
    }
  }

  lemma AnsweredGuarded(c: Config, s: Node, io: Io)
    requires L.Busy(s.ledger) && s.callers != [] && Matched(s) && Guarded(c, s) && !Answered(c, s, io).ledger.overrun
    ensures Guarded(c, Answered(c, s, io))
  {
    L.ExecutedSound(c.hash, LedgerFile.Delivery, s.ledger, io);
    AnsweredBacked(c, s, io);
    AnsweredCompletions(c, s, io);
    NextFlushes(c, s, Execute(io));
  }

  lemma SameTotals(s: Node, s': Node)
    requires Backed(s) && s'.ledger.log == s.ledger.log
    requires forall d :: Total(s', d) <= Total(s, d)
    ensures Backed(s')
  {
  }

  lemma FlushedBacked(s: Node, d: Digest)
    requires Backed(s) && Flushes(s) && d in s.flushed
    ensures d in IndexOf(s.ledger.log)
  {
    TotalNonNegative(s, d);
    assert Total(s, d) > 0;
  }

  lemma FinishedGuarded(c: Config, s: Node)
    requires Guarded(c, s)
    ensures Guarded(c, Finished(s))
  {
    var s' := Finished(s);
    forall d ensures Total(s', d) <= Total(s, d) {}
    SameTotals(s, s');
    if s.worker.Flushed? {
      FlushedBacked(s, s.worker.job.item.digest);
      L.SubmittedSound(c.hash, LedgerFile.Delivery, s.ledger, L.Command(s.worker.job.item.digest, Completed));
    }
  }

  lemma DeliveredGuarded(c: Config, s: Node, event: Event)
    requires Guarded(c, s)
    ensures Guarded(c, Delivered(c, s, event))
  {
    var s' := Delivered(c, s, event);
    forall d ensures Total(s', d) <= Total(s, d) {}
    SameTotals(s, s');
  }

  lemma QueuedGuarded(c: Config, s: Node, i: nat, open: bool)
    requires Guarded(c, s) && i < |s.reserved|
    ensures Guarded(c, Queued(s, i, open))
  {
    var s' := Queued(s, i, open);
    forall d ensures Total(s', d) <= Total(s, d) {
      QueuedTotal(s, i, open, d);
    }
    SameTotals(s, s');
  }

  lemma WorkedGuarded(c: Config, s: Node, step: Step)
    requires Guarded(c, s) && (step.Take? || step.Publish? || step.Flush?)
    ensures Guarded(c, Worked(s, step))
  {
    var s' := Worked(s, step);
    forall d ensures Total(s', d) <= Total(s, d) {
      WorkedTotal(s, step, d);
    }
    SameTotals(s, s');
    WorkedFlushes(s, step);
    assert s.flushed <= s'.flushed;
  }

  lemma CrashedGuarded(c: Config, s: Node)
    requires Guarded(c, s)
    ensures Guarded(c, Crashed(s))
  {
    forall d ensures Total(Crashed(s), d) <= Total(s, d) {
      CrashedTotal(s, d);
    }
    SameTotals(s, Crashed(s));
  }

  lemma OpenedGuarded(c: Config, s: Node, l: L.Ledger)
    requires Guarded(c, s) && L.Sound(c.hash, LedgerFile.Delivery, l) && l.log == s.ledger.log
    requires l.worker.Some? ==> l.worker.value.queue == []
    ensures Guarded(c, s.(ledger := l))
  {
    var s' := s.(ledger := l);
    forall d ensures Total(s', d) <= Total(s, d) {}
    SameTotals(s, s');
  }

  lemma ReopenedGuarded(c: Config, s: Node, io: Io)
    requires Guarded(c, s) && s.ledger.worker.None?
    ensures Guarded(c, s.(ledger := L.Opened(c.hash, LedgerFile.Delivery, s.ledger, io)))
  {
    L.OpenedSound(c.hash, LedgerFile.Delivery, s.ledger, io);
    L.OpenedKeepsLog(c.hash, LedgerFile.Delivery, s.ledger, io);
    OpenedGuarded(c, s, L.Opened(c.hash, LedgerFile.Delivery, s.ledger, io));
  }

  /** Every step of deliveries, ledger, queue, worker, crash and restart keeps file and protocol in order, unless it
      appends after a failed append. */
  lemma NextGuarded(c: Config, s: Node, step: Step)
    requires Matched(s) && Guarded(c, s) && !Next(c, s, step).ledger.overrun
    ensures Guarded(c, Next(c, s, step))
  {
    match step {
      case Deliver(event) => DeliveredGuarded(c, s, event);
      case Execute(io) => if L.Busy(s.ledger) && s.callers != [] { AnsweredGuarded(c, s, io); }
      case Enqueue(i, open) => if i < |s.reserved| { QueuedGuarded(c, s, i, open); }
      case Complete => FinishedGuarded(c, s);
      case Crash => CrashedGuarded(c, s);
      case Open(io) =>
        if s.ledger.worker.None? { ReopenedGuarded(c, s, io); }
      case _ => WorkedGuarded(c, s, step);
    }
  }

  // ---- every job passed the classifier ---------------------------------------------------------

  predicate Classed(c: Config, job: Job) {
    Classify(c, job.event) == Item(job.item)
  }

  ghost predicate AllClassed(c: Config, jobs: seq<Job>) {
    forall k :: 0 <= k < |jobs| ==> Classed(c, jobs[k])
  }

  ghost predicate CallersClassed(c: Config, callers: seq<Caller>) {
    forall k :: 0 <= k < |callers| && callers[k].Deliverer? ==> Classed(c, callers[k].job)
  }

  ghost predicate ClassInv(c: Config, s: Node) {
    && AllClassed(c, s.publishes) && AllClassed(c, s.reserved) && AllClassed(c, s.queue)
    && CallersClassed(c, s.callers)
    && (!s.worker.Idle? ==> Classed(c, s.worker.job))
  }

  lemma SentClassed(c: Config, s: Node, command: L.Command, caller: Caller)
    requires ClassInv(c, s) && (caller.Deliverer? ==> Classed(c, caller.job))
    ensures ClassInv(c, Sent(s, command, caller))
  {
  }

  lemma AnsweredClassed(c: Config, s: Node, io: Io)
    requires ClassInv(c, s) && L.Busy(s.ledger) && s.callers != []
    ensures ClassInv(c, Answered(c, s, io))
  {
    assert s.callers[0].Deliverer? ==> Classed(c, s.callers[0].job);
  }

  lemma WorkedClassed(c: Config, s: Node, step: Step)
    requires ClassInv(c, s) && (step.Take? || step.Publish? || step.Flush?)
    ensures ClassInv(c, Worked(s, step))
  {
  }

  lemma QueuedClassed(c: Config, s: Node, i: nat, open: bool)
    requires ClassInv(c, s) && i < |s.reserved|
    ensures ClassInv(c, Queued(s, i, open))
  {
    assert Classed(c, s.reserved[i]);
  }

  lemma NextClassed(c: Config, s: Node, step: Step)
    requires ClassInv(c, s)
    ensures ClassInv(c, Next(c, s, step))
  {
    match step {
      case Deliver(event) =>
        var classified := Classify(c, event);
        if classified.Item? {
          SentClassed(c, s, L.Command(classified.item.digest, Reserved), Deliverer(Job(classified.item, event)));
        }
      case Execute(io) => if L.Busy(s.ledger) && s.callers != [] { AnsweredClassed(c, s, io); }
      case Enqueue(i, open) => if i < |s.reserved| { QueuedClassed(c, s, i, open); }
      case Complete =>
        if s.worker.Flushed? {
          SentClassed(c, s, L.Command(s.worker.job.item.digest, Completed), Completer);
        }
      case Crash =>
      case Open(io) =>
      case _ => WorkedClassed(c, s, step);
    }
  }

  lemma {:induction false} RunKeeps(c: Config, steps: seq<Step>)
    ensures Matched(Run(c, steps)) && ClassInv(c, Run(c, steps))
  {
    if steps != [] {
      var s, step := Run(c, steps[..|steps| - 1]), steps[|steps| - 1];
      RunKeeps(c, steps[..|steps| - 1]);
      NextMatched(c, s, step);
      NextClassed(c, s, step);
    }
  }

  // ---- what was flushed, over the steps of a run ---------------------------------------------------

  /** Step `m` published the job with success, and the worker has held it as published from there to step `n`. */
  ghost predicate PublishedSince(c: Config, steps: seq<Step>, m: nat, n: nat, job: Job) {
    && m < n <= |steps| && steps[m] == Publish(true) && Run(c, steps[..m]).worker == Taken(job)
    && forall k :: m < k <= n ==> Run(c, steps[..k]).worker == Published(job)
  }

  /** Step `n` then flushed it with success. */
  ghost predicate FlushedAt(c: Config, steps: seq<Step>, m: nat, n: nat, job: Job) {
    PublishedSince(c, steps, m, n, job) && n < |steps| && steps[n] == Flush(true)
  }

  ghost predicate PublishedAndFlushed(c: Config, steps: seq<Step>, d: Digest) {
    exists m: nat, n: nat, job :: FlushedAt(c, steps, m, n, job) && Has(job, d)
  }

  lemma PublishedFrom(c: Config, s: Node, step: Step)
    requires Next(c, s, step).worker.Published?
    ensures (step == Publish(true) && s.worker == Taken(Next(c, s, step).worker.job))
            || s.worker == Next(c, s, step).worker
  {
  }

  lemma FlushedFrom(c: Config, s: Node, step: Step)
    ensures Next(c, s, step).flushed ==
            s.flushed + if step == Flush(true) && s.worker.Published? then {s.worker.job.item.digest} else {}
  {
  }

  lemma {:induction false} SincePrefix(c: Config, steps: seq<Step>, m: nat, n: nat, job: Job)
    requires steps != [] && n < |steps|
    ensures PublishedSince(c, steps[..|steps| - 1], m, n, job) <==> PublishedSince(c, steps, m, n, job)
  {
    var init := steps[..|steps| - 1];
    forall k | 0 <= k <= n ensures init[..k] == steps[..k] {}
  }

  lemma {:induction false} PublishedHasStep(c: Config, steps: seq<Step>) returns (m: nat)
    requires Run(c, steps).worker.Published?
    ensures PublishedSince(c, steps, m, |steps|, Run(c, steps).worker.job)
  {
    var init, last := steps[..|steps| - 1], steps[|steps| - 1];
    var s, job := Run(c, init), Run(c, steps).worker.job;
    assert steps[..|steps|] == steps;
    PublishedFrom(c, s, last);
    if s.worker == Published(job) {
      m := PublishedHasStep(c, init);
      SincePrefix(c, steps, m, |init|, job);
    } else {
      m := |init|;
    }
  }

  lemma {:induction false} FlushedPrefix(c: Config, steps: seq<Step>, d: Digest)
    requires steps != [] && PublishedAndFlushed(c, steps[..|steps| - 1], d)
    ensures PublishedAndFlushed(c, steps, d)
  {
    var m: nat, n: nat, job :| FlushedAt(c, steps[..|steps| - 1], m, n, job) && Has(job, d);
    SincePrefix(c, steps, m, n, job);
    assert FlushedAt(c, steps, m, n, job);
  }

  /** In every run a digest counts as flushed exactly if its job was published with success and, while the worker still
      held that publication, flushed with success. */
  lemma {:induction false} FlushedIff(c: Config, steps: seq<Step>, d: Digest)
    ensures d in Run(c, steps).flushed <==> PublishedAndFlushed(c, steps, d)
  {
    if steps != [] {
      var init, last := steps[..|steps| - 1], steps[|steps| - 1];
      var s := Run(c, init);
      FlushedIff(c, init, d);
      FlushedFrom(c, s, last);
      if d in s.flushed {
        FlushedPrefix(c, steps, d);
      } else if d in Run(c, steps).flushed {
        var m := PublishedHasStep(c, init);
        SincePrefix(c, steps, m, |init|, s.worker.job);
        assert FlushedAt(c, steps, m, |init|, s.worker.job);
      }
      if PublishedAndFlushed(c, steps, d) {
        FlushedStays(c, steps, d);
      }
    }
  }

  lemma {:induction false} FlushedStays(c: Config, steps: seq<Step>, d: Digest)
    requires steps != [] && PublishedAndFlushed(c, steps, d)
    requires PublishedAndFlushed(c, steps[..|steps| - 1], d) ==> d in Run(c, steps[..|steps| - 1]).flushed
    ensures d in Run(c, steps).flushed
  {
    var init, last := steps[..|steps| - 1], steps[|steps| - 1];
    var m: nat, n: nat, job :| FlushedAt(c, steps, m, n, job) && Has(job, d);
    FlushedFrom(c, Run(c, init), last);
    if n < |init| {
      SincePrefix(c, steps, m, n, job);
      assert FlushedAt(c, init, m, n, job);
    } else {
      assert steps[..n] == init;
    }
  }

  // ---- results ------------------------------------------------------------------------------------

  lemma StartOnce(d: Digest)
    ensures Once(Start(), d)
  {
  }

  /** If no restart forgets a published digest, it is published at most once. */
  lemma {:induction false} RunOnce(c: Config, steps: seq<Step>, d: Digest)
    requires forall n :: 0 <= n <= |steps| ==> !Forgot(Run(c, steps[..n]), d)
    ensures Once(Run(c, steps), d)
  {
    if steps == [] {
      StartOnce(d);
    } else {
      var init, last := steps[..|steps| - 1], steps[|steps| - 1];
      forall n | 0 <= n <= |init| ensures !Forgot(Run(c, init[..n]), d) {
        assert init[..n] == steps[..n];
      }
      RunOnce(c, init, d);
      RunKeeps(c, init);
      assert steps[..|steps|] == steps;
      NextOnce(c, Run(c, init), last, d);
    }
  }

  lemma {:induction false} CountFinds(jobs: seq<Job>, d: Digest) returns (k: nat)
    requires Count(jobs, d) > 0
    ensures k < |jobs| && Has(jobs[k], d)
  {
    if Has(jobs[|jobs| - 1], d) {
      k := |jobs| - 1;
    } else {
      k := CountFinds(jobs[..|jobs| - 1], d);
    }
  }

  /** An idle node whose ledger is open for a job's digest takes one delivery of it all the way to the broker. */
  lemma FreshPublish(c: Config, s: Node, job: Job)
    requires Classed(c, job) && s.ledger.worker.Some? && Reservable(s.ledger.worker.value, job.item.digest)
    requires s.ledger.worker.value.healthy && s.ledger.worker.value.queue == []
    requires s.callers == [] && s.reserved == [] && s.queue == [] && s.worker == Idle
    ensures var s1 := Next(c, Next(c, s, Deliver(job.event)), Execute(Durable));
            var s2 := Next(c, Next(c, s1, Enqueue(0, true)), Take);
            Next(c, s2, Publish(true)).publishes == s.publishes + [job]
  {
    var s0 := Next(c, s, Deliver(job.event));
    assert s0.callers == [Deliverer(job)] && s0.ledger.worker.value.queue == [L.Command(job.item.digest, Reserved)];
    var s1 := Next(c, s0, Execute(Durable));
    assert s1.reserved == [job] && s1.queue == [] && s1.worker == Idle && s1.publishes == s.publishes;
    var s2 := Next(c, s1, Enqueue(0, true));
    assert s2.queue == [job] && s2.worker == Idle;
  }

  function PublishSteps(event: Event): seq<Step> {
    [Deliver(event)] + [Execute(Durable)] + [Enqueue(0, true)] + [Take] + [Publish(true)]
  }

  lemma {:induction false} RunPublish(c: Config, steps: seq<Step>, event: Event)
    ensures var s := Run(c, steps);
            var s1 := Next(c, Next(c, s, Deliver(event)), Execute(Durable));
            var s2 := Next(c, Next(c, s1, Enqueue(0, true)), Take);
            Run(c, steps + PublishSteps(event)) == Next(c, s2, Publish(true))
  {
    var t1 := steps + [Deliver(event)];
    var t2 := t1 + [Execute(Durable)];
    var t3 := t2 + [Enqueue(0, true)];
    var t4 := t3 + [Take];
    assert steps + PublishSteps(event) == t4 + [Publish(true)];
    RunSnoc(c, steps, Deliver(event));
    RunSnoc(c, t1, Execute(Durable));
    RunSnoc(c, t2, Enqueue(0, true));
    RunSnoc(c, t3, Take);
    RunSnoc(c, t4, Publish(true));
  }

  ghost predicate CanPublishTwice(c: Config, d: Digest) {
    exists steps :: Count(Run(c, steps).publishes, d) > 1
  }

  ghost predicate CanForget(c: Config, d: Digest) {
    exists steps :: Forgot(Run(c, steps), d)
  }

  /** The delivery that was forgotten is published again. */
  lemma ForgottenAgain(c: Config, steps: seq<Step>, d: Digest) returns (longer: seq<Step>)
    requires Forgot(Run(c, steps), d)
    ensures Count(Run(c, longer).publishes, d) > 1
  {
    var s := Run(c, steps);
    RunKeeps(c, steps);
    var k := CountFinds(s.publishes, d);
    var job := s.publishes[k];
    FreshPublish(c, s, job);
    RunPublish(c, steps, job.event);
    CountSnoc(s.publishes, job, d);
    longer := steps + PublishSteps(job.event);
  }

  /** At most once, exactly: some run calls `publish` twice for a digest if and only if some run restarts on a journal
      that lost a published digest. */
  lemma PublishTwiceIffForgotten(c: Config, d: Digest)
    ensures CanPublishTwice(c, d) <==> CanForget(c, d)
  {
    if CanForget(c, d) {
      var steps :| Forgot(Run(c, steps), d);
      var longer := ForgottenAgain(c, steps, d);
    }
    if CanPublishTwice(c, d) && !CanForget(c, d) {
      var steps :| Count(Run(c, steps).publishes, d) > 1;
      RunOnce(c, steps, d);
      TotalNonNegative(Run(c, steps), d);
    }
  }

  lemma GuardedRemembers(c: Config, s: Node, d: Digest)
    requires Guarded(c, s)
    ensures !Forgot(s, d)
  {
    TotalNonNegative(s, d);
    assert Count(s.publishes, d) > 0 ==> Total(s, d) > 0;
  }

  lemma OverrunStays(c: Config, s: Node, step: Step)
    ensures s.ledger.overrun ==> Next(c, s, step).ledger.overrun
  {
  }

  /** The guard: as long as the ledger worker has appended nothing after a failed append, journal, reservations and
      publications are in order in every run. */
  lemma {:induction false} RunGuarded(c: Config, steps: seq<Step>)
    requires !Run(c, steps).ledger.overrun
    ensures Guarded(c, Run(c, steps))
  {
    if steps != [] {
      var s, step := Run(c, steps[..|steps| - 1]), steps[|steps| - 1];
      OverrunStays(c, s, step);
      RunGuarded(c, steps[..|steps| - 1]);
      RunKeeps(c, steps[..|steps| - 1]);
      NextGuarded(c, s, step);
    }
  }

  lemma {:induction false} OverrunFrom(c: Config, steps: seq<Step>, n: nat)
    requires n <= |steps| && !Run(c, steps).ledger.overrun
    ensures !Run(c, steps[..n]).ledger.overrun
  {
    if n < |steps| {
      OverrunStays(c, Run(c, steps[..|steps| - 1]), steps[|steps| - 1]);
      OverrunFrom(c, steps[..|steps| - 1], n);
      assert steps[..|steps| - 1][..n] == steps[..n];
    } else {
      assert steps[..n] == steps;
    }
  }

  /** Under that guard publish is called at most once per digest over the node's whole life, ... */
  lemma {:induction false} PublishAtMostOnce(c: Config, steps: seq<Step>, d: Digest)
    requires !Run(c, steps).ledger.overrun
    ensures Count(Run(c, steps).publishes, d) <= 1
  {
    forall n | 0 <= n <= |steps| ensures !Forgot(Run(c, steps[..n]), d) {
      OverrunFrom(c, steps, n);
      RunGuarded(c, steps[..n]);
      GuardedRemembers(c, Run(c, steps[..n]), d);
    }
    RunOnce(c, steps, d);
    TotalNonNegative(Run(c, steps), d);
  }

  /** ... and reopening the file, at any moment, finds every digest that is waiting or was ever published, Completed
      only after a successful publish and flush; it fails exactly if the process stopped inside the very first header
      write, and then nothing was waiting or published. */
  lemma {:induction false} ReservationIsDurable(c: Config, steps: seq<Step>)
    requires !Run(c, steps).ledger.overrun
    ensures var s := Run(c, steps);
            var found := OpenResult(c.hash, LedgerFile.Delivery, s.ledger.disk);
            && (found.Ok? <==> !(0 < |s.ledger.disk| < HEADER_LEN))
            && (found.Ok? ==> forall d :: Total(s, d) > 0 ==> d in found.value.index)
            && (found.Ok? ==> forall d :: d in found.value.index && found.value.index[d] == Completed ==>
                  PublishedAndFlushed(c, steps, d) && Count(s.publishes, d) == 1)
            && (found.Err? ==> forall d :: Total(s, d) == 0)
  {
    RunGuarded(c, steps);
    var s := Run(c, steps);
    L.ReopensIffHeader(c.hash, LedgerFile.Delivery, s.ledger);
    forall d | d in s.flushed ensures PublishedAndFlushed(c, steps, d) && Count(s.publishes, d) == 1 {
      PublishAtMostOnce(c, steps, d);
      FlushedIff(c, steps, d);
    }
    forall d | s.ledger.log == [] ensures Total(s, d) == 0 {
      TotalNonNegative(s, d);
      assert d !in IndexOf(s.ledger.log);
    }
  }

  lemma {:induction false} CountTwo(jobs: seq<Job>, i: nat, j: nat, d: Digest)
    requires i < j < |jobs| && Has(jobs[i], d) && Has(jobs[j], d)
    ensures Count(jobs, d) > 1
  {
    var rest := jobs[..j] + jobs[j + 1..];
    CountRemove(jobs, j, d);
    assert rest[i] == jobs[i];
    CountRemove(rest, i, d);
    CountNonNegative(rest[..i] + rest[i + 1..], d);
  }

  lemma {:induction false} DistinctWithin(jobs: seq<Job>, keys: set<Digest>)
    requires forall i :: 0 <= i < |jobs| ==> jobs[i].item.digest in keys
    requires forall i, j :: 0 <= i < j < |jobs| ==> jobs[i].item.digest != jobs[j].item.digest
    ensures |jobs| <= |keys|
  {
    if jobs != [] {
      var n := |jobs| - 1;
      DistinctWithin(jobs[..n], keys - {jobs[n].item.digest});
    }
  }

  /** The ledger never evicts, so a node publishes no more than its journal can index, however often documents come
      back to it. */
  lemma {:induction false} PublishesCapped(c: Config, steps: seq<Step>)
    requires !Run(c, steps).ledger.overrun
    ensures |Run(c, steps).publishes| <= MAX_UNIQUE_ENTRIES
  {
    RunGuarded(c, steps);
    var s := Run(c, steps);
    var p, index := s.publishes, IndexOf(s.ledger.log);
    forall i | 0 <= i < |p| ensures p[i].item.digest in index.Keys {
      var d := p[i].item.digest;
      CountRemove(p, i, d);
      CountNonNegative(p[..i] + p[i + 1..], d);
      TotalNonNegative(s, d);
      assert Total(s, d) > 0;
    }
    forall i, j | 0 <= i < j < |p| ensures p[i].item.digest != p[j].item.digest {
      PublishAtMostOnce(c, steps, p[i].item.digest);
      if p[i].item.digest == p[j].item.digest {
        CountTwo(p, i, j, p[i].item.digest);
      }
    }
    DistinctWithin(p, index.Keys);
    LogFits(LedgerFile.Delivery, s.ledger.log);
  }

  /** In every run, guarded or not, no document of this node's own bridge is published. */
  lemma {:induction false} NeverPublishesOwn(c: Config, steps: seq<Step>, k: nat)
    requires k < |Run(c, steps).publishes|
    ensures var job := Run(c, steps).publishes[k];
            job.event.json.Some? && job.event.json.value.sourceNodeId != c.localNodeId
  {
    RunKeeps(c, steps);
    ClassifiedItem(c, Run(c, steps).publishes[k].event);
  }

  // ---- the guard is needed ------------------------------------------------------------------------

  function TornStart(e1: Event, e2: Event): seq<Step> {
    [Open(Durable)] + [Deliver(e1)] + [Deliver(e2)]
  }

  function TornPublished(e1: Event, e2: Event, written: nat): seq<Step> {
    TornStart(e1, e2) + [Execute(FailedAfter(written))] + [Execute(Durable)] + [Enqueue(0, true)] + [Take]
    + [Publish(true)]
  }

  /** Two deliveries queue their reservations together; the append of the first fails after `written` bytes, the second
      succeeds and is published; then the process restarts. */
  function TornRun(e1: Event, e2: Event, written: nat): seq<Step> {
    TornPublished(e1, e2, written) + [Crash] + [Open(Durable)]
  }

  lemma {:induction false} TornQueue(c: Config, e1: Event, e2: Event)
    requires Classify(c, e1).Item? && Classify(c, e2).Item?
    ensures var j1, j2 := Job(Classify(c, e1).item, e1), Job(Classify(c, e2).item, e2);
            Run(c, TornStart(e1, e2)) ==
            Node(L.Run(c.hash, LedgerFile.Delivery, L.PairQueued(Reserved, j1.item.digest, j2.item.digest)),
                 [Deliverer(j1), Deliverer(j2)], [], [], Idle, [], {})
  {
    var j1, j2 := Job(Classify(c, e1).item, e1), Job(Classify(c, e2).item, e2);
    var c1, c2 := L.Command(j1.item.digest, Reserved), L.Command(j2.item.digest, Reserved);
    var t1, p1 := [Open(Durable)], [L.Open(Durable)];
    var l1 := L.Run(c.hash, LedgerFile.Delivery, p1);
    OpenedFirst(c);
    L.FirstOpen(c.hash, LedgerFile.Delivery);
    DeliveredTo(c, l1, [], e1);
    RunSnoc(c, t1, Deliver(e1));
    L.RunSnoc(c.hash, LedgerFile.Delivery, p1, L.Submit(c1));
    var l2 := L.Submitted(l1, c1);
    DeliveredTo(c, l2, [Deliverer(j1)], e2);
    RunSnoc(c, t1 + [Deliver(e1)], Deliver(e2));
    L.RunSnoc(c.hash, LedgerFile.Delivery, p1 + [L.Submit(c1)], L.Submit(c2));
  }

  lemma {:induction false} OpenedFirst(c: Config)
    ensures Run(c, [Open(Durable)]) ==
            Node(L.Run(c.hash, LedgerFile.Delivery, [L.Open(Durable)]), [], [], [], Idle, [], {})
  {
    assert [] + [Open(Durable)] == [Open(Durable)] && [] + [L.Open(Durable)] == [L.Open(Durable)];
    RunSnoc(c, [], Open(Durable));
    L.RunSnoc(c.hash, LedgerFile.Delivery, [], L.Open(Durable));
  }

  lemma DeliveredTo(c: Config, l: L.Ledger, callers: seq<Caller>, event: Event)
    requires Classify(c, event).Item? && L.Accepts(l)
    ensures var job := Job(Classify(c, event).item, event);
            Next(c, Node(l, callers, [], [], Idle, [], {}), Deliver(event)) ==
            Node(L.Submitted(l, L.Command(job.item.digest, Reserved)), callers + [Deliverer(job)], [], [], Idle, [], {})
  {
  }

  lemma FirstFails(c: Config, l: L.Ledger, j1: Job, j2: Job, written: nat)
    requires L.Busy(l) && L.ReplyOf(LedgerFile.Delivery, l, FailedAfter(written)) == L.Failed
    ensures Next(c, Node(l, [Deliverer(j1), Deliverer(j2)], [], [], Idle, [], {}), Execute(FailedAfter(written))) ==
            Node(L.Executed(c.hash, LedgerFile.Delivery, l, FailedAfter(written)), [Deliverer(j2)], [], [], Idle,
                 [], {})
  {
    assert [Deliverer(j1), Deliverer(j2)][1..] == [Deliverer(j2)];
  }

  lemma SecondGoesOn(c: Config, l: L.Ledger, job: Job)
    requires L.Busy(l) && L.ReplyOf(LedgerFile.Delivery, l, Durable) == L.Inserted
    ensures Next(c, Node(l, [Deliverer(job)], [], [], Idle, [], {}), Execute(Durable)) ==
            Node(L.Executed(c.hash, LedgerFile.Delivery, l, Durable), [], [job], [], Idle, [], {})
  {
    assert [Deliverer(job)][1..] == [];
  }

  lemma SecondPublished(c: Config, l: L.Ledger, job: Job)
    ensures var s := Node(l, [], [job], [], Idle, [], {});
            Next(c, Next(c, Next(c, s, Enqueue(0, true)), Take), Publish(true)) ==
            Node(l, [], [], [], Published(job), [job], {})
  {
    var s := Next(c, Node(l, [], [job], [], Idle, [], {}), Enqueue(0, true));
    assert s == Node(l, [], [], [job], Idle, [], {});
  }

  lemma PairReplies(hash: Hash, l: L.Ledger, d1: Digest, d2: Digest, written: nat)
    requires l.worker == Some(L.Worker(map[], 0, 0, true, [L.Command(d1, Reserved), L.Command(d2, Reserved)], false))
    ensures var l1 := L.Executed(hash, LedgerFile.Delivery, l, FailedAfter(written));
            && L.ReplyOf(LedgerFile.Delivery, l, FailedAfter(written)) == L.Failed
            && L.Busy(l1) && L.ReplyOf(LedgerFile.Delivery, l1, Durable) == L.Inserted
  {
    var l1 := L.Executed(hash, LedgerFile.Delivery, l, FailedAfter(written));
    assert l1.worker.value.index == map[] && l1.worker.value.sequence == 1;
    assert l1.worker.value.queue == [L.Command(d2, Reserved)];
  }

  lemma {:induction false} TornMiddle(c: Config, e1: Event, e2: Event, written: nat)
    requires Classify(c, e1).Item? && Classify(c, e2).Item?
    ensures var d1, job := Classify(c, e1).item.digest, Job(Classify(c, e2).item, e2);
            Run(c, TornPublished(e1, e2, written)) ==
            Node(L.Run(c.hash, LedgerFile.Delivery, L.PairTorn(Reserved, d1, job.item.digest, written)), [], [], [],
                 Published(job), [job], {})
  {
    var j1, j2 := Job(Classify(c, e1).item, e1), Job(Classify(c, e2).item, e2);
    var d1, d2 := j1.item.digest, j2.item.digest;
    var t3, p3 := TornStart(e1, e2), L.PairQueued(Reserved, d1, d2);
    var l := L.Run(c.hash, LedgerFile.Delivery, p3);
    TornQueue(c, e1, e2);
    L.PairQueuedWorker(c.hash, LedgerFile.Delivery, Reserved, d1, d2);
    PairReplies(c.hash, l, d1, d2, written);
    var l1 := L.Executed(c.hash, LedgerFile.Delivery, l, FailedAfter(written));
    var t4, p4 := t3 + [Execute(FailedAfter(written))], p3 + [L.Execute(FailedAfter(written))];
    assert Run(c, t4) == Node(l1, [Deliverer(j2)], [], [], Idle, [], {}) by {
      RunSnoc(c, t3, Execute(FailedAfter(written)));
      FirstFails(c, l, j1, j2, written);
    }
    var l2 := L.Executed(c.hash, LedgerFile.Delivery, l1, Durable);
    assert Run(c, t4 + [Execute(Durable)]) == Node(l2, [], [j2], [], Idle, [], {}) by {
      RunSnoc(c, t4, Execute(Durable));
      SecondGoesOn(c, l1, j2);
    }
    PublishedAfter(c, t4 + [Execute(Durable)], l2, j2);
    L.RunSnoc(c.hash, LedgerFile.Delivery, p3, L.Execute(FailedAfter(written)));
    L.RunSnoc(c.hash, LedgerFile.Delivery, p4, L.Execute(Durable));
  }

  lemma {:induction false} PublishedAfter(c: Config, steps: seq<Step>, l: L.Ledger, job: Job)
    requires Run(c, steps) == Node(l, [], [job], [], Idle, [], {})
    ensures Run(c, steps + [Enqueue(0, true)] + [Take] + [Publish(true)]) ==
            Node(l, [], [], [], Published(job), [job], {})
  {
    RunSnoc(c, steps, Enqueue(0, true));
    RunSnoc(c, steps + [Enqueue(0, true)], Take);
    RunSnoc(c, steps + [Enqueue(0, true)] + [Take], Publish(true));
    SecondPublished(c, l, job);
  }

  lemma {:induction false} TornRuns(c: Config, e1: Event, e2: Event, written: nat)
    requires Classify(c, e1).Item? && Classify(c, e2).Item?
    ensures var d1, d2 := Classify(c, e1).item.digest, Classify(c, e2).item.digest;
            Run(c, TornRun(e1, e2, written)) ==
            Node(L.Run(c.hash, LedgerFile.Delivery, L.TwoRecords(Reserved, d1, d2, written)), [], [], [], Idle,
                 [Job(Classify(c, e2).item, e2)], {})
  {
    var steps, job := TornPublished(e1, e2, written), Job(Classify(c, e2).item, e2);
    var pair := L.PairTorn(Reserved, Classify(c, e1).item.digest, job.item.digest, written);
    TornMiddle(c, e1, e2, written);
    RunSnoc(c, steps, Crash);
    RunSnoc(c, steps + [Crash], Open(Durable));
    L.RunSnoc(c.hash, LedgerFile.Delivery, pair, L.Stop);
    L.RunSnoc(c.hash, LedgerFile.Delivery, pair + [L.Stop], L.Open(Durable));
    TornEnd(c, Run(c, steps), job);
  }

  lemma TornEnd(c: Config, s: Node, job: Job)
    requires s == Node(s.ledger, [], [], [], Published(job), [job], {})
    ensures Next(c, Next(c, s, Crash), Open(Durable)) ==
            Node(L.Next(c.hash, LedgerFile.Delivery, L.Stopped(s.ledger), L.Open(Durable)), [], [], [], Idle, [job], {})
  {
  }

  /** For every number of bytes the failing append got out, that run forgets the published digest exactly when the
      merged bytes read as an acceptable record of another digest; by `PublishTwiceIffForgotten` it is then published
      twice. */
  lemma {:induction false} TornRunForgetsIff(c: Config, e1: Event, e2: Event, written: nat)
    requires Classify(c, e1).Item? && Classify(c, e2).Item? && written <= RECORD_LEN
    requires Classify(c, e1).item.digest != Classify(c, e2).item.digest
    ensures var d1, d2 := Classify(c, e1).item.digest, Classify(c, e2).item.digest;
            Forgot(Run(c, TornRun(e1, e2, written)), d2) <==>
            written < RECORD_LEN
            && L.ReadsWithout(c.hash, LedgerFile.Delivery, L.MergedPair(c.hash, Reserved, d1, d2, written), d2)
  {
    var d1, d2 := Classify(c, e1).item.digest, Classify(c, e2).item.digest;
    var job := Job(Classify(c, e2).item, e2);
    TornRuns(c, e1, e2, written);
    L.TwoRecordsForgetIff(c.hash, LedgerFile.Delivery, Reserved, d1, d2, written);
    var s := Run(c, TornRun(e1, e2, written));
    var l := L.Run(c.hash, LedgerFile.Delivery, L.TwoRecords(Reserved, d1, d2, written));
    assert s == Node(l, [], [], [], Idle, [job], {});
    assert [] + [job] == [job];
    CountSnoc([], job, d2);
    assert Count([job], d2) == 1;
    assert Forgot(s, d2) <==> L.Forgot(l, d2);
  }

  /** One byte short of a record whose checksum ends in zero is enough. */
  lemma {:induction false} LastByteForgets(c: Config, e1: Event, e2: Event)
    requires Classify(c, e1).Item? && Classify(c, e2).Item?
    requires Classify(c, e1).item.digest != Classify(c, e2).item.digest
    requires EncodeRecord(c.hash, Record(1, Reserved, Classify(c, e1).item.digest))[79] == 0
    ensures Forgot(Run(c, TornRun(e1, e2, 79)), Classify(c, e2).item.digest)
  {
    var d1, d2 := Classify(c, e1).item.digest, Classify(c, e2).item.digest;
    var r1, r2 := Record(1, Reserved, d1), Record(2, Reserved, d2);
    LastByteReads(c.hash, r1, r2);
    TornRunForgetsIff(c, e1, e2, 79);
  }

  /** So the guard cannot be dropped: such a journal has a digest published twice. */
  lemma LastByteTwice(c: Config, e1: Event, e2: Event)
    requires Classify(c, e1).Item? && Classify(c, e2).Item?
    requires Classify(c, e1).item.digest != Classify(c, e2).item.digest
    requires EncodeRecord(c.hash, Record(1, Reserved, Classify(c, e1).item.digest))[79] == 0
    ensures CanPublishTwice(c, Classify(c, e2).item.digest)
  {
    LastByteForgets(c, e1, e2);
    assert CanForget(c, Classify(c, e2).item.digest);
    PublishTwiceIffForgotten(c, Classify(c, e2).item.digest);
  }
}
