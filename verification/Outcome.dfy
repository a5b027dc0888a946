/** One delivery from beginning to end: what becomes of a document that a settled node is offered, for every way its
    reservation, its place in the queue, its publication, its flush and its completion can go. */
module Outcome {
  import opened Wrappers
  import opened Bytes
  import opened Codec
  import opened LedgerFile
  import opened JournalLog
  import opened Egress
  import opened Delivery
  import L = Ledger

  datatype Luck = Luck(reserve: Io, open: bool, published: bool, flushed: bool, complete: Io)

  /** Nothing is on its way and the ledger runs. */
  predicate Settled(s: Node) {
    && s.ledger.worker.Some? && s.ledger.worker.value.healthy && s.ledger.worker.value.queue == []
    && s.callers == [] && s.reserved == [] && s.queue == [] && s.worker == Idle
  }

  function Reserving(c: Config, s: Node, event: Event, io: Io): Node {
    Next(c, Next(c, s, Deliver(event)), Execute(io))
  }

  function Queueing(c: Config, s: Node, open: bool): Node {
    Next(c, Next(c, s, Enqueue(0, open)), Take)
  }

  function Sending(c: Config, s: Node, published: bool, flushed: bool): Node {
    Next(c, Next(c, s, Publish(published)), Flush(flushed))
  }

  function Completing(c: Config, s: Node, io: Io): Node {
    Next(c, Next(c, s, Complete), Execute(io))
  }

  /** `deliver` and `run_egress_worker`, one await after the other. */
  function Delivering(c: Config, s: Node, event: Event, luck: Luck): Node {
    var queued := Queueing(c, Reserving(c, s, event, luck.reserve), luck.open);
    Completing(c, Sending(c, queued, luck.published, luck.flushed), luck.complete)
  }

  /** The ledger takes the reservation of a digest. */
  predicate Free(w: L.Worker, d: Digest) {
    d !in w.index && |w.index| < MAX_UNIQUE_ENTRIES && w.sequence < U64_MAX
  }

  lemma ReservingExact(c: Config, s: Node, event: Event, io: Io)
    requires Settled(s) && L.Permitted(LedgerFile.Delivery, s.ledger) && Classify(c, event).Item?
    ensures var (item, w) := (Classify(c, event).item, s.ledger.worker.value);
            var (s', free) := (Reserving(c, s, event, io), Free(w, item.digest) && io == Durable);
            && s'.ledger.worker.Some?
            && s' == s.(ledger := s'.ledger, reserved := if free then [Job(item, event)] else [])
            && (free ==> Settled(s'.(reserved := [])) && s'.ledger.worker.value.sequence == w.sequence + 1)
            && s'.ledger.worker.value.queue == []
            && s'.ledger.worker.value.index == (if free then w.index[item.digest := Reserved] else w.index)
            && (s'.ledger.worker.value.healthy <==> free || item.digest in w.index)
            && (item.digest in w.index ==> s'.ledger.disk == s.ledger.disk)
  {
    var (item, w) := (Classify(c, event).item, s.ledger.worker.value);
    var s1 := Next(c, s, Deliver(event));
    assert s1.callers == [Deliverer(Job(item, event))];
    assert s1.ledger.worker.value.queue == [L.Command(item.digest, Reserved)];
    DecideExact(LedgerFile.Delivery, w.index, item.digest, Reserved);
    assert [L.Command(item.digest, Reserved)][1..] == [] && s1.callers[1..] == [];
    assert [] + [Job(item, event)] == [Job(item, event)];
    ReserveExecuted(c, s1.ledger, item.digest, io);
  }

  lemma ReserveExecuted(c: Config, l: L.Ledger, d: Digest, io: Io)
    requires l.worker.Some? && l.worker.value.queue == [L.Command(d, Reserved)] && l.worker.value.healthy
    requires L.Permitted(LedgerFile.Delivery, l)
    ensures var (w, l', free) := (l.worker.value, L.Executed(c.hash, LedgerFile.Delivery, l, io),
                                  Free(l.worker.value, d) && io == Durable);
            && l'.worker.Some? && l'.worker.value.queue == []
            && (L.ReplyOf(LedgerFile.Delivery, l, io) == L.Inserted <==> free)
            && l'.worker.value.index == (if free then w.index[d := Reserved] else w.index)
            && (free ==> l'.worker.value.sequence == w.sequence + 1)
            && (l'.worker.value.healthy <==> free || d in w.index)
            && (d in w.index ==> l'.disk == l.disk)
  {
    DecideExact(LedgerFile.Delivery, l.worker.value.index, d, Reserved);
    assert [L.Command(d, Reserved)][1..] == [];
  }

  lemma QueueingExact(c: Config, s: Node, open: bool)
    requires Settled(s.(reserved := [])) && |s.reserved| == 1
    ensures Queueing(c, s, open) == s.(reserved := [], worker := if open then Taken(s.reserved[0]) else Idle)
  {
    assert s.reserved[..0] + s.reserved[1..] == [];
    assert [] + [s.reserved[0]] == [s.reserved[0]] && [s.reserved[0]][1..] == [];
  }

  lemma SendingExact(c: Config, s: Node, published: bool, flushed: bool)
    requires s.worker.Taken?
    ensures var (s', job) := (Sending(c, s, published, flushed), s.worker.job);
            s' == s.(publishes := s.publishes + [job],
                     flushed := s.flushed + (if published && flushed then {job.item.digest} else {}),
                     worker := if published && flushed then Flushed(job) else Idle)
  {
  }

  lemma CompletingExact(c: Config, s: Node, io: Io)
    requires s.worker.Flushed? && Settled(s.(worker := Idle))
    requires var (w, d) := (s.ledger.worker.value, s.worker.job.item.digest); d in w.index && w.index[d] == Reserved
    ensures var (w, d) := (s.ledger.worker.value, s.worker.job.item.digest);
            var (s', done) := (Completing(c, s, io), w.sequence < U64_MAX && io == Durable);
            && s'.ledger.worker.Some? && s' == s.(ledger := s'.ledger, worker := Idle)
            && s'.ledger.worker.value.queue == []
            && s'.ledger.worker.value.index == (if done then w.index[d := Completed] else w.index)
            && (s'.ledger.worker.value.healthy <==> done)
  {
    var (w, d) := (s.ledger.worker.value, s.worker.job.item.digest);
    var s1 := Next(c, s, Complete);
    assert s1.callers == [Completer] && s1.ledger.worker.value.queue == [L.Command(d, Completed)];
    assert s1.callers[1..] == [];
    CompleteExecuted(c, s1.ledger, d, io);
  }

  lemma CompleteExecuted(c: Config, l: L.Ledger, d: Digest, io: Io)
    requires l.worker.Some? && l.worker.value.queue == [L.Command(d, Completed)] && l.worker.value.healthy
    requires d in l.worker.value.index && l.worker.value.index[d] == Reserved
    ensures var (w, l', done) := (l.worker.value, L.Executed(c.hash, LedgerFile.Delivery, l, io),
                                  l.worker.value.sequence < U64_MAX && io == Durable);
            && l'.worker.Some? && l'.worker.value.queue == []
            && l'.worker.value.index == (if done then w.index[d := Completed] else w.index)
            && (l'.worker.value.healthy <==> done)
  {
    assert [L.Command(d, Completed)][1..] == [];
  }

  /** With nothing on its way, the rest of the steps do nothing. */
  lemma NothingFollows(c: Config, s: Node, luck: Luck)
    requires s.ledger.worker.Some? && s.ledger.worker.value.queue == []
    requires s.callers == [] && s.reserved == [] && s.queue == [] && s.worker == Idle
    ensures Queueing(c, s, luck.open) == s && Sending(c, s, luck.published, luck.flushed) == s
    ensures Completing(c, s, luck.complete) == s
  {
  }

  /** The digest's record after the delivery. */
  function Recorded(w: L.Worker, luck: Luck): RecordState {
    if luck.open && luck.published && luck.flushed && luck.complete == Durable && w.sequence + 1 < U64_MAX
    then Completed else Reserved
  }

  /** The exact outcome. A document is published if and only if it is classified for publishing, its digest is free, the
      reservation is durable and the queue takes it; it is recorded Completed if and only if publication, flush and the
      record all succeed as well, and stays Reserved otherwise; a digest the ledger knows changes nothing at all. */
  lemma DeliveryExact(c: Config, s: Node, event: Event, luck: Luck)
    requires Settled(s) && L.Permitted(LedgerFile.Delivery, s.ledger)
    ensures Classify(c, event).Skipped? ==> Delivering(c, s, event, luck) == s
    ensures Classify(c, event).Item? ==>
              var (item, w, s') := (Classify(c, event).item, s.ledger.worker.value, Delivering(c, s, event, luck));
              var free := Free(w, item.digest) && luck.reserve == Durable;
              var sent := luck.published && luck.flushed;
              && s'.ledger.worker.Some? && Settled(s'.(ledger := s.ledger))
              && s'.publishes == s.publishes + (if free && luck.open then [Job(item, event)] else [])
              && s'.flushed == s.flushed + (if free && luck.open && sent then {item.digest} else {})
              && s'.ledger.worker.value.index ==
                 (if free then w.index[item.digest := Recorded(w, luck)] else w.index)
              && (item.digest in w.index ==> s'.ledger.disk == s.ledger.disk && s'.ledger.worker.value.healthy)
  {
    if Classify(c, event).Skipped? {
      NothingFollows(c, s, luck);
    } else if Free(s.ledger.worker.value, Classify(c, event).item.digest) && luck.reserve == Durable {
      FreeDelivery(c, s, event, luck);
    } else {
      ReservingExact(c, s, event, luck.reserve);
      NothingFollows(c, Reserving(c, s, event, luck.reserve), luck);
    }
  }

  lemma FreeDelivery(c: Config, s: Node, event: Event, luck: Luck)
    requires Settled(s) && L.Permitted(LedgerFile.Delivery, s.ledger) && Classify(c, event).Item?
    requires Free(s.ledger.worker.value, Classify(c, event).item.digest) && luck.reserve == Durable
    ensures var (item, w, s') := (Classify(c, event).item, s.ledger.worker.value, Delivering(c, s, event, luck));
            && s'.ledger.worker.Some? && Settled(s'.(ledger := s.ledger))
            && s'.publishes == s.publishes + (if luck.open then [Job(item, event)] else [])
            && s'.flushed == s.flushed + (if luck.open && luck.published && luck.flushed then {item.digest} else {})
            && s'.ledger.worker.value.index == w.index[item.digest := Recorded(w, luck)]
  {
    var (item, w) := (Classify(c, event).item, s.ledger.worker.value);
    ReservingExact(c, s, event, luck.reserve);
    ReservedFollows(c, Reserving(c, s, event, luck.reserve), Job(item, event), luck);
    assert w.index[item.digest := Reserved][item.digest := Completed] == w.index[item.digest := Completed];
  }

  lemma ReservedFollows(c: Config, s: Node, job: Job, luck: Luck)
    requires Settled(s.(reserved := [])) && s.reserved == [job]
    requires var (w, d) := (s.ledger.worker.value, job.item.digest); d in w.index && w.index[d] == Reserved
    ensures var queued := Queueing(c, s, luck.open);
            var s' := Completing(c, Sending(c, queued, luck.published, luck.flushed), luck.complete);
            var (w, d, sent) := (s.ledger.worker.value, job.item.digest, luck.published && luck.flushed);
            var done := luck.open && sent && luck.complete == Durable && w.sequence < U64_MAX;
            && s'.ledger.worker.Some? && Settled(s'.(ledger := s.ledger))
            && s'.publishes == s.publishes + (if luck.open then [job] else [])
            && s'.flushed == s.flushed + (if luck.open && sent then {d} else {})
            && s'.ledger.worker.value.index == (if done then w.index[d := Completed] else w.index)
  {
    QueueingExact(c, s, luck.open);
    var s1 := Queueing(c, s, luck.open);
    if luck.open {
      SendingExact(c, s1, luck.published, luck.flushed);
      var s2 := Sending(c, s1, luck.published, luck.flushed);
      if luck.published && luck.flushed {
        CompletingExact(c, s2, luck.complete);
      } else {
        NothingFollows(c, s2, luck);
      }
    } else {
      NothingFollows(c, s1, luck);
    }
  }

  /** A turn of the worker on any job, whatever the ledger and the queues hold: it ends, and only a flushed job whose
      completion the ledger accepts waits for an answer. */
  lemma TurnExact(c: Config, s: Node, published: bool, flushed: bool)
    requires s.worker.Taken?
    ensures var (s', job) := (Next(c, Sending(c, s, published, flushed), Complete), s.worker.job);
            var asks := published && flushed && L.Accepts(s.ledger);
            && s'.worker == (if asks then Worker.Completing(job) else Idle)
            && s'.callers == s.callers + (if asks then [Completer] else [])
            && s'.publishes == s.publishes + [job]
  {
    SendingExact(c, s, published, flushed);
  }

  // ---- jobs leave the queue in the order they entered it ---------------------------

  /** The jobs handed to the worker since the last crash: reservations enqueued while its queue was open and had
      room. */
  function Handed(c: Config, steps: seq<Step>): seq<Job> {
    if steps == [] then []
    else
      var (init, step) := (steps[..|steps| - 1], steps[|steps| - 1]);
      var s := Run(c, init);
      if step == Crash then []
      else if step.Enqueue? && step.open && step.caller < |s.reserved| && |s.queue| < EGRESS_QUEUE_CAPACITY
      then Handed(c, init) + [s.reserved[step.caller]] else Handed(c, init)
  }

  /** How many of them the worker took. */
  function Turns(c: Config, steps: seq<Step>): nat {
    if steps == [] then 0
    else
      var (init, step) := (steps[..|steps| - 1], steps[|steps| - 1]);
      if step == Crash then 0
      else if step == Take && Run(c, init).worker.Idle? && Turns(c, init) < |Handed(c, init)| then 1 + Turns(c, init)
      else Turns(c, init)
  }

  ghost predicate InOrder(s: Node, handed: seq<Job>, turns: nat) {
    && turns <= |handed| <= turns + EGRESS_QUEUE_CAPACITY
    && s.queue == handed[turns..]
    && (!s.worker.Idle? ==> turns > 0 && s.worker.job == handed[turns - 1])
  }

  lemma LedgerKeepsQueue(c: Config, s: Node, step: Step)
    requires step.Deliver? || step.Execute? || step.Open? || step.Complete?
    ensures var s' := Next(c, s, step);
            s'.queue == s.queue && (s'.worker.Idle? || (!s.worker.Idle? && s'.worker.job == s.worker.job))
            && (s.worker.Idle? ==> s'.worker.Idle?)
  {
  }

  lemma OrderKept(c: Config, s: Node, step: Step, handed: seq<Job>, turns: nat)
    requires InOrder(s, handed, turns) && !step.Enqueue? && step != Take && step != Crash
    ensures InOrder(Next(c, s, step), handed, turns)
  {
    match step {
      case Publish(_) =>
      case Flush(_) =>
      case _ => LedgerKeepsQueue(c, s, step);
    }
  }

  /** First in, first out: in every run the worker has taken exactly the first `Turns` of the jobs handed to it since
      the last crash, is on the last of those, and the bounded queue holds the others in order. */
  lemma {:induction false} FirstInFirstOut(c: Config, steps: seq<Step>)
    ensures InOrder(Run(c, steps), Handed(c, steps), Turns(c, steps))
  {
    if steps != [] {
      var (init, step) := (steps[..|steps| - 1], steps[|steps| - 1]);
      FirstInFirstOut(c, init);
      if !step.Enqueue? && step != Take && step != Crash {
        OrderKept(c, Run(c, init), step, Handed(c, init), Turns(c, init));
      }
    }
  }
}
