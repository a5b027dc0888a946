/** What it takes to publish a digest twice, on bytes: the delivery ledger of the machine in `Delivery` is a ledger of
    `Forgetting`, and everything published was told durable. */
module Republishing {
  import opened Wrappers
  import opened Codec
  import opened LedgerFile
  import opened Egress
  import D = Delivery
  import F = Forgetting
  import L = Ledger

  /** The commands a node's deliveries and completions send. */
  ghost function Sendable(c: Config): iset<L.Command> {
    iset command: L.Command | Routed(c, command.digest)
  }

  ghost predicate Routed(c: Config, d: Digest) {
    exists event: Event :: Classify(c, event).Item? && Classify(c, event).item.digest == d
  }

  /** Whatever waits or was published was told durable. */
  predicate Told(s: D.Node, d: Digest) {
    D.Total(s, d) > 0 ==> d in s.ledger.acked
  }

  lemma AnsweredTold(c: Config, s: D.Node, io: Io, d: Digest)
    requires D.Matched(s) && Told(s, d) && L.Busy(s.ledger) && s.callers != []
    ensures Told(D.Answered(c, s, io), d)
  {
    assert D.Fits(s.callers[0], s.ledger.worker.value.queue[0]);
    D.AnsweredTotal(c, s, io, d);
    ExecutedTells(c.hash, s.ledger, io);
    assert D.Answered(c, s, io).ledger == L.Executed(c.hash, LedgerFile.Delivery, s.ledger, io);
  }

  lemma ExecutedTells(hash: Hash, l: L.Ledger, io: Io)
    requires L.Busy(l)
    ensures var acked := L.Executed(hash, LedgerFile.Delivery, l, io).acked;
            && l.acked <= acked
            && (L.ReplyOf(LedgerFile.Delivery, l, io) == L.Inserted ==> l.worker.value.queue[0].digest in acked)
  {
  }

  lemma NextTold(c: Config, s: D.Node, step: D.Step, d: Digest)
    requires D.Matched(s) && Told(s, d)
    ensures Told(D.Next(c, s, step), d)
  {
    match step {
      case Deliver(event) =>
      case Execute(io) => if L.Busy(s.ledger) && s.callers != [] { AnsweredTold(c, s, io, d); }
      case Enqueue(i, open) => if i < |s.reserved| { D.QueuedTotal(s, i, open, d); }
      case Complete =>
      case Crash => D.CrashedTotal(s, d);
      case Open(io) =>
      case _ => D.WorkedTotal(s, step, d);
    }
  }

  lemma {:induction false} RunTold(c: Config, steps: seq<D.Step>, d: Digest)
    ensures Told(D.Run(c, steps), d)
  {
    if steps != [] {
      var s, step := D.Run(c, steps[..|steps| - 1]), steps[|steps| - 1];
      RunTold(c, steps[..|steps| - 1], d);
      D.RunKeeps(c, steps[..|steps| - 1]);
      NextTold(c, s, step, d);
    }
  }

  /** What a node's step is to its ledger. */
  function LedgerSteps(c: Config, s: D.Node, step: D.Step): seq<L.Step> {
    match step
    case Deliver(event) =>
      if Classify(c, event).Item? then [L.Submit(L.Command(Classify(c, event).item.digest, Reserved))] else []
    case Execute(io) => if L.Busy(s.ledger) && s.callers != [] then [L.Execute(io)] else []
    case Complete => if s.worker.Flushed? then [L.Submit(L.Command(s.worker.job.item.digest, Completed))] else []
    case Crash => [L.Stop]
    case Open(io) => if s.ledger.worker.None? then [L.Open(io)] else []
    case _ => []
  }

  lemma {:induction false} StepProjects(c: Config, s: D.Node, step: D.Step, trace: seq<L.Step>)
    requires s.ledger == L.Run(c.hash, LedgerFile.Delivery, trace)
    ensures D.Next(c, s, step).ledger == L.Run(c.hash, LedgerFile.Delivery, trace + LedgerSteps(c, s, step))
  {
    var more := LedgerSteps(c, s, step);
    if more == [] {
      assert trace + more == trace;
    } else {
      L.RunSnoc(c.hash, LedgerFile.Delivery, trace, more[0]);
      assert trace + more == trace + [more[0]];
    }
  }

  lemma StepAllowed(c: Config, s: D.Node, step: D.Step)
    requires D.ClassInv(c, s)
    ensures F.Allowed(Sendable(c), LedgerSteps(c, s, step))
  {
    if step.Deliver? && Classify(c, step.event).Item? {
      assert Routed(c, Classify(c, step.event).item.digest);
    } else if step.Complete? && s.worker.Flushed? {
      assert D.Classed(c, s.worker.job);
      assert Classify(c, s.worker.job.event).Item?;
      assert Routed(c, s.worker.job.item.digest);
    }
  }

  lemma {:induction false} LedgerTrace(c: Config, steps: seq<D.Step>) returns (trace: seq<L.Step>)
    ensures F.Allowed(Sendable(c), trace) && D.Run(c, steps).ledger == L.Run(c.hash, LedgerFile.Delivery, trace)
  {
    trace := [];
    if steps != [] {
      var s, step := D.Run(c, steps[..|steps| - 1]), steps[|steps| - 1];
      trace := LedgerTrace(c, steps[..|steps| - 1]);
      StepProjects(c, s, step, trace);
      D.RunKeeps(c, steps[..|steps| - 1]);
      StepAllowed(c, s, step);
      trace := trace + LedgerSteps(c, s, step);
    }
  }

  /** A digest can be published twice only if it is spelled away: behind some history of deliveries, the bytes of a
      batch of commands after a failed append decode as records without it. Whether they do is a matter of the hash
      alone. */
  lemma TwiceIsSpelled(c: Config, d: Digest)
    requires D.CanPublishTwice(c, d)
    ensures F.CanLose(c.hash, LedgerFile.Delivery, Sendable(c), d)
  {
    D.PublishTwiceIffForgotten(c, d);
    var steps :| D.Forgot(D.Run(c, steps), d);
    var s := D.Run(c, steps);
    RunTold(c, steps, d);
    D.TotalNonNegative(s, d);
    var trace := LedgerTrace(c, steps);
    assert L.Forgot(L.Run(c.hash, LedgerFile.Delivery, trace), d);
    F.ForgetIff(c.hash, LedgerFile.Delivery, Sendable(c), d);
  }
}
