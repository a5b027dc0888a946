/** When a ledger forgets, exactly. A process that fails an append goes on with the commands it has queued; what their
    bytes amount to behind the history decides what the next process reads. */
module Forgetting {
  import opened Wrappers
  import opened Bytes
  import opened Codec
  import opened LedgerFile
  import opened JournalLog
  import L = Ledger

  /** A command that was executed by an append. */
  datatype Try = Try(command: L.Command, io: Io)

  /** What tries leave: index and sequence number in memory, bytes behind the history, digests told durable. */
  datatype Pile = Pile(index: Index, sequence: nat, bytes: seq<byte>, told: set<Digest>)

  /** A worker that takes a failing command still has a full channel behind it. */
  const BATCH: nat := L.COMMAND_CAPACITY + 1

  /** What a try adds to the file. */
  function Added(hash: Hash, p: Pile, t: Try): seq<byte>
    requires p.sequence < U64_MAX
  {
    var bytes := EncodeRecord(hash, Record(p.sequence + 1, t.command.state, t.command.digest));
    if t.io.Durable? then bytes else bytes[..L.Min(t.io.written, RECORD_LEN)]
  }

  function Piling(hash: Hash, p: Pile, t: Try): Pile
    requires p.sequence < U64_MAX
  {
    Pile(Entered(p.index, t), p.sequence + 1, p.bytes + Added(hash, p, t), p.told + Told(t))
  }

  function Entered(index: Index, t: Try): Index {
    if t.io.Durable? then index[t.command.digest := t.command.state] else index
  }

  function Told(t: Try): set<Digest> {
    if t.io.Durable? then {t.command.digest} else {}
  }

  function Piled(hash: Hash, log: seq<Record>, tries: seq<Try>): (p: Pile)
    requires |log| + |tries| <= U64_MAX
    ensures p.sequence == |log| + |tries|
  {
    if tries == [] then Pile(IndexOf(log), |log|, [], {})
    else Piling(hash, Piled(hash, log, tries[..|tries| - 1]), tries[|tries| - 1])
  }

  /** Every try was decided to be an append. */
  ghost predicate Accepted(hash: Hash, kind: JournalKind, log: seq<Record>, tries: seq<Try>)
    requires |log| + |tries| <= U64_MAX
  {
    tries != [] ==>
      var (init, c) := (tries[..|tries| - 1], tries[|tries| - 1].command);
      Accepted(hash, kind, log, init) && Decide(kind, Piled(hash, log, init).index, c.digest, c.state) == Append
  }

  /** The appends of one process from its first failure on. */
  ghost predicate Batch(hash: Hash, kind: JournalKind, log: seq<Record>, tries: seq<Try>) {
    && |tries| <= BATCH && |log| + |tries| <= U64_MAX
    && Accepted(hash, kind, log, tries)
    && (tries != [] ==> tries[0].io.FailedAfter?)
  }

  function Disk(hash: Hash, kind: JournalKind, log: seq<Record>, tries: seq<Try>): seq<byte>
    requires |log| + |tries| <= U64_MAX
  {
    Image(hash, kind, log) + Piled(hash, log, tries).bytes
  }

  /** The condition on bytes: behind the history, the appends happen to spell further records that recovery accepts, and
      a digest that was told durable is not among them. */
  ghost predicate Loses(hash: Hash, kind: JournalKind, log: seq<Record>, tries: seq<Try>, d: Digest) {
    && Batch(hash, kind, log, tries) && d in Piled(hash, log, tries).told
    && |Disk(hash, kind, log, tries)| <= MAX_FILE_BYTES
    && SpellsWithout(hash, kind, Disk(hash, kind, log, tries), d)
  }

  ghost predicate SpellsWithout(hash: Hash, kind: JournalKind, disk: seq<byte>, d: Digest) {
    exists log, tail :: Holds(hash, kind, disk, log, tail) && d !in IndexOf(log)
  }

  /** A worker with nothing to do on the file of a history. */
  ghost predicate Idle(hash: Hash, kind: JournalKind, l: L.Ledger, log: seq<Record>) {
    && l.disk == Image(hash, kind, log) && Live(kind, log)
    && l.worker == Some(L.Worker(IndexOf(log), |log|, |log|, true, [], false))
  }

  ghost predicate Allowed(ok: iset<L.Command>, steps: seq<L.Step>) {
    forall k :: 0 <= k < |steps| && steps[k].Submit? ==> steps[k].command in ok
  }

  ghost predicate AllowedTries(ok: iset<L.Command>, tries: seq<Try>) {
    forall k :: 0 <= k < |tries| ==> tries[k].command in ok
  }

  /** Some run of allowed commands forgets the digest. */
  ghost predicate CanForget(hash: Hash, kind: JournalKind, ok: iset<L.Command>, d: Digest) {
    exists steps :: Allowed(ok, steps) && L.Forgot(L.Run(hash, kind, steps), d)
  }

  ghost predicate LosesAfter(hash: Hash, kind: JournalKind, ok: iset<L.Command>, steps: seq<L.Step>, log: seq<Record>,
                             tries: seq<Try>, d: Digest) {
    && Allowed(ok, steps) && Idle(hash, kind, L.Run(hash, kind, steps), log)
    && AllowedTries(ok, tries) && Loses(hash, kind, log, tries, d)
  }

  /** Some history that allowed commands write can lose the digest by the bytes of a batch. */
  ghost predicate CanLose(hash: Hash, kind: JournalKind, ok: iset<L.Command>, d: Digest) {
    exists steps, log, tries :: LosesAfter(hash, kind, ok, steps, log, tries, d)
  }

  // ---- histories and bytes behind them ------------------------------------------------

  lemma {:induction false} EncodedPrefix(hash: Hash, log: seq<Record>, n: nat)
    requires n <= |log|
    ensures EncodeAll(hash, log)[..80 * n] == EncodeAll(hash, log[..n])
  {
    if n < |log| {
      var before := log[..|log| - 1];
      EncodedPrefix(hash, before, n);
      assert before[..n] == log[..n];
    } else {
      assert log[..n] == log;
    }
  }

  lemma {:induction false} EncodeAllInjective(hash: Hash, a: seq<Record>, b: seq<Record>)
    requires |a| == |b| && EncodeAll(hash, a) == EncodeAll(hash, b)
    ensures a == b
  {
    if a != [] {
      var n := |a| - 1;
      Halves(EncodeAll(hash, a[..n]), EncodeRecord(hash, a[n]), EncodeAll(hash, b[..n]), EncodeRecord(hash, b[n]));
      EncodeAllInjective(hash, a[..n], b[..n]);
      DecodeEncode(hash, a[n]);
      DecodeEncode(hash, b[n]);
      assert a == a[..n] + [a[n]] && b == b[..n] + [b[n]];
    }
  }

  /** Whatever is read behind a history, the history is read first. */
  lemma HeldExtends(hash: Hash, kind: JournalKind, log: seq<Record>, behind: seq<byte>, log': seq<Record>,
                    tail: seq<byte>)
    requires Image(hash, kind, log) + behind == Image(hash, kind, log') + tail && |tail| < RECORD_LEN
    ensures |log| <= |log'| && log'[..|log|] == log
  {
    var (all, all') := (EncodeAll(hash, log), EncodeAll(hash, log'));
    var file := Image(hash, kind, log) + behind;
    assert file[HEADER_LEN..] == all + behind;
    assert file[HEADER_LEN..] == all' + tail by {
      assert file == Header(kind) + (all' + tail);
    }
    assert (all + behind)[..80 * |log|] == all;
    assert (all' + tail)[..80 * |log|] == all'[..80 * |log|];
    EncodedPrefix(hash, log', |log|);
    EncodeAllInjective(hash, log, log'[..|log|]);
  }

  lemma {:induction false} IndexGrows(log: seq<Record>, n: nat)
    requires n <= |log|
    ensures IndexOf(log[..n]).Keys <= IndexOf(log).Keys
  {
    if n < |log| {
      var init := log[..|log| - 1];
      IndexGrows(init, n);
      assert init[..n] == log[..n];
    } else {
      assert log[..n] == log;
    }
  }

  // ---- a batch as a run --------------------------------------------------------------------

  function Commands(tries: seq<Try>): (s: seq<L.Command>)
    ensures |s| == |tries| && forall k :: 0 <= k < |s| ==> s[k] == tries[k].command
  {
    if tries == [] then [] else Commands(tries[..|tries| - 1]) + [tries[|tries| - 1].command]
  }

  function Submits(tries: seq<Try>): seq<L.Step> {
    if tries == [] then [] else Submits(tries[..|tries| - 1]) + [L.Submit(tries[|tries| - 1].command)]
  }

  function Executes(tries: seq<Try>): seq<L.Step> {
    if tries == [] then [] else Executes(tries[..|tries| - 1]) + [L.Execute(tries[|tries| - 1].io)]
  }

  /** The batch is queued and executed, and the process restarts. */
  function Torn(tries: seq<Try>): seq<L.Step> {
    Submits(tries) + Executes(tries) + [L.Stop] + [L.Open(Durable)]
  }

  lemma {:induction false} SubmitsRun(hash: Hash, kind: JournalKind, steps: seq<L.Step>, log: seq<Record>,
                                      tries: seq<Try>)
    requires Idle(hash, kind, L.Run(hash, kind, steps), log) && |tries| <= BATCH
    ensures var l := L.Run(hash, kind, steps);
            L.Run(hash, kind, steps + Submits(tries)) ==
            l.(worker := Some(l.worker.value.(queue := Commands(tries))))
  {
    if tries == [] {
      assert steps + Submits(tries) == steps;
    } else {
      var init, c := tries[..|tries| - 1], tries[|tries| - 1].command;
      SubmitsRun(hash, kind, steps, log, init);
      assert steps + Submits(tries) == steps + Submits(init) + [L.Submit(c)];
      L.RunSnoc(hash, kind, steps + Submits(init), L.Submit(c));
    }
  }

  /** The worker has made these tries and has these commands left. */
  ghost predicate Working(hash: Hash, kind: JournalKind, l: L.Ledger, log: seq<Record>, acked: set<Digest>,
                          made: seq<Try>, queue: seq<L.Command>)
    requires |log| + |made| <= U64_MAX
  {
    var p := Piled(hash, log, made);
    && l.worker.Some? && l.worker.value.index == p.index && l.worker.value.sequence == p.sequence
    && l.worker.value.queue == queue && l.disk == Disk(hash, kind, log, made) && l.acked == acked + p.told
  }

  lemma {:induction false} PiledSnoc(hash: Hash, kind: JournalKind, log: seq<Record>, tries: seq<Try>, t: Try)
    requires |log| + |tries| < U64_MAX
    ensures Piled(hash, log, tries + [t]) == Piling(hash, Piled(hash, log, tries), t)
    ensures Accepted(hash, kind, log, tries + [t]) <==>
            Accepted(hash, kind, log, tries)
            && Decide(kind, Piled(hash, log, tries).index, t.command.digest, t.command.state) == Append
  {
    assert (tries + [t])[..|tries|] == tries;
  }

  lemma AddedBytes(hash: Hash, l: L.Ledger, p: Pile, t: Try)
    requires L.Busy(l) && l.worker.value.queue[0] == t.command && l.worker.value.sequence == p.sequence < U64_MAX
    ensures L.Appended(hash, l, t.io).disk == l.disk + Added(hash, p, t)
  {
    assert L.Upcoming(l) == Record(p.sequence + 1, t.command.state, t.command.digest);
    var bytes := EncodeRecord(hash, L.Upcoming(l));
    assert bytes[..RECORD_LEN] == bytes;
  }

  lemma TryExecuted(hash: Hash, kind: JournalKind, l: L.Ledger, t: Try)
    requires L.Busy(l) && l.worker.value.queue[0] == t.command && l.worker.value.sequence < U64_MAX
    requires Decide(kind, l.worker.value.index, t.command.digest, t.command.state) == Append
    ensures var l' := L.Executed(hash, kind, l, t.io);
            l'.worker.Some? &&
            var (w, w') := (l.worker.value, l'.worker.value);
            && l' == L.Appended(hash, l, t.io)
            && w'.index == Entered(w.index, t) && w'.sequence == w.sequence + 1 && w'.queue == w.queue[1..]
            && l'.acked == l.acked + Told(t)
            && (t.io.FailedAfter? || !w.healthy ==> !w'.healthy)
  {
  }

  lemma {:induction false} WorkingStep(hash: Hash, kind: JournalKind, l: L.Ledger, log: seq<Record>,
                                       acked: set<Digest>, made: seq<Try>, t: Try, rest: seq<L.Command>)
    requires |log| + |made| < U64_MAX && Working(hash, kind, l, log, acked, made, [t.command] + rest)
    requires Decide(kind, Piled(hash, log, made).index, t.command.digest, t.command.state) == Append
    ensures Working(hash, kind, L.Next(hash, kind, l, L.Execute(t.io)), log, acked, made + [t], rest)
  {
    var p := Piled(hash, log, made);
    PiledSnoc(hash, kind, log, made, t);
    TryExecuted(hash, kind, l, t);
    AddedBytes(hash, l, p, t);
    Regroup(Image(hash, kind, log), p.bytes, Added(hash, p, t));
  }

  lemma Regroup(a: seq<byte>, b: seq<byte>, c: seq<byte>)
    ensures a + b + c == a + (b + c)
  {
  }

  lemma {:induction false} ExecutesRun(hash: Hash, kind: JournalKind, steps: seq<L.Step>, log: seq<Record>,
                                       acked: set<Digest>, made: seq<Try>, rest: seq<L.Command>)
    requires |log| + |made| <= U64_MAX && Accepted(hash, kind, log, made)
    requires Working(hash, kind, L.Run(hash, kind, steps), log, acked, [], Commands(made) + rest)
    ensures Working(hash, kind, L.Run(hash, kind, steps + Executes(made)), log, acked, made, rest)
  {
    if made == [] {
      assert steps + Executes(made) == steps && Commands(made) + rest == rest;
    } else {
      var init, t := made[..|made| - 1], made[|made| - 1];
      ExecutesLast(steps, made, rest);
      ExecutesRun(hash, kind, steps, log, acked, init, [t.command] + rest);
      L.RunSnoc(hash, kind, steps + Executes(init), L.Execute(t.io));
      WorkingStep(hash, kind, L.Run(hash, kind, steps + Executes(init)), log, acked, init, t, rest);
    }
  }

  lemma ExecutesLast(steps: seq<L.Step>, made: seq<Try>, rest: seq<L.Command>)
    requires made != []
    ensures var init, t := made[..|made| - 1], made[|made| - 1];
            && init + [t] == made
            && Commands(made) + rest == Commands(init) + ([t.command] + rest)
            && steps + Executes(made) == steps + Executes(init) + [L.Execute(t.io)]
  {
  }

  /** The batch leaves its bytes behind the history, and the digests it told. */
  lemma {:induction false} BatchRun(hash: Hash, kind: JournalKind, steps: seq<L.Step>, log: seq<Record>,
                                    tries: seq<Try>)
    requires Idle(hash, kind, L.Run(hash, kind, steps), log) && Batch(hash, kind, log, tries)
    ensures var l := L.Run(hash, kind, steps + Submits(tries) + Executes(tries) + [L.Stop]);
            && l.worker.None? && l.disk == Disk(hash, kind, log, tries)
            && l.acked == L.Run(hash, kind, steps).acked + Piled(hash, log, tries).told
  {
    var l, queued := L.Run(hash, kind, steps), steps + Submits(tries);
    SubmitsRun(hash, kind, steps, log, tries);
    assert l.disk == l.disk + [] && l.acked == l.acked + {};
    assert Commands(tries) + [] == Commands(tries);
    ExecutesRun(hash, kind, queued, log, l.acked, tries, []);
    L.RunSnoc(hash, kind, queued + Executes(tries), L.Stop);
  }

  /** After the restart the worker is idle on what the bytes spell. */
  lemma {:induction false} TornRun(hash: Hash, kind: JournalKind, steps: seq<L.Step>, log: seq<Record>,
                                   tries: seq<Try>, log': seq<Record>, tail: seq<byte>)
    requires Idle(hash, kind, L.Run(hash, kind, steps), log) && Batch(hash, kind, log, tries)
    requires Holds(hash, kind, Disk(hash, kind, log, tries), log', tail)
    requires |Disk(hash, kind, log, tries)| <= MAX_FILE_BYTES
    ensures var l := L.Run(hash, kind, steps + Torn(tries));
            && Idle(hash, kind, l, log')
            && l.acked == L.Run(hash, kind, steps).acked + Piled(hash, log, tries).told
  {
    var before := steps + Submits(tries) + Executes(tries) + [L.Stop];
    BatchRun(hash, kind, steps, log, tries);
    TornLast(steps, tries);
    L.RunSnoc(hash, kind, before, L.Open(Durable));
    ReopenIdle(hash, kind, L.Run(hash, kind, before), log', tail);
  }

  lemma {:induction false} TornLast(steps: seq<L.Step>, tries: seq<Try>)
    ensures steps + Torn(tries) == steps + Submits(tries) + Executes(tries) + [L.Stop] + [L.Open(Durable)]
  {
  }

  lemma ReopenIdle(hash: Hash, kind: JournalKind, l: L.Ledger, log: seq<Record>, tail: seq<byte>)
    requires l.worker.None? && Holds(hash, kind, l.disk, log, tail) && |l.disk| <= MAX_FILE_BYTES
    ensures var l' := L.Next(hash, kind, l, L.Open(Durable)); Idle(hash, kind, l', log) && l'.acked == l.acked
  {
    RecoverHeld(hash, kind, l.disk, log, tail);
  }

  lemma TornAllowed(ok: iset<L.Command>, steps: seq<L.Step>, tries: seq<Try>)
    requires Allowed(ok, steps) && AllowedTries(ok, tries)
    ensures Allowed(ok, steps + Torn(tries))
  {
    SubmitsAllowed(ok, tries);
    ExecutesAllowed(ok, tries);
  }

  lemma {:induction false} SubmitsAllowed(ok: iset<L.Command>, tries: seq<Try>)
    requires AllowedTries(ok, tries)
    ensures Allowed(ok, Submits(tries))
  {
    if tries != [] {
      SubmitsAllowed(ok, tries[..|tries| - 1]);
    }
  }

  lemma {:induction false} ExecutesAllowed(ok: iset<L.Command>, tries: seq<Try>)
    ensures Allowed(ok, Executes(tries))
  {
    if tries != [] {
      ExecutesAllowed(ok, tries[..|tries| - 1]);
    }
  }

  /** Whatever bytes lose is forgotten in a run. */
  lemma LostIsForgotten(hash: Hash, kind: JournalKind, ok: iset<L.Command>, steps: seq<L.Step>, log: seq<Record>,
                        tries: seq<Try>, d: Digest)
    requires LosesAfter(hash, kind, ok, steps, log, tries, d)
    ensures CanForget(hash, kind, ok, d)
  {
    var log', tail :| Holds(hash, kind, Disk(hash, kind, log, tries), log', tail) && d !in IndexOf(log');
    TornRun(hash, kind, steps, log, tries, log', tail);
    TornAllowed(ok, steps, tries);
    assert L.Forgot(L.Run(hash, kind, steps + Torn(tries)), d);
  }

  // ---- every run --------------------------------------------------------------------------

  /** The file is a history that allowed commands write alone, with a batch behind it; the worker is that far; and a
      digest that was told durable is known to it, or can be lost. */
  ghost predicate Shaped(hash: Hash, kind: JournalKind, ok: iset<L.Command>, l: L.Ledger, steps: seq<L.Step>,
                         log: seq<Record>, tries: seq<Try>) {
    && Allowed(ok, steps) && Idle(hash, kind, L.Run(hash, kind, steps), log)
    && AllowedTries(ok, tries) && Batch(hash, kind, log, tries)
    && l.disk == Disk(hash, kind, log, tries)
    && (l.worker.Some? ==> InBatch(ok, l.worker.value, Piled(hash, log, tries), tries))
    && Covered(hash, kind, ok, l.acked, Piled(hash, log, tries).index)
  }

  ghost predicate InBatch(ok: iset<L.Command>, w: L.Worker, p: Pile, tries: seq<Try>) {
    && w.index == p.index && w.sequence == p.sequence
    && |w.queue| + |tries| <= BATCH && (tries != [] ==> !w.healthy)
    && forall k :: 0 <= k < |w.queue| ==> w.queue[k] in ok
  }

  ghost predicate Covered(hash: Hash, kind: JournalKind, ok: iset<L.Command>, acked: set<Digest>, index: Index) {
    forall d :: d in acked ==> d in index || CanLose(hash, kind, ok, d)
  }

  /** No header yet, and nothing recorded. */
  predicate Unborn(l: L.Ledger) {
    l.worker.None? && |l.disk| < HEADER_LEN && l.acked == {}
  }

  lemma SubmittedShaped(hash: Hash, kind: JournalKind, ok: iset<L.Command>, l: L.Ledger, steps: seq<L.Step>,
                        log: seq<Record>, tries: seq<Try>, command: L.Command)
    requires Shaped(hash, kind, ok, l, steps, log, tries) && command in ok
    ensures Shaped(hash, kind, ok, L.Submitted(l, command), steps, log, tries)
  {
  }

  lemma RestAllowed(ok: iset<L.Command>, w: L.Worker, p: Pile, tries: seq<Try>)
    requires InBatch(ok, w, p, tries) && w.queue != []
    ensures InBatch(ok, w.(queue := w.queue[1..]), p, tries)
    ensures InBatch(ok, w.(queue := w.queue[1..], healthy := false), p, tries)
  {
    forall k | 0 <= k < |w.queue[1..]| ensures w.queue[1..][k] in ok {
      assert w.queue[1..][k] == w.queue[k + 1];
    }
  }

  /** A command that needs no append. */
  lemma QuietShaped(hash: Hash, kind: JournalKind, ok: iset<L.Command>, l: L.Ledger, steps: seq<L.Step>,
                    log: seq<Record>, tries: seq<Try>, io: Io)
    requires Shaped(hash, kind, ok, l, steps, log, tries) && L.Busy(l) && L.Decided(kind, l) != Append
    ensures Shaped(hash, kind, ok, L.Executed(hash, kind, l, io), steps, log, tries)
  {
    RestAllowed(ok, l.worker.value, Piled(hash, log, tries), tries);
  }

  lemma {:induction false} TriedBatch(hash: Hash, kind: JournalKind, ok: iset<L.Command>, log: seq<Record>,
                                      tries: seq<Try>, t: Try)
    requires Batch(hash, kind, log, tries) && AllowedTries(ok, tries) && t.command in ok
    requires (tries == [] ==> t.io.FailedAfter?) && |log| + |tries| < U64_MAX && |tries| < BATCH
    requires Decide(kind, Piled(hash, log, tries).index, t.command.digest, t.command.state) == Append
    ensures Batch(hash, kind, log, tries + [t]) && AllowedTries(ok, tries + [t])
  {
    PiledSnoc(hash, kind, log, tries, t);
  }

  lemma {:induction false} TriedDisk(hash: Hash, kind: JournalKind, log: seq<Record>, tries: seq<Try>, t: Try)
    requires |log| + |tries| < U64_MAX
    ensures Disk(hash, kind, log, tries + [t]) == Disk(hash, kind, log, tries) + Added(hash, Piled(hash, log, tries), t)
  {
    var p := Piled(hash, log, tries);
    PiledSnoc(hash, kind, log, tries, t);
    Regroup(Image(hash, kind, log), p.bytes, Added(hash, p, t));
  }

  lemma TriedInBatch(ok: iset<L.Command>, w: L.Worker, w': L.Worker, p: Pile, p': Pile, tries: seq<Try>, t: Try)
    requires InBatch(ok, w, p, tries) && w.queue != []
    requires w'.index == Entered(w.index, t) && w'.sequence == w.sequence + 1 && w'.queue == w.queue[1..]
    requires t.io.FailedAfter? || !w.healthy ==> !w'.healthy
    requires tries == [] ==> t.io.FailedAfter?
    requires p'.index == Entered(p.index, t) && p'.sequence == p.sequence + 1
    ensures InBatch(ok, w', p', tries + [t])
  {
    RestAllowed(ok, w, p, tries);
  }

  /** A failed append, or one behind a failed append. */
  lemma TriedShaped(hash: Hash, kind: JournalKind, ok: iset<L.Command>, l: L.Ledger, steps: seq<L.Step>,
                    log: seq<Record>, tries: seq<Try>, t: Try)
    requires Shaped(hash, kind, ok, l, steps, log, tries) && L.Busy(l) && L.Decided(kind, l) == Append
    requires l.worker.value.queue[0] == t.command && (tries == [] ==> t.io.FailedAfter?) && |log| + |tries| < U64_MAX
    ensures Shaped(hash, kind, ok, L.Executed(hash, kind, l, t.io), steps, log, tries + [t])
  {
    var p, l' := Piled(hash, log, tries), L.Executed(hash, kind, l, t.io);
    TryExecuted(hash, kind, l, t);
    TriedBatch(hash, kind, ok, log, tries, t);
    assert l'.disk == Disk(hash, kind, log, tries + [t]) by {
      AddedBytes(hash, l, p, t);
      TriedDisk(hash, kind, log, tries, t);
    }
    PiledIndex(hash, kind, log, tries, t);
    TriedInBatch(ok, l.worker.value, l'.worker.value, p, Piled(hash, log, tries + [t]), tries, t);
  }

  lemma {:induction false} PiledIndex(hash: Hash, kind: JournalKind, log: seq<Record>, tries: seq<Try>, t: Try)
    requires |log| + |tries| < U64_MAX
    ensures var (p, p') := (Piled(hash, log, tries), Piled(hash, log, tries + [t]));
            p'.index == Entered(p.index, t) && p'.sequence == p.sequence + 1 && p'.told == p.told + Told(t)
  {
    PiledSnoc(hash, kind, log, tries, t);
  }

  /** An idle worker writes one more record. */
  lemma IdleWrites(hash: Hash, kind: JournalKind, steps: seq<L.Step>, log: seq<Record>, c: L.Command)
    requires Idle(hash, kind, L.Run(hash, kind, steps), log) && Decide(kind, IndexOf(log), c.digest, c.state) == Append
    ensures |log| < U64_MAX
    ensures var log' := log + [Record(|log| + 1, c.state, c.digest)];
            && Idle(hash, kind, L.Run(hash, kind, steps + [L.Submit(c)] + [L.Execute(Durable)]), log')
            && IndexOf(log') == IndexOf(log)[c.digest := c.state]
            && Image(hash, kind, log') == Image(hash, kind, log) + EncodeRecord(hash, Record(|log| +
               1, c.state, c.digest))
  {
    LogFits(kind, log);
    AppendExtends(hash, kind, log, Record(|log| + 1, c.state, c.digest));
    L.RunSnoc(hash, kind, steps, L.Submit(c));
    assert [] + [c] == [c];
    L.RunSnoc(hash, kind, steps + [L.Submit(c)], L.Execute(Durable));
    QueuedWrites(hash, kind, L.Run(hash, kind, steps + [L.Submit(c)]), log, c);
  }

  lemma {:induction false} QueuedWrites(hash: Hash, kind: JournalKind, l: L.Ledger, log: seq<Record>, c: L.Command)
    requires |log| < U64_MAX && Decide(kind, IndexOf(log), c.digest, c.state) == Append
    requires l.worker == Some(L.Worker(IndexOf(log), |log|, |log|, true, [c], false))
    ensures var l' := L.Next(hash, kind, l, L.Execute(Durable));
            && l'.disk == l.disk + EncodeRecord(hash, Record(|log| + 1, c.state, c.digest))
            && l'.worker == Some(L.Worker(IndexOf(log)[c.digest := c.state], |log| + 1, |log| + 1, true, [], false))
  {
    assert [c][1..] == [];
  }

  lemma {:induction false} NoTries(hash: Hash, kind: JournalKind, log: seq<Record>)
    requires |log| <= U64_MAX
    ensures Piled(hash, log, []) == Pile(IndexOf(log), |log|, [], {}) && Batch(hash, kind, log, [])
    ensures Disk(hash, kind, log, []) == Image(hash, kind, log)
  {
  }

  lemma WroteDisk(hash: Hash, kind: JournalKind, l: L.Ledger, log: seq<Record>, c: L.Command)
    requires L.Busy(l) && l.worker.value.queue[0] == c && l.worker.value.sequence == |log| < U64_MAX
    requires l.disk == Image(hash, kind, log)
    ensures L.Appended(hash, l, Durable).disk == Image(hash, kind, log + [Record(|log| + 1, c.state, c.digest)])
  {
    assert L.Upcoming(l) == Record(|log| + 1, c.state, c.digest);
    ImageExtends(hash, kind, log, L.Upcoming(l));
  }

  lemma WroteInBatch(ok: iset<L.Command>, w: L.Worker, w': L.Worker, p: Pile, p': Pile, c: L.Command)
    requires InBatch(ok, w, p, []) && w.queue != []
    requires w'.index == Entered(w.index, Try(c, Durable)) && w'.sequence == w.sequence + 1 && w'.queue == w.queue[1..]
    requires p'.index == Entered(p.index, Try(c, Durable)) && p'.sequence == p.sequence + 1
    ensures InBatch(ok, w', p', [])
  {
    RestAllowed(ok, w, p, []);
  }

  /** A durable append with none failed before it. */
  lemma WroteShaped(hash: Hash, kind: JournalKind, ok: iset<L.Command>, l: L.Ledger, steps: seq<L.Step>,
                    log: seq<Record>)
    requires Shaped(hash, kind, ok, l, steps, log, []) && L.Busy(l) && L.Decided(kind, l) == Append
    ensures var c := l.worker.value.queue[0];
            |log| < U64_MAX
            && Shaped(hash, kind, ok, L.Executed(hash, kind, l, Durable), steps + [L.Submit(c)] + [L.Execute(Durable)],
                      log + [Record(|log| + 1, c.state, c.digest)], [])
  {
    var c, l' := l.worker.value.queue[0], L.Executed(hash, kind, l, Durable);
    NoTries(hash, kind, log);
    IdleWrites(hash, kind, steps, log, c);
    var log' := log + [Record(|log| + 1, c.state, c.digest)];
    assert |log'| <= U64_MAX;
    NoTries(hash, kind, log');
    TryExecuted(hash, kind, l, Try(c, Durable));
    WroteDisk(hash, kind, l, log, c);
    WroteInBatch(ok, l.worker.value, l'.worker.value, Piled(hash, log, []), Piled(hash, log', []), c);
  }

  lemma ExecutedShaped(hash: Hash, kind: JournalKind, ok: iset<L.Command>, l: L.Ledger, steps: seq<L.Step>,
                       log: seq<Record>, tries: seq<Try>, io: Io)
                           returns (steps': seq<L.Step>, log': seq<Record>, tries': seq<Try>)
    requires Shaped(hash, kind, ok, l, steps, log, tries) && L.Busy(l)
    ensures Shaped(hash, kind, ok, L.Executed(hash, kind, l, io), steps', log', tries')
  {
    steps', log', tries' := steps, log, tries;
    var c := l.worker.value.queue[0];
    if L.Decided(kind, l) != Append {
      QuietShaped(hash, kind, ok, l, steps, log, tries, io);
    } else if tries == [] && io.Durable? {
      WroteShaped(hash, kind, ok, l, steps, log);
      steps', log' := steps + [L.Submit(c)] + [L.Execute(Durable)], log + [Record(|log| + 1, c.state, c.digest)];
    } else {
      LogFits(kind, log);
      TriedShaped(hash, kind, ok, l, steps, log, tries, Try(c, io));
      tries' := tries + [Try(c, io)];
    }
  }

  // ---- restarts ----------------------------------------------------------------------------

  lemma {:induction false} PileKeys(hash: Hash, log: seq<Record>, tries: seq<Try>)
    requires |log| + |tries| <= U64_MAX
    ensures Piled(hash, log, tries).index.Keys == IndexOf(log).Keys + Piled(hash, log, tries).told
  {
    if tries != [] {
      PileKeys(hash, log, tries[..|tries| - 1]);
    }
  }

  /** Every digest the file had, and every one told durable behind it, is read or lost. */
  lemma {:induction false} ReadOrLost(hash: Hash, kind: JournalKind, ok: iset<L.Command>, l: L.Ledger,
                                      steps: seq<L.Step>, log: seq<Record>,
                                      tries: seq<Try>, log': seq<Record>, tail: seq<byte>)
    requires Shaped(hash, kind, ok, l, steps, log, tries)
    requires Holds(hash, kind, l.disk, log', tail) && |l.disk| <= MAX_FILE_BYTES
    ensures Covered(hash, kind, ok, l.acked, IndexOf(log'))
  {
    var p := Piled(hash, log, tries);
    HeldExtends(hash, kind, log, p.bytes, log', tail);
    IndexGrows(log', |log|);
    PileKeys(hash, log, tries);
    forall d | d in l.acked && d !in IndexOf(log') ensures CanLose(hash, kind, ok, d) {
      if d in p.index {
        assert d in p.index.Keys && d !in IndexOf(log).Keys;
        assert SpellsWithout(hash, kind, l.disk, d);
        assert LosesAfter(hash, kind, ok, steps, log, tries, d);
      }
    }
  }

  lemma {:induction false} ReadShaped(hash: Hash, kind: JournalKind, ok: iset<L.Command>, l: L.Ledger, l': L.Ledger,
                                      steps: seq<L.Step>,
                                      log: seq<Record>, tries: seq<Try>, log': seq<Record>, tail: seq<byte>)
    requires Shaped(hash, kind, ok, l, steps, log, tries)
    requires Holds(hash, kind, l.disk, log', tail) && |l.disk| <= MAX_FILE_BYTES
    requires l'.disk == Image(hash, kind, log') && l'.acked == l.acked
    requires l'.worker.Some? ==> l'.worker.value == L.Worker(IndexOf(log'), |log'|, |log'|, true, [], false)
    ensures Shaped(hash, kind, ok, l', steps + Torn(tries), log', [])
  {
    TornRun(hash, kind, steps, log, tries, log', tail);
    TornAllowed(ok, steps, tries);
    NoTries(hash, kind, log');
    ReadOrLost(hash, kind, ok, l, steps, log, tries, log', tail);
  }

  lemma OpenedShaped(hash: Hash, kind: JournalKind, ok: iset<L.Command>, l: L.Ledger, steps: seq<L.Step>,
                     log: seq<Record>,
                     tries: seq<Try>, io: Io) returns (steps': seq<L.Step>, log': seq<Record>, tries': seq<Try>)
    requires Shaped(hash, kind, ok, l, steps, log, tries) && l.worker.None?
    ensures Shaped(hash, kind, ok, L.Opened(hash, kind, l, io), steps', log', tries')
  {
    steps', log', tries' := steps, log, tries;
    if OpenResult(hash, kind, l.disk).Ok? && !(io.FailedAfter? && io.written == 0) {
      var tail;
      log', tail := HeldIfRecovered(hash, kind, l.disk);
      RecoverHeld(hash, kind, l.disk, log', tail);
      ReadShaped(hash, kind, ok, l, L.Opened(hash, kind, l, io), steps, log, tries, log', tail);
      steps', tries' := steps + Torn(tries), [];
    }
  }

  /** The first file. */
  lemma BornShaped(hash: Hash, kind: JournalKind, ok: iset<L.Command>, l: L.Ledger, io: Io)
    requires Unborn(l)
    ensures var l' := L.Opened(hash, kind, l, io); Unborn(l') || Shaped(hash, kind, ok, l', [L.Open(Durable)], [], [])
  {
    L.FirstOpen(hash, kind);
    NoTries(hash, kind, []);
    assert Header(kind)[..HEADER_LEN] == Header(kind) == Image(hash, kind, []);
    if l.disk != [] {
      assert OpenResult(hash, kind, l.disk).Err?;
    }
  }

  lemma {:induction false} RunShaped(hash: Hash, kind: JournalKind, ok: iset<L.Command>, run: seq<L.Step>)
    returns (steps: seq<L.Step>, log: seq<Record>, tries: seq<Try>)
    requires Allowed(ok, run)
    ensures var l := L.Run(hash, kind, run); Unborn(l) || Shaped(hash, kind, ok, l, steps, log, tries)
  {
    steps, log, tries := [L.Open(Durable)], [], [];
    if run != [] {
      var init, last := run[..|run| - 1], run[|run| - 1];
      steps, log, tries := RunShaped(hash, kind, ok, init);
      var l := L.Run(hash, kind, init);
      if Unborn(l) {
        if last.Open? {
          BornShaped(hash, kind, ok, l, last.io);
        }
        steps, log, tries := [L.Open(Durable)], [], [];
      } else {
        steps, log, tries := NextShaped(hash, kind, ok, l, steps, log, tries, last);
      }
    }
  }

  lemma NextShaped(hash: Hash, kind: JournalKind, ok: iset<L.Command>, l: L.Ledger, steps: seq<L.Step>,
                   log: seq<Record>,
                   tries: seq<Try>, step: L.Step) returns (steps': seq<L.Step>, log': seq<Record>, tries': seq<Try>)
    requires Shaped(hash, kind, ok, l, steps, log, tries) && (step.Submit? ==> step.command in ok)
    ensures Shaped(hash, kind, ok, L.Next(hash, kind, l, step), steps', log', tries')
  {
    steps', log', tries' := steps, log, tries;
    match step {
      case Submit(command) => SubmittedShaped(hash, kind, ok, l, steps, log, tries, command);
      case Execute(io) =>
        if L.Busy(l) { steps', log', tries' := ExecutedShaped(hash, kind, ok, l, steps, log, tries, io); }
      case Open(io) =>
        if l.worker.None? { steps', log', tries' := OpenedShaped(hash, kind, ok, l, steps, log, tries, io); }
      case Stop =>
    }
  }

  /** Exactly when allowed commands can make a ledger forget: when the bytes of a batch behind some history they can
      write spell records without a digest that was told durable. */
  lemma ForgetIff(hash: Hash, kind: JournalKind, ok: iset<L.Command>, d: Digest)
    ensures CanForget(hash, kind, ok, d) <==> CanLose(hash, kind, ok, d)
  {
    if CanForget(hash, kind, ok, d) {
      var run :| Allowed(ok, run) && L.Forgot(L.Run(hash, kind, run), d);
      var steps, log, tries := RunShaped(hash, kind, ok, run);
    }
    if CanLose(hash, kind, ok, d) {
      var steps, log, tries :| LosesAfter(hash, kind, ok, steps, log, tries, d);
      LostIsForgotten(hash, kind, ok, steps, log, tries, d);
    }
  }

  // ---- any commands -------------------------------------------------------------------------

  /** A live history was decided record by record. */
  lemma {:induction false} LiveDecides(kind: JournalKind, log: seq<Record>, last: Record)
    requires Live(kind, log + [last])
    ensures Live(kind, log) && last.sequence == |log| + 1
    ensures Decide(kind, IndexOf(log), last.digest, last.state) == Append
  {
    var next := log + [last];
    assert next[..|log|] == log;
    KeysGrow(IndexOf(log), last.digest, last.state);
  }

  lemma {:induction false} LogReached(hash: Hash, kind: JournalKind, log: seq<Record>) returns (steps: seq<L.Step>)
    requires Live(kind, log)
    ensures Idle(hash, kind, L.Run(hash, kind, steps), log)
  {
    if log == [] {
      L.FirstOpen(hash, kind);
      NoTries(hash, kind, []);
      steps := [L.Open(Durable)];
    } else {
      var init, last := log[..|log| - 1], log[|log| - 1];
      assert init + [last] == log;
      LiveDecides(kind, init, last);
      steps := LogReached(hash, kind, init);
      var c := L.Command(last.digest, last.state);
      IdleWrites(hash, kind, steps, init, c);
      steps := steps + [L.Submit(c)] + [L.Execute(Durable)];
    }
  }

  /** The bytes of a batch behind some live history lose the digest. */
  ghost predicate CanSpell(hash: Hash, kind: JournalKind, d: Digest) {
    exists log, tries :: Live(kind, log) && Loses(hash, kind, log, tries, d)
  }

  /** With no restriction on commands it is a matter of bytes alone. */
  lemma AnyForgetIff(hash: Hash, kind: JournalKind, ok: iset<L.Command>, d: Digest)
    requires forall command: L.Command :: command in ok
    ensures CanForget(hash, kind, ok, d) <==> CanSpell(hash, kind, d)
  {
    ForgetIff(hash, kind, ok, d);
    if CanSpell(hash, kind, d) {
      var log, tries :| Live(kind, log) && Loses(hash, kind, log, tries, d);
      var steps := LogReached(hash, kind, log);
      assert LosesAfter(hash, kind, ok, steps, log, tries, d);
    }
    if CanLose(hash, kind, ok, d) {
      var steps, log, tries :| LosesAfter(hash, kind, ok, steps, log, tries, d);
      assert Live(kind, log) && Loses(hash, kind, log, tries, d);
    }
  }
}
