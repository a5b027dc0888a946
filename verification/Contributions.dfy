/** What module Exclusion's node holds and offers, explained by the steps of the run: who is in a document, who is in
    the peers' copy of it, and what one turn of the reconciliation reader comes to (`node.rs`, `reconcile.rs`). */
module Contributions {
  import opened Wrappers
  import opened Bytes
  import opened Codec
  import opened LedgerFile
  import opened JournalLog
  import opened Exclusion
  import L = Ledger

  // ---- who is in a document ------------------------------------------------------

  /** A local write or delete reaches the store in this step: it was cleared, the store took it, and it does not
      insist on a new document where there is one. */
  predicate Lands(s: State, step: Step) {
    && step.Put? && step.stored && step.i < |s.writers| && s.writers[step.i].at.Cleared?
    && var w := s.writers[step.i]; w.kind == CreateOnly ==> Key(w.collection, w.docId) !in s.store
  }

  predicate Writes(s: State, step: Step, key: StoreKey, x: Contribution) {
    && Lands(s, step)
    && var w := s.writers[step.i];
       w.kind != Delete && Key(w.collection, w.docId) == key && x == Local(w.collection, w.docId, w.at.installed)
  }

  predicate Erases(s: State, step: Step, key: StoreKey) {
    Lands(s, step) && var w := s.writers[step.i]; w.kind == Delete && Key(w.collection, w.docId) == key
  }

  /** It came from a peer that had it. */
  predicate Arrives(s: State, step: Step, key: StoreKey, x: Contribution) {
    step.SyncIn? && step.key == key && x in step.body && step.body <= BodyAt(s.remote, key)
  }

  /** The step puts it into the document. */
  predicate Adds(s: State, step: Step, key: StoreKey, x: Contribution) {
    Writes(s, step, key, x) || Arrives(s, step, key, x)
  }

  ghost predicate AddedAt(e: Env, steps: seq<Step>, key: StoreKey, x: Contribution, n: nat) {
    && n < |steps| && Adds(Run(e, steps[..n]), steps[n], key, x)
    && forall k :: n < k < |steps| ==> !Erases(Run(e, steps[..k]), steps[k], key)
  }

  /** It was written or arrived, and the document was not deleted since. */
  ghost predicate Added(e: Env, steps: seq<Step>, key: StoreKey, x: Contribution) {
    exists n: nat :: AddedAt(e, steps, key, x, n)
  }

  lemma {:induction false} AddedStays(e: Env, steps: seq<Step>, key: StoreKey, x: Contribution, n: nat)
    requires steps != [] && n < |steps| - 1
    ensures var init, last := steps[..|steps| - 1], steps[|steps| - 1];
            AddedAt(e, steps, key, x, n) <==> AddedAt(e, init, key, x, n) && !Erases(Run(e, init), last, key)
  {
    var init := steps[..|steps| - 1];
    assert forall k :: 0 <= k <= |init| ==> init[..k] == steps[..k];
    assert init[..|init|] == init;
  }

  lemma AddedLast(e: Env, steps: seq<Step>, key: StoreKey, x: Contribution)
    requires steps != []
    ensures AddedAt(e, steps, key, x, |steps| - 1) <==>
            Adds(Run(e, steps[..|steps| - 1]), steps[|steps| - 1], key, x)
  {
  }

  lemma {:induction false} AddedSnoc(e: Env, steps: seq<Step>, key: StoreKey, x: Contribution)
    requires steps != []
    ensures var init, last := steps[..|steps| - 1], steps[|steps| - 1];
            Added(e, steps, key, x) <==>
            Adds(Run(e, init), last, key, x) || (Added(e, init, key, x) && !Erases(Run(e, init), last, key))
  {
    AddedLast(e, steps, key, x);
    if Added(e, steps, key, x) {
      var n: nat :| AddedAt(e, steps, key, x, n);
      if n < |steps| - 1 {
        AddedStays(e, steps, key, x, n);
      }
    }
    if Added(e, steps[..|steps| - 1], key, x) {
      var n: nat :| AddedAt(e, steps[..|steps| - 1], key, x, n);
      AddedStays(e, steps, key, x, n);
    }
  }

  lemma StoreStep(e: Env, s: State, step: Step, key: StoreKey, x: Contribution)
    ensures x in BodyAt(Next(e, s, step).store, key) <==>
            Adds(s, step, key, x) || (x in BodyAt(s.store, key) && !Erases(s, step, key))
  {
    match step {
      case Put(i, stored) =>
      case SyncIn(k, body) =>
      case _ => StoreKept(e, s, step);
    }
  }

  lemma StoreKept(e: Env, s: State, step: Step)
    requires !step.Put? && !step.SyncIn?
    ensures Next(e, s, step).store == s.store
  {
    match step {
      case Look(_) =>
      case Send(_) =>
      case Execute(_) =>
      case _ =>
    }
  }

  /** Who is in a stored document, in every run: exactly those whose write landed or who arrived from a peer since it
      was last deleted. */
  lemma {:induction false} StoreIff(e: Env, steps: seq<Step>, key: StoreKey, x: Contribution)
    ensures x in BodyAt(Run(e, steps).store, key) <==> Added(e, steps, key, x)
  {
    if steps != [] {
      StoreIff(e, steps[..|steps| - 1], key, x);
      AddedSnoc(e, steps, key, x);
      StoreStep(e, Run(e, steps[..|steps| - 1]), steps[|steps| - 1], key, x);
    }
  }

  // ---- who is in the peers' copy -----------------------------------------------------

  ghost predicate SpreadAt(e: Env, steps: seq<Step>, key: StoreKey, x: Contribution, n: nat) {
    && n < |steps|
    && ((steps[n].RemoteWrite? && steps[n].key == key && x == Remote(steps[n].id))
        || (steps[n] == SyncOut(key) && Added(e, steps[..n], key, x)))
  }

  ghost predicate Spread(e: Env, steps: seq<Step>, key: StoreKey, x: Contribution) {
    exists n: nat :: SpreadAt(e, steps, key, x, n)
  }

  lemma RemoteStep(e: Env, s: State, step: Step, key: StoreKey, x: Contribution)
    ensures x in BodyAt(Next(e, s, step).remote, key) <==>
            || x in BodyAt(s.remote, key)
            || (step.RemoteWrite? && step.key == key && x == Remote(step.id))
            || (step == SyncOut(key) && x in BodyAt(s.store, key))
  {
    match step {
      case Look(_) =>
      case Send(_) =>
      case Execute(_) =>
      case _ =>
    }
  }

  lemma {:induction false} SpreadSnoc(e: Env, steps: seq<Step>, key: StoreKey, x: Contribution)
    requires steps != []
    ensures Spread(e, steps, key, x) <==>
            Spread(e, steps[..|steps| - 1], key, x) || SpreadAt(e, steps, key, x, |steps| - 1)
  {
    var init := steps[..|steps| - 1];
    forall n: nat | n < |init| ensures SpreadAt(e, init, key, x, n) <==> SpreadAt(e, steps, key, x, n) {
      assert init[..n] == steps[..n];
    }
  }

  /** Who is in the peers' copy, in every run: exactly the remote writers, and whoever was in the node's document when
      it was sent out. Nothing that is once shared is taken back. */
  lemma {:induction false} RemoteIff(e: Env, steps: seq<Step>, key: StoreKey, x: Contribution)
    ensures x in BodyAt(Run(e, steps).remote, key) <==> Spread(e, steps, key, x)
  {
    if steps != [] {
      RemoteIff(e, steps[..|steps| - 1], key, x);
      StoreIff(e, steps[..|steps| - 1], key, x);
      SpreadSnoc(e, steps, key, x);
      RemoteStep(e, Run(e, steps[..|steps| - 1]), steps[|steps| - 1], key, x);
    }
  }

  // ---- a turn of the reader ------------------------------------------------------------

  /** What the reader does not do itself, and the process goes on. */
  predicate Aside(step: Step) {
    !(step.Pick? || step.Read? || step.Check? || step.Abandon? || step.Crash?)
  }

  function Then(e: Env, s: State, steps: seq<Step>): State {
    if steps == [] then s else Next(e, Then(e, s, steps[..|steps| - 1]), steps[|steps| - 1])
  }

  lemma AsideStep(e: Env, s: State, step: Step)
    requires Aside(step)
    ensures Next(e, s, step).reader == s.reader && Next(e, s, step).offered == s.offered
  {
    match step {
      case Look(_) =>
      case Send(_) =>
      case Execute(_) =>
      case _ =>
    }
  }

  lemma {:induction false} AsideKeeps(e: Env, s: State, steps: seq<Step>)
    requires forall k :: 0 <= k < |steps| ==> Aside(steps[k])
    ensures Then(e, s, steps).reader == s.reader && Then(e, s, steps).offered == s.offered
  {
    if steps != [] {
      AsideKeeps(e, s, steps[..|steps| - 1]);
      AsideStep(e, Then(e, s, steps[..|steps| - 1]), steps[|steps| - 1]);
    }
  }

  /** A running, healthy ledger does not know the document. */
  predicate Unknown(e: Env, s: State, collection: Text, docId: Text) {
    && s.ledger.worker.Some? && s.ledger.worker.value.healthy
    && DocumentDigest(e.hash, collection, docId) !in s.ledger.worker.value.index
  }

  lemma PickExact(e: Env, s: State, collection: Text, docId: Text)
    requires s.reader.Idle?
    ensures var picks := collection in e.collections && Unknown(e, s, collection, docId);
            Next(e, s, Pick(collection, docId)) == s.(reader := if picks then Picked(collection, docId) else Idle)
  {
  }

  lemma ReadExact(e: Env, s: State, fits: bool)
    ensures var s' := Next(e, s, Read(fits));
            && s'.offered == s.offered
            && (s.reader.Idle? ==> s'.reader == Idle)
            && (s.reader.Picked? ==>
                  var (c, d) := (s.reader.collection, s.reader.docId);
                  var found := fits && |c| <= 1024 && |d| <= 1024 && Key(c, d) in s.store;
                  s'.reader == if found then Hydrated(c, d, BodyAt(s.store, Key(c, d))) else Idle)
  {
  }

  lemma CheckExact(e: Env, s: State)
    requires s.reader.Idle? || s.reader.Hydrated?
    ensures var s' := Next(e, s, Check);
            && s'.reader == Idle
            && (s.reader.Idle? ==> s'.offered == s.offered)
            && (s.reader.Hydrated? ==>
                  var offer := Offer(s.reader.collection, s.reader.docId, s.reader.body);
                  s'.offered == s.offered
                                + if Unknown(e, s, offer.collection, offer.docId) then [offer] else [])
  {
  }

  /** The node when the candidate is read, and when it is checked again, after steps that are not the reader's. */
  function Reading(e: Env, s: State, collection: Text, docId: Text, a: seq<Step>): State {
    Then(e, Next(e, s, Pick(collection, docId)), a)
  }

  function Checking(e: Env, s: State, fits: bool, b: seq<Step>): State {
    Then(e, Next(e, s, Read(fits)), b)
  }

  lemma ReadingExact(e: Env, s: State, collection: Text, docId: Text, a: seq<Step>)
    requires s.reader.Idle? && forall k :: 0 <= k < |a| ==> Aside(a[k])
    ensures var picks := collection in e.collections && Unknown(e, s, collection, docId);
            && Reading(e, s, collection, docId, a).reader == (if picks then Picked(collection, docId) else Idle)
            && Reading(e, s, collection, docId, a).offered == s.offered
  {
    PickExact(e, s, collection, docId);
    AsideKeeps(e, Next(e, s, Pick(collection, docId)), a);
  }

  lemma CheckingExact(e: Env, s: State, fits: bool, b: seq<Step>)
    requires forall k :: 0 <= k < |b| ==> Aside(b[k])
    ensures Checking(e, s, fits, b).reader == Next(e, s, Read(fits)).reader
    ensures Checking(e, s, fits, b).offered == s.offered
  {
    ReadExact(e, s, fits);
    AsideKeeps(e, Next(e, s, Read(fits)), b);
  }

  /** One candidate of a scan, with local writes, records, synchronisation and installation going on in between: it is
      offered, with the body it had when it was read, if and only if it is mapped, there, within the limits, and
      unknown to a healthy ledger both before and after it was read. */
  lemma ReaderExact(e: Env, s: State, collection: Text, docId: Text, a: seq<Step>, fits: bool, b: seq<Step>)
    requires s.reader.Idle? && (forall k :: 0 <= k < |a| ==> Aside(a[k])) && (forall k :: 0 <= k < |b| ==> Aside(b[k]))
    ensures var reading := Reading(e, s, collection, docId, a);
            var checking := Checking(e, reading, fits, b);
            var s' := Next(e, checking, Check);
            var offers := && collection in e.collections && Unknown(e, s, collection, docId)
                          && fits && |collection| <= 1024 && |docId| <= 1024 && Key(collection, docId) in reading.store
                          && Unknown(e, checking, collection, docId);
            var offer := Offer(collection, docId, BodyAt(reading.store, Key(collection, docId)));
            s'.reader == Idle && s'.offered == s.offered + if offers then [offer] else []
  {
    ReadingExact(e, s, collection, docId, a);
    var reading := Reading(e, s, collection, docId, a);
    ReadExact(e, reading, fits);
    CheckingExact(e, reading, fits, b);
    CheckExact(e, Checking(e, reading, fits, b));
  }

  // ---- a local write ends, and a crash -------------------------------------------------

  /** A cleared write is over with its store step, successfully if and only if it landed; no other writer moves. */
  lemma PutEnds(e: Env, s: State, i: nat, stored: bool)
    requires i < |s.writers| && s.writers[i].at.Cleared?
    ensures var s' := Next(e, s, Put(i, stored));
            s'.writers == s.writers[i := s.writers[i].(at := if Lands(s, Put(i, stored)) then Finished else Failed)]
  {
  }

  /** A crash leaves the file, the store and the peers, and nothing else. */
  lemma CrashExact(e: Env, s: State)
    ensures var s' := Next(e, s, Crash);
            && s'.ledger.disk == s.ledger.disk && s'.store == s.store && s'.remote == s.remote
            && s'.offered == s.offered
            && s'.ledger.worker.None? && !s'.installed && s'.writers == [] && s'.waiting == [] && s'.reader == Idle
  {
  }
}
