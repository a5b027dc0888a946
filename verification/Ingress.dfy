/** Storing one accepted message (`process_item` in `ingress.rs`), with `create_bridge_document` of `node.rs` over a
    store that may fail at any attempt. */
module Ingress {
  datatype DocKey = DocKey(collection: string, docId: string)

  datatype CreateError = InvalidInput | AlreadyExists | Encryption | Conversion | StoreRead | StoreWrite | Ledger

  datatype CreateResult = Ok | Err(error: CreateError)

  /** What the environment does to one attempt. A failed write may have reached the store. */
  datatype Attempt = Succeeds | LedgerFails | ReadFails | ConversionFails | WriteFails(stored: bool)

  predicate IsTransient(e: CreateError) {
    e.StoreRead? || e.StoreWrite?
  }

  const STORE_MAX_ATTEMPTS := 3

  /** `create_bridge_document`: create-only, so a key that is present stays as it is. */
  function Create(present: bool, a: Attempt): (CreateResult, bool) {
    match a
    case LedgerFails => (Err(Ledger), present)
    case ReadFails => (Err(StoreRead), present)
    case _ =>
      if present then (Err(AlreadyExists), present)
      else
        match a
        case ConversionFails => (Err(Conversion), false)
        case WriteFails(stored) => (Err(StoreWrite), stored)
        case _ => (Ok, true)
  }

  /** Reference: keep trying while failures are transient and attempts are left. Result, presence, attempts used. */
  function Tries(present: bool, attempts: seq<Attempt>): (CreateResult, bool, nat)
    requires attempts != []
    decreases |attempts|
  {
    var (r, there) := Create(present, attempts[0]);
    if r.Err? && IsTransient(r.error) && |attempts| > 1 then
      var (r', there', used) := Tries(there, attempts[1..]);
      (r', there', used + 1)
    else (r, there, 1)
  }

  datatype Stats = Stats(received: nat, invalid: nat, stored: nat, finalFailures: nat)

  class Bridge {
    var documents: set<DocKey>
    var stats: Stats

    constructor ()
      ensures documents == {} && stats == Stats(0, 0, 0, 0)
    {
      documents, stats := {}, Stats(0, 0, 0, 0);
    }

    method CreateBridgeDocument(key: DocKey, a: Attempt) returns (r: CreateResult)
      modifies this`documents
      ensures (r, key in documents) == Create(key in old(documents), a)
      ensures documents - {key} == old(documents) - {key}
    {
      if a.LedgerFails? {
        return Err(Ledger);
      }
      if a.ReadFails? {
        return Err(StoreRead);
      }
      if key in documents {
        return Err(AlreadyExists);
      }
      if a.ConversionFails? {
        return Err(Conversion);
      }
      if a.WriteFails? {
        documents := if a.stored then documents + {key} else documents;
        return Err(StoreWrite);
      }
      documents := documents + {key};
      return Ok;
    }

    /** `process_item`: one document id per message, at most three create-only attempts under it. An envelope that does
        not encode is reported and counted nowhere but under `received`. */
    method ProcessItem(valid: bool, encodes: bool, key: DocKey, attempts: seq<Attempt>) returns (used: nat)
      requires |attempts| == STORE_MAX_ATTEMPTS
      modifies this
      ensures documents - {key} == old(documents) - {key}
      ensures !valid ==> used == 0 && documents == old(documents)
                         && stats == old(stats).(received := old(stats).received + 1, invalid := old(stats).invalid + 1)
      ensures valid && !encodes ==> used == 0 && documents == old(documents)
                                    && stats == old(stats).(received := old(stats).received + 1)
      ensures valid && encodes ==>
                        var (r, there, n) := Tries(key in old(documents), attempts);
                        && used == n && (key in documents <==> there)
                        && stats == old(stats).(received := old(stats).received + 1,
                                                stored := old(stats).stored + (if r.Ok? then 1 else 0),
                                                finalFailures := old(stats).finalFailures + (if r.Ok? then 0 else 1))
    {
      stats := stats.(received := stats.received + 1);
      if !valid {
        stats := stats.(invalid := stats.invalid + 1);
        return 0;
      }
      if !encodes {
        return 0;
      }
      used := 0;
      assert attempts[0..] == attempts;
      while true
        invariant 0 <= used < |attempts|
        invariant documents - {key} == old(documents) - {key}
        invariant stats == old(stats).(received := old(stats).received + 1)
        invariant var (r, there, n) := Tries(key in documents, attempts[used..]);
                  (r, there, n + used) == Tries(key in old(documents), attempts)
        decreases |attempts| - used
      {
        assert attempts[used..][1..] == attempts[used + 1..];
        var r := CreateBridgeDocument(key, attempts[used]);
        used := used + 1;
        if r.Ok? {
          stats := stats.(stored := stats.stored + 1);
          return;
        }
        if IsTransient(r.error) && used < |attempts| {
          continue;
        }
        stats := stats.(finalFailures := stats.finalFailures + 1);
        return;
      }
    }
  }

  predicate Lands(a: Attempt) {
    a == WriteFails(true)
  }

  /** The document is there before attempt `i`. */
  ghost predicate Landed(present: bool, attempts: seq<Attempt>, i: nat)
    requires i <= |attempts|
  {
    present || exists j :: 0 <= j < i && Lands(attempts[j])
  }

  /** Attempt `i` is not worth repeating: a failed read always is, and so is a failed write of a document that was not
      there. */
  ghost predicate Settles(present: bool, attempts: seq<Attempt>, i: nat)
    requires i < |attempts|
  {
    !(attempts[i].ReadFails? || (attempts[i].WriteFails? && !Landed(present, attempts, i)))
  }

  /** What an attempt answers, given whether the document is there. */
  function Answer(there: bool, a: Attempt): CreateResult {
    match a
    case LedgerFails => Err(Ledger)
    case ReadFails => Err(StoreRead)
    case Succeeds => if there then Err(AlreadyExists) else Ok
    case ConversionFails => Err(if there then AlreadyExists else Conversion)
    case WriteFails(_) => Err(if there then AlreadyExists else StoreWrite)
  }

  /** Exactly how the loop goes: it stops at the first attempt that settles the matter, or at the last one, with that
      attempt's answer. */
  lemma {:induction false} TriesExact(present: bool, attempts: seq<Attempt>)
    requires attempts != []
    ensures var (r, there, used) := Tries(present, attempts);
            && 1 <= used <= |attempts|
            && (forall i :: 0 <= i < used - 1 ==> !Settles(present, attempts, i))
            && (used < |attempts| ==> Settles(present, attempts, used - 1))
            && r == Answer(Landed(present, attempts, used - 1), attempts[used - 1])
            && (there <==> r.Ok? || Landed(present, attempts, used))
    decreases |attempts|
  {
    var (r0, there0) := Create(present, attempts[0]);
    var rest := attempts[1..];
    if r0.Err? && IsTransient(r0.error) && |attempts| > 1 {
      TriesExact(there0, rest);
      assert there0 <==> present || Lands(attempts[0]);
      forall i | 0 <= i <= |rest| ensures Landed(there0, rest, i) <==> Landed(present, attempts, i + 1) {
        LandedRest(present, attempts, i);
      }
      assert forall i :: 0 <= i < |rest| ==> rest[i] == attempts[i + 1];
      assert forall i :: 0 <= i < |rest| ==> (Settles(there0, rest, i) <==> Settles(present, attempts, i + 1));
      var used := Tries(there0, rest).2;
      forall i | 0 <= i < used ensures !Settles(present, attempts, i) {
        if i > 0 {
          assert !Settles(there0, rest, i - 1);
        }
      }
    } else {
      assert Landed(present, attempts, 1) <==> present || Lands(attempts[0]);
    }
  }

  lemma LandedRest(present: bool, attempts: seq<Attempt>, i: nat)
    requires i < |attempts|
    ensures Landed(present || Lands(attempts[0]), attempts[1..], i) <==> Landed(present, attempts, i + 1)
  {
    var rest := attempts[1..];
    if j :| 0 <= j < i && Lands(rest[j]) {
      assert Lands(attempts[j + 1]);
    }
    if j :| 0 <= j < i + 1 && Lands(attempts[j]) {
      if j > 0 {
        assert Lands(rest[j - 1]);
      }
    }
  }

  /** Some attempt reaches the store, and only attempts that could not read or that wrote nothing came before. */
  ghost predicate Reaches(attempts: seq<Attempt>) {
    exists i :: 0 <= i < |attempts| && ReachesAt(attempts, i)
  }

  predicate ReachesAt(attempts: seq<Attempt>, i: nat)
    requires i < |attempts|
  {
    && (attempts[i] == Succeeds || attempts[i] == WriteFails(true))
    && forall j :: 0 <= j < i ==> attempts[j] == ReadFails || attempts[j] == WriteFails(false)
  }

  /** Exactly when a new message ends up stored. */
  lemma {:induction false} ReachesIff(attempts: seq<Attempt>)
    requires attempts != []
    ensures Tries(false, attempts).1 <==> Reaches(attempts)
    decreases |attempts|
  {
    var first, rest := attempts[0], attempts[1..];
    if first == Succeeds || first == WriteFails(true) {
      assert ReachesAt(attempts, 0);
      if first == WriteFails(true) && rest != [] {
        PresentStays(rest);
      }
    } else if (first == ReadFails || first == WriteFails(false)) && rest != [] {
      ReachesIff(rest);
      if Reaches(rest) {
        var i :| 0 <= i < |rest| && ReachesAt(rest, i);
        assert ReachesAt(attempts, i + 1);
      }
      if Reaches(attempts) {
        var i :| 0 <= i < |attempts| && ReachesAt(attempts, i);
        assert ReachesAt(rest, i - 1);
      }
    }
  }

  /** However the attempts go, a message is stored at most once and counted stored only if it is there. It is there
      although a failure was counted if and only if some attempt that was made failed after writing. */
  lemma {:induction false} StoredIff(attempts: seq<Attempt>)
    requires attempts != []
    ensures var (r, there, used) := Tries(false, attempts);
            && 1 <= used <= |attempts|
            && (r.Ok? ==> there)
            && (there && r.Err? <==> exists i :: 0 <= i < used && Lands(attempts[i]))
  {
    var (r0, there0) := Create(false, attempts[0]);
    if r0.Err? && IsTransient(r0.error) && |attempts| > 1 {
      if there0 {
        PresentStays(attempts[1..]);
        assert Lands(attempts[0]);
      } else {
        StoredIff(attempts[1..]);
        var used := Tries(false, attempts[1..]).2;
        assert forall i :: 0 <= i < used ==> attempts[1..][i] == attempts[i + 1];
        if i :| 0 <= i < used && Lands(attempts[1..][i]) {
          assert Lands(attempts[i + 1]);
        }
        if i :| 0 <= i < used + 1 && Lands(attempts[i]) {
          assert Lands(attempts[1..][i - 1]);
        }
      }
    } else {
      assert Tries(false, attempts).2 == 1;
      if there0 && r0.Err? {
        assert Lands(attempts[0]);
      }
    }
  }

  /** Once written, every further attempt under the same id is refused. */
  lemma {:induction false} PresentStays(attempts: seq<Attempt>)
    requires attempts != []
    ensures var (r, there, used) := Tries(true, attempts); r.Err? && there && 1 <= used <= |attempts|
  {
    if attempts[0].ReadFails? && |attempts| > 1 {
      PresentStays(attempts[1..]);
    }
  }
}
