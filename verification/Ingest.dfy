/** Atomic bundle ingest of `attachments/ingest.rs`: store every file, start every distribution, and undo on
    failure. What the file system, the blob store and the distributor answer is part of the input. */
module Ingest {
  import opened Wrappers
  datatype BlobHash = BlobHash(id: nat)

  /** One validated file and what happens when it is read: `content` is what the stream yields. */
  datatype File = File(index: nat, content: seq<int>, declared: nat, opens: bool, stores: bool)

  datatype Hashes = Hashes(blob: seq<int> -> BlobHash, sha256: seq<int> -> nat)

  datatype Ingested = Ingested(fileIndex: nat, token: BlobHash, handle: nat)

  datatype Error = OpenFailed(i: nat) | StoreFailed(i: nat) | Mismatch(i: nat) | DistributeFailed(i: nat)

  /** What ingesting one file comes to. */
  function Outcome(h: Hashes, f: File): Result<BlobHash, Error> {
    if !f.opens then Err(OpenFailed(f.index))
    else if !f.stores then Err(StoreFailed(f.index))
    else if h.sha256(f.content) != f.declared then Err(Mismatch(f.index))
    else Ok(h.blob(f.content))
  }

  predicate Good(h: Hashes, f: File) {
    f.opens && f.stores && h.sha256(f.content) == f.declared
  }

  function Tokens(h: Hashes, files: seq<File>): set<BlobHash> {
    set f | f in files :: h.blob(f.content)
  }

  lemma TokensSnoc(h: Hashes, files: seq<File>, f: File)
    ensures Tokens(h, files + [f]) == Tokens(h, files) + {h.blob(f.content)}
  {
    assert forall x :: x in files + [f] <==> x in files || x == f;
  }

  /** The content a failed ingest deletes for not matching its declaration. */
  function Mismatched(h: Hashes, files: seq<File>, k: nat): set<BlobHash>
    requires k <= |files|
  {
    if k < |files| && Outcome(h, files[k]).Err? && Outcome(h, files[k]).error.Mismatch?
    then {h.blob(files[k].content)} else {}
  }

  /** Reference for a failed request: the first `k` files were stored, the next failed or (`k == |files|`) a
      distribution did. Content new to the store goes again; whatever mismatched goes even if it was there before. */
  function Undone(h: Hashes, before: set<BlobHash>, stuck: set<BlobHash>, files: seq<File>, k: nat): set<BlobHash>
    requires k <= |files|
  {
    var m := Mismatched(h, files, k);
    (before - (m - stuck)) + ((Tokens(h, files[..k]) + m - before) * stuck)
  }

  /** With every delete succeeding, a failed request restores the store if and only if no mismatching content was
      already there. */
  lemma RestoredIff(h: Hashes, before: set<BlobHash>, files: seq<File>, k: nat)
    requires k <= |files|
    ensures Undone(h, before, {}, files, k) == before <==> Mismatched(h, files, k) !! before
  {
    var m := Mismatched(h, files, k);
    assert Undone(h, before, {}, files, k) == before - m;
    if before - m == before {
      forall x | x in m ensures x !in before {
        assert x !in before - m;
      }
    }
  }

  /** In general: nothing that was there is lost except a mismatch, and nothing new stays except what could not be
      deleted. */
  lemma UndoneBounds(h: Hashes, before: set<BlobHash>, stuck: set<BlobHash>, files: seq<File>, k: nat)
    requires k <= |files|
    ensures var after := Undone(h, before, stuck, files, k);
            before - after <= Mismatched(h, files, k) && after - before <= stuck
  {
  }

  /** `stuck` are the blobs whose deletion fails. */
  class BlobStore {
    var blobs: set<BlobHash>
    const stuck: set<BlobHash>

    constructor (blobs: set<BlobHash>, stuck: set<BlobHash>)
      ensures this.blobs == blobs && this.stuck == stuck
    {
      this.blobs, this.stuck := blobs, stuck;
    }

    method Delete(b: BlobHash)
      modifies this
      ensures blobs == if b in stuck then old(blobs) else old(blobs) - {b}
    {
      if b !in stuck {
        blobs := blobs - {b};
      }
    }

    /** `ingest_file`. */
    method IngestFile(h: Hashes, f: File) returns (r: Result<BlobHash, Error>)
      modifies this
      ensures r == Outcome(h, f)
      ensures blobs == match r
                       case Ok(token) => old(blobs) + {token}
                       case Err(Mismatch(_)) =>
                         (old(blobs) - ({h.blob(f.content)} - stuck)) + ({h.blob(f.content)} * stuck)
                       case Err(_) => old(blobs)
    {
      if !f.opens {
        return Err(OpenFailed(f.index));
      }
      if !f.stores {
        return Err(StoreFailed(f.index));
      }
      var token := h.blob(f.content);
      blobs := blobs + {token};
      if h.sha256(f.content) != f.declared {
        Delete(token);
        return Err(Mismatch(f.index));
      }
      return Ok(token);
    }

    /** `rollback`: best effort over the created tokens, never touching what was there before. */
    method Rollback(created: seq<BlobHash>, before: set<BlobHash>)
      modifies this
      ensures blobs == old(blobs) - ((set t | t in created) - before - stuck)
    {
      var i := 0;
      while i < |created|
        invariant 0 <= i <= |created|
        invariant forall b :: b in blobs <==> b in old(blobs) && !(b in created[..i] && b !in before && b !in stuck)
      {
        if created[i] !in before {
          Delete(created[i]);
        }
        assert created[..i + 1] == created[..i] + [created[i]];
        i := i + 1;
      }
      assert created[..i] == created;
    }

    /** `ingest_bundle`: all files stored and distributed in order, or the request undone. `answers` are the
        distributor's replies. */
    method IngestBundle(h: Hashes, files: seq<File>, answers: seq<Result<nat, Error>>)
      returns (r: Result<seq<Ingested>, Error>)
      requires |answers| == |files|
      modifies this
      ensures r.Ok? <==> (forall i :: 0 <= i < |files| ==> Good(h, files[i]) && answers[i].Ok?)
      ensures r.Ok? ==> blobs == old(blobs) + Tokens(h, files) && |r.value| == |files|
      ensures r.Ok? ==> forall i :: 0 <= i < |files| ==>
                          r.value[i] == Ingested(files[i].index, h.blob(files[i].content), answers[i].value)
      ensures r.Err? ==> exists k :: 0 <= k <= |files| && FailedAt(h, files, answers, k, r.error)
                                     && blobs == Undone(h, old(blobs), stuck, files, k)
    {
      var before := blobs;
      var created: seq<BlobHash> := [];
      var k := 0;
      while k < |files|
        invariant 0 <= k <= |files| && |created| == k
        invariant forall i :: 0 <= i < k ==> Good(h, files[i]) && created[i] == h.blob(files[i].content)
        invariant blobs == before + Tokens(h, files[..k])
      {
        assert files[..k + 1] == files[..k] + [files[k]];
        TokensSnoc(h, files[..k], files[k]);
        var one := IngestFile(h, files[k]);
        if one.Err? {
          CreatedTokens(h, files[..k], created);
          Rollback(created, before);
          assert blobs == Undone(h, before, stuck, files, k);
          return Err(one.error);
        }
        created := created + [one.value];
        k := k + 1;
      }
      assert files[..k] == files;
      r := Distribute(h, files, answers, created, before);
    }

    /** Second phase of `ingest_bundle`. */
    method Distribute(h: Hashes, files: seq<File>, answers: seq<Result<nat, Error>>, created: seq<BlobHash>,
                      before: set<BlobHash>)
      returns (r: Result<seq<Ingested>, Error>)
      requires |answers| == |files| == |created| && blobs == before + Tokens(h, files)
      requires forall i :: 0 <= i < |files| ==> Good(h, files[i]) && created[i] == h.blob(files[i].content)
      modifies this
      ensures r.Ok? <==> forall i :: 0 <= i < |files| ==> answers[i].Ok?
      ensures r.Ok? ==> blobs == old(blobs) && |r.value| == |files|
      ensures r.Ok? ==> forall i :: 0 <= i < |files| ==>
                          r.value[i] == Ingested(files[i].index, h.blob(files[i].content), answers[i].value)
      ensures r.Err? ==> FailedAt(h, files, answers, |files|, r.error)
                         && blobs == Undone(h, before, stuck, files, |files|)
    {
      var handles: seq<Ingested> := [];
      var i := 0;
      while i < |files|
        invariant 0 <= i <= |files| && |handles| == i && blobs == old(blobs)
        invariant forall j :: 0 <= j < i ==>
                    answers[j].Ok? && handles[j] == Ingested(files[j].index, created[j], answers[j].value)
      {
        if answers[i].Err? {
          CreatedTokens(h, files, created);
          Rollback(created, before);
          assert files[..|files|] == files;
          return Err(DistributeFailed(files[i].index));
        }
        handles := handles + [Ingested(files[i].index, created[i], answers[i].value)];
        i := i + 1;
      }
      return Ok(handles);
    }
  }

  /** The request failed at file `k`, the earlier ones being good, or in the distribution phase. */
  ghost predicate FailedAt(h: Hashes, files: seq<File>, answers: seq<Result<nat, Error>>, k: nat, e: Error)
    requires |answers| == |files| && k <= |files|
  {
    && (forall i :: 0 <= i < k ==> Good(h, files[i]))
    && (k < |files| ==> Outcome(h, files[k]) == Err(e))
    && (k == |files| ==> exists i :: 0 <= i < |files| && answers[i].Err? && e == DistributeFailed(files[i].index))
  }

  lemma CreatedTokens(h: Hashes, files: seq<File>, created: seq<BlobHash>)
    requires |created| == |files| && forall i :: 0 <= i < |files| ==> created[i] == h.blob(files[i].content)
    ensures (set t | t in created) == Tokens(h, files)
  {
    forall t | t in created ensures t in Tokens(h, files) {
      var i :| 0 <= i < |created| && created[i] == t;
      assert files[i] in files;
    }
    forall t | t in Tokens(h, files) ensures t in created {
      var f :| f in files && h.blob(f.content) == t;
      var i :| 0 <= i < |files| && files[i] == f;
      assert created[i] == t;
    }
  }
}
