/** What one more record does to a journal whose last append failed. `record_inner` keeps its advanced sequence
    number after an error, and the worker goes on with commands that were queued before it. */
module TornJournal {
  import opened Wrappers
  import opened Bytes
  import opened Codec
  import opened LedgerFile
  import opened JournalLog

  /** The first eighty bytes behind the history once a whole record follows a torn one. */
  function Merged(torn: seq<byte>, next: seq<byte>): (s: seq<byte>)
    requires |torn| < RECORD_LEN && |next| == RECORD_LEN
    ensures |s| == RECORD_LEN
  {
    torn + next[..RECORD_LEN - |torn|]
  }

  /** What recovery makes of eighty bytes behind a history: one more record, or an error. */
  function ReadNext(hash: Hash, kind: JournalKind, log: seq<Record>, chunk: seq<byte>): Result<Recovered, LedgerError> {
    var read := ReplayChunk(hash, kind, chunk, |log| + 1, IndexOf(log));
    if read.Ok? then Ok(Recovered(|log| + 1, |log| + 1, read.value)) else Err(read.error)
  }

  lemma {:induction false} NextChunk(hash: Hash, kind: JournalKind, log: seq<Record>, chunk: seq<byte>, tail: seq<byte>)
    requires Live(kind, log) && ReserveFirst(log) && |log| < U64_MAX && |chunk| == RECORD_LEN && |tail| < RECORD_LEN
    ensures RecoverResult(hash, kind, Image(hash, kind, log) + (chunk + tail)) == ReadNext(hash, kind, log, chunk)
  {
    var file := Image(hash, kind, log) + (chunk + tail);
    SplitFile(hash, kind, file, log, chunk + tail);
    var body := file[HEADER_LEN..];
    ReplayOfLog(hash, kind, body, log);
    ChunkAt(body, |log|, chunk, tail);
    CountAt(file, |log| + 1);
  }

  lemma ChunkAt(body: seq<byte>, n: nat, chunk: seq<byte>, tail: seq<byte>)
    requires 80 * n <= |body| && body[80 * n..] == chunk + tail && |chunk| == RECORD_LEN
    ensures 80 * n + RECORD_LEN <= |body| && Chunk(body, n) == chunk
  {
    assert |body[80 * n..]| == |chunk| + |tail|;
    assert body[80 * n..][..RECORD_LEN] == chunk;
  }

  lemma CountAt(bytes: seq<byte>, n: nat)
    requires HEADER_LEN + 80 * n <= |bytes| < HEADER_LEN + 80 * n + RECORD_LEN
    ensures RecordCount(bytes) == n
  {
  }

  /** The file after `written` bytes of one record and all of the next. */
  function TornFile(hash: Hash, kind: JournalKind, log: seq<Record>, r1: Record, r2: Record, written: nat): seq<byte>
    requires written <= RECORD_LEN
  {
    Image(hash, kind, log) + EncodeRecord(hash, r1)[..written] + EncodeRecord(hash, r2)
  }

  lemma TornSplits(image: seq<byte>, torn: seq<byte>, next: seq<byte>)
    requires |torn| < RECORD_LEN && |next| == RECORD_LEN
    ensures image + torn + next == image + (Merged(torn, next) + next[RECORD_LEN - |torn|..])
  {
    assert torn + next == Merged(torn, next) + next[RECORD_LEN - |torn|..];
  }

  /** After a partial append, recovery makes of the next record's file what it makes of the merged bytes: an error, or
      one more record, with the rest cut off and the next record lost. */
  lemma {:induction false} NextAfterPartial(hash: Hash, kind: JournalKind, log: seq<Record>, r1: Record, r2: Record,
                                            written: nat)
    requires Live(kind, log) && ReserveFirst(log) && |log| < U64_MAX && written < RECORD_LEN
    ensures RecoverResult(hash, kind, TornFile(hash, kind, log, r1, r2, written)) ==
            ReadNext(hash, kind, log, Merged(EncodeRecord(hash, r1)[..written], EncodeRecord(hash, r2)))
  {
    var torn, next := EncodeRecord(hash, r1)[..written], EncodeRecord(hash, r2);
    var chunk, tail := Merged(torn, next), next[RECORD_LEN - written..];
    assert TornFile(hash, kind, log, r1, r2, written) == Image(hash, kind, log) + (chunk + tail) by {
      TornSplits(Image(hash, kind, log), torn, next);
    }
    NextChunk(hash, kind, log, chunk, tail);
  }

  /** Nothing written: the gap in the sequence is found, and the file is unreadable. */
  lemma {:induction false} NextAfterNothing(hash: Hash, kind: JournalKind, log: seq<Record>, r1: Record, r2: Record)
    requires Live(kind, log) && ReserveFirst(log) && |log| < U64_MAX && r2.sequence == |log| + 2
    ensures RecoverResult(hash, kind, TornFile(hash, kind, log, r1, r2, 0)) == Err(Corrupt)
  {
    var next := EncodeRecord(hash, r2);
    assert TornFile(hash, kind, log, r1, r2, 0) == Image(hash, kind, log) + (next + []);
    NextChunk(hash, kind, log, next, []);
    DecodeEncode(hash, r2);
  }

  /** Everything written and only the sync failed: both records are read, unless the second repeats the first. */
  lemma {:induction false} NextAfterWhole(hash: Hash, kind: JournalKind, log: seq<Record>, r1: Record, r2: Record)
    requires Live(kind, log) && ReserveFirst(log) && |log| < U64_MAX - 1
    requires r1.sequence == |log| + 1 && Decide(kind, IndexOf(log), r1.digest, r1.state) == Append
    requires r1.state == Completed ==> r1.digest in IndexOf(log)
    ensures var result := RecoverResult(hash, kind, TornFile(hash, kind, log, r1, r2, RECORD_LEN));
            var step := RecoverStep(kind, |log| + 2, IndexOf(log)[r1.digest := r1.state], r2);
            && (result.Ok? <==> step.Ok?)
            && (result.Ok? ==> result == Ok(Recovered(|log| + 2, |log| + 2, step.value)))
  {
    var first, next := EncodeRecord(hash, r1), EncodeRecord(hash, r2);
    LiveExtends(kind, log, r1);
    ImageExtends(hash, kind, log, r1);
    assert first[..RECORD_LEN] == first;
    assert TornFile(hash, kind, log, r1, r2, RECORD_LEN) == Image(hash, kind, log + [r1]) + (next + []);
    NextChunk(hash, kind, log + [r1], next, []);
    DecodeEncode(hash, r2);
  }

  lemma SameFields(hash: Hash, s: seq<byte>, r: Record)
    requires |s| == RECORD_LEN && s[..48] == RecordFields(r)
    ensures DecodeRecord(hash, s).Ok? <==> s == EncodeRecord(hash, r)
    ensures s == EncodeRecord(hash, r) ==> DecodeRecord(hash, s) == Ok(r)
  {
    DecodeEncode(hash, r);
    if DecodeRecord(hash, s).Ok? {
      EncodeDecode(hash, s);
      assert s == s[..48] + s[48..];
    }
  }

  /** Once all fields of the torn record are in the file, only that record can be read back, and it is exactly when
      the next record's first bytes happen to complete its checksum. */
  lemma NextCompletesChecksum(hash: Hash, r1: Record, r2: Record, written: nat)
    requires 48 <= written < RECORD_LEN
    ensures var chunk := Merged(EncodeRecord(hash, r1)[..written], EncodeRecord(hash, r2));
            && (DecodeRecord(hash, chunk).Ok? <==>
                EncodeRecord(hash, r1)[written..] == EncodeRecord(hash, r2)[..RECORD_LEN - written])
            && (DecodeRecord(hash, chunk).Ok? ==> DecodeRecord(hash, chunk) == Ok(r1))
  {
    var first, next := EncodeRecord(hash, r1), EncodeRecord(hash, r2);
    var chunk := Merged(first[..written], next);
    assert chunk[..48] == first[..48] == RecordFields(r1);
    assert chunk[written..] == next[..RECORD_LEN - written];
    assert first == first[..written] + first[written..];
    assert chunk == first <==> first[written..] == next[..RECORD_LEN - written];
    SameFields(hash, chunk, r1);
  }

  lemma {:induction false} TopByteZero(width: nat, v: nat)
    requires width > 0 && v < Pow256(width - 1)
    ensures BigEndian(width, v)[0] == 0
  {
    if width > 1 {
      TopByteZero(width - 1, v / 256);
    }
  }

  /** One byte short of a record whose checksum ends in zero, any later record completes it. */
  lemma LastByteReads(hash: Hash, r1: Record, r2: Record)
    requires r2.sequence < Pow256(7) && EncodeRecord(hash, r1)[79] == 0
    ensures DecodeRecord(hash, Merged(EncodeRecord(hash, r1)[..79], EncodeRecord(hash, r2))) == Ok(r1)
  {
    var first, next := EncodeRecord(hash, r1), EncodeRecord(hash, r2);
    TopByteZero(8, r2.sequence);
    assert next[0] == BigEndian(8, r2.sequence)[0];
    assert first[79..] == [0] == next[..1];
    NextCompletesChecksum(hash, r1, r2, 79);
  }

  /** It is then read instead of the later record, which is lost. */
  lemma {:induction false} LastByteZero(hash: Hash, kind: JournalKind, log: seq<Record>, r1: Record, r2: Record)
    requires Live(kind, log) && ReserveFirst(log) && |log| < U64_MAX - 1
    requires r1.sequence == |log| + 1 && r2.sequence < Pow256(7)
    requires RecoverStep(kind, |log| + 1, IndexOf(log), r1).Ok? && EncodeRecord(hash, r1)[79] == 0
    ensures RecoverResult(hash, kind, TornFile(hash, kind, log, r1, r2, 79)) ==
            Ok(Recovered(|log| + 1, |log| + 1, IndexOf(log)[r1.digest := r1.state]))
  {
    LastByteReads(hash, r1, r2);
    NextAfterPartial(hash, kind, log, r1, r2, 79);
  }
}
