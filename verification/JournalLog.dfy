/** What the bytes of a suppression journal mean: record histories, the index they build, and the recovery
    that `ledger.rs` runs on reopening. Values only; the file-backed journal is in `Journal.dfy`. */
module JournalLog {
  import opened Wrappers
  import opened Bytes
  import opened Codec
  import opened LedgerFile

  type Index = map<Digest, RecordState>
  datatype Recovered = Recovered(sequence: nat, records: nat, index: Index)

  const MAX_UNIQUE_ENTRIES: nat := 262_144
  const MAX_RECORDS: nat := 524_288
  const MAX_FILE_BYTES: nat := HEADER_LEN + 80 * MAX_RECORDS

  predicate Permits(kind: JournalKind, state: RecordState) {
    match kind
    case Exclusion => state == LocalExcluded
    case Delivery => state == Reserved || state == Completed
  }

  // ---- histories ------------------------------------------------------------

  /** Last state recorded for each digest. */
  function IndexOf(log: seq<Record>): Index {
    if log == [] then map[]
    else IndexOf(log[..|log| - 1])[log[|log| - 1].digest := log[|log| - 1].state]
  }

  /** The transition test of `record_inner`: a new digest, or Reserved to Completed. */
  predicate LiveAccepts(index: Index, digest: Digest, state: RecordState) {
    digest !in index || (index[digest] == Reserved && state == Completed)
  }

  /** Histories that `record` calls can produce, numbered from one. */
  ghost predicate Live(kind: JournalKind, log: seq<Record>) {
    log != [] ==>
      var (before, last) := (log[..|log| - 1], log[|log| - 1]);
      && Live(kind, before)
      && last.sequence == |log|
      && Permits(kind, last.state)
      && LiveAccepts(IndexOf(before), last.digest, last.state)
      && |IndexOf(log)| <= MAX_UNIQUE_ENTRIES
  }

  /** No Completed record without a Reserved record before it. */
  ghost predicate ReserveFirst(log: seq<Record>) {
    log != [] ==>
      var (before, last) := (log[..|log| - 1], log[|log| - 1]);
      ReserveFirst(before) && (last.state == Completed ==> last.digest in IndexOf(before))
  }

  function CompletedKeys(index: Index): set<Digest> {
    set d | d in index && index[d] == Completed
  }

  lemma KeysGrow(index: Index, d: Digest, state: RecordState)
    ensures |index[d := state]| == |index| + (if d in index then 0 else 1)
  {
    assert index[d := state].Keys == index.Keys + {d};
    assert |index[d := state].Keys| == |index[d := state]| && |index.Keys| == |index|;
  }

  lemma CompletedGrow(index: Index, d: Digest, state: RecordState)
    requires LiveAccepts(index, d, state)
    ensures |CompletedKeys(index[d := state])| == |CompletedKeys(index)| + (if state == Completed then 1 else 0)
  {
    var now, was := CompletedKeys(index[d := state]), CompletedKeys(index);
    assert d !in was;
    if state == Completed {
      assert now == was + {d};
    } else {
      assert now == was;
    }
  }

  /** Each digest costs one record, and one more once completed, so the compaction threshold of twice
      the entry cap is an upper bound on every journal. */
  lemma {:induction false} RecordsBounded(kind: JournalKind, log: seq<Record>)
    requires Live(kind, log)
    ensures |log| <= |IndexOf(log)| + |CompletedKeys(IndexOf(log))|
    ensures ReserveFirst(log) ==> |log| == |IndexOf(log)| + |CompletedKeys(IndexOf(log))|
    ensures |IndexOf(log)| <= MAX_UNIQUE_ENTRIES
  {
    if log != [] {
      var (before, last) := (log[..|log| - 1], log[|log| - 1]);
      RecordsBounded(kind, before);
      KeysGrow(IndexOf(before), last.digest, last.state);
      CompletedGrow(IndexOf(before), last.digest, last.state);
    }
  }

  /** Whenever `record_inner` gets past its entry cap, `records >= MAX_RECORDS` is false: the call to
      `compact` is dead code for every journal that `record` itself has grown. */
  lemma {:induction false} CompactionUnreachable(kind: JournalKind, log: seq<Record>, digest: Digest,
                                                 state: RecordState)
    requires Live(kind, log)
    requires Decide(kind, IndexOf(log), digest, state) == Append
    ensures |log| < MAX_RECORDS
    ensures HEADER_LEN + 80 * |log| + RECORD_LEN <= MAX_FILE_BYTES
  {
    RecordsBounded(kind, log);
    var index := IndexOf(log);
    var done := CompletedKeys(index);
    SubsetSize(done, index.Keys);
    if digest in index {
      assert done <= index.Keys - {digest};
      SubsetSize(done, index.Keys - {digest});
    }
  }

  lemma SubsetSize<T>(a: set<T>, b: set<T>)
    requires a <= b
    ensures |a| <= |b|
  {
    assert b == a + (b - a);
  }

  datatype Decision = Refuse(error: LedgerError) | Known | Append

  /** The decision part of `record_inner`, in its order of tests. */
  function Decide(kind: JournalKind, index: Index, digest: Digest, state: RecordState): (r: Decision)
    ensures r == Append ==> Permits(kind, state) && LiveAccepts(index, digest, state)
    ensures r == Append && digest !in index ==> |index| < MAX_UNIQUE_ENTRIES
  {
    if !Permits(kind, state) then Refuse(Corrupt)
    else if digest in index && state == LocalExcluded && index[digest] == LocalExcluded then Known
    else if digest in index && state == Reserved && index[digest] != LocalExcluded then Known
    else if digest in index && state == Completed && index[digest] == Completed then Known
    else if digest in index && !(index[digest] == Reserved && state == Completed) then Refuse(Corrupt)
    else if digest !in index && |index| >= MAX_UNIQUE_ENTRIES then Refuse(Capacity)
    else Append
  }

  /** The states of a journal's own protocol: one for exclusions, two for deliveries. */
  predicate Belongs(kind: JournalKind, state: RecordState) {
    kind.Exclusion? <==> state == LocalExcluded
  }

  /** The index already says what the record would: anything but the completion of a reservation. */
  predicate Covers(index: Index, digest: Digest, state: RecordState) {
    digest in index && !(index[digest] == Reserved && state == Completed)
  }

  lemma {:induction false} LivePermits(kind: JournalKind, log: seq<Record>)
    requires Live(kind, log)
    ensures forall d :: d in IndexOf(log) ==> Permits(kind, IndexOf(log)[d])
  {
    if log != [] { LivePermits(kind, log[..|log| - 1]); }
  }

  /** Exactly when a record is refused, known or appended, on an index of the journal's own states. */
  lemma DecideExact(kind: JournalKind, index: Index, digest: Digest, state: RecordState)
    requires forall d :: d in index ==> Permits(kind, index[d])
    ensures var r := Decide(kind, index, digest, state);
            && (r == Refuse(Corrupt) <==> !Belongs(kind, state))
            && (r == Refuse(Capacity) <==>
                  Belongs(kind, state) && digest !in index && |index| >= MAX_UNIQUE_ENTRIES)
            && (r == Known <==> Belongs(kind, state) && Covers(index, digest, state))
            && !(r == Refuse(Unavailable))
  {
  }

  /** So for every journal that `record` itself has grown. */
  lemma {:induction false} LiveAnswers(kind: JournalKind, log: seq<Record>, digest: Digest, state: RecordState)
    requires Live(kind, log) && Belongs(kind, state)
    ensures var (r, index) := (Decide(kind, IndexOf(log), digest, state), IndexOf(log));
            && r != Refuse(Corrupt)
            && (r == Refuse(Capacity) <==> digest !in index && |index| == MAX_UNIQUE_ENTRIES)
            && (r == Known <==> Covers(index, digest, state))
  {
    LivePermits(kind, log);
    RecordsBounded(kind, log);
    DecideExact(kind, IndexOf(log), digest, state);
  }

  /** Appending a record the decision allows extends a history. */
  lemma {:induction false} LiveExtends(kind: JournalKind, log: seq<Record>, r: Record)
    requires Live(kind, log) && r.sequence == |log| + 1
    requires Decide(kind, IndexOf(log), r.digest, r.state) == Append
    ensures Live(kind, log + [r])
    ensures IndexOf(log + [r]) == IndexOf(log)[r.digest := r.state]
    ensures ReserveFirst(log + [r]) <==> ReserveFirst(log) && (r.state == Completed ==> r.digest in IndexOf(log))
  {
    var next := log + [r];
    assert next[..|next| - 1] == log;
    RecordsBounded(kind, log);
    var (was, now) := (IndexOf(log), IndexOf(next));
    assert now.Keys == was.Keys + {r.digest};
    assert |now.Keys| == |now| && |was.Keys| == |was|;
  }

  // ---- bytes ----------------------------------------------------------------

  function EncodeAll(hash: Hash, log: seq<Record>): (s: seq<byte>)
    ensures |s| == 80 * |log|
  {
    if log == [] then [] else EncodeAll(hash, log[..|log| - 1]) + EncodeRecord(hash, log[|log| - 1])
  }

  /** The file that holds exactly this history. */
  function Image(hash: Hash, kind: JournalKind, log: seq<Record>): (s: seq<byte>)
    ensures |s| == HEADER_LEN + 80 * |log|
  {
    Header(kind) + EncodeAll(hash, log)
  }

  lemma ImageExtends(hash: Hash, kind: JournalKind, log: seq<Record>, r: Record)
    ensures Image(hash, kind, log + [r]) == Image(hash, kind, log) + EncodeRecord(hash, r)
  {
    assert (log + [r])[..|log|] == log;
  }

  lemma {:induction false} AppendExtends(hash: Hash, kind: JournalKind, log: seq<Record>, rec: Record)
    requires Live(kind, log) && rec.sequence == |log| + 1
    requires Decide(kind, IndexOf(log), rec.digest, rec.state) == Append
    ensures Live(kind, log + [rec]) && IndexOf(log + [rec]) == IndexOf(log)[rec.digest := rec.state]
    ensures Image(hash, kind, log + [rec]) == Image(hash, kind, log) + EncodeRecord(hash, rec)
    ensures |log| < MAX_RECORDS && |Image(hash, kind, log)| + RECORD_LEN <= MAX_FILE_BYTES
  {
    CompactionUnreachable(kind, log, rec.digest, rec.state);
    LiveExtends(kind, log, rec);
    ImageExtends(hash, kind, log, rec);
  }

  lemma {:induction false} LogFits(kind: JournalKind, log: seq<Record>)
    requires Live(kind, log)
    ensures |log| <= MAX_RECORDS && |IndexOf(log).Keys| == |IndexOf(log)| <= MAX_UNIQUE_ENTRIES
  {
    RecordsBounded(kind, log);
    SubsetSize(CompletedKeys(IndexOf(log)), IndexOf(log).Keys);
    assert |IndexOf(log).Keys| == |IndexOf(log)|;
  }

  // ---- recovery -------------------------------------------------------------

  /** One iteration of the loop in `recover`, for the record at position `n` counted from one. */
  function RecoverStep(kind: JournalKind, n: nat, index: Index, r: Record): (res: Result<Index, LedgerError>) {
    if r.sequence != n || !Permits(kind, r.state) then Err(Corrupt)
    else if n == U64_MAX then Err(Corrupt)
    else if (r.digest !in index && r.state != Completed)
         || (r.digest in index && index[r.digest] == Reserved && r.state == Completed) then
      var next := index[r.digest := r.state];
      if |next| > MAX_UNIQUE_ENTRIES then Err(Capacity) else Ok(next)
    else Err(Corrupt)
  }

  /** Complete records that fit behind the header. */
  function RecordCount(bytes: seq<byte>): (n: nat)
    requires |bytes| >= HEADER_LEN
    ensures HEADER_LEN + 80 * n <= |bytes| < HEADER_LEN + 80 * n + RECORD_LEN
  {
    (|bytes| - HEADER_LEN) / RECORD_LEN
  }

  function Chunk(body: seq<byte>, i: nat): (s: seq<byte>)
    requires 80 * i + RECORD_LEN <= |body|
    ensures |s| == RECORD_LEN
  {
    body[80 * i..80 * i + RECORD_LEN]
  }

  /** The index after the first `n` complete chunks of the body. */
  function Replay(hash: Hash, kind: JournalKind, body: seq<byte>, n: nat): (res: Result<Index, LedgerError>)
    requires 80 * n <= |body|
  {
    if n == 0 then Ok(map[])
    else
      var before := Replay(hash, kind, body, n - 1);
      if before.Err? then before else ReplayChunk(hash, kind, Chunk(body, n - 1), n, before.value)
  }

  function ReplayChunk(hash: Hash, kind: JournalKind, chunk: seq<byte>, n: nat, index: Index)
    : Result<Index, LedgerError>
  {
    var r := DecodeRecord(hash, chunk);
    if r.Err? then Err(r.error) else RecoverStep(kind, n, index, r.value)
  }

  /** A replay that has failed fails in the same way however much further it would have gone. */
  lemma {:induction false} ReplayStops(hash: Hash, kind: JournalKind, body: seq<byte>, n: nat, m: nat)
    requires n <= m && 80 * m <= |body|
    requires Replay(hash, kind, body, n).Err?
    ensures Replay(hash, kind, body, m) == Replay(hash, kind, body, n)
  {
    if n < m { ReplayStops(hash, kind, body, n, m - 1); }
  }

  /** Result of `recover` on a file's bytes. */
  function RecoverResult(hash: Hash, kind: JournalKind, bytes: seq<byte>): (res: Result<Recovered, LedgerError>) {
    if !HeaderOk(kind, bytes) then Err(Corrupt)
    else
      var n := RecordCount(bytes);
      var index := Replay(hash, kind, bytes[HEADER_LEN..], n);
      if index.Err? then Err(index.error) else Ok(Recovered(n, n, index.value))
  }

  /** The file `recover` leaves behind: the torn tail is cut only when every complete record was good. */
  function RecoveredBytes(hash: Hash, kind: JournalKind, bytes: seq<byte>): (s: seq<byte>)
    ensures RecoverResult(hash, kind, bytes).Err? ==> s == bytes
    ensures s <= bytes && |bytes| - |s| < RECORD_LEN
  {
    if RecoverResult(hash, kind, bytes).Err? then bytes
    else bytes[..HEADER_LEN + 80 * RecordCount(bytes)]
  }

  /** A file that is a recoverable history plus fewer bytes than a record. */
  ghost predicate Holds(hash: Hash, kind: JournalKind, bytes: seq<byte>, log: seq<Record>, tail: seq<byte>) {
    && bytes == Image(hash, kind, log) + tail
    && |tail| < RECORD_LEN
    && |log| < U64_MAX
    && Live(kind, log)
    && ReserveFirst(log)
  }

  lemma ChunkSplits(body: seq<byte>, n: nat)
    requires 80 * n + RECORD_LEN <= |body|
    ensures body[..80 * n + RECORD_LEN] == body[..80 * n] + Chunk(body, n)
  {
  }

  lemma {:induction false} ReplayOfLog(hash: Hash, kind: JournalKind, body: seq<byte>, log: seq<Record>)
    requires 80 * |log| <= |body| && |log| < U64_MAX
    requires body[..80 * |log|] == EncodeAll(hash, log)
    requires Live(kind, log)
    ensures ReserveFirst(log) ==> Replay(hash, kind, body, |log|) == Ok(IndexOf(log))
    ensures !ReserveFirst(log) ==> Replay(hash, kind, body, |log|) == Err(Corrupt)
  {
    if log != [] {
      var n := |log| - 1;
      var (before, last) := (log[..n], log[n]);
      ChunkSplits(body, n);
      Halves(body[..80 * n], Chunk(body, n), EncodeAll(hash, before), EncodeRecord(hash, last));
      ReplayOfLog(hash, kind, body, before);
      DecodeEncode(hash, last);
    }
  }

  lemma Halves(a: seq<byte>, b: seq<byte>, c: seq<byte>, d: seq<byte>)
    requires a + b == c + d && |a| == |c|
    ensures a == c && b == d
  {
    assert a == (a + b)[..|a|] && b == (a + b)[|a|..];
    assert c == (c + d)[..|a|] && d == (c + d)[|a|..];
  }

  lemma ReadChunk(hash: Hash, kind: JournalKind, chunk: seq<byte>, n: nat, index: Index) returns (r: Record)
    requires ReplayChunk(hash, kind, chunk, n, index).Ok?
    ensures EncodeRecord(hash, r) == chunk
    ensures ReplayChunk(hash, kind, chunk, n, index) == RecoverStep(kind, n, index, r)
  {
    r := DecodeRecord(hash, chunk).value;
    EncodeDecode(hash, chunk);
  }

  /** What one accepted step of recovery adds is again a recoverable history. */
  lemma {:induction false} StepExtends(kind: JournalKind, log: seq<Record>, r: Record)
    requires Live(kind, log) && ReserveFirst(log)
    requires RecoverStep(kind, |log| + 1, IndexOf(log), r).Ok?
    ensures Live(kind, log + [r]) && ReserveFirst(log + [r])
    ensures RecoverStep(kind, |log| + 1, IndexOf(log), r).value == IndexOf(log + [r])
    ensures |log + [r]| < U64_MAX
  {
    assert (log + [r])[..|log|] == log;
  }

  /** The history that a successful replay read. */
  lemma {:induction false} LogOfReplay(hash: Hash, kind: JournalKind, body: seq<byte>, n: nat)
    returns (log: seq<Record>)
    requires Readable(hash, kind, body, n)
    ensures Replays(hash, kind, body, n, log)
  {
    log := [];
    if n > 0 {
      ReplayLast(hash, kind, body, n);
      var before := LogOfReplay(hash, kind, body, n - 1);
      log := ReplayGrows(hash, kind, body, n - 1, before);
    }
  }

  ghost predicate Readable(hash: Hash, kind: JournalKind, body: seq<byte>, n: nat) {
    80 * n <= |body| && Replay(hash, kind, body, n).Ok?
  }

  /** `log` is what the first `n` chunks of the body hold. */
  ghost predicate Replays(hash: Hash, kind: JournalKind, body: seq<byte>, n: nat, log: seq<Record>)
    requires 80 * n <= |body|
  {
    && |log| == n && (n > 0 ==> n < U64_MAX)
    && EncodeAll(hash, log) == body[..80 * n]
    && Live(kind, log) && ReserveFirst(log)
    && Replay(hash, kind, body, n) == Ok(IndexOf(log))
  }

  lemma ReplayGrows(hash: Hash, kind: JournalKind, body: seq<byte>, n: nat, before: seq<Record>)
    returns (log: seq<Record>)
    requires 80 * n + RECORD_LEN <= |body| && Replays(hash, kind, body, n, before)
    requires ReplayChunk(hash, kind, Chunk(body, n), n + 1, IndexOf(before)).Ok?
    ensures Replays(hash, kind, body, n + 1, log)
  {
    var r := ReadChunk(hash, kind, Chunk(body, n), n + 1, IndexOf(before));
    log := before + [r];
    StepExtends(kind, before, r);
    EncodeSnoc(hash, before, r);
    ChunkSplits(body, n);
  }

  lemma ReplayLast(hash: Hash, kind: JournalKind, body: seq<byte>, n: nat)
    requires n > 0 && Readable(hash, kind, body, n)
    ensures Readable(hash, kind, body, n - 1)
    ensures Replay(hash, kind, body, n) ==
            ReplayChunk(hash, kind, Chunk(body, n - 1), n, Replay(hash, kind, body, n - 1).value)
  {
  }

  lemma {:induction false} EncodeSnoc(hash: Hash, log: seq<Record>, r: Record)
    ensures EncodeAll(hash, log + [r]) == EncodeAll(hash, log) + EncodeRecord(hash, r)
  {
    assert (log + [r])[..|log|] == log;
  }

  lemma Slices(a: seq<byte>, b: seq<byte>, c: seq<byte>)
    ensures (a + b + c)[..|a|] == a
    ensures (a + b + c)[|a|..] == b + c
    ensures (a + b + c)[|a|..][..|b|] == b
    ensures (a + b + c)[|a|..][|b|..] == c
    ensures (a + b + c)[..|a| + |b|] == a + b
  {
  }

  /** Where header, records and tail of a file lie. */
  lemma {:induction false} SplitFile(hash: Hash, kind: JournalKind, bytes: seq<byte>, log: seq<Record>, tail: seq<byte>)
    requires bytes == Image(hash, kind, log) + tail
    ensures HeaderOk(kind, bytes)
    ensures bytes[HEADER_LEN..][..80 * |log|] == EncodeAll(hash, log)
    ensures bytes[HEADER_LEN..][80 * |log|..] == tail
    ensures bytes[..HEADER_LEN + 80 * |log|] == Image(hash, kind, log)
    ensures |bytes[HEADER_LEN..]| == 80 * |log| + |tail|
    ensures |tail| < RECORD_LEN ==> RecordCount(bytes) == |log|
  {
    Slices(Header(kind), EncodeAll(hash, log), tail);
    HeaderOkIffHeader(kind, bytes);
  }

  /** Recovery of a held history: its index, its length, and its image as the remaining file. */
  lemma {:induction false} RecoverHeld(hash: Hash, kind: JournalKind, bytes: seq<byte>, log: seq<Record>,
                                       tail: seq<byte>)
    requires Holds(hash, kind, bytes, log, tail)
    ensures RecoverResult(hash, kind, bytes) == Ok(Recovered(|log|, |log|, IndexOf(log)))
    ensures RecoveredBytes(hash, kind, bytes) == Image(hash, kind, log)
  {
    SplitFile(hash, kind, bytes, log, tail);
    ReplayOfLog(hash, kind, bytes[HEADER_LEN..], log);
  }

  lemma ThreeParts(s: seq<byte>, m: nat, n: nat)
    requires m + n <= |s|
    ensures s == s[..m] + s[m..][..n] + s[m..][n..]
  {
  }

  lemma HeldIfRecovered(hash: Hash, kind: JournalKind, bytes: seq<byte>) returns (log: seq<Record>, tail: seq<byte>)
    requires RecoverResult(hash, kind, bytes).Ok?
    ensures Holds(hash, kind, bytes, log, tail)
  {
    var n := RecordCount(bytes);
    var body := bytes[HEADER_LEN..];
    log := LogOfReplay(hash, kind, body, n);
    tail := body[80 * n..];
    assert bytes[..HEADER_LEN] == Header(kind) by { HeaderOkIffHeader(kind, bytes); }
    ThreeParts(bytes, HEADER_LEN, 80 * n);
  }

  /** `recover` succeeds exactly on the files that hold a recoverable history. */
  lemma RecoverExact(hash: Hash, kind: JournalKind, bytes: seq<byte>)
    ensures RecoverResult(hash, kind, bytes).Ok? <==> exists log, tail :: Holds(hash, kind, bytes, log, tail)
  {
    if RecoverResult(hash, kind, bytes).Ok? {
      var log, tail := HeldIfRecovered(hash, kind, bytes);
    }
    forall log, tail | Holds(hash, kind, bytes, log, tail) ensures RecoverResult(hash, kind, bytes).Ok? {
      RecoverHeld(hash, kind, bytes, log, tail);
    }
  }

  /** A crash that leaves any prefix of the last append is recovered as the history before the append,
      or, when every byte reached the file, as the history with that one record. */
  lemma TornAppendRecovers(hash: Hash, kind: JournalKind, log: seq<Record>, r: Record, written: nat)
    requires Live(kind, log) && ReserveFirst(log) && r.sequence == |log| + 1 && written <= RECORD_LEN
    requires Decide(kind, IndexOf(log), r.digest, r.state) == Append
    requires r.state == Completed ==> r.digest in IndexOf(log)
    ensures var file := Image(hash, kind, log) + EncodeRecord(hash, r)[..written];
            var kept := if written < RECORD_LEN then log else log + [r];
            && |file| <= MAX_FILE_BYTES
            && RecoverResult(hash, kind, file) == Ok(Recovered(|kept|, |kept|, IndexOf(kept)))
            && RecoveredBytes(hash, kind, file) == Image(hash, kind, kept)
            && IndexOf(log + [r]) == IndexOf(log)[r.digest := r.state]
  {
    var file := Image(hash, kind, log) + EncodeRecord(hash, r)[..written];
    CompactionUnreachable(kind, log, r.digest, r.state);
    LiveExtends(kind, log, r);
    if written < RECORD_LEN {
      RecoverHeld(hash, kind, file, log, EncodeRecord(hash, r)[..written]);
    } else {
      ImageExtends(hash, kind, log, r);
      assert file == Image(hash, kind, log + [r]) + [];
      RecoverHeld(hash, kind, file, log + [r], []);
    }
  }

  /** Recovering twice is recovering once. */
  lemma RecoverIdempotent(hash: Hash, kind: JournalKind, bytes: seq<byte>)
    ensures RecoverResult(hash, kind, RecoveredBytes(hash, kind, bytes)) == RecoverResult(hash, kind, bytes)
    ensures RecoveredBytes(hash, kind, RecoveredBytes(hash, kind, bytes)) == RecoveredBytes(hash, kind, bytes)
  {
    RecoverExact(hash, kind, bytes);
    if RecoverResult(hash, kind, bytes).Ok? {
      var log, tail :| Holds(hash, kind, bytes, log, tail);
      RecoverHeld(hash, kind, bytes, log, tail);
      var cut := RecoveredBytes(hash, kind, bytes);
      assert cut == cut + [];
      RecoverHeld(hash, kind, cut, log, []);
    }
  }

  /** A history that `record` produced reopens exactly when it reserves before completing; the journal
      accepts a lone Completed record that it later refuses to read back. */
  lemma {:induction false} ReopensIffReserveFirst(hash: Hash, kind: JournalKind, log: seq<Record>)
    requires Live(kind, log)
    ensures RecoverResult(hash, kind, Image(hash, kind, log)).Ok? <==> ReserveFirst(log)
    ensures !ReserveFirst(log) ==> RecoverResult(hash, kind, Image(hash, kind, log)) == Err(Corrupt)
  {
    RecordsBounded(kind, log);
    SubsetSize(CompletedKeys(IndexOf(log)), IndexOf(log).Keys);
    var bytes := Image(hash, kind, log);
    assert bytes == bytes + [];
    SplitFile(hash, kind, bytes, log, []);
    ReplayOfLog(hash, kind, bytes[HEADER_LEN..], log);
  }

  /** A crash inside the first header write: reopening works exactly when no byte or every byte of the
      header reached the file. */
  lemma TornHeader(hash: Hash, kind: JournalKind, written: nat)
    requires written <= HEADER_LEN
    ensures var file := Header(kind)[..written];
            OpenResult(hash, kind, file).Ok? <==> written == 0 || written == HEADER_LEN
    ensures 0 < written < HEADER_LEN ==> OpenResult(hash, kind, Header(kind)[..written]) == Err(Corrupt)
  {
    var whole := Image(hash, kind, []);
    assert whole == Header(kind) + [] && whole + [] == whole;
    RecoverHeld(hash, kind, whole, [], []);
    assert Header(kind)[..HEADER_LEN] == whole;
  }

  /** `Journal::open` on the bytes found on disk. */
  function OpenResult(hash: Hash, kind: JournalKind, bytes: seq<byte>): Result<Recovered, LedgerError> {
    if |bytes| == 0 then RecoverResult(hash, kind, Header(kind))
    else if |bytes| > MAX_FILE_BYTES then Err(Capacity)
    else RecoverResult(hash, kind, bytes)
  }

  // ---- compaction -----------------------------------------------------------

  /** The records `compact_inner` writes for the index entries taken in the given order. */
  function CompactedLog(index: Index, order: seq<Digest>): (log: seq<Record>)
    requires |order| <= MAX_UNIQUE_ENTRIES
    requires forall d :: d in order ==> d in index
    ensures |log| == |order|
  {
    seq(|order|, i requires 0 <= i < |order| => assert order[i] in order; Record(i + 1, index[order[i]], order[i]))
  }

  ghost predicate Enumerates(order: seq<Digest>, keys: set<Digest>) {
    && (forall d :: d in order <==> d in keys)
    && (forall i, j :: 0 <= i < j < |order| ==> order[i] != order[j])
  }

  function Restrict(index: Index, keys: set<Digest>): Index
    requires keys <= index.Keys
  {
    map d | d in keys :: index[d]
  }

  lemma RestrictGrows(index: Index, keys: set<Digest>, d: Digest)
    requires keys <= index.Keys && d in keys
    ensures Restrict(index, keys) == Restrict(index, keys - {d})[d := index[d]]
  {
  }

  lemma EnumerateRest(order: seq<Digest>, keys: set<Digest>)
    requires order != [] && Enumerates(order, keys)
    ensures var n := |order| - 1;
            order[n] in keys && Enumerates(order[..n], keys - {order[n]})
  {
    var n := |order| - 1;
    assert order[n] in order;
    forall d | d in keys - {order[n]} ensures d in order[..n] {
      var i :| 0 <= i < |order| && order[i] == d;
      assert order[..n][i] == d;
    }
    forall d | d in order[..n] ensures d in keys - {order[n]} {
      var i :| 0 <= i < n && order[..n][i] == d;
      assert order[i] == d && d in order;
    }
  }

  lemma CompactedGrows(index: Index, order: seq<Digest>) returns (before: seq<Record>, last: Record)
    requires 0 < |order| <= MAX_UNIQUE_ENTRIES
    requires forall d :: d in order ==> d in index
    ensures var n := |order| - 1;
            && order[n] in index
            && before == CompactedLog(index, order[..n])
            && last == Record(n + 1, index[order[n]], order[n])
    ensures CompactedLog(index, order) == before + [last]
  {
    var n := |order| - 1;
    assert order[n] in order;
    before, last := CompactedLog(index, order[..n]), Record(n + 1, index[order[n]], order[n]);
  }

  lemma {:induction false} CompactedIndex(kind: JournalKind, index: Index, order: seq<Digest>, all: set<Digest>)
    requires |index| <= MAX_UNIQUE_ENTRIES && |order| <= MAX_UNIQUE_ENTRIES
    requires forall d :: d in index ==> Permits(kind, index[d])
    requires all <= index.Keys && Enumerates(order, all)
    ensures IndexOf(CompactedLog(index, order)) == Restrict(index, all)
    ensures Live(kind, CompactedLog(index, order))
    ensures ReserveFirst(CompactedLog(index, order)) <==> all !! CompletedKeys(index)
  {
    if order != [] {
      var n := |order| - 1;
      EnumerateRest(order, all);
      CompactedIndex(kind, index, order[..n], all - {order[n]});
      var before, last := CompactedGrows(index, order);
      assert |IndexOf(before)| < MAX_UNIQUE_ENTRIES by {
        assert IndexOf(before).Keys == all - {order[n]};
        SubsetSize(all, index.Keys);
        assert |IndexOf(before).Keys| == |IndexOf(before)| && |index.Keys| == |index|;
      }
      LiveExtends(kind, before, last);
      RestrictGrows(index, all, order[n]);
    } else {
      assert forall d :: d in all ==> d in order;
    }
  }

  /** Compaction keeps the index exactly when no entry is Completed; otherwise the compacted file holds a
      lone Completed record and the next open reports corruption. */
  lemma CompactionPreservesIff(hash: Hash, kind: JournalKind, index: Index, order: seq<Digest>)
    requires |index| <= MAX_UNIQUE_ENTRIES && |order| <= MAX_UNIQUE_ENTRIES
    requires forall d :: d in index ==> Permits(kind, index[d])
    requires Enumerates(order, index.Keys)
    ensures var file := Image(hash, kind, CompactedLog(index, order));
            && (CompletedKeys(index) == {} ==>
                  RecoverResult(hash, kind, file) == Ok(Recovered(|order|, |order|, index)))
            && (CompletedKeys(index) != {} ==> RecoverResult(hash, kind, file) == Err(Corrupt))
  {
    CompactedIndex(kind, index, order, index.Keys);
    var log := CompactedLog(index, order);
    var file := Image(hash, kind, log);
    ReopensIffReserveFirst(hash, kind, log);
    assert CompletedKeys(index) <= index.Keys;
    if CompletedKeys(index) == {} {
      assert file == file + [];
      assert Restrict(index, index.Keys) == index;
      RecoverHeld(hash, kind, file, log, []);
    }
  }
}
