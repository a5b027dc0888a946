/** The file-backed journal of `ledger.rs`: opening, recording and compacting, on files whose bytes the methods change
    in place. */
module Journal {
  import opened Wrappers
  import opened Bytes
  import opened Codec
  import opened LedgerFile
  import opened JournalLog

  class File {
    var bytes: seq<byte>
    constructor (initial: seq<byte>)
      ensures bytes == initial
    { bytes := initial; }
  }

  /** The data directory: the file that has the journal's name. A rename replaces it. */
  class Directory {
    var active: File
    constructor (file: File)
      ensures active == file
    { active := file; }
  }

  /** Where a compaction ends: before the rename, after it but before the new file is open, or done. */
  datatype CompactIo = BeforeRename | AfterRename | Done

  /** The loop of `recover` over the complete chunks of the body. */
  method ReplayChunks(hash: Hash, kind: JournalKind, body: seq<byte>, complete: nat)
    returns (r: Result<Index, LedgerError>)
    requires 80 * complete <= |body|
    ensures r == Replay(hash, kind, body, complete)
  {
    r := Ok(map[]);
    var n := 0;
    while n < complete && r.Ok?
      invariant 0 <= n <= complete
      invariant r == Replay(hash, kind, body, n)
    {
      r := ReplayChunk(hash, kind, Chunk(body, n), n + 1, r.value);
      n := n + 1;
    }
    if r.Err? {
      ReplayStops(hash, kind, body, n, complete);
    }
  }

  /** The readable records are followed by bytes that recovery cuts off. */
  predicate Torn(hash: Hash, kind: JournalKind, bytes: seq<byte>) {
    RecoveredBytes(hash, kind, bytes) != bytes
  }

  /** `recover`: reads the whole file, replays its complete records and cuts a torn tail. The cut may fail, before or
      after it reached the file. */
  method Recover(file: File, hash: Hash, kind: JournalKind, io: Io) returns (r: Result<Recovered, LedgerError>)
    modifies file
    ensures var found := old(file.bytes);
            if io.FailedAfter? && Torn(hash, kind, found)
            then r == Err(Unavailable)
                 && file.bytes == (if io.written == 0 then found else RecoveredBytes(hash, kind, found))
            else r == RecoverResult(hash, kind, found) && file.bytes == RecoveredBytes(hash, kind, found)
  {
    var bytes := file.bytes;
    if !HeaderOk(kind, bytes) {
      return Err(Corrupt);
    }
    var complete := RecordCount(bytes);
    var index := ReplayChunks(hash, kind, bytes[HEADER_LEN..], complete);
    if index.Err? {
      return Err(index.error);
    }
    if HEADER_LEN + 80 * complete != |bytes| {
      if io.FailedAfter? && io.written == 0 {
        return Err(Unavailable);
      }
      file.bytes := bytes[..HEADER_LEN + 80 * complete];
      if io.FailedAfter? {
        return Err(Unavailable);
      }
    }
    return Ok(Recovered(complete, complete, index.value));
  }

  class Journal {
    const hash: Hash
    const kind: JournalKind
    const dir: Directory
    var file: File
    var sequence: nat
    var records: nat
    var index: Index
    /** The history this journal has written. */
    ghost var log: seq<Record>

    /** The open file is the named one and holds the history. */
    ghost predicate Valid()
      reads this, dir, file
    {
      && file == dir.active
      && file.bytes == Image(hash, kind, log)
      && Live(kind, log)
      && sequence == records == |log| <= MAX_RECORDS
      && index == IndexOf(log)
    }

    constructor (hash: Hash, kind: JournalKind, dir: Directory, recovered: Recovered, ghost log: seq<Record>)
      requires dir.active.bytes == Image(hash, kind, log) && Live(kind, log) && |log| <= MAX_RECORDS
      requires recovered == Recovered(|log|, |log|, IndexOf(log))
      ensures Valid() && this.log == log && this.dir == dir && this.hash == hash && this.kind == kind
    {
      this.hash, this.kind, this.dir, this.file := hash, kind, dir, dir.active;
      this.sequence, this.records, this.index := recovered.sequence, recovered.records, recovered.index;
      this.log := log;
    }

    /** `Journal::open`. An empty file gets a header, of which a failed write leaves any part; anything else is
        recovered, with a cut that may fail, or left as it was found. */
    static method Open(hash: Hash, kind: JournalKind, dir: Directory, io: Io)
      returns (r: Result<Journal, LedgerError>)
      requires io.FailedAfter? ==> io.written <= HEADER_LEN
      modifies dir.active
      ensures r.Ok? ==> fresh(r.value) && r.value.Valid()
                        && r.value.dir == dir && r.value.hash == hash && r.value.kind == kind
                        && ReserveFirst(r.value.log)
      ensures var found := old(dir.active.bytes);
              if found == [] && io.FailedAfter?
              then r == Err(Unavailable) && dir.active.bytes == Header(kind)[..io.written]
              else match OpenResult(hash, kind, found)
                   case Err(error) => r == Err(error) && dir.active.bytes == found
                   case Ok(recovered) =>
                     if io.FailedAfter? && Torn(hash, kind, found)
                     then r == Err(Unavailable)
                          && dir.active.bytes == (if io.written == 0 then found else RecoveredBytes(hash, kind, found))
                     else r.Ok? && r.value.index == recovered.index
    {
      if |dir.active.bytes| == 0 {
        if io.FailedAfter? {
          dir.active.bytes := Header(kind)[..io.written];
          return Err(Unavailable);
        }
        dir.active.bytes := Header(kind);
        NewFile(hash, kind);
      } else if |dir.active.bytes| > MAX_FILE_BYTES {
        return Err(Capacity);
      }
      ghost var found := dir.active.bytes;
      var recovered := Recover(dir.active, hash, kind, io);
      if recovered.Err? {
        return Err(recovered.error);
      }
      ghost var log := RecoveredLog(hash, kind, found);
      var journal := new Journal(hash, kind, dir, recovered.value, log);
      return Ok(journal);
    }

    /** `record_inner`. Suppresses known digests, appends and syncs new ones, and on an I/O error leaves a prefix of the
        record in the file without touching the index. */
    method Record(digest: Digest, state: RecordState, io: Io) returns (r: Result<bool, LedgerError>)
      requires Valid()
      requires io.FailedAfter? ==> io.written <= RECORD_LEN
      modifies this, file
      ensures |file.bytes| <= MAX_FILE_BYTES
      ensures match Decide(kind, old(index), digest, state)
              case Refuse(error) => r == Err(error) && Unchanged()
              case Known => r == Ok(false) && Unchanged()
              case Append => r == (if io.Durable? then Ok(true) else Err(Unavailable)) && Appended(digest, state, io)
      ensures Belongs(kind, state) && Covers(old(index), digest, state) ==> r == Ok(false) && Unchanged()
    {
      LivePermits(kind, log);
      DecideExact(kind, index, digest, state);
      match Decide(kind, index, digest, state) {
        case Refuse(error) => return Err(error);
        case Known => return Ok(false);
        case Append =>
          r := AppendRecord(digest, state, io);
      }
    }

    method AppendRecord(digest: Digest, state: RecordState, io: Io) returns (r: Result<bool, LedgerError>)
      requires Valid() && Decide(kind, index, digest, state) == Append
      requires io.FailedAfter? ==> io.written <= RECORD_LEN
      modifies this, file
      ensures r == (if io.Durable? then Ok(true) else Err(Unavailable)) && Appended(digest, state, io)
      ensures |file.bytes| <= MAX_FILE_BYTES
    {
      var rec := Codec.Record(sequence + 1, state, digest);
      AppendExtends(hash, kind, log, rec);
      if records >= MAX_RECORDS {
        assert false;  // compact() is never called
      }
      sequence := sequence + 1;
      r := WriteRecord(EncodeRecord(hash, rec), io);
      if r.Ok? {
        Enter(rec);
      }
    }

    /** The written record enters the index. */
    method Enter(rec: Record)
      requires file == dir.active && file.bytes == Image(hash, kind, log + [rec]) && Live(kind, log + [rec])
      requires sequence - 1 == records == |log| < MAX_RECORDS
      requires IndexOf(log + [rec]) == index[rec.digest := rec.state]
      modifies `index, `records, `log
      ensures Valid() && log == old(log) + [rec] && index == old(index)[rec.digest := rec.state]
    {
      index := index[rec.digest := rec.state];
      records := records + 1;
      log := log + [rec];
    }

    method WriteRecord(encoded: seq<byte>, io: Io) returns (r: Result<bool, LedgerError>)
      requires io.FailedAfter? ==> io.written <= |encoded|
      requires |file.bytes| + |encoded| <= MAX_FILE_BYTES
      modifies file
      ensures |file.bytes| <= MAX_FILE_BYTES
      ensures r == if io.Durable? then Ok(true) else Err(Unavailable)
      ensures file.bytes == old(file.bytes) + if io.Durable? then encoded else encoded[..io.written]
    {
      if io.FailedAfter? {
        file.bytes := file.bytes + encoded[..io.written];
        return Err(Unavailable);
      }
      file.bytes := file.bytes + encoded;
      return Ok(true);
    }

    /** One record longer; or, after an I/O error, a sequence number ahead of the file with a torn record. */
    twostate predicate Appended(digest: Digest, state: RecordState, io: Io)
      requires io.FailedAfter? ==> io.written <= RECORD_LEN
      requires old(sequence) < U64_MAX
      reads this, dir, file
    {
      var rec := Codec.Record(old(sequence) + 1, state, digest);
      && file == old(file)
      && if io.Durable?
         then Valid() && log == old(log) + [rec] && index == old(index)[digest := state]
              && file.bytes == old(file.bytes) + EncodeRecord(hash, rec)
         else index == old(index) && records == old(records) && log == old(log) && sequence == old(sequence) + 1
              && file.bytes == old(file.bytes) + EncodeRecord(hash, rec)[..io.written]
    }

    /** A call that changed nothing. */
    twostate predicate Unchanged()
      reads this, dir, file
    {
      && Valid() && file == old(file) && file.bytes == old(file.bytes) && index == old(index)
      && records == old(records) && sequence == old(sequence) && log == old(log)
    }

    /** `compact_inner`: writes a new file with one record per entry and renames it over the old one. The entries are
        taken in any order. A failure after the rename leaves the journal on the file it has open, which no longer has
        the journal's name. */
    method Compact(io: CompactIo) returns (r: Result<(), LedgerError>)
      requires Valid()
      modifies this, dir
      ensures index == old(index) && old(file).bytes == old(file.bytes)
      ensures io.BeforeRename? ==> r == Err(Unavailable) && Unchanged()
      ensures !io.BeforeRename? ==>
                fresh(dir.active) && (RecoverResult(hash, kind, dir.active.bytes).Ok? <==> CompletedKeys(index) == {})
      ensures io.AfterRename? ==> r == Err(Unavailable) && file == old(file) && log == old(log)
                                  && sequence == old(sequence) && records == old(records)
      ensures io.Done? ==> r == Ok(()) && Valid() && records == |index|
    {
      var compacted := Compacted(hash, kind, index, log);
      if io.BeforeRename? {
        return Err(Unavailable);
      }
      dir.active := new File(Image(hash, kind, compacted));
      if io.AfterRename? {
        return Err(Unavailable);
      }
      file := dir.active;
      log := compacted;
      sequence, records := |compacted|, |index|;
      return Ok(());
    }
  }

  lemma NewFile(hash: Hash, kind: JournalKind)
    ensures OpenResult(hash, kind, []) == RecoverResult(hash, kind, Header(kind))
    ensures RecoverResult(hash, kind, Header(kind)).Ok?
  {
    assert Header(kind) == Image(hash, kind, []) == Image(hash, kind, []) + [];
    RecoverHeld(hash, kind, Header(kind), [], []);
  }

  lemma RecoveredLog(hash: Hash, kind: JournalKind, found: seq<byte>) returns (log: seq<Record>)
    requires RecoverResult(hash, kind, found).Ok?
    ensures Live(kind, log) && ReserveFirst(log) && |log| <= MAX_RECORDS
    ensures RecoveredBytes(hash, kind, found) == Image(hash, kind, log)
    ensures RecoverResult(hash, kind, found).value == Recovered(|log|, |log|, IndexOf(log))
  {
    RecoverExact(hash, kind, found);
    var log', tail :| Holds(hash, kind, found, log', tail);
    log := log';
    RecoverHeld(hash, kind, found, log, tail);
    LogFits(kind, log);
  }

  /** The records of a compacted file. */
  method Compacted(hash: Hash, kind: JournalKind, index: Index, ghost log: seq<Record>) returns (compacted: seq<Record>)
    requires Live(kind, log) && index == IndexOf(log)
    ensures Live(kind, compacted) && IndexOf(compacted) == index && |compacted| == |index| <= MAX_RECORDS
    ensures RecoverResult(hash, kind, Image(hash, kind, compacted)).Ok? <==> CompletedKeys(index) == {}
  {
    LogFits(kind, log);
    var order := Enumerate(index.Keys);
    CompactedJournal(hash, kind, log, order);
    compacted := CompactedLog(index, order);
  }

  lemma {:induction false} CompactedJournal(hash: Hash, kind: JournalKind, log: seq<Record>, order: seq<Digest>)
    requires Live(kind, log) && Enumerates(order, IndexOf(log).Keys) && |order| == |IndexOf(log)| <= MAX_UNIQUE_ENTRIES
    ensures var (index, compacted) := (IndexOf(log), CompactedLog(IndexOf(log), order));
            && Live(kind, compacted) && IndexOf(compacted) == index
            && (RecoverResult(hash, kind, Image(hash, kind, compacted)).Ok? <==> CompletedKeys(index) == {})
  {
    var index := IndexOf(log);
    LivePermits(kind, log);
    CompactedIndex(kind, index, order, index.Keys);
    CompactionPreservesIff(hash, kind, index, order);
    assert Restrict(index, index.Keys) == index;
  }

  method Enumerate(keys: set<Digest>) returns (order: seq<Digest>)
    ensures Enumerates(order, keys) && |order| == |keys|
  {
    order := [];
    var rest := keys;
    while rest != {}
      invariant rest <= keys && |order| + |rest| == |keys|
      invariant Enumerates(order, keys - rest)
      decreases rest
    {
      var d :| d in rest;
      order, rest := order + [d], rest - {d};
    }
  }
}
