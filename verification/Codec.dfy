/** The 80-byte journal record and the document digest of `ledger.rs`.
    SHA-256 is an arbitrary function value `Hash` with 32-byte results. */
module Codec {
  import opened Wrappers
  import opened Bytes

  datatype LedgerDigest = LedgerDigest(bytes: seq<byte>)
  type Digest = d: LedgerDigest | |d.bytes| == 32 witness LedgerDigest(Zeros(32))
  type Hash = seq<byte> -> Digest
  type u64 = x: nat | x <= U64_MAX
  /** UTF-8 bytes of a string; its length fits the eight bytes that frame it. */
  type Text = s: seq<byte> | |s| <= U64_MAX witness []

  datatype RecordState = LocalExcluded | Reserved | Completed
  datatype Record = Record(sequence: u64, state: RecordState, digest: Digest)
  datatype LedgerError = Unavailable | Corrupt | Capacity
  const HEADER_LEN: nat := 32
  const RECORD_LEN: nat := 80

  /** "peat-node:nats-bridge-ledger-key:v1" */
  const DIGEST_DOMAIN: seq<byte> :=
    [112, 101, 97, 116, 45, 110, 111, 100, 101, 58, 110, 97, 116, 115, 45, 98, 114, 105, 100, 103, 101, 45,
     108, 101, 100, 103, 101, 114, 45, 107, 101, 121, 58, 118, 49]
  /** "peat-node:nats-bridge-ledger-record:v1" */
  const CHECKSUM_DOMAIN: seq<byte> :=
    [112, 101, 97, 116, 45, 110, 111, 100, 101, 58, 110, 97, 116, 115, 45, 98, 114, 105, 100, 103, 101, 45,
     108, 101, 100, 103, 101, 114, 45, 114, 101, 99, 111, 114, 100, 58, 118, 49]

  // ---- document digest ------------------------------------------------------

  function Framed(s: seq<byte>): seq<byte> {
    BigEndian(8, |s|) + s
  }

  /** The bytes `document_digest` feeds to the hash. */
  function DigestInput(collection: Text, docId: Text): seq<byte> {
    Framed(DIGEST_DOMAIN) + Framed(collection) + Framed(docId)
  }

  function ChecksumInput(fields: seq<byte>): seq<byte> {
    Framed(CHECKSUM_DOMAIN) + fields
  }

  function DocumentDigest(hash: Hash, collection: Text, docId: Text): Digest {
    hash(DigestInput(collection, docId))
  }

  /** A length frame can be peeled off the front without knowing where it ends. */
  lemma FramedPrefix(a: Text, b: Text, restA: seq<byte>, restB: seq<byte>)
    requires Framed(a) + restA == Framed(b) + restB
    ensures a == b && restA == restB
  {
    var x, y := Framed(a) + restA, Framed(b) + restB;
    assert x[..8] == BigEndian(8, |a|) && y[..8] == BigEndian(8, |b|);
    Pow256Eight();
    DecodeBigEndian(8, |a|);
    DecodeBigEndian(8, |b|);
    assert x[8..8 + |a|] == a && y[8..8 + |b|] == b;
    assert x[8 + |a|..] == restA && y[8 + |b|..] == restB;
  }

  /** The hashed bytes determine the collection and the document id, so no two documents are confused
      before hashing, wherever the boundary between the two strings lies. */
  lemma DigestInputInjective(c1: Text, d1: Text, c2: Text, d2: Text)
    requires DigestInput(c1, d1) == DigestInput(c2, d2)
    ensures c1 == c2 && d1 == d2
  {
    var dom := Framed(DIGEST_DOMAIN);
    assert DigestInput(c1, d1) == dom + (Framed(c1) + (Framed(d1) + []));
    assert DigestInput(c2, d2) == dom + (Framed(c2) + (Framed(d2) + []));
    assert DigestInput(c1, d1)[|dom|..] == Framed(c1) + (Framed(d1) + []);
    assert DigestInput(c2, d2)[|dom|..] == Framed(c2) + (Framed(d2) + []);
    FramedPrefix(c1, c2, Framed(d1) + [], Framed(d2) + []);
    FramedPrefix(d1, d2, [], []);
  }

  /** Two documents share a ledger key only through a collision of the hash itself. */
  lemma EqualDigestsCollide(hash: Hash, c1: Text, d1: Text, c2: Text, d2: Text)
    requires DocumentDigest(hash, c1, d1) == DocumentDigest(hash, c2, d2)
    requires c1 != c2 || d1 != d2
    ensures DigestInput(c1, d1) != DigestInput(c2, d2)
    ensures exists x, y :: x != y && hash(x) == hash(y)
  {
    if DigestInput(c1, d1) == DigestInput(c2, d2) {
      DigestInputInjective(c1, d1, c2, d2);
    }
  }

  /** No record checksum ever hashes the same bytes as a document digest. */
  lemma DomainsSeparate(collection: Text, docId: Text, fields: seq<byte>)
    ensures DigestInput(collection, docId) != ChecksumInput(fields)
  {
    if DigestInput(collection, docId) == ChecksumInput(fields) {
      assert DigestInput(collection, docId) == Framed(DIGEST_DOMAIN) + (Framed(collection) + Framed(docId));
      FramedPrefix(DIGEST_DOMAIN, CHECKSUM_DOMAIN, Framed(collection) + Framed(docId), fields);
    }
  }

  // ---- record codec ---------------------------------------------------------

  function StateByte(state: RecordState): byte {
    match state
    case LocalExcluded => 1
    case Reserved => 2
    case Completed => 3
  }

  function DecodeState(value: byte): Result<RecordState, LedgerError> {
    if value == 1 then Ok(LocalExcluded)
    else if value == 2 then Ok(Reserved)
    else if value == 3 then Ok(Completed)
    else Err(Corrupt)
  }

  function RecordFields(r: Record): (s: seq<byte>)
    ensures |s| == 48
  {
    BigEndian(8, r.sequence) + [StateByte(r.state)] + Zeros(7) + r.digest.bytes
  }

  function EncodeRecord(hash: Hash, r: Record): (s: seq<byte>)
    ensures |s| == RECORD_LEN
  {
    RecordFields(r) + hash(ChecksumInput(RecordFields(r))).bytes
  }

  function DecodeRecord(hash: Hash, s: seq<byte>): (r: Result<Record, LedgerError>)
    ensures r.Err? ==> r.error == Corrupt
  {
    if |s| != RECORD_LEN || exists i :: 9 <= i < 16 && s[i] != 0 then Err(Corrupt)
    else if hash(ChecksumInput(s[..48])).bytes != s[48..] then Err(Corrupt)
    else
      Pow256Eight();
      var sequence := FromBigEndian(s[..8]);
      var state := DecodeState(s[8]);
      if state.Err? then Err(Corrupt) else Ok(Record(sequence, state.value, LedgerDigest(s[16..48])))
  }

  lemma DecodeEncode(hash: Hash, r: Record)
    ensures DecodeRecord(hash, EncodeRecord(hash, r)) == Ok(r)
  {
    var s := EncodeRecord(hash, r);
    assert s[..48] == RecordFields(r);
    assert s[..8] == BigEndian(8, r.sequence);
    assert s[16..48] == r.digest.bytes;
    Pow256Eight();
    DecodeBigEndian(8, r.sequence);
    forall i | 9 <= i < 16 ensures s[i] == 0 {
      assert s[i] == Zeros(7)[i - 9];
    }
  }

  /** Whatever decodes is the encoding of the result: the format is canonical. */
  lemma EncodeDecode(hash: Hash, s: seq<byte>)
    requires DecodeRecord(hash, s).Ok?
    ensures EncodeRecord(hash, DecodeRecord(hash, s).value) == s
  {
    var r := DecodeRecord(hash, s).value;
    EncodeBigEndian(s[..8]);
    assert s[9..16] == Zeros(7);
    assert s[..48] == s[..8] + [s[8]] + s[9..16] + s[16..48];
    assert s == s[..48] + s[48..];
  }

  /** Eighty bytes decode exactly when they are some record's encoding. */
  lemma DecodesIffEncoding(hash: Hash, s: seq<byte>)
    ensures DecodeRecord(hash, s).Ok? <==> exists r :: s == EncodeRecord(hash, r)
  {
    if DecodeRecord(hash, s).Ok? {
      EncodeDecode(hash, s);
    }
    if r :| s == EncodeRecord(hash, r) {
      DecodeEncode(hash, r);
    }
  }
}
