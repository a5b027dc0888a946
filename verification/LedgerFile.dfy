/** The header of a ledger file, as `ledger.rs` writes and tests it. */
module LedgerFile {
  import opened Bytes
  import opened Codec

  datatype JournalKind = Exclusion | Delivery

  /** How far a write gets: durable, or an error after so many bytes; a failed sync is an error after all of them. */
  datatype Io = Durable | FailedAfter(written: nat)

  /** "PNATSJ01" */
  const MAGIC: seq<byte> := [80, 78, 65, 84, 83, 74, 48, 49]
  const VERSION: nat := 1

  function KindByte(kind: JournalKind): byte {
    if kind.Exclusion? then 1 else 2
  }

  function Header(kind: JournalKind): (s: seq<byte>)
    ensures |s| == HEADER_LEN
  {
    MAGIC + BigEndian(4, VERSION) + BigEndian(4, RECORD_LEN) + [KindByte(kind)] + Zeros(15)
  }

  /** The header tests of `recover`, field by field. */
  predicate HeaderOk(kind: JournalKind, bytes: seq<byte>) {
    && |bytes| >= HEADER_LEN
    && bytes[..8] == MAGIC
    && FromBigEndian(bytes[8..12]) == VERSION
    && FromBigEndian(bytes[12..16]) == RECORD_LEN
    && bytes[16] == KindByte(kind)
    && forall i :: 17 <= i < HEADER_LEN ==> bytes[i] == 0
  }

  lemma HeaderBytes(kind: JournalKind, bytes: seq<byte>)
    requires HeaderOk(kind, bytes)
    ensures bytes[..HEADER_LEN] == Header(kind)
  {
    EncodeBigEndian(bytes[8..12]);
    EncodeBigEndian(bytes[12..16]);
    assert bytes[17..32] == Zeros(15);
    FiveParts(bytes[..32]);
    assert bytes[..32][..8] == bytes[..8] && bytes[..32][8..12] == bytes[8..12];
    assert bytes[..32][12..16] == bytes[12..16] && bytes[..32][17..] == bytes[17..32];
  }

  lemma FiveParts(s: seq<byte>)
    requires |s| == 32
    ensures s == s[..8] + s[8..12] + s[12..16] + [s[16]] + s[17..]
  {
  }

  lemma HeaderFields(kind: JournalKind)
    ensures HeaderOk(kind, Header(kind))
  {
    var h := Header(kind);
    assert h[..8] == MAGIC;
    assert h[8..12] == BigEndian(4, VERSION);
    assert h[12..16] == BigEndian(4, RECORD_LEN);
    Pow256Four();
    DecodeBigEndian(4, VERSION);
    DecodeBigEndian(4, RECORD_LEN);
    forall i | 17 <= i < HEADER_LEN ensures h[i] == 0 { assert h[i] == Zeros(15)[i - 17]; }
  }

  /** The field tests accept exactly the header that `write_header` writes. */
  lemma HeaderOkIffHeader(kind: JournalKind, bytes: seq<byte>)
    ensures HeaderOk(kind, bytes) <==> |bytes| >= HEADER_LEN && bytes[..HEADER_LEN] == Header(kind)
  {
    if HeaderOk(kind, bytes) {
      HeaderBytes(kind, bytes);
    } else if |bytes| >= HEADER_LEN && bytes[..HEADER_LEN] == Header(kind) {
      HeaderFields(kind);
      HeaderPrefix(kind, bytes);
    }
  }

  lemma HeaderPrefix(kind: JournalKind, bytes: seq<byte>)
    requires |bytes| >= HEADER_LEN && HeaderOk(kind, bytes[..HEADER_LEN])
    ensures HeaderOk(kind, bytes)
  {
    var h := bytes[..HEADER_LEN];
    assert h[..8] == bytes[..8] && h[8..12] == bytes[8..12] && h[12..16] == bytes[12..16];
    forall i | 16 <= i < HEADER_LEN ensures bytes[i] == h[i] {}
  }
}
