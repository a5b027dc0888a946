/** Bytes and the fixed-width big-endian integers that the bridge ledger writes. */
module Bytes {
  type byte = x: int | 0 <= x < 256

  const U64_MAX: nat := 0xFFFF_FFFF_FFFF_FFFF

  function Pow256(width: nat): (p: nat)
    ensures p > 0
  {
    if width == 0 then 1 else 256 * Pow256(width - 1)
  }

  /** `v.to_be_bytes()` for an unsigned integer of `width` bytes. */
  function BigEndian(width: nat, v: nat): (s: seq<byte>)
    ensures |s| == width
  {
    if width == 0 then [] else BigEndian(width - 1, v / 256) + [v % 256]
  }

  /** `from_be_bytes`. */
  function FromBigEndian(s: seq<byte>): (v: nat)
    ensures v < Pow256(|s|)
  {
    if s == [] then 0 else 256 * FromBigEndian(s[..|s| - 1]) + s[|s| - 1]
  }

  lemma {:induction false} DecodeBigEndian(width: nat, v: nat)
    requires v < Pow256(width)
    ensures FromBigEndian(BigEndian(width, v)) == v
  {
    if width > 0 {
      DecodeBigEndian(width - 1, v / 256);
      var s := BigEndian(width, v);
      assert s[..|s| - 1] == BigEndian(width - 1, v / 256);
    }
  }

  lemma {:induction false} EncodeBigEndian(s: seq<byte>)
    ensures BigEndian(|s|, FromBigEndian(s)) == s
  {
    if s != [] {
      EncodeBigEndian(s[..|s| - 1]);
      assert s == s[..|s| - 1] + [s[|s| - 1]];
    }
  }

  lemma Pow256Four()
    ensures Pow256(4) == 0x1_0000_0000
  {
    assert Pow256(1) == 256;
    assert Pow256(2) == 0x1_0000;
  }

  lemma Pow256Eight()
    ensures Pow256(8) == U64_MAX + 1
  {
    Pow256Four();
    assert Pow256(6) == 0x1_0000_0000_0000;
  }

  function Zeros(n: nat): (s: seq<byte>)
    ensures |s| == n && forall i :: 0 <= i < n ==> s[i] == 0
  {
    seq(n, i => 0)
  }
}
