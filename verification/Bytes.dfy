/** Bytes and big-endian numbers (encoding/binary as used by shared/hostrpc/tunnel.go). */
module Bytes {

  type Byte = b: int | 0 <= b < 256

  type Bytes = seq<Byte>

  datatype Option<+T> = None | Some(value: T)

  function Pow256(k: nat): (p: nat)
    ensures p > 0
  {
    if k == 0 then 1 else 256 * Pow256(k - 1)
  }

  /** The last k bytes of n, most significant first; what does not fit is lost, as in a conversion to uint32. */
  function BigEndian(n: nat, k: nat): (s: Bytes)
    ensures |s| == k
  {
    if k == 0 then [] else BigEndian(n / 256, k - 1) + [n % 256]
  }

  function FromBigEndian(s: Bytes): nat {
    if s == [] then 0 else FromBigEndian(s[..|s| - 1]) * 256 + s[|s| - 1]
  }

  lemma {:induction false} BigEndianRoundTrip(n: nat, k: nat)
    requires n < Pow256(k)
    ensures FromBigEndian(BigEndian(n, k)) == n
  {
    if k == 0 {
    } else {
      BigEndianRoundTrip(n / 256, k - 1);
      assert BigEndian(n, k)[..k - 1] == BigEndian(n / 256, k - 1);
    }
  }

  lemma {:induction false} FromBigEndianRoundTrip(s: Bytes)
    ensures FromBigEndian(s) < Pow256(|s|)
    ensures BigEndian(FromBigEndian(s), |s|) == s
  {
    if s == [] {
    } else {
      var rest, last := s[..|s| - 1], s[|s| - 1];
      FromBigEndianRoundTrip(rest);
      assert FromBigEndian(s) / 256 == FromBigEndian(rest) && FromBigEndian(s) % 256 == last;
      assert s == rest + [last];
    }
  }

  const MAX_UINT64: nat := 0xFFFF_FFFF_FFFF_FFFF
  const UINT32_VALUES: nat := 0x1_0000_0000

  lemma Widths()
    ensures Pow256(8) == MAX_UINT64 + 1 && Pow256(4) == UINT32_VALUES
  {
    assert Pow256(2) == 0x1_0000;
    assert Pow256(4) == UINT32_VALUES;
    assert Pow256(6) == 0x1_0000_0000_0000;
  }
}
