/** Fixed-width big-endian integers and the smallest two's-complement width
    (struct packing, int.to_bytes, _min_signed_bytes in
    task_core/db/spool_format.py). */
module Bytes {
  import opened Values

  lemma Assoc(a: seq<byte>, b: seq<byte>, c: seq<byte>)
    ensures a + b + c == a + (b + c)
  {
  }

  function Pow2(k: nat): (r: nat)
    ensures r >= 1
  {
    if k == 0 then 1 else 2 * Pow2(k - 1)
  }

  function Pow256(len: nat): (r: int)
    ensures r >= 1
  {
    if len == 0 then 1 else 256 * Pow256(len - 1)
  }

  function BigEndian(n: nat, len: nat): (r: seq<byte>)
    ensures |r| == len
  {
    if len == 0 then [] else BigEndian(n / 256, len - 1) + [n % 256]
  }

  function FromBigEndian(b: seq<byte>): (n: nat)
    ensures n < Pow256(|b|)
  {
    if b == [] then 0 else 256 * FromBigEndian(b[..|b| - 1]) + b[|b| - 1]
  }

  lemma {:induction false} BigEndianRoundTrip(n: nat, len: nat)
    requires n < Pow256(len)
    ensures FromBigEndian(BigEndian(n, len)) == n
  {
    if len > 0 {
      BigEndianRoundTrip(n / 256, len - 1);
      var b := BigEndian(n, len);
      assert b[..len - 1] == BigEndian(n / 256, len - 1);
    }
  }

  lemma {:induction false} SameNumberSameBytes(a: seq<byte>, b: seq<byte>)
    requires |a| == |b|
    ensures FromBigEndian(a) == FromBigEndian(b) <==> a == b
  {
    if a != [] {
      var n := |a| - 1;
      SameNumberSameBytes(a[..n], b[..n]);
      assert a == a[..n] + [a[n]] && b == b[..n] + [b[n]];
    }
  }

  /** v is a len-byte two's-complement number. */
  predicate FitsSigned(v: int, len: nat) {
    -Pow256(len) <= 2 * v < Pow256(len)
  }

  function ToSigned(v: int, len: nat): (r: seq<byte>)
    requires FitsSigned(v, len)
    ensures |r| == len
  {
    BigEndian(if v < 0 then v + Pow256(len) else v, len)
  }

  function FromSigned(b: seq<byte>): int {
    var u := FromBigEndian(b);
    if 2 * u >= Pow256(|b|) then u - Pow256(|b|) else u
  }

  lemma SignedRoundTrip(v: int, len: nat)
    requires FitsSigned(v, len)
    ensures FromSigned(ToSigned(v, len)) == v
  {
    BigEndianRoundTrip(if v < 0 then v + Pow256(len) else v, len);
  }

  function BitLength(m: nat): nat {
    if m == 0 then 0 else 1 + BitLength(m / 2)
  }

  function MinSignedBytes(v: int): nat {
    BitLength(if v >= 0 then v else -v - 1) / 8 + 1
  }

  lemma {:induction false} BitLengthBounds(m: nat, k: nat)
    ensures BitLength(m) <= k <==> m < Pow2(k)
  {
    if k > 0 && m > 0 {
      BitLengthBounds(m / 2, k - 1);
    }
  }

  lemma {:induction false} ByteWidths(len: nat)
    ensures Pow2(8 * len) == Pow256(len)
  {
    if len > 0 {
      ByteWidths(len - 1);
      var k := 8 * len - 8;
      assert Pow2(k + 8) == 2 * Pow2(k + 7) && Pow2(k + 7) == 2 * Pow2(k + 6) && Pow2(k + 6) == 2 * Pow2(k + 5);
      assert Pow2(k + 5) == 2 * Pow2(k + 4) && Pow2(k + 4) == 2 * Pow2(k + 3) && Pow2(k + 3) == 2 * Pow2(k + 2);
      assert Pow2(k + 2) == 2 * Pow2(k + 1) && Pow2(k + 1) == 2 * Pow2(k);
    }
  }

  /** The width chosen holds the number, and no smaller width does. */
  lemma MinSignedBytesExact(v: int, len: nat)
    requires len >= 1
    ensures FitsSigned(v, len) <==> len >= MinSignedBytes(v)
  {
    var m := if v >= 0 then v else -v - 1;
    BitLengthBounds(m, 8 * len - 1);
    ByteWidths(len);
    assert Pow2(8 * len) == 2 * Pow2(8 * len - 1);
  }
}
