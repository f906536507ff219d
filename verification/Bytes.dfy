/** Byte strings and the big-endian integers that every LACERT encoder is built from. */
module Bytes {
  newtype byte = x: int | 0 <= x < 256

  type Bytes = seq<byte>

  function Pow256(n: nat): (p: nat)
    ensures p >= 1
  {
    if n == 0 then 1 else 256 * Pow256(n - 1)
  }

  /** The n-byte big-endian form of v, keeping the low 8*n bits as the Go and C casts do. */
  function PutBE(v: nat, n: nat): (b: Bytes)
    ensures |b| == n
  {
    if n == 0 then [] else PutBE(v / 256, n - 1) + [(v % 256) as byte]
  }

  function GetBE(b: Bytes): (v: nat)
    ensures v < Pow256(|b|)
  {
    if |b| == 0 then 0 else GetBE(b[..|b| - 1]) * 256 + b[|b| - 1] as nat
  }

  lemma {:induction false} GetAfterPut(v: nat, n: nat)
    requires v < Pow256(n)
    ensures GetBE(PutBE(v, n)) == v
  {
    if n > 0 {
      GetAfterPut(v / 256, n - 1);
      assert PutBE(v, n)[..n - 1] == PutBE(v / 256, n - 1);
    }
  }

  lemma {:induction false} PutAfterGet(b: Bytes)
    ensures PutBE(GetBE(b), |b|) == b
  {
    if |b| > 0 {
      PutAfterGet(b[..|b| - 1]);
      assert b == b[..|b| - 1] + [b[|b| - 1]];
    }
  }

  lemma PutInjective(v: nat, w: nat, n: nat)
    requires v < Pow256(n) && w < Pow256(n)
    ensures PutBE(v, n) == PutBE(w, n) ==> v == w
  {
    GetAfterPut(v, n);
    GetAfterPut(w, n);
  }

  /** Cutting two equal byte strings at the same place gives equal halves. */
  lemma SplitEqual(a: Bytes, b: Bytes, c: Bytes, d: Bytes)
    requires a + b == c + d
    requires |a| == |c| || |b| == |d|
    ensures a == c && b == d
  {
    assert |a| == |c|;
    assert a == (a + b)[..|a|] == (c + d)[..|c|] == c;
    assert b == (a + b)[|a|..] == (c + d)[|c|..] == d;
  }

  lemma PowValues()
    ensures Pow256(1) == 0x100 && Pow256(2) == 0x1_0000
    ensures Pow256(4) == 0x1_0000_0000 && Pow256(8) == 0x1_0000_0000_0000_0000
  {
    assert Pow256(1) == 256 * Pow256(0);
    assert Pow256(3) == 256 * Pow256(2);
    assert Pow256(4) == 256 * Pow256(3);
    assert Pow256(5) == 256 * Pow256(4);
    assert Pow256(6) == 256 * Pow256(5);
    assert Pow256(7) == 256 * Pow256(6);
  }
}
