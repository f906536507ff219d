/** Bitwise operations on bytes, bit by bit. */
module Bits {
  import opened Bytes

  function Pow2(bits: nat): (r: nat)
    ensures r > 0
  {
    if bits == 0 then 1 else 2 * Pow2(bits - 1)
  }

  /** The exclusive or of the lowest bits. */
  function Xor(bits: nat, a: nat, b: nat): (r: nat)
    ensures r < Pow2(bits)
  {
    if bits == 0 then 0 else 2 * Xor(bits - 1, a / 2, b / 2) + if a % 2 == b % 2 then 0 else 1
  }

  /** The inclusive or of the lowest bits. */
  function Or(bits: nat, a: nat, b: nat): (r: nat)
    ensures r < Pow2(bits)
  {
    if bits == 0 then 0 else 2 * Or(bits - 1, a / 2, b / 2) + if a % 2 == 0 && b % 2 == 0 then 0 else 1
  }

  lemma {:induction false} XorZero(bits: nat, a: nat, b: nat)
    requires a < Pow2(bits) && b < Pow2(bits)
    ensures Xor(bits, a, b) == 0 <==> a == b
  {
    if bits > 0 {
      XorZero(bits - 1, a / 2, b / 2);
    }
  }

  lemma {:induction false} OrZero(bits: nat, a: nat, b: nat)
    requires a < Pow2(bits) && b < Pow2(bits)
    ensures Or(bits, a, b) == 0 <==> a == 0 && b == 0
  {
    if bits > 0 {
      OrZero(bits - 1, a / 2, b / 2);
    }
  }

  lemma EightBits()
    ensures Pow2(8) == 256
  {
    assert Pow2(4) == 16;
  }

  /** One step of a comparison that collects differing bits. */
  function Accumulate(diff: byte, a: byte, b: byte): byte {
    EightBits();
    Or(8, diff as nat, Xor(8, a as nat, b as nat)) as byte
  }

  lemma AccumulateZero(diff: byte, a: byte, b: byte)
    ensures Accumulate(diff, a, b) == 0 <==> diff == 0 && a == b
  {
    EightBits();
    XorZero(8, a as nat, b as nat);
    OrZero(8, diff as nat, Xor(8, a as nat, b as nat));
  }
}
