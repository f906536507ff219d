/** The firmware's control tag: the parts are laid out in arrays, and the comparison accumulates
    the differing bits instead of stopping at the first one. */
module FirmwareTag {
  import opened Bits
  import opened Bytes
  import opened Wire

  function Concat(parts: seq<Bytes>): Bytes {
    if parts == [] then [] else parts[0] + Concat(parts[1..])
  }

  /** Stores v big-endian at b[at..at+8] byte by byte, highest byte first. */
  method PutU64(b: array<byte>, at: nat, v: nat)
    requires at + 8 <= b.Length && v < 0x1_0000_0000_0000_0000
    modifies b
    ensures b[..] == old(b[..at]) + PutBE(v, 8) + old(b[at + 8..])
  {
    PowValues();
    for i := 0 to 8
      invariant forall k :: 0 <= k < i ==> b[at + k] == PutBE(v, 8)[k]
      invariant forall k :: 0 <= k < b.Length && !(at <= k < at + i) ==> b[k] == old(b[k])
    {
      ByteOf(v, 8, i);
      b[at + i] := ((v / Pow256(7 - i)) % 256) as byte;
    }
  }

  lemma MulAtLeast(y: int, k: int)
    requires y >= 0
    ensures k >= 1 ==> y * k >= y
    ensures k <= -1 ==> y * k <= 0 - y
  {
  }

  lemma DivUnique(x: nat, y: nat, q: nat, r: nat)
    requires r < y && x == y * q + r
    ensures x / y == q
  {
    var d, m := x / y, x % y;
    assert x == y * d + m;
    assert y * (d - q) == y * d - y * q;
    MulAtLeast(y, d - q);
  }

  lemma DivPow(v: nat, n: nat)
    ensures v / 256 / Pow256(n) == v / Pow256(n + 1)
  {
    var p := Pow256(n);
    var q, r, s := v / 256 / p, v / 256 % p, v % 256;
    assert v / 256 == p * q + r;
    assert v == 256 * (p * q + r) + s == (256 * p) * q + (256 * r + s);
    DivUnique(v, 256 * p, q, 256 * r + s);
  }

  lemma {:induction false} ByteOf(v: nat, n: nat, i: nat)
    requires i < n
    ensures PutBE(v, n)[i] as int == (v / Pow256(n - 1 - i)) % 256
  {
    if i < n - 1 {
      ByteOf(v / 256, n - 1, i);
      DivPow(v, n - 2 - i);
    }
  }

  method GetU64(b: array<byte>, at: nat) returns (v: nat)
    requires at + 8 <= b.Length
    ensures v == GetBE(b[at..at + 8])
  {
    v := 0;
    for i := 0 to 8
      invariant v == GetBE(b[at..at + i])
    {
      assert b[at..at + i + 1][..i] == b[at..at + i];
      v := v * 256 + b[at + i] as nat;
    }
  }

  method ControlTag(hash: Hash, key: array<byte>, frameType: byte, iteration: nat, body: array<byte>, bodyLen: nat,
                    out: array<byte>)
    requires key.Length == 32 && bodyLen <= body.Length && out.Length == CONTROL_TAG_SIZE
    requires iteration < 0x1_0000_0000_0000_0000
    requires out != key && out != body
    modifies out
    ensures out[..] == ComputeControlTag(hash, key[..], frameType, iteration, body[..bodyLen])
  {
    var itBuf := new byte[8];
    PutU64(itBuf, 0, iteration);
    assert itBuf[..] == PutBE(iteration, 8);
    var parts := [key[..], [frameType], itBuf[..], body[..bodyLen], Ascii("lacert-control-v1")];
    FiveParts(parts);
    var full := hash(Concat(parts));
    for i := 0 to CONTROL_TAG_SIZE
      invariant out[..i] == full[..i]
    {
      out[i] := full[i];
    }
    assert out[..CONTROL_TAG_SIZE] == out[..];
  }

  lemma FiveParts(parts: seq<Bytes>)
    requires |parts| == 5
    ensures Concat(parts) == parts[0] + parts[1] + parts[2] + parts[3] + parts[4]
  {
    var p1, p2, p3, p4 := parts[1..], parts[2..], parts[3..], parts[4..];
    assert p1[1..] == p2 && p2[1..] == p3 && p3[1..] == p4 && p4[1..] == [];
    assert Concat(p4) == parts[4] + [] == parts[4];
    assert Concat(p3) == parts[3] + parts[4];
    assert Concat(p2) == parts[2] + (parts[3] + parts[4]);
  }

  /** The accumulated difference is zero exactly for equal tags, whatever the position of the
      first difference. */
  method VerifyTag(hash: Hash, key: array<byte>, frameType: byte, iteration: nat, body: array<byte>, bodyLen: nat,
                   tag: array<byte>) returns (ok: bool)
    requires key.Length == 32 && bodyLen <= body.Length && tag.Length == CONTROL_TAG_SIZE
    requires iteration < 0x1_0000_0000_0000_0000
    ensures ok == VerifyControlTag(hash, key[..], frameType, iteration, body[..bodyLen], tag[..])
  {
    var want := new byte[CONTROL_TAG_SIZE];
    ControlTag(hash, key, frameType, iteration, body, bodyLen, want);
    var diff: byte := 0;
    for i := 0 to CONTROL_TAG_SIZE
      invariant want[..] == ComputeControlTag(hash, key[..], frameType, iteration, body[..bodyLen])
      invariant diff == 0 <==> want[..i] == tag[..i]
    {
      AccumulateZero(diff, want[i], tag[i]);
      diff := Accumulate(diff, want[i], tag[i]);
      assert want[..i + 1] == want[..i] + [want[i]] && tag[..i + 1] == tag[..i] + [tag[i]];
    }
    assert want[..CONTROL_TAG_SIZE] == want[..] && tag[..CONTROL_TAG_SIZE] == tag[..];
    return diff == 0;
  }
}
