/** Copying into fixed buffers, as memcpy does. */
module Buffers {
  import opened Bytes

  method CopyInto(buf: array<byte>, off: nat, data: Bytes)
    requires off + |data| <= buf.Length
    modifies buf
    ensures buf[..] == old(buf[..off]) + data + old(buf[off + |data|..])
  {
    for i := 0 to |data|
      invariant forall k :: 0 <= k < i ==> buf[off + k] == data[k]
      invariant forall k :: 0 <= k < buf.Length && !(off <= k < off + i) ==> buf[k] == old(buf[k])
    {
      buf[off + i] := data[i];
    }
  }
}
