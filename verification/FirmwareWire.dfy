/** The firmware's codecs and its rotation handler: offsets into fixed buffers, checked against
    the gateway's codecs of module Wire. */
module FirmwareWire {
  import opened Buffers
  import opened Bytes
  import opened Options
  import Wire
  import FirmwareTag
  import Preimages

  const HANDSHAKE_NONCE_SIZE := 32
  const MAX_PAYLOAD_SIZE := 380
  const ECDSA_PUB_SIZE := 65
  const DEVICE_ID_MAX := 128
  const MSG1_MAX := 2 + DEVICE_ID_MAX + HANDSHAKE_NONCE_SIZE + 2 + ECDSA_PUB_SIZE

  /** The two bytes of a length, high byte first. */
  method PutLength(buf: array<byte>, off: nat, len: nat)
    requires off + 2 <= buf.Length && len <= 0xFFFF
    modifies buf
    ensures buf[..] == old(buf[..off]) + PutBE(len, 2) + old(buf[off + 2..])
  {
    LengthBytes(len);
    buf[off] := (len / 256) as byte;
    buf[off + 1] := (len % 256) as byte;
  }

  /** Writes one field at off and returns the offset after it, or returns 0 and writes nothing. */
  method PutFramed(buf: array<byte>, cap: nat, off: nat, data: Bytes) returns (end: nat)
    requires cap <= buf.Length
    modifies buf
    ensures end == if |data| <= Wire.MAX_FIELD_SIZE && off + 2 + |data| <= cap then off + 2 + |data| else 0
    ensures buf[..] == if end == 0 then old(buf[..])
                       else old(buf[..off]) + Wire.PutFramed([], data) + old(buf[end..])
  {
    if |data| > 0xFFFF {
      return 0;
    }
    if off > cap || cap - off < 2 + |data| {
      return 0;
    }
    ghost var before := buf[..];
    var len := |data|;
    PutLength(buf, off, len);
    ghost var headed := buf[..];
    end := off + 2;
    if len > 0 {
      CopyInto(buf, end, data);
      end := end + len;
    }
    Spliced(before, headed, buf[..], off, PutBE(len, 2), data);
  }

  /** Two writes next to each other are one. */
  lemma Spliced(before: Bytes, headed: Bytes, after: Bytes, off: nat, head: Bytes, data: Bytes)
    requires off + |head| + |data| <= |before|
    requires headed == before[..off] + head + before[off + |head|..]
    requires if data == [] then after == headed
             else after == headed[..off + |head|] + data + headed[off + |head| + |data|..]
    ensures after == before[..off] + (head + data) + before[off + |head| + |data|..]
  {
    assert headed[..off + |head|] == before[..off] + head;
    assert headed[off + |head| + |data|..] == before[off + |head| + |data|..];
  }

  lemma LengthBytes(n: nat)
    requires n <= 0xFFFF
    ensures PutBE(n, 2) == [(n / 256) as byte, (n % 256) as byte]
  {
    assert PutBE(n / 256, 1) == PutBE(n / 256 / 256, 0) + [(n / 256 % 256) as byte];
  }

  datatype Field = Field(ok: bool, next: nat, start: nat, len: nat)

  /** Reads one field at off: where it starts, how long it is, and the offset after it. */
  method TakeFramed(payload: Bytes, off: nat) returns (f: Field)
    ensures f.ok <==> off <= |payload| && Wire.TakeFramed(payload[off..]).Ok?
    ensures f.ok ==> off < f.start && f.start + f.len == f.next <= |payload|
                     && Wire.TakeFramed(payload[off..]).value == (payload[f.start..f.next], payload[f.next..])
  {
    if off + 2 > |payload| {
      return Field(false, off, 0, 0);
    }
    var n := payload[off] as nat * 256 + payload[off + 1] as nat;
    assert payload[off..][..2] == [payload[off], payload[off + 1]];
    TwoBytes(payload[off], payload[off + 1]);
    var start := off + 2;
    if start + n > |payload| {
      return Field(false, start, 0, 0);
    }
    assert payload[off..][2..2 + n] == payload[start..start + n] && payload[off..][2 + n..] == payload[start + n..];
    return Field(true, start + n, start, n);
  }

  lemma TwoBytes(a: byte, b: byte)
    ensures GetBE([a, b]) == a as nat * 256 + b as nat
  {
    assert [a, b][..1] == [a] && [a][..0] == [];
    assert GetBE([a]) == GetBE([]) * 256 + a as nat;
  }

  /** The length of an encoded Msg1. */
  function Msg1Size(deviceID: Bytes, identityPub: Bytes): nat {
    2 + |deviceID| + HANDSHAKE_NONCE_SIZE + 2 + |identityPub|
  }

  /** Builds the bytes of Msg1 for sending and for the transcript; 0 if they do not fit. */
  method BuildMsg1(deviceID: Bytes, nonce: Wire.Bytes32, identityPub: Bytes, buf: array<byte>, cap: nat)
    returns (n: nat)
    requires cap <= buf.Length && |identityPub| == ECDSA_PUB_SIZE
    modifies buf
    ensures n != 0 <==> |deviceID| <= Wire.MAX_FIELD_SIZE && Msg1Size(deviceID, identityPub) <= cap
    ensures n != 0 ==> n <= cap && buf[..n] == Wire.EncodeMsg1(Wire.HandshakeMsg1(deviceID, nonce, identityPub))
    ensures cap == MSG1_MAX ==> (n != 0 <==> |deviceID| <= DEVICE_ID_MAX)
  {
    var off := PutFramed(buf, cap, 0, deviceID);
    if off == 0 || cap - off < HANDSHAKE_NONCE_SIZE {
      return 0;
    }
    ghost var first := Wire.PutFramed([], deviceID);
    assert off == |first|;
    assert buf[..off] == first;
    CopyInto(buf, off, nonce);
    off := off + HANDSHAKE_NONCE_SIZE;
    ghost var head := buf[..off];
    assert head == first + nonce;
    n := PutFramed(buf, cap, off, identityPub);
    if n != 0 {
      assert buf[..n] == head + Wire.PutFramed([], identityPub);
      assert Wire.PutFramed(first + nonce, identityPub) == (first + nonce) + Wire.PutFramed([], identityPub);
    }
  }

  method BuildMsg2(kemCiphertext: Bytes, gatewayNonce: Wire.Bytes32, buf: array<byte>, cap: nat) returns (n: nat)
    requires cap <= buf.Length
    modifies buf
    ensures n != 0 <==> |kemCiphertext| <= Wire.MAX_FIELD_SIZE && 2 + |kemCiphertext| + HANDSHAKE_NONCE_SIZE <= cap
    ensures n != 0 ==> n <= cap && buf[..n] == Wire.EncodeMsg2(Wire.HandshakeMsg2(kemCiphertext, gatewayNonce))
  {
    var off := PutFramed(buf, cap, 0, kemCiphertext);
    if off == 0 || cap - off < HANDSHAKE_NONCE_SIZE {
      return 0;
    }
    assert buf[..off] == Wire.PutFramed([], kemCiphertext);
    CopyInto(buf, off, gatewayNonce);
    n := off + HANDSHAKE_NONCE_SIZE;
    assert buf[..n] == Wire.PutFramed([], kemCiphertext) + gatewayNonce;
  }

  /** The payload of a data frame, in a buffer of exactly its size. */
  method BuildData(nonce: Bytes, ciphertext: Bytes) returns (ok: bool, payload: Bytes)
    requires |nonce| == 12
    ensures ok <==> |ciphertext| <= Wire.MAX_FIELD_SIZE
    ensures ok ==> payload == Wire.EncodeData(nonce, ciphertext)
  {
    var cap := 2 + |nonce| + 2 + |ciphertext|;
    var buf := new byte[cap];
    var off := PutFramed(buf, cap, 0, nonce);
    ghost var first := Wire.PutFramed([], nonce);
    assert off == |first|;
    assert buf[..off] == first;
    if off != 0 {
      off := PutFramed(buf, cap, off, ciphertext);
    }
    if off == 0 {
      return false, [];
    }
    assert off == cap && buf[..] == first + Wire.PutFramed([], ciphertext) + [];
    return true, buf[..off];
  }

  type Decapsulation = Bytes -> Wire.Bytes32

  function NextKeyOf(hash: Wire.Hash, key: Wire.Bytes32, mi: Wire.Bytes32, iteration: nat): Wire.Bytes32
    requires iteration < 0x1_0000_0000_0000_0000
  {
    hash(Preimages.NextKey(key, mi, iteration).Serialize())
  }

  /** What the Go device does with a rotation frame of the gateway when no rotation of its own is
      pending: the new key and the acknowledgement to send, or nothing. */
  function GoHandleRotation(
    hash: Wire.Hash, decapsulate: Decapsulation, key: Wire.Bytes32, iteration: nat, payload: Bytes)
    : Option<(Wire.Bytes32, Bytes)>
    requires iteration < 0xFFFF_FFFF_FFFF_FFFF
  {
    match Wire.DecodeRotationV2(hash, payload, key)
    case Err(_) => None
    case Ok(m) =>
      if m.iteration != iteration + 1 then None
      else if |m.kemCiphertext| != Preimages.KEM_CIPHERTEXT_SIZE then None
      else Some((NextKeyOf(hash, key, decapsulate(m.kemCiphertext), m.iteration),
                 Wire.EncodeRotationAck(hash, m.iteration, key)))
  }

  /** Checks the tag of a rotation frame, then parses it. */
  method ReadRotation(hash: Wire.Hash, sessionKey: Wire.Bytes32, payload: array<byte>)
    returns (m: Option<Wire.RotationMsgV2>)
    ensures m == match Wire.DecodeRotationV2(hash, payload[..], sessionKey)
                 case Ok(msg) => Some(msg)
                 case Err(_) => None
  {
    PowValues();
    var plen := payload.Length;
    if plen < 8 + Wire.CONTROL_TAG_SIZE {
      return None;
    }
    var bodyLen := plen - Wire.CONTROL_TAG_SIZE;
    ghost var p := payload[..];
    var step := FirmwareTag.GetU64(payload, 0);
    assert p[..bodyLen][..8] == payload[0..8] && payload[..bodyLen] == p[..bodyLen];
    var key, tag := new byte[32], new byte[Wire.CONTROL_TAG_SIZE];
    CopyInto(key, 0, sessionKey);
    CopyInto(tag, 0, payload[bodyLen..]);
    assert key[..] == sessionKey && tag[..] == p[bodyLen..] && payload[..] == p;
    var authentic := FirmwareTag.VerifyTag(hash, key, 9, step, payload, bodyLen, tag);
    if !authentic {
      return None;
    }
    var f := TakeFramed(payload[..bodyLen], 8);
    if !f.ok {
      return None;
    }
    return Some(Wire.RotationMsgV2(step, payload[..bodyLen][f.start..f.next]));
  }

  method DeriveNextKey(hash: Wire.Hash, sessionKey: Wire.Bytes32, mi: Wire.Bytes32, step: nat)
    returns (nextKey: Wire.Bytes32)
    requires step < 0x1_0000_0000_0000_0000
    ensures nextKey == NextKeyOf(hash, sessionKey, mi, step)
  {
    var itBuf := new byte[8];
    FirmwareTag.PutU64(itBuf, 0, step);
    assert itBuf[..] == PutBE(step, 8);
    var parts := [sessionKey, mi, itBuf[..], Wire.Ascii("rotate_v1")];
    FourParts(parts);
    nextKey := hash(FirmwareTag.Concat(parts));
  }

  method BuildAck(hash: Wire.Hash, sessionKey: Wire.Bytes32, step: nat) returns (ack: Bytes)
    requires step < 0x1_0000_0000_0000_0000
    ensures ack == Wire.EncodeRotationAck(hash, step, sessionKey)
  {
    var key, body, tag := new byte[32], new byte[8], new byte[Wire.CONTROL_TAG_SIZE];
    CopyInto(key, 0, sessionKey);
    FirmwareTag.PutU64(body, 0, step);
    assert key[..] == sessionKey && body[..] == PutBE(step, 8) && body[..8] == body[..];
    FirmwareTag.ControlTag(hash, key, 10, step, body, 8, tag);
    return body[..] + tag[..];
  }

  class Client {
    var sessionKey: Wire.Bytes32
    var iteration: nat
    var seqNum: nat
    var hasSession: bool

    constructor ()
    {
      sessionKey, iteration, seqNum, hasSession := seq(32, _ => 0), 0, 0, false;
    }

    /** The end of the handshake. The new key is in place before the confirmation is signed and sent;
        the counters and the flag follow only when both have worked. */
    method FinishHandshake(k0: Wire.Bytes32, signed: bool, sent: bool) returns (ok: bool)
      modifies this
      ensures ok == (signed && sent) && sessionKey == k0
      ensures if ok then iteration == 0 && seqNum == 0 && hasSession
              else iteration == old(iteration) && seqNum == old(seqNum) && hasSession == old(hasSession)
    {
      sessionKey := k0;
      if !signed {
        return false;
      }
      if !sent {
        return false;
      }
      iteration, seqNum, hasSession := 0, 0, true;
      return true;
    }

    /** Applies a rotation frame and acknowledges it under the old key, exactly as the Go device
        does; the packet counter runs on. */
    method HandleRotationV2(hash: Wire.Hash, decapsulate: Decapsulation, payload: array<byte>)
      returns (reply: Option<Bytes>)
      requires iteration < 0xFFFF_FFFF_FFFF_FFFF
      modifies this
      ensures match GoHandleRotation(hash, decapsulate, old(sessionKey), old(iteration), payload[..])
              case None => reply == None && sessionKey == old(sessionKey) && iteration == old(iteration)
              case Some((key, ack)) => reply == Some(ack) && sessionKey == key && iteration == old(iteration) + 1
      ensures seqNum == old(seqNum) && hasSession == old(hasSession)
    {
      var read := ReadRotation(hash, sessionKey, payload);
      if read == None {
        return None;
      }
      var m := read.value;
      if |m.kemCiphertext| != Preimages.KEM_CIPHERTEXT_SIZE {
        return None;
      }
      if m.iteration != iteration + 1 {
        return None;
      }
      var nextKey := DeriveNextKey(hash, sessionKey, decapsulate(m.kemCiphertext), m.iteration);
      var ack := BuildAck(hash, sessionKey, m.iteration);
      sessionKey := nextKey;
      iteration := m.iteration;
      return Some(ack);
    }

    /** Seals one packet under the running counter, which moves on whenever a nonce was used. */
    method SendData(seal: (Bytes, Bytes, Bytes) -> Bytes, salt: Bytes, plaintext: Bytes)
      returns (payload: Option<Bytes>)
      requires |salt| == 8
      modifies this`seqNum
      ensures var nonce := salt + PutBE(old(seqNum), 4);
              var ct := seal(sessionKey, nonce, plaintext);
              if !hasSession || |plaintext| > MAX_PAYLOAD_SIZE then
                payload == None && seqNum == old(seqNum)
              else
                && seqNum == (old(seqNum) + 1) % 0x1_0000_0000
                && payload == if |ct| <= Wire.MAX_FIELD_SIZE then Some(Wire.EncodeData(nonce, ct)) else None
    {
      if !hasSession {
        return None;
      }
      if |plaintext| > MAX_PAYLOAD_SIZE {
        return None;
      }
      var nonce := salt + PutBE(seqNum, 4);
      var ct := seal(sessionKey, nonce, plaintext);
      seqNum := (seqNum + 1) % 0x1_0000_0000;
      var ok, bytes := BuildData(nonce, ct);
      if !ok {
        return None;
      }
      return Some(bytes);
    }
  }

  lemma FourParts(parts: seq<Bytes>)
    requires |parts| == 4
    ensures FirmwareTag.Concat(parts) == parts[0] + parts[1] + parts[2] + parts[3]
  {
    var p1, p2, p3 := parts[1..], parts[2..], parts[3..];
    assert p1[1..] == p2 && p2[1..] == p3 && p3[1..] == [];
    assert FirmwareTag.Concat(p3) == parts[3] + [] == parts[3];
    assert FirmwareTag.Concat(p2) == parts[2] + parts[3];
  }
}
