/** Round trips of the payload codecs, in both directions, and the agreement of the three
    independent encoders of the handshake messages. */
module Codecs {
  import opened Bytes
  import opened Wire

  /** One field at the start of a payload, and whatever follows it. */
  lemma FieldThen(buf: Bytes, data: Bytes, rest: Bytes)
    requires |data| <= MAX_FIELD_SIZE && buf == PutFramed([], data) + rest
    ensures TakeFramed(buf) == Ok((data, rest))
  {
    TakeAfterPut(data, rest);
  }

  lemma Msg1RoundTrip(m: HandshakeMsg1, extra: Bytes)
    requires m.Encodable()
    ensures DecodeMsg1(EncodeMsg1(m) + extra) == Ok(m)
  {
    var tail := PutFramed([], m.identityPub) + extra;
    var buf := EncodeMsg1(m) + extra;
    assert buf == PutFramed([], m.deviceID) + (m.nonce + tail);
    FieldThen(buf, m.deviceID, m.nonce + tail);
    assert (m.nonce + tail)[..32] == m.nonce && (m.nonce + tail)[32..] == tail;
    FieldThen(tail, m.identityPub, extra);
  }

  lemma Regroup(a: Bytes, b: Bytes, c: Bytes, d: Bytes)
    ensures a + (b + (c + d)) == a + b + c + d
  {
  }

  lemma Msg1Parts(m: HandshakeMsg1, extra: Bytes)
    requires m.Encodable()
    ensures PutFramed([], m.deviceID) + (m.nonce + (PutFramed([], m.identityPub) + extra)) == EncodeMsg1(m) + extra
  {
    var id, pub := PutFramed([], m.deviceID), PutFramed([], m.identityPub);
    assert EncodeMsg1(m) == id + m.nonce + pub;
    Regroup(id, m.nonce, pub, extra);
  }

  lemma Msg1Canonical(payload: Bytes)
    requires DecodeMsg1(payload).Ok?
    ensures var m := DecodeMsg1(payload).value; m.Encodable() && EncodeMsg1(m) <= payload
  {
    PutAfterTake(payload);
    var rest := TakeFramed(payload).value.1;
    PutAfterTake(rest[32..]);
    Msg1Parts(DecodeMsg1(payload).value, TakeFramed(rest[32..]).value.1);
    assert rest == rest[..32] + rest[32..];
  }

  lemma Msg2RoundTrip(m: HandshakeMsg2, extra: Bytes)
    requires m.Encodable()
    ensures DecodeMsg2(EncodeMsg2(m) + extra) == Ok(m)
  {
    var buf := EncodeMsg2(m) + extra;
    assert buf == PutFramed([], m.kemCiphertext) + (m.gatewayNonce + extra);
    FieldThen(buf, m.kemCiphertext, m.gatewayNonce + extra);
    assert (m.gatewayNonce + extra)[..32] == m.gatewayNonce;
  }

  lemma Msg2Canonical(payload: Bytes)
    requires DecodeMsg2(payload).Ok?
    ensures var m := DecodeMsg2(payload).value; m.Encodable() && EncodeMsg2(m) <= payload
  {
    PutAfterTake(payload);
    var rest := TakeFramed(payload).value.1;
    var m := DecodeMsg2(payload).value;
    assert rest == m.gatewayNonce + rest[32..];
    assert payload == EncodeMsg2(m) + rest[32..];
  }

  lemma Msg3RoundTrip(m: HandshakeMsg3, extra: Bytes)
    requires m.Encodable()
    ensures DecodeMsg3(EncodeMsg3(m) + extra) == Ok(m)
  {
    FieldThen(EncodeMsg3(m) + extra, m.signature, extra);
  }

  lemma Msg3Canonical(payload: Bytes)
    requires DecodeMsg3(payload).Ok?
    ensures var m := DecodeMsg3(payload).value; m.Encodable() && EncodeMsg3(m) <= payload
  {
    PutAfterTake(payload);
  }

  lemma DataRoundTrip(nonce: Bytes, ciphertext: Bytes, extra: Bytes)
    requires |nonce| <= MAX_FIELD_SIZE && |ciphertext| <= MAX_FIELD_SIZE
    ensures DecodeData(EncodeData(nonce, ciphertext) + extra) == Ok((nonce, ciphertext))
  {
    var tail := PutFramed([], ciphertext) + extra;
    var buf := EncodeData(nonce, ciphertext) + extra;
    assert buf == PutFramed([], nonce) + tail;
    FieldThen(buf, nonce, tail);
    FieldThen(tail, ciphertext, extra);
  }

  lemma DataCanonical(payload: Bytes)
    requires DecodeData(payload).Ok?
    ensures var (nonce, ciphertext) := DecodeData(payload).value;
            && |nonce| <= MAX_FIELD_SIZE && |ciphertext| <= MAX_FIELD_SIZE
            && EncodeData(nonce, ciphertext) <= payload
  {
    PutAfterTake(payload);
    var rest := TakeFramed(payload).value.1;
    PutAfterTake(rest);
    var (nonce, ciphertext) := DecodeData(payload).value;
    assert payload == EncodeData(nonce, ciphertext) + TakeFramed(rest).value.1;
  }

  lemma FirmwareResponseRoundTrip(r: FirmwareResponse, extra: Bytes)
    requires r.Encodable()
    ensures DecodeFirmwareResponse(EncodeFirmwareResponse(r) + extra) == Ok(r)
  {
    var buf := EncodeFirmwareResponse(r) + extra;
    assert buf == r.firmwareHash + (PutFramed([], r.signature) + extra);
    assert buf[..32] == r.firmwareHash && buf[32..] == PutFramed([], r.signature) + extra;
    FieldThen(buf[32..], r.signature, extra);
  }

  /** The hash comes first, unframed. */
  lemma FirmwareResponseLayout(r: FirmwareResponse)
    requires r.Encodable()
    ensures var buf := EncodeFirmwareResponse(r);
            && |buf| == 34 + |r.signature| && buf[..32] == r.firmwareHash
            && GetBE(buf[32..34]) == |r.signature| && buf[34..] == r.signature
  {
    PowValues();
    GetAfterPut(|r.signature|, 2);
    assert EncodeFirmwareResponse(r)[32..34] == PutBE(|r.signature|, 2);
  }

  lemma FirmwareResponseCanonical(payload: Bytes)
    requires DecodeFirmwareResponse(payload).Ok?
    ensures var r := DecodeFirmwareResponse(payload).value; r.Encodable() && EncodeFirmwareResponse(r) <= payload
  {
    PutAfterTake(payload[32..]);
    var r := DecodeFirmwareResponse(payload).value;
    assert payload == payload[..32] + payload[32..];
    assert payload == EncodeFirmwareResponse(r) + TakeFramed(payload[32..]).value.1;
  }

  lemma FirmwareChallengeRoundTrip(challenge: Bytes, extra: Bytes)
    requires |challenge| <= MAX_FIELD_SIZE
    ensures DecodeFirmwareChallenge(EncodeFirmwareChallenge(challenge) + extra) == Ok(challenge)
  {
    FieldThen(EncodeFirmwareChallenge(challenge) + extra, challenge, extra);
  }

  lemma FirmwareChallengeCanonical(payload: Bytes)
    requires DecodeFirmwareChallenge(payload).Ok?
    ensures var challenge := DecodeFirmwareChallenge(payload).value;
            |challenge| <= MAX_FIELD_SIZE && EncodeFirmwareChallenge(challenge) <= payload
  {
    PutAfterTake(payload);
  }

  // Control frames

  lemma RotationRoundTrip(hash: Hash, m: RotationMsgV2, key: Bytes)
    requires m.Encodable()
    ensures DecodeRotationV2(hash, EncodeRotationV2(hash, m, key), key) == Ok(m)
  {
    PowValues();
    var payload := EncodeRotationV2(hash, m, key);
    var body := RotationBody(m);
    assert payload[..|payload| - CONTROL_TAG_SIZE] == body;
    assert body[..8] == PutBE(m.iteration, 8);
    assert body[8..] == PutFramed([], m.kemCiphertext) + [];
    GetAfterPut(m.iteration, 8);
    FieldThen(body[8..], m.kemCiphertext, []);
  }

  /** An accepted rotation frame is the encoding of what it decodes to, except for bytes inside
      the tagged body after the ciphertext field. */
  lemma RotationCanonical(hash: Hash, payload: Bytes, key: Bytes)
    requires DecodeRotationV2(hash, payload, key).Ok?
    ensures var m := DecodeRotationV2(hash, payload, key).value;
            var split := |payload| - CONTROL_TAG_SIZE;
            && m.Encodable() && RotationBody(m) <= payload[..split]
            && payload[split..] == ComputeControlTag(hash, key, TYPE_ROTATION_V2, m.iteration, payload[..split])
            && (|payload| == |RotationBody(m)| + CONTROL_TAG_SIZE ==> payload == EncodeRotationV2(hash, m, key))
  {
    PowValues();
    var split := |payload| - CONTROL_TAG_SIZE;
    var body := payload[..split];
    PutAfterGet(body[..8]);
    PutAfterTake(body[8..]);
    var m := DecodeRotationV2(hash, payload, key).value;
    assert body == body[..8] + body[8..];
    assert body == RotationBody(m) + TakeFramed(body[8..]).value.1;
    assert |body| == |RotationBody(m)| ==> body == RotationBody(m);
    assert payload == body + payload[split..];
  }

  lemma AckRoundTrip(hash: Hash, iteration: nat, key: Bytes, extra: Bytes)
    requires iteration < 0x1_0000_0000_0000_0000
    ensures DecodeRotationAck(hash, EncodeRotationAck(hash, iteration, key) + extra, key) == Ok(iteration)
  {
    PowValues();
    GetAfterPut(iteration, 8);
    var payload := EncodeRotationAck(hash, iteration, key) + extra;
    assert payload[..8] == PutBE(iteration, 8);
    assert payload[8..24] == ComputeControlTag(hash, key, TYPE_ROTATION_ACK, iteration, PutBE(iteration, 8));
  }

  lemma AckCanonical(hash: Hash, payload: Bytes, key: Bytes)
    requires DecodeRotationAck(hash, payload, key).Ok?
    ensures var iteration := DecodeRotationAck(hash, payload, key).value;
            iteration < 0x1_0000_0000_0000_0000 && EncodeRotationAck(hash, iteration, key) <= payload
  {
    PowValues();
    PutAfterGet(payload[..8]);
    assert payload == payload[..8] + payload[8..24] + payload[24..];
  }

  // The canonical bytes that the handshake transcript is computed over

  /** The framing of the transcript, written apart from the framing of the wire. */
  function WriteFramed(buf: Bytes, data: Bytes): Bytes
    requires |data| <= 0xFFFF
  {
    var n := |data|;
    buf + [(n / 256) as byte, (n % 256) as byte] + data
  }

  function Msg1Bytes(m: HandshakeMsg1): Bytes
    requires m.Encodable()
  {
    WriteFramed(WriteFramed([], m.deviceID) + m.nonce, m.identityPub)
  }

  function Msg2Bytes(m: HandshakeMsg2): Bytes
    requires m.Encodable()
  {
    WriteFramed([], m.kemCiphertext) + m.gatewayNonce
  }

  lemma SameFraming(buf: Bytes, data: Bytes)
    requires |data| <= 0xFFFF
    ensures WriteFramed(buf, data) == PutFramed(buf, data)
  {
    var n := |data|;
    assert PutBE(n, 2) == PutBE(n / 256, 1) + [(n % 256) as byte];
    assert PutBE(n / 256, 1) == PutBE(n / 256 / 256, 0) + [(n / 256 % 256) as byte];
  }

  /** What is signed is what is sent. */
  lemma TranscriptIsWire(m1: HandshakeMsg1, m2: HandshakeMsg2)
    requires m1.Encodable() && m2.Encodable()
    ensures Msg1Bytes(m1) == EncodeMsg1(m1) && Msg2Bytes(m2) == EncodeMsg2(m2)
  {
    SameFraming([], m1.deviceID);
    SameFraming(WriteFramed([], m1.deviceID) + m1.nonce, m1.identityPub);
    SameFraming([], m2.kemCiphertext);
  }
}
