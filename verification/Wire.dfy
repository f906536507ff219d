/** The payload codecs of the gateway: length-prefixed fields, and one encoder and decoder per
    message. BLAKE3 is a parameter. */
module Wire {
  import opened Bytes

  type Bytes32 = b: Bytes | |b| == 32 witness seq(32, _ => 0)

  type Hash = Bytes -> Bytes32

  datatype Error = UnexpectedEOF | TooShort | TagMismatch

  datatype Result<+T> = Ok(value: T) | Err(error: Error)

  const MAX_FIELD_SIZE := 0xFFFF
  const CONTROL_TAG_SIZE := 16
  const FIRMWARE_HASH_SIZE := 32

  const TYPE_ROTATION_V2: byte := 9
  const TYPE_ROTATION_ACK: byte := 10

  /** The ASCII bytes of a string of the source. */
  function Ascii(s: string): (b: Bytes)
    requires forall i :: 0 <= i < |s| ==> s[i] as int < 128
    ensures |b| == |s|
  {
    seq(|s|, i requires 0 <= i < |s| => s[i] as int as byte)
  }

  /** Appends one field with its two-byte length; longer fields are a defect of the caller. */
  function PutFramed(buf: Bytes, data: Bytes): Bytes
    requires |data| <= MAX_FIELD_SIZE
  {
    buf + PutBE(|data|, 2) + data
  }

  function TakeFramed(buf: Bytes): Result<(Bytes, Bytes)> {
    if |buf| < 2 then Err(UnexpectedEOF)
    else
      var n := GetBE(buf[..2]);
      if |buf| < 2 + n then Err(UnexpectedEOF) else Ok((buf[2..2 + n], buf[2 + n..]))
  }

  lemma TakeAfterPut(data: Bytes, rest: Bytes)
    requires |data| <= MAX_FIELD_SIZE
    ensures TakeFramed(PutFramed([], data) + rest) == Ok((data, rest))
  {
    PowValues();
    GetAfterPut(|data|, 2);
    var buf := PutFramed([], data) + rest;
    assert buf[..2] == PutBE(|data|, 2);
    assert buf[2..2 + |data|] == data && buf[2 + |data|..] == rest;
  }

  lemma PutAfterTake(buf: Bytes)
    requires TakeFramed(buf).Ok?
    ensures var (data, rest) := TakeFramed(buf).value;
            |data| <= MAX_FIELD_SIZE && buf == PutFramed([], data) + rest
  {
    PowValues();
    PutAfterGet(buf[..2]);
    var n := GetBE(buf[..2]);
    assert buf == buf[..2] + buf[2..2 + n] + buf[2 + n..];
  }

  // Handshake

  datatype HandshakeMsg1 = HandshakeMsg1(deviceID: Bytes, nonce: Bytes32, identityPub: Bytes) {
    predicate Encodable() {
      |deviceID| <= MAX_FIELD_SIZE && |identityPub| <= MAX_FIELD_SIZE
    }
  }

  datatype HandshakeMsg2 = HandshakeMsg2(kemCiphertext: Bytes, gatewayNonce: Bytes32) {
    predicate Encodable() {
      |kemCiphertext| <= MAX_FIELD_SIZE
    }
  }

  datatype HandshakeMsg3 = HandshakeMsg3(signature: Bytes) {
    predicate Encodable() {
      |signature| <= MAX_FIELD_SIZE
    }
  }

  function EncodeMsg1(m: HandshakeMsg1): Bytes
    requires m.Encodable()
  {
    PutFramed(PutFramed([], m.deviceID) + m.nonce, m.identityPub)
  }

  function DecodeMsg1(payload: Bytes): Result<HandshakeMsg1> {
    match TakeFramed(payload)
    case Err(e) => Err(e)
    case Ok((deviceID, rest)) =>
      if |rest| < 32 then Err(UnexpectedEOF)
      else match TakeFramed(rest[32..])
        case Err(e) => Err(e)
        case Ok((identityPub, _)) => Ok(HandshakeMsg1(deviceID, rest[..32], identityPub))
  }

  function EncodeMsg2(m: HandshakeMsg2): Bytes
    requires m.Encodable()
  {
    PutFramed([], m.kemCiphertext) + m.gatewayNonce
  }

  function DecodeMsg2(payload: Bytes): Result<HandshakeMsg2> {
    match TakeFramed(payload)
    case Err(e) => Err(e)
    case Ok((ct, rest)) => if |rest| < 32 then Err(UnexpectedEOF) else Ok(HandshakeMsg2(ct, rest[..32]))
  }

  function EncodeMsg3(m: HandshakeMsg3): Bytes
    requires m.Encodable()
  {
    PutFramed([], m.signature)
  }

  function DecodeMsg3(payload: Bytes): Result<HandshakeMsg3> {
    match TakeFramed(payload)
    case Err(e) => Err(e)
    case Ok((signature, _)) => Ok(HandshakeMsg3(signature))
  }

  // Control frames

  datatype RotationMsgV2 = RotationMsgV2(iteration: nat, kemCiphertext: Bytes) {
    predicate Encodable() {
      iteration < 0x1_0000_0000_0000_0000 && |kemCiphertext| <= MAX_FIELD_SIZE
    }
  }

  function TagPreimage(key: Bytes, frameType: byte, iteration: nat, body: Bytes): Bytes {
    key + [frameType] + PutBE(iteration, 8) + body + Ascii("lacert-control-v1")
  }

  function ComputeControlTag(hash: Hash, key: Bytes, frameType: byte, iteration: nat, body: Bytes): (tag: Bytes)
    ensures |tag| == CONTROL_TAG_SIZE
  {
    hash(TagPreimage(key, frameType, iteration, body))[..CONTROL_TAG_SIZE]
  }

  predicate VerifyControlTag(hash: Hash, key: Bytes, frameType: byte, iteration: nat, body: Bytes, tag: Bytes) {
    |tag| == CONTROL_TAG_SIZE && tag == ComputeControlTag(hash, key, frameType, iteration, body)
  }

  function RotationBody(m: RotationMsgV2): Bytes
    requires m.Encodable()
  {
    PutFramed(PutBE(m.iteration, 8), m.kemCiphertext)
  }

  function EncodeRotationV2(hash: Hash, m: RotationMsgV2, key: Bytes): Bytes
    requires m.Encodable()
  {
    RotationBody(m) + ComputeControlTag(hash, key, TYPE_ROTATION_V2, m.iteration, RotationBody(m))
  }

  /** The tag is checked before the content is parsed. */
  function DecodeRotationV2(hash: Hash, payload: Bytes, key: Bytes): Result<RotationMsgV2> {
    if |payload| < 8 + CONTROL_TAG_SIZE then Err(TooShort)
    else
      var split := |payload| - CONTROL_TAG_SIZE;
      var body, tag := payload[..split], payload[split..];
      var iteration := GetBE(body[..8]);
      if !VerifyControlTag(hash, key, TYPE_ROTATION_V2, iteration, body, tag) then Err(TagMismatch)
      else match TakeFramed(body[8..])
        case Err(e) => Err(e)
        case Ok((ct, _)) => Ok(RotationMsgV2(iteration, ct))
  }

  function EncodeRotationAck(hash: Hash, iteration: nat, key: Bytes): Bytes
    requires iteration < 0x1_0000_0000_0000_0000
  {
    PutBE(iteration, 8) + ComputeControlTag(hash, key, TYPE_ROTATION_ACK, iteration, PutBE(iteration, 8))
  }

  function DecodeRotationAck(hash: Hash, payload: Bytes, key: Bytes): Result<nat> {
    if |payload| < 8 + CONTROL_TAG_SIZE then Err(TooShort)
    else
      var body, tag := payload[..8], payload[8..8 + CONTROL_TAG_SIZE];
      var iteration := GetBE(body);
      if VerifyControlTag(hash, key, TYPE_ROTATION_ACK, iteration, body, tag) then Ok(iteration) else Err(TagMismatch)
  }

  // Data and firmware checks

  function EncodeData(nonce: Bytes, ciphertext: Bytes): Bytes
    requires |nonce| <= MAX_FIELD_SIZE && |ciphertext| <= MAX_FIELD_SIZE
  {
    PutFramed(PutFramed([], nonce), ciphertext)
  }

  function DecodeData(payload: Bytes): Result<(Bytes, Bytes)> {
    match TakeFramed(payload)
    case Err(e) => Err(e)
    case Ok((nonce, rest)) =>
      match TakeFramed(rest)
      case Err(e) => Err(e)
      case Ok((ciphertext, _)) => Ok((nonce, ciphertext))
  }

  function EncodeFirmwareChallenge(challenge: Bytes): Bytes
    requires |challenge| <= MAX_FIELD_SIZE
  {
    PutFramed([], challenge)
  }

  function DecodeFirmwareChallenge(payload: Bytes): Result<Bytes> {
    match TakeFramed(payload)
    case Err(e) => Err(e)
    case Ok((challenge, _)) => Ok(challenge)
  }

  datatype FirmwareResponse = FirmwareResponse(firmwareHash: Bytes32, signature: Bytes) {
    predicate Encodable() {
      |signature| <= MAX_FIELD_SIZE
    }
  }

  function EncodeFirmwareResponse(r: FirmwareResponse): Bytes
    requires r.Encodable()
  {
    PutFramed(r.firmwareHash, r.signature)
  }

  function DecodeFirmwareResponse(payload: Bytes): Result<FirmwareResponse> {
    if |payload| < FIRMWARE_HASH_SIZE then Err(UnexpectedEOF)
    else match TakeFramed(payload[FIRMWARE_HASH_SIZE..])
      case Err(e) => Err(e)
      case Ok((signature, _)) => Ok(FirmwareResponse(payload[..FIRMWARE_HASH_SIZE], signature))
  }
}
