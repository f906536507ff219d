/** The rotation of the Go device on bytes is the protocol's receive step, read through any reading of
    its keys, secrets and ciphertexts as bytes. */
module GoRotation {
  import opened Bytes
  import opened Options
  import Codecs
  import FirmwareWire
  import Preimages
  import Protocol
  import Sessions
  import Terms
  import Wire

  datatype Reading = Reading(
    key: Terms.Key -> Wire.Bytes32,
    secret: Terms.Secret -> Wire.Bytes32,
    ct: Terms.Ciphertext -> Bytes)

  /** Keys are derived by the hash, and the device's decapsulation opens what is meant for it. */
  ghost predicate Faithful(r: Reading, hash: Wire.Hash, decapsulate: FirmwareWire.Decapsulation) {
    && (forall k: Terms.Key, mi: Terms.Secret, i: nat | i < 0x1_0000_0000_0000_0000 ::
          r.key(Terms.Next(k, mi, i)) == FirmwareWire.NextKeyOf(hash, r.key(k), r.secret(mi), i))
    && forall ct: Terms.Ciphertext ::
         && |r.ct(ct)| == Preimages.KEM_CIPHERTEXT_SIZE
         && decapsulate(r.ct(ct)) == r.secret(Terms.Decapsulate(Terms.Device, ct))
  }

  /** The bytes of a rotation frame. */
  function Payload(r: Reading, hash: Wire.Hash, key: Terms.Key, i: nat, ct: Terms.Ciphertext): Bytes
    requires i < 0x1_0000_0000_0000_0000 && |r.ct(ct)| <= Wire.MAX_FIELD_SIZE
  {
    Wire.EncodeRotationV2(hash, Wire.RotationMsgV2(i, r.ct(ct)), r.key(key))
  }

  /** What the receive step comes to on bytes: the new key and the acknowledgement. */
  function OnBytes(
    r: Reading, hash: Wire.Hash, s: Sessions.SessionState, t: Sessions.SessionState, ack: Option<Terms.Body>)
    : Option<(Wire.Bytes32, Bytes)>
    requires ack.Some? ==> ack.value.iteration < 0x1_0000_0000_0000_0000
  {
    if ack.None? then None
    else Some((r.key(t.key), Wire.EncodeRotationAck(hash, ack.value.iteration, r.key(s.key))))
  }

  /** Both ways: what the protocol applies the bytes apply, to the same key and acknowledgement, and
      what it refuses they refuse. */
  lemma GoTakesTheStep(
    r: Reading, hash: Wire.Hash, decapsulate: FirmwareWire.Decapsulation,
    s: Sessions.SessionState, i: nat, ct: Terms.Ciphertext, now: int)
    requires Faithful(r, hash, decapsulate) && !s.closed && !s.pendingActive
    requires s.iteration < 0xFFFF_FFFF_FFFF_FFFF && i < 0x1_0000_0000_0000_0000
    ensures |r.ct(ct)| <= Wire.MAX_FIELD_SIZE
    ensures var body := Terms.RotationV2(i, ct);
            var (t, ack) := Protocol.Receive(s, Terms.Device, Terms.Frame(body, Terms.ControlTag(s.key, body)), now);
            && (ack.Some? ==> ack.value.iteration == i)
            && FirmwareWire.GoHandleRotation(hash, decapsulate, r.key(s.key), s.iteration,
                                             Payload(r, hash, s.key, i, ct))
               == OnBytes(r, hash, s, t, ack)
  {
    assert |r.ct(ct)| == Preimages.KEM_CIPHERTEXT_SIZE;
    Codecs.RotationRoundTrip(hash, Wire.RotationMsgV2(i, r.ct(ct)), r.key(s.key));
    assert r.key(Terms.Next(s.key, Terms.Decapsulate(Terms.Device, ct), i))
        == FirmwareWire.NextKeyOf(hash, r.key(s.key), r.secret(Terms.Decapsulate(Terms.Device, ct)), i);
  }
}
