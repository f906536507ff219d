/** The byte strings that BLAKE3 is applied to never coincide, within one use or across uses.
    This is what lets the protocol model treat keys and tags as free terms. */
module Preimages {
  import opened Bytes
  import opened Wire
  import opened Codecs

  const KEM_CIPHERTEXT_SIZE := 1568

  datatype Input =
    | Transcript(msg1: HandshakeMsg1, msg2: HandshakeMsg2)
    | InitialKey(secret: Bytes, transcript: Bytes)
    | Confirmation(signed: Bytes, k0: Bytes)
    | NextKey(current: Bytes, mi: Bytes, iteration: nat)
    | ControlTag(key: Bytes, frameType: byte, step: nat, body: Bytes)
  {
    /** The sizes of the protocol; the body of a control frame may be any that a sender chooses. */
    predicate Valid() {
      match this
      case Transcript(m1, m2) => m1.Encodable() && |m2.kemCiphertext| == KEM_CIPHERTEXT_SIZE
      case InitialKey(secret, transcript) => |secret| == 32 && |transcript| == 32
      case Confirmation(signed, k0) => |signed| == 32 && |k0| == 32
      case NextKey(current, mi, i) => |current| == 32 && |mi| == 32 && i < 0x1_0000_0000_0000_0000
      case ControlTag(key, _, i, _) => |key| == 32 && i < 0x1_0000_0000_0000_0000
    }

    /** The body of a control frame, if it is one, is that of an acknowledgement or of a rotation with
        an ML-KEM-1024 ciphertext. */
    predicate ProtocolBody() {
      ControlTag? ==> |body| == 8 || |body| == 8 + 2 + KEM_CIPHERTEXT_SIZE
    }

    function Serialize(): Bytes
      requires Valid()
    {
      match this
      case Transcript(m1, m2) => Msg1Bytes(m1) + Msg2Bytes(m2)
      case InitialKey(secret, transcript) => secret + transcript + Ascii("lacert_handshake_v1")
      case Confirmation(signed, k0) => signed + Ascii("confirm") + k0
      case NextKey(current, mi, i) => current + mi + PutBE(i, 8) + Ascii("rotate_v1")
      case ControlTag(key, t, i, body) => TagPreimage(key, t, i, body)
    }
  }

  lemma FixedLengths(p: Input)
    requires p.Valid() && p.ProtocolBody()
    ensures p.InitialKey? ==> |p.Serialize()| == 83
    ensures p.Confirmation? ==> |p.Serialize()| == 71
    ensures p.NextKey? ==> |p.Serialize()| == 81
    ensures p.ControlTag? ==> |p.Serialize()| == 66 || |p.Serialize()| == 1636
    ensures p.Transcript? ==> |p.Serialize()| > 1636
  {
  }

  lemma TranscriptInjective(m1: HandshakeMsg1, m2: HandshakeMsg2, n1: HandshakeMsg1, n2: HandshakeMsg2)
    requires m1.Encodable() && m2.Encodable() && n1.Encodable() && n2.Encodable()
    requires Msg1Bytes(m1) + Msg2Bytes(m2) == Msg1Bytes(n1) + Msg2Bytes(n2)
    ensures m1 == n1 && m2 == n2
  {
    TranscriptIsWire(m1, m2);
    TranscriptIsWire(n1, n2);
    Msg1RoundTrip(m1, EncodeMsg2(m2));
    Msg1RoundTrip(n1, EncodeMsg2(n2));
    SplitEqual(EncodeMsg1(m1), EncodeMsg2(m2), EncodeMsg1(n1), EncodeMsg2(n2));
    Msg2RoundTrip(m2, []);
    Msg2RoundTrip(n2, []);
    assert EncodeMsg2(m2) + [] == EncodeMsg2(m2) && EncodeMsg2(n2) + [] == EncodeMsg2(n2);
  }

  lemma NextKeyInjective(p: Input, q: Input)
    requires p.Valid() && q.Valid() && p.NextKey? && q.NextKey? && p.Serialize() == q.Serialize()
    ensures p == q
  {
    PowValues();
    var sep := Ascii("rotate_v1");
    SplitEqual(p.current + p.mi + PutBE(p.iteration, 8), sep, q.current + q.mi + PutBE(q.iteration, 8), sep);
    SplitEqual(p.current + p.mi, PutBE(p.iteration, 8), q.current + q.mi, PutBE(q.iteration, 8));
    SplitEqual(p.current, p.mi, q.current, q.mi);
    PutInjective(p.iteration, q.iteration, 8);
  }

  /** Whatever the bodies and their lengths. */
  lemma ControlTagInjective(p: Input, q: Input)
    requires p.Valid() && q.Valid() && p.ControlTag? && q.ControlTag? && p.Serialize() == q.Serialize()
    ensures p == q
  {
    PowValues();
    var sep := Ascii("lacert-control-v1");
    var a, b := p.key + [p.frameType] + PutBE(p.step, 8), q.key + [q.frameType] + PutBE(q.step, 8);
    SplitEqual(a + p.body, sep, b + q.body, sep);
    SplitEqual(a, p.body, b, q.body);
    SplitEqual(p.key + [p.frameType], PutBE(p.step, 8), q.key + [q.frameType], PutBE(q.step, 8));
    SplitEqual(p.key, [p.frameType], q.key, [q.frameType]);
    PutInjective(p.step, q.step, 8);
  }

  /** Main result: no two hash inputs of the protocol are the same bytes. */
  lemma InputsUnambiguous(p: Input, q: Input)
    requires p.Valid() && q.Valid() && p.ProtocolBody() && q.ProtocolBody() && p.Serialize() == q.Serialize()
    ensures p == q
  {
    FixedLengths(p);
    FixedLengths(q);
    match p
    case Transcript(m1, m2) => TranscriptInjective(m1, m2, q.msg1, q.msg2);
    case InitialKey(secret, transcript) =>
      var sep := Ascii("lacert_handshake_v1");
      SplitEqual(secret + transcript, sep, q.secret + q.transcript, sep);
      SplitEqual(secret, transcript, q.secret, q.transcript);
    case Confirmation(signed, k0) =>
      SplitEqual(signed + Ascii("confirm"), k0, q.signed + Ascii("confirm"), q.k0);
      SplitEqual(signed, Ascii("confirm"), q.signed, Ascii("confirm"));
    case NextKey(_, _, _) => NextKeyInjective(p, q);
    case ControlTag(_, _, _, _) => ControlTagInjective(p, q);
  }

  /** A rotation and an acknowledgement are never tagged over the same bytes, whatever they carry. */
  lemma ControlTypesApart(key: Bytes, i: nat, body: Bytes, other: Bytes, j: nat, content: Bytes)
    requires |key| == 32 && |other| == 32 && i < 0x1_0000_0000_0000_0000 && j < 0x1_0000_0000_0000_0000
    ensures TagPreimage(key, TYPE_ROTATION_V2, i, body) != TagPreimage(other, TYPE_ROTATION_ACK, j, content)
  {
    if TagPreimage(key, TYPE_ROTATION_V2, i, body) == TagPreimage(other, TYPE_ROTATION_ACK, j, content) {
      ControlTagInjective(ControlTag(key, TYPE_ROTATION_V2, i, body), ControlTag(other, TYPE_ROTATION_ACK, j, content));
    }
  }

  /** The separators keep the tag apart from both keys at every body length, not only at those the
      protocol uses. */
  lemma SeparatorsApart(key: Bytes, frameType: byte, step: nat, body: Bytes, other: Bytes)
    ensures TagPreimage(key, frameType, step, body) != other + Ascii("lacert_handshake_v1")
    ensures TagPreimage(key, frameType, step, body) != other + Ascii("rotate_v1")
  {
    var tag := TagPreimage(key, frameType, step, body);
    var a, b := other + Ascii("lacert_handshake_v1"), other + Ascii("rotate_v1");
    assert a[|a| - 3] == '_' as int as byte && b[|b| - 3] == '_' as int as byte;
    assert tag[|tag| - 3] == '-' as int as byte;
  }
}
