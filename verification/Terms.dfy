/** Cryptography as free terms: two keys, secrets or tags are equal only when they were
    built the same way from the same parts. The byte-level side of that reading is in
    Preimages. */
module Terms {
  import opened Bytes

  datatype Party = Device | Gateway {
    function Peer(): Party {
      if this == Device then Gateway else Device
    }
  }

  /** A ciphertext made by one of the two parties under its peer's KEM key, or one made by
      somebody else, who then knows the secret inside. */
  datatype Ciphertext = Encapsulated(owner: Party, seed: nat) | Foreign(guess: nat)

  datatype Secret = Shared(seed: nat) | Known(guess: nat) | Rejected(holder: Party, ct: Ciphertext)

  /** Decapsulation never fails: a ciphertext made for the other party gives a secret that
      nobody else can compute (section 6.3 of FIPS 203). */
  function Decapsulate(me: Party, ct: Ciphertext): Secret {
    match ct
    case Encapsulated(owner, seed) => if owner == me then Shared(seed) else Rejected(me, ct)
    case Foreign(guess) => Known(guess)
  }

  /** Msg1 and Msg2 of the handshake; their fields other than the random ones are fixed for a
      registered device. */
  datatype Hello = Hello(nonce: nat)

  datatype Reply = Reply(ct: Ciphertext, nonce: nat)

  datatype Transcript = Transcript(hello: Hello, reply: Reply)

  /** Zero is the content of a wiped key buffer. */
  datatype Key = Zero | Initial(secret: Secret, transcript: Transcript) | Next(prev: Key, mi: Secret, iteration: nat)

  /** The handshake key from which k was rotated. */
  function Root(k: Key): (r: Key)
    ensures !r.Next?
  {
    if k.Next? then Root(k.prev) else k
  }

  /** How many rotations lie between k and its root. */
  function Depth(k: Key): nat {
    if k.Next? then Depth(k.prev) + 1 else 0
  }

  /** Was k obtained from base by zero or more rotations? */
  predicate Extends(k: Key, base: Key) {
    k == base || (k.Next? && Extends(k.prev, base))
  }

  datatype Body = RotationV2(iteration: nat, ct: Ciphertext) | RotationAck(iteration: nat)

  const TYPE_ROTATION_V2 := 9
  const TYPE_ROTATION_ACK := 10

  datatype Tag = Tag(key: Key, frameType: nat, iteration: nat, body: Body) | Forged(bits: nat)

  datatype Frame = Frame(body: Body, tag: Tag)

  function FrameType(body: Body): nat {
    if body.RotationV2? then TYPE_ROTATION_V2 else TYPE_ROTATION_ACK
  }

  function ControlTag(key: Key, body: Body): Tag {
    Tag(key, FrameType(body), body.iteration, body)
  }

  /** A data packet as ChaCha20-Poly1305 leaves it: it opens under the sealing key and nonce
      only (section 2.8 of RFC 8439). */
  datatype Packet = Packet(key: Key, nonce: Bytes, plaintext: Bytes)

  const NONCE_SIZE := 12
  const MAX_PAYLOAD_SIZE := 380
}
