/** One side of the connection at work: the session it holds, the frames it answers and the packets
    it sends and accepts. Every method is proved to take the step that module Protocol describes. */
module Endpoints {
  import opened Bytes
  import opened Options
  import opened Terms
  import opened Sessions
  import Protocol

  type Arrival = (Frame, int)

  /** What a side comes to by listening to frames, and the tagged answers it writes. */
  function Heard(s: SessionState, me: Party, frames: seq<Arrival>): (SessionState, seq<Frame>)
    decreases |frames|
  {
    if frames == [] then (s, []) else
      var (t, reply) := Protocol.Receive(s, me, frames[0].0, frames[0].1);
      var (u, rest) := Heard(t, me, frames[1..]);
      (u, Answers(s.key, reply) + rest)
  }

  /** An answer is tagged under the key that was current when its frame came in. */
  function Answers(key: Key, reply: Option<Body>): seq<Frame> {
    if reply.None? then [] else [Frame(reply.value, ControlTag(key, reply.value))]
  }

  class Side {
    const me: Party
    var session: Session?

    ghost function Live(): Option<SessionState>
      reads this, session
    {
      if session == null then None else Some(session.State())
    }

    constructor (me: Party)
      ensures this.me == me && session == null
    {
      this.me := me;
      session := null;
    }

    /** A finished handshake replaces whatever session there was. */
    method Establish(k0: Key, now: int)
      modifies this
      ensures fresh(session) && Live() == Some(Fresh(k0, now))
    {
      session := new Session(k0, now);
    }

    method CloseSession()
      modifies session
      ensures old(session) == session
      ensures Live() == match old(Live()) case None => None case Some(s) => Some(s.Close())
    {
      if session != null {
        session.Close();
      }
    }

    /** The current key is taken before anything else and serves for both tags. */
    method Dispatch(frame: Frame, now: int) returns (sent: seq<Frame>)
      modifies session
      ensures old(session) == session
      ensures match old(Live())
              case None => sent == []
              case Some(s) =>
                var (t, reply) := Protocol.Receive(s, me, frame, now);
                Live() == Some(t) && sent == Answers(s.key, reply)
    {
      if session == null {
        return [];
      }
      var current := session.CurrentKey();
      match current
      case Err(_) => return [];
      case Ok(key) =>
        if frame.tag != ControlTag(key, frame.body) {
          return [];
        }
        if frame.body.RotationV2? {
          var answer := session.RespondToRotationAtomic(me, frame.body, now);
          match answer
          case Err(_) => return [];
          case Ok(ack) => return [Frame(ack, ControlTag(key, ack))];
        }
        var _ := session.ApplyRotationAck(frame.body.iteration, now);
        return [];
    }

    /** Listens to frames until the connection ends. */
    method Listen(frames: seq<Arrival>) returns (sent: seq<Frame>)
      requires session != null
      modifies session
      ensures session != null && session == old(session)
      ensures session.State() == Heard(old(session.State()), me, frames).0
      ensures sent == Heard(old(session.State()), me, frames).1
    {
      sent := [];
      assert frames[0..] == frames;
      for i := 0 to |frames|
        invariant Heard(old(session.State()), me, frames).0 == Heard(session.State(), me, frames[i..]).0
        invariant Heard(old(session.State()), me, frames).1 == sent + Heard(session.State(), me, frames[i..]).1
      {
        assert frames[i..][1..] == frames[i + 1..];
        var answers := Dispatch(frames[i].0, frames[i].1);
        sent := sent + answers;
      }
      assert frames[|frames|..] == [];
    }

    /** The rotation message is tagged under the current key: the new one waits for the answer. */
    method InitiateRotation(seed: nat, now: int) returns (sent: Option<Frame>)
      modifies session
      ensures old(session) == session
      ensures match old(Live())
              case None => sent == None
              case Some(s) =>
                match s.Initiate(me.Peer(), seed, now)
                case Ok((t, msg)) => Live() == Some(t) && sent == Some(Frame(msg, ControlTag(s.key, msg)))
                case Err(_) => Live() == Some(s) && sent == None
    {
      if session == null {
        return None;
      }
      var begun := session.InitiateRotationAtomic(me.Peer(), seed, now);
      match begun
      case Err(_) => return None;
      case Ok(msg) =>
        var current := session.CurrentKey();
        match current
        case Ok(key) => return Some(Frame(msg, ControlTag(key, msg)));
        case Err(_) => return None;
    }

    /** Seals a packet under the current key, numbered by the packets counted so far. */
    method SendData(salt: Bytes, plaintext: Bytes) returns (sent: Option<Packet>)
      modifies session
      ensures old(session) == session
      ensures match old(Live())
              case None => sent == None
              case Some(s) =>
                if s.closed then Live() == Some(s) && sent == None
                else Live() == Some(s.RecordPacket())
                     && sent == Some(Packet(s.key, salt + PutBE(s.packetCount % 0x1_0000_0000, 4), plaintext))
    {
      if session == null {
        return None;
      }
      var current := session.CurrentKey();
      match current
      case Err(_) => return None;
      case Ok(key) =>
        var packet := Packet(key, salt + PutBE(session.packetCount % 0x1_0000_0000, 4), plaintext);
        session.RecordPacket();
        return Some(packet);
    }

    /** Opens a packet; only then does its nonce enter the window and the packet count. */
    method HandleData(nonce: Bytes, packet: Packet) returns (plaintext: Option<Bytes>)
      modifies session
      ensures old(session) == session
      ensures match old(Live())
              case None => plaintext == None
              case Some(s) =>
                match Protocol.ReceiveData(s, nonce, packet)
                case Some(t) => Live() == Some(t) && plaintext == Some(packet.plaintext)
                case None => Live() == Some(s) && plaintext == None
    {
      if session == null {
        return None;
      }
      var current := session.CurrentKey();
      match current
      case Err(_) => return None;
      case Ok(key) =>
        if packet.key != key || packet.nonce != nonce {
          return None;
        }
        var checked := session.CheckDataNonce(nonce);
        match checked
        case Err(_) => return None;
        case Ok(_) =>
          session.RecordPacket();
          return Some(packet.plaintext);
    }
  }

  function Deliveries(p: Party, frames: seq<Arrival>): seq<Protocol.Event> {
    if frames == [] then [] else
      [Protocol.Event(Protocol.Deliver(p, frames[0].0), frames[0].1)] + Deliveries(p, frames[1..])
  }

  function Tags(frames: seq<Frame>): set<Tag> {
    set f | f in frames :: f.tag
  }

  lemma AnswerTags(key: Key, reply: Option<Body>)
    ensures Tags(Answers(key, reply)) == if reply.Some? then {ControlTag(key, reply.value)} else {}
  {
    if reply.Some? {
      assert Frame(reply.value, ControlTag(key, reply.value)) in Answers(key, reply);
    }
  }

  lemma TagsOfBoth(a: seq<Frame>, b: seq<Frame>)
    ensures Tags(a + b) == Tags(a) + Tags(b)
  {
    forall t
      ensures t in Tags(a + b) <==> t in Tags(a) || t in Tags(b)
    {
      if t in Tags(a) {
        var f :| f in a && f.tag == t;
        assert f in a + b;
      }
      if t in Tags(b) {
        var f :| f in b && f.tag == t;
        assert f in a + b;
      }
    }
  }

  /** Listening is a run of the protocol: its end is the listener's session, and the network gets just
      the answers that the listener writes. */
  lemma {:induction false} ListeningIsDelivering(s: Protocol.System, p: Party, frames: seq<Arrival>)
    requires s.Online(p) && Protocol.IsRun(s, Deliveries(p, frames))
    ensures var t := Protocol.After(s, Deliveries(p, frames));
            && s.tags <= t.tags
            && t.Online(p) && t.Session(p) == Heard(s.Session(p), p, frames).0
            && t.tags == s.tags + Tags(Heard(s.Session(p), p, frames).1)
    decreases |frames|
  {
    if frames != [] {
      var run := Deliveries(p, frames);
      assert run[1..] == Deliveries(p, frames[1..]);
      var (next, reply) := Protocol.Receive(s.Session(p), p, frames[0].0, frames[0].1);
      ListeningIsDelivering(Protocol.Apply(s, run[0].step, run[0].now), p, frames[1..]);
      TagsOfBoth(Answers(s.Session(p).key, reply), Heard(next, p, frames[1..]).1);
      AnswerTags(s.Session(p).key, reply);
    }
  }
}
