/** One device, its gateway and the network between them as a state machine.

    The network keeps every control frame and data packet ever sent and may deliver any of them
    to either side, any number of times, in any order, or never. It may also deliver frames of
    its own making, as long as their tag is not computed under a session key it does not know. */
module Protocol {
  import opened Bytes
  import opened Options
  import opened Terms
  import opened Sessions

  /** The Go device numbers packets with the session's packet count, which every commit resets;
      the C firmware uses a counter that only a handshake resets. */
  datatype Flavour = GoDevice | Firmware

  datatype Endpoint = Endpoint(session: SessionState, seqNum: nat)

  /** The gateway's record of a handshake between Msg2 and Msg3. */
  datatype Attempt = Attempt(hello: Hello, reply: Reply, secret: Secret)

  function AttemptKey(a: Attempt): Key {
    Initial(a.secret, Transcript(a.hello, a.reply))
  }

  /** The device's sessions are filed under their handshake key: the live one under current, the
      others as they were when the device left them. The last three fields record history. */
  datatype System = System(
    flavour: Flavour,
    hello: Option<Hello>,
    current: Option<Key>,
    archive: map<Key, Endpoint>,
    attempt: Option<Attempt>,
    gateway: Option<SessionState>,
    signed: set<Key>,
    drawn: nat,
    tags: set<Tag>,
    packets: set<Packet>,
    installed: set<Key>,
    delivered: seq<Packet>)
  {
    predicate Online(p: Party) {
      if p == Device then current.Some? && current.value in archive else gateway.Some?
    }

    function Session(p: Party): SessionState
      requires Online(p)
    {
      if p == Device then archive[current.value].session else gateway.value
    }

    /** Stores the new state of p's live session. */
    function Update(p: Party, t: SessionState): System
      requires Online(p)
    {
      if p == Device then
        this.(archive := archive[current.value := archive[current.value].(session := t)],
              installed := installed + {t.key})
      else
        this.(gateway := Some(t))
    }

    function PacketCounter(): nat
      requires Online(Device)
    {
      if flavour == Firmware then archive[current.value].seqNum else Session(Device).packetCount
    }
  }

  function Start(flavour: Flavour): System {
    System(flavour, None, None, map[], None, None, {}, 0, {}, {}, {}, [])
  }

  datatype Step =
    | StartHandshake
    | AnswerHello(hello: Hello)
    | CompleteHandshake(reply: Reply)
    | FinalizeHandshake(signature: Key)
    | Initiate(party: Party)
    | Deliver(to: Party, frame: Frame)
    | SendData(salt: Bytes, plaintext: Bytes)
    | DeliverData(nonce: Bytes, packet: Packet)
    | Drop(party: Party)
    | Abort(party: Party)

  /** Keys that somebody outside can compute: those of a handshake whose ciphertext was foreign. */
  predicate Compromised(k: Key) {
    match Root(k)
    case Zero => true
    case Initial(secret, _) => secret.Known?
  }

  /** Nobody can use a ciphertext that has not been made yet. */
  predicate Made(s: System, ct: Ciphertext) {
    ct.Foreign? || ct.seed < s.drawn
  }

  predicate Enabled(s: System, step: Step) {
    match step
    case CompleteHandshake(reply) => s.hello.Some? && Made(s, reply.ct)
    case Initiate(p) => s.Online(p)
    case Deliver(p, frame) =>
      && s.Online(p) && (frame.body.RotationV2? ==> Made(s, frame.body.ct))
      && (frame.tag in s.tags || frame.tag.Forged? || Compromised(frame.tag.key))
    case SendData(salt, plaintext) =>
      && s.Online(Device) && |salt| == NONCE_SIZE - 4 && |plaintext| <= MAX_PAYLOAD_SIZE
      && s.PacketCounter() < 0x1_0000_0000
    case DeliverData(_, packet) => s.Online(Gateway) && (packet in s.packets || Compromised(packet.key))
    case Abort(p) => s.Online(p)
    case _ => true
  }

  /** Dispatch of one incoming control frame: the key is read first, the tag is checked under it,
      and an acknowledgement carries a tag under that same key although the rotation is applied
      by then. */
  function Receive(s: SessionState, me: Party, frame: Frame, now: int): (SessionState, Option<Body>) {
    if s.closed || frame.tag != ControlTag(s.key, frame.body) then (s, None)
    else match frame.body
      case RotationV2(_, _) =>
        (match s.Respond(me, frame.body, now)
         case Ok((t, ack)) => (t, Some(ack))
         case Err(_) => (s, None))
      case RotationAck(i) =>
        (match s.ApplyAck(i, now)
         case Ok(t) => (t, None)
         case Err(_) => (s, None))
  }

  /** Does the packet open under the session key and pass the replay window? */
  function ReceiveData(s: SessionState, nonce: Bytes, packet: Packet): Option<SessionState> {
    if s.closed || packet.key != s.key || packet.nonce != nonce then None
    else match s.CheckDataNonce(nonce)
      case Ok(t) => Some(t.RecordPacket())
      case Err(_) => None
  }

  function Apply(s: System, step: Step, now: int): System
    requires Enabled(s, step)
  {
    match step
    case StartHandshake => s.(hello := Some(Hello(s.drawn)), drawn := s.drawn + 1)
    case AnswerHello(hello) =>
      var reply := Reply(Encapsulated(Device, s.drawn), s.drawn + 1);
      s.(attempt := Some(Attempt(hello, reply, Shared(s.drawn))), drawn := s.drawn + 2)
    case CompleteHandshake(reply) =>
      var k0 := Initial(Decapsulate(Device, reply.ct), Transcript(s.hello.value, reply));
      s.(hello := None, current := Some(k0), archive := s.archive[k0 := Endpoint(Fresh(k0, now), 0)],
         signed := s.signed + {k0}, installed := s.installed + {k0})
    case FinalizeHandshake(signature) =>
      if s.attempt.Some? && signature == AttemptKey(s.attempt.value) && signature in s.signed then
        s.(attempt := None, gateway := Some(Fresh(signature, now)))
      else
        s.(attempt := None)
    case Initiate(p) =>
      (match s.Session(p).Initiate(p.Peer(), s.drawn, now)
       case Ok((t, msg)) =>
         s.Update(p, t).(drawn := s.drawn + 1, tags := s.tags + {ControlTag(s.Session(p).key, msg)})
       case Err(_) => s)
    case Deliver(p, frame) =>
      var (t, ack) := Receive(s.Session(p), p, frame, now);
      s.Update(p, t).(tags := s.tags + if ack.Some? then {ControlTag(s.Session(p).key, ack.value)} else {})
    case SendData(salt, plaintext) =>
      var d := s.archive[s.current.value];
      var packet := Packet(d.session.key, salt + PutBE(s.PacketCounter(), 4), plaintext);
      s.(archive := s.archive[s.current.value := Endpoint(d.session.RecordPacket(), d.seqNum + 1)],
         packets := s.packets + {packet})
    case DeliverData(nonce, packet) =>
      (match ReceiveData(s.gateway.value, nonce, packet)
       case Some(t) => s.(gateway := Some(t), delivered := s.delivered + [packet])
       case None => s)
    case Drop(p) => if p == Device then s.(current := None) else s.(gateway := None)
    case Abort(p) => s.Update(p, s.Session(p).AbortRotate())
  }

  datatype Event = Event(step: Step, now: int)

  ghost predicate IsRun(s: System, run: seq<Event>)
    decreases |run|
  {
    run == [] || (Enabled(s, run[0].step) && IsRun(Apply(s, run[0].step, run[0].now), run[1..]))
  }

  ghost function After(s: System, run: seq<Event>): System
    requires IsRun(s, run)
    decreases |run|
  {
    if run == [] then s else After(Apply(s, run[0].step, run[0].now), run[1..])
  }

  ghost predicate NoAborts(run: seq<Event>) {
    forall e :: e in run ==> !e.step.Abort?
  }

  /** The gateway owes a cut from the rollback of a pending rotation until its session is gone or
      replaced by that of a new handshake. */
  function Owes(s: System, e: Event, owed: bool): bool
    requires Enabled(s, e.step)
  {
    match e.step
    case Abort(p) => owed || (p == Gateway && s.gateway.value.pendingActive)
    case Drop(p) => owed && p != Gateway
    case FinalizeHandshake(_) => owed && Apply(s, e.step, e.now).gateway == s.gateway
    case _ => owed
  }

  /** The rule for one event: the device never rolls back, and the gateway begins no rotation while
      it owes a cut. */
  predicate Obeys(e: Event, owed: bool) {
    e.step != Abort(Device) && !(owed && e.step == Initiate(Gateway))
  }

  /** The discipline of the scheduler: abort, then cut, then a new handshake. Any steps and frames
      may come in between, the late acknowledgement included. */
  ghost predicate Disciplined(s: System, run: seq<Event>, owed: bool)
    requires IsRun(s, run)
    decreases |run|
  {
    run != [] ==>
      && Obeys(run[0], owed)
      && Disciplined(Apply(s, run[0].step, run[0].now), run[1..], Owes(s, run[0], owed))
  }

  /** Is a cut owed at the end of the run? */
  ghost predicate OwedAfter(s: System, run: seq<Event>, owed: bool)
    requires IsRun(s, run)
    decreases |run|
  {
    if run == [] then owed
    else OwedAfter(Apply(s, run[0].step, run[0].now), run[1..], Owes(s, run[0], owed))
  }
}
