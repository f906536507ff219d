/** The agreement of the two ends over every run of the protocol: any number of handshakes,
    rotations from either side, disconnections, and any behaviour of the network. */
module Runs {
  import opened Options
  import opened Terms
  import opened Sessions
  import opened Protocol
  import opened Agreement

  /** The secret was drawn, or made by somebody else, before number n was. */
  predicate DrawnBefore(secret: Secret, n: nat) {
    match secret
    case Shared(seed) => seed < n
    case Known(_) => true
    case Rejected(_, ct) => ct.Foreign? || ct.seed < n
  }

  /** The gateway's end g of handshake root, as seen together with the device's end. */
  ghost predicate LinkedEnd(s: System, root: Key, g: SessionState)
    requires root in s.archive
  {
    Linked(Pair(s.archive[root].session, g), root, s.tags)
  }

  ghost predicate EntryOk(s: System, root: Key, d: SessionState) {
    && root.Initial?
    && Sound(d) && Root(d.key) == root && d.key in s.installed
    && DrawnBefore(root.secret, s.drawn)
    && root.transcript.hello.nonce < s.drawn
    && (s.hello.Some? ==> root.transcript.hello != s.hello.value)
  }

  ghost predicate ArchiveOk(s: System) {
    && (s.current.Some? ==> s.current.value in s.archive)
    && (s.hello.Some? ==> s.hello.value.nonce < s.drawn)
    && s.signed <= s.archive.Keys
    && (forall t | t in s.tags && t.Tag? :: Root(t.key) in s.archive)
    && forall r | r in s.archive :: EntryOk(s, r, s.archive[r].session)
  }

  /** The gateway's session and the handshake in progress come from secrets of its own, and the
      device has signed for the session. */
  ghost predicate GatewayOk(s: System) {
    && (s.gateway.Some? ==>
          var root := Root(s.gateway.value.key);
          Sound(s.gateway.value) && root.Initial? && root.secret.Shared? && root in s.archive)
    && (s.attempt.Some? ==>
          var k0 := AttemptKey(s.attempt.value);
          && k0.secret.Shared? && k0.secret.seed < s.drawn
          && (s.gateway.Some? ==> Root(s.gateway.value.key) != k0))
  }

  /** Holds in every run, with or without discipline. */
  ghost predicate Base(s: System) {
    ArchiveOk(s) && GatewayOk(s)
  }

  ghost predicate Links(s: System)
    requires Base(s)
  {
    && (s.gateway.Some? ==> LinkedEnd(s, Root(s.gateway.value.key), s.gateway.value))
    && (s.attempt.Some? && AttemptKey(s.attempt.value) in s.archive ==>
          LinkedEnd(s, AttemptKey(s.attempt.value), Fresh(AttemptKey(s.attempt.value), UNSET)))
  }

  ghost predicate Inv(s: System) {
    Base(s) && Links(s)
  }

  /** A session that stays sound and keeps its root may change, and send frames under that root. */
  lemma UpdateKeepsBase(s: System, p: Party, next: SessionState, more: set<Tag>, drawn: nat)
    requires Base(s) && s.Online(p) && Sound(next) && Root(next.key) == Root(s.Session(p).key)
    requires forall m | m in more :: m.Tag? && Root(m.key) == Root(next.key)
    requires drawn >= s.drawn
    ensures Base(s.Update(p, next).(tags := s.tags + more, drawn := drawn))
  {
    var t := s.Update(p, next).(tags := s.tags + more, drawn := drawn);
    forall m | m in t.tags && m.Tag?
      ensures Root(m.key) in t.archive
    {
      assert m in s.tags || m in more;
    }
    forall r | r in t.archive
      ensures EntryOk(t, r, t.archive[r].session)
    {
      assert EntryOk(s, r, s.archive[r].session);
    }
  }

  lemma CompleteKeepsBase(s: System, reply: Reply, now: int)
    requires Base(s) && Enabled(s, CompleteHandshake(reply))
    ensures Base(Apply(s, CompleteHandshake(reply), now))
  {
    var t := Apply(s, CompleteHandshake(reply), now);
    forall r | r in t.archive
      ensures EntryOk(t, r, t.archive[r].session)
    {
      if r != t.current.value {
        assert EntryOk(s, r, s.archive[r].session);
      }
    }
  }

  /** A new hello or a new answer only draws numbers that nothing has used yet. */
  lemma MessageKeepsBase(s: System, step: Step, now: int)
    requires Base(s) && (step.StartHandshake? || step.AnswerHello?)
    ensures Base(Apply(s, step, now))
  {
    var t := Apply(s, step, now);
    forall r | r in t.archive
      ensures EntryOk(t, r, t.archive[r].session)
    {
      assert EntryOk(s, r, s.archive[r].session);
    }
  }

  lemma FinalizeKeepsBase(s: System, signature: Key, now: int)
    requires Base(s)
    ensures Base(Apply(s, FinalizeHandshake(signature), now))
  {
    var t := Apply(s, FinalizeHandshake(signature), now);
    forall r | r in t.archive
      ensures EntryOk(t, r, t.archive[r].session)
    {
      assert EntryOk(s, r, s.archive[r].session);
    }
  }

  lemma DropKeepsBase(s: System, p: Party, now: int)
    requires Base(s)
    ensures Base(Apply(s, Drop(p), now))
  {
    var t := Apply(s, Drop(p), now);
    forall r | r in t.archive
      ensures EntryOk(t, r, t.archive[r].session)
    {
      assert EntryOk(s, r, s.archive[r].session);
    }
  }

  lemma DataKeepsBase(s: System, step: Step, now: int)
    requires Base(s) && Enabled(s, step) && (step.SendData? || step.DeliverData?)
    ensures Base(Apply(s, step, now))
  {
    var t := Apply(s, step, now);
    forall r | r in t.archive
      ensures EntryOk(t, r, t.archive[r].session)
    {
      assert EntryOk(s, r, s.archive[r].session);
    }
  }

  lemma BaseKept(s: System, step: Step, now: int)
    requires Base(s) && Enabled(s, step)
    ensures Base(Apply(s, step, now))
  {
    match step
    case Initiate(p) =>
      var outcome := s.Session(p).Initiate(p.Peer(), s.drawn, now);
      if outcome.Ok? {
        UpdateKeepsBase(s, p, outcome.value.0, {ControlTag(s.Session(p).key, outcome.value.1)}, s.drawn + 1);
      }
    case Deliver(p, frame) =>
      var (next, ack) := Receive(s.Session(p), p, frame, now);
      ReceiveKeepsSound(s.Session(p), p, frame, now);
      UpdateKeepsBase(s, p, next, if ack.Some? then {ControlTag(s.Session(p).key, ack.value)} else {}, s.drawn);
    case Abort(p) => UpdateKeepsBase(s, p, s.Session(p).AbortRotate(), {}, s.drawn);
    case CompleteHandshake(reply) => CompleteKeepsBase(s, reply, now);
    case SendData(_, _) => DataKeepsBase(s, step, now);
    case DeliverData(_, _) => DataKeepsBase(s, step, now);
    case FinalizeHandshake(signature) => FinalizeKeepsBase(s, signature, now);
    case Drop(p) => DropKeepsBase(s, p, now);
    case _ => MessageKeepsBase(s, step, now);
  }

  lemma StartOk(flavour: Flavour)
    ensures Inv(Start(flavour))
  {
  }

  /** The device's live session moves on and sends the tags more: whoever is linked with it stays
      linked, and nobody else notices. */
  lemma DeviceMoves(s: System, t: System, more: set<Tag>)
    requires Inv(s) && s.Online(Device) && Base(t)
    requires t.archive.Keys == s.archive.Keys && t.tags == s.tags + more
    requires forall r | r in s.archive && r != s.current.value :: t.archive[r] == s.archive[r]
    requires forall m | m in more :: m.Tag? && Root(m.key) == s.current.value
    requires t.attempt == s.attempt && t.gateway == s.gateway
    requires forall g | LinkedEnd(s, s.current.value, g) ::
               s.current.value.secret.Shared? ==> LinkedEnd(t, s.current.value, g)
    ensures Inv(t)
  {
    if s.gateway.Some? && Root(s.gateway.value.key) != s.current.value {
      var root := Root(s.gateway.value.key);
      OtherFramesKeepLink(Pair(s.archive[root].session, s.gateway.value), root, s.tags, more);
    }
    if s.attempt.Some? {
      var k0 := AttemptKey(s.attempt.value);
      if k0 in s.archive && k0 != s.current.value {
        OtherFramesKeepLink(Pair(s.archive[k0].session, Fresh(k0, UNSET)), k0, s.tags, more);
      }
    }
  }

  /** The gateway's session moves on and sends the tags more. */
  lemma GatewayMoves(s: System, t: System, more: set<Tag>)
    requires Inv(s) && s.gateway.Some? && Base(t) && t.gateway.Some?
    requires t.archive == s.archive && t.attempt == s.attempt && t.tags == s.tags + more
    requires forall m | m in more :: m.Tag? && Root(m.key) == Root(s.gateway.value.key)
    requires LinkedEnd(t, Root(t.gateway.value.key), t.gateway.value)
    ensures Inv(t)
  {
    if s.attempt.Some? {
      var k0 := AttemptKey(s.attempt.value);
      if k0 in s.archive {
        OtherFramesKeepLink(Pair(s.archive[k0].session, Fresh(k0, UNSET)), k0, s.tags, more);
      }
    }
  }

  lemma HandshakeKeepsInv(s: System, step: Step, now: int)
    requires Inv(s) && Enabled(s, step)
    requires step.StartHandshake? || step.AnswerHello? || step.CompleteHandshake? || step.FinalizeHandshake?
             || step.Drop?
    ensures Inv(Apply(s, step, now))
  {
    BaseKept(s, step, now);
    var t := Apply(s, step, now);
    match step
    case CompleteHandshake(_) =>
      assert t.current.value !in s.archive;
      FreshLinked(t.current.value, now, UNSET, s.tags);
    case FinalizeHandshake(signature) =>
      if t.gateway != s.gateway {
        var d := s.archive[signature].session;
        SameKeysKeepLink(Pair(d, Fresh(signature, UNSET)), Pair(d, t.gateway.value), signature, s.tags);
      }
    case _ =>
  }

  lemma InitiateKeepsInv(s: System, p: Party, now: int)
    requires Inv(s) && Enabled(s, Initiate(p))
    ensures Inv(Apply(s, Initiate(p), now))
  {
    BaseKept(s, Initiate(p), now);
    var t := Apply(s, Initiate(p), now);
    var outcome := s.Session(p).Initiate(p.Peer(), s.drawn, now);
    if outcome.Ok? {
      var tag := ControlTag(s.Session(p).key, outcome.value.1);
      if p == Device {
        var c := s.current.value;
        forall g | LinkedEnd(s, c, g)
          ensures LinkedEnd(t, c, g)
        {
          InitiateKeepsLink(Pair(s.archive[c].session, g), c, s.tags, Device, s.drawn, now);
        }
        DeviceMoves(s, t, {tag});
      } else {
        var root := Root(s.gateway.value.key);
        InitiateKeepsLink(Pair(s.archive[root].session, s.gateway.value), root, s.tags, Gateway, s.drawn, now);
        GatewayMoves(s, t, {tag});
      }
    }
  }

  lemma DeliverKeepsInv(s: System, p: Party, frame: Frame, now: int)
    requires Inv(s) && Enabled(s, Deliver(p, frame))
    ensures Inv(Apply(s, Deliver(p, frame), now))
  {
    BaseKept(s, Deliver(p, frame), now);
    var t := Apply(s, Deliver(p, frame), now);
    var (_, ack) := Receive(s.Session(p), p, frame, now);
    var more := if ack.Some? then {ControlTag(s.Session(p).key, ack.value)} else {};
    if p == Device {
      var c := s.current.value;
      forall g | LinkedEnd(s, c, g) && c.secret.Shared?
        ensures LinkedEnd(t, c, g)
      {
        ReceiveKeepsLink(Pair(s.archive[c].session, g), c, s.tags, Device, frame, now);
      }
      DeviceMoves(s, t, more);
    } else {
      var root := Root(s.gateway.value.key);
      ReceiveKeepsLink(Pair(s.archive[root].session, s.gateway.value), root, s.tags, Gateway, frame, now);
      GatewayMoves(s, t, more);
    }
  }

  lemma DataKeepsInv(s: System, step: Step, now: int)
    requires Inv(s) && Enabled(s, step) && (step.SendData? || step.DeliverData?)
    ensures Inv(Apply(s, step, now))
  {
    BaseKept(s, step, now);
    var t := Apply(s, step, now);
    if step.SendData? {
      var c := s.current.value;
      forall g | LinkedEnd(s, c, g)
        ensures LinkedEnd(t, c, g)
      {
        SameKeysKeepLink(Pair(s.archive[c].session, g), Pair(t.archive[c].session, g), c, s.tags);
      }
      DeviceMoves(s, t, {});
    } else {
      var root := Root(s.gateway.value.key);
      var d := s.archive[root].session;
      SameKeysKeepLink(Pair(d, s.gateway.value), Pair(d, t.gateway.value), root, s.tags);
      GatewayMoves(s, t, {});
    }
  }

  lemma StepKeepsInv(s: System, step: Step, now: int)
    requires Inv(s) && Enabled(s, step) && !step.Abort?
    ensures Inv(Apply(s, step, now))
  {
    match step
    case Initiate(p) => InitiateKeepsInv(s, p, now);
    case Deliver(p, frame) => DeliverKeepsInv(s, p, frame, now);
    case SendData(_, _) => DataKeepsInv(s, step, now);
    case DeliverData(_, _) => DataKeepsInv(s, step, now);
    case _ => HandshakeKeepsInv(s, step, now);
  }

  /** All is linked but the gateway's live session, which may be anything sound. */
  ghost predicate Loose(s: System) {
    Base(s) && Inv(s.(gateway := None))
  }

  lemma InvIsLoose(s: System)
    requires Inv(s)
    ensures Loose(s)
  {
    assert forall r | r in s.archive :: EntryOk(s, r, s.archive[r].session);
  }

  /** Whatever becomes of the gateway's session, and whatever it sends, the rest stays linked. */
  lemma GatewayIsLoose(s: System, t: System, more: set<Tag>)
    requires Loose(s) && s.gateway.Some? && Base(t)
    requires t.archive == s.archive && t.attempt == s.attempt && t.tags == s.tags + more
    requires t.current == s.current && t.hello == s.hello && t.signed == s.signed
    requires forall m | m in more :: m.Tag? && Root(m.key) == Root(s.gateway.value.key)
    ensures Loose(t)
  {
    var u := t.(gateway := None);
    forall r | r in u.archive
      ensures EntryOk(u, r, u.archive[r].session)
    {
      assert EntryOk(t, r, t.archive[r].session);
    }
    if s.attempt.Some? {
      var k0 := AttemptKey(s.attempt.value);
      if k0 in s.archive {
        OtherFramesKeepLink(Pair(s.archive[k0].session, Fresh(k0, UNSET)), k0, s.tags, more);
      }
    }
  }

  lemma GatewayInitiateIsLoose(s: System, now: int)
    requires Loose(s) && s.gateway.Some?
    ensures Loose(Apply(s, Initiate(Gateway), now))
  {
    BaseKept(s, Initiate(Gateway), now);
    match s.Session(Gateway).Initiate(Device, s.drawn, now) {
      case Ok((_, msg)) => GatewayIsLoose(s, Apply(s, Initiate(Gateway), now), {ControlTag(s.gateway.value.key, msg)});
      case Err(_) =>
    }
  }

  lemma GatewayReceiveIsLoose(s: System, frame: Frame, now: int)
    requires Loose(s) && Enabled(s, Deliver(Gateway, frame))
    ensures Loose(Apply(s, Deliver(Gateway, frame), now))
  {
    BaseKept(s, Deliver(Gateway, frame), now);
    var ack := Receive(s.Session(Gateway), Gateway, frame, now).1;
    var more := if ack.Some? then {ControlTag(s.gateway.value.key, ack.value)} else {};
    GatewayIsLoose(s, Apply(s, Deliver(Gateway, frame), now), more);
  }

  /** Steps of the gateway that send nothing. */
  lemma GatewayQuietIsLoose(s: System, step: Step, now: int)
    requires Loose(s) && Enabled(s, step) && s.gateway.Some?
    requires step == Abort(Gateway) || step == Drop(Gateway) || step.DeliverData?
    ensures Loose(Apply(s, step, now))
  {
    BaseKept(s, step, now);
    assert s.tags + {} == s.tags;
    GatewayIsLoose(s, Apply(s, step, now), {});
  }

  /** The other steps take no notice of the gateway's session. */
  lemma OtherStepIsLoose(s: System, step: Step, now: int)
    requires Loose(s) && Enabled(s, step)
    requires step.StartHandshake? || step.AnswerHello? || step.CompleteHandshake? || step.FinalizeHandshake?
             || step.SendData? || step == Initiate(Device) || step == Drop(Device)
             || (step.Deliver? && step.to == Device)
    ensures Loose(Apply(s, step, now))
    ensures step.FinalizeHandshake? && Apply(s, step, now).gateway != s.gateway ==> Inv(Apply(s, step, now))
  {
    var alone := s.(gateway := None);
    var t, u := Apply(s, step, now), Apply(alone, step, now);
    BaseKept(s, step, now);
    StepKeepsInv(alone, step, now);
    InvIsLoose(u);
    assert t.(gateway := None) == u.(gateway := None);
    assert step.FinalizeHandshake? && t.gateway != s.gateway ==> t == u;
  }

  /** Holds in every run in which the device does not roll back, however often the gateway does. */
  lemma LooseKept(s: System, step: Step, now: int)
    requires Loose(s) && Enabled(s, step) && step != Abort(Device)
    ensures Loose(Apply(s, step, now))
    ensures step.FinalizeHandshake? && Apply(s, step, now).gateway != s.gateway ==> Inv(Apply(s, step, now))
  {
    match step
    case Initiate(p) =>
      if p == Gateway { GatewayInitiateIsLoose(s, now); } else { OtherStepIsLoose(s, step, now); }
    case Deliver(p, frame) =>
      if p == Gateway { GatewayReceiveIsLoose(s, frame, now); } else { OtherStepIsLoose(s, step, now); }
    case Drop(p) =>
      if p == Device { OtherStepIsLoose(s, step, now); } else if s.gateway.Some? { GatewayQuietIsLoose(s, step, now); }
    case Abort(_) => GatewayQuietIsLoose(s, step, now);
    case DeliverData(_, _) => GatewayQuietIsLoose(s, step, now);
    case _ => OtherStepIsLoose(s, step, now);
  }

  lemma {:induction false} RunKeepsLoose(s: System, run: seq<Event>)
    requires Loose(s) && IsRun(s, run) && forall e | e in run :: e.step != Abort(Device)
    ensures Loose(After(s, run))
    decreases |run|
  {
    if run != [] {
      LooseKept(s, run[0].step, run[0].now);
      RunKeepsLoose(Apply(s, run[0].step, run[0].now), run[1..]);
    }
  }

  /** While a cut is owed the gateway waits for nothing, so there is nothing to commit. */
  ghost predicate Kept(s: System, owed: bool) {
    if owed then Loose(s) && (s.gateway.Some? ==> !s.gateway.value.pendingActive) else Inv(s)
  }

  /** Rolling back when nothing is pending changes nothing that matters. */
  lemma IdleAbortKeepsInv(s: System, now: int)
    requires Inv(s) && s.gateway.Some? && !s.gateway.value.pendingActive
    ensures Inv(Apply(s, Abort(Gateway), now))
  {
    BaseKept(s, Abort(Gateway), now);
    var t := Apply(s, Abort(Gateway), now);
    var root := Root(s.gateway.value.key);
    var d := s.archive[root].session;
    IdleAbortKeepsLink(Pair(d, s.gateway.value), root, s.tags);
    assert s.tags + {} == s.tags;
    GatewayMoves(s, t, {});
  }

  lemma NothingPendingStays(s: SessionState, me: Party, frame: Frame, now: int)
    requires !s.pendingActive
    ensures !Receive(s, me, frame, now).0.pendingActive
    ensures frame.body.RotationAck? ==> Receive(s, me, frame, now).0 == s
  {
  }

  lemma OwingStepKeeps(s: System, e: Event)
    requires Kept(s, true) && Enabled(s, e.step) && Obeys(e, true)
    ensures Kept(Apply(s, e.step, e.now), Owes(s, e, true))
  {
    LooseKept(s, e.step, e.now);
    if e.step.Deliver? && e.step.to == Gateway {
      NothingPendingStays(s.Session(Gateway), Gateway, e.step.frame, e.now);
    }
  }

  lemma EventKeeps(s: System, e: Event, owed: bool)
    requires Kept(s, owed) && Enabled(s, e.step) && Obeys(e, owed)
    ensures Kept(Apply(s, e.step, e.now), Owes(s, e, owed))
  {
    if owed {
      OwingStepKeeps(s, e);
    } else if e.step.Abort? {
      InvIsLoose(s);
      LooseKept(s, e.step, e.now);
      if !s.gateway.value.pendingActive {
        IdleAbortKeepsInv(s, e.now);
      }
    } else {
      StepKeepsInv(s, e.step, e.now);
    }
  }

  lemma {:induction false} RunKeeps(s: System, run: seq<Event>, owed: bool)
    requires Kept(s, owed) && IsRun(s, run) && Disciplined(s, run, owed)
    ensures Kept(After(s, run), OwedAfter(s, run, owed))
    decreases |run|
  {
    if run != [] {
      EventKeeps(s, run[0], owed);
      RunKeeps(Apply(s, run[0].step, run[0].now), run[1..], Owes(s, run[0], owed));
    }
  }

  /** Without a rollback nothing is ever owed. */
  lemma {:induction false} NoAbortsIsDisciplined(s: System, run: seq<Event>)
    requires IsRun(s, run) && NoAborts(run)
    ensures Disciplined(s, run, false) && !OwedAfter(s, run, false)
    decreases |run|
  {
    if run != [] {
      assert run[0] in run;
      NoAbortsIsDisciplined(Apply(s, run[0].step, run[0].now), run[1..]);
    }
  }

  /** Both sides are online with sessions of one and the same handshake. */
  ghost predicate Paired(s: System) {
    s.Online(Device) && s.Online(Gateway) && Root(s.gateway.value.key) == s.current.value
  }

  /** Main result: after any run in which the gateway cuts the connection after a rollback, and owes
      no cut at the end, the two ends of a handshake have equal keys and iterations, or the responder
      is exactly one iteration ahead with the key the initiator holds as pending; the two keys are
      equal just when the iterations are. */
  lemma AgreementInEveryRun(flavour: Flavour, run: seq<Event>)
    requires IsRun(Start(flavour), run)
    requires Disciplined(Start(flavour), run, false) && !OwedAfter(Start(flavour), run, false)
    ensures var s := After(Start(flavour), run);
            Paired(s) ==>
              var x := Pair(s.Session(Device), s.Session(Gateway));
              && Agreed(x)
              && (x.device.key == x.gateway.key <==> x.device.iteration == x.gateway.iteration)
  {
    StartOk(flavour);
    RunKeeps(Start(flavour), run, false);
  }

  /** The acknowledgement makes the gateway take a key that the device never had. */
  ghost predicate CommitsForeign(s: System, frame: Frame, now: int)
    requires Enabled(s, Deliver(Gateway, frame))
  {
    var t := Apply(s, Deliver(Gateway, frame), now);
    frame.body.RotationAck? && t.gateway.value.key != s.gateway.value.key && t.gateway.value.key !in s.installed
  }

  lemma AckCommitsInstalled(s: System, owed: bool, frame: Frame, now: int)
    requires Kept(s, owed) && Enabled(s, Deliver(Gateway, frame))
    ensures !CommitsForeign(s, frame, now)
  {
    var g := s.gateway.value;
    if frame.body.RotationAck? {
      if owed {
        NothingPendingStays(g, Gateway, frame, now);
      } else if frame.tag == ControlTag(g.key, frame.body) {
        var root := Root(g.key);
        AckComesFromPeer(Pair(s.archive[root].session, g), root, s.tags, Gateway, frame.body.iteration, now);
      }
    }
  }

  /** An acknowledgement names nothing but an iteration, yet where aborts are followed by cuts it
      never makes the gateway commit a key that the device has not used itself. */
  lemma AckCommitsInstalledKey(flavour: Flavour, run: seq<Event>, frame: Frame, now: int)
    requires IsRun(Start(flavour), run) && Disciplined(Start(flavour), run, false)
    requires Enabled(After(Start(flavour), run), Deliver(Gateway, frame)) && frame.body.RotationAck?
    ensures !CommitsForeign(After(Start(flavour), run), frame, now)
  {
    StartOk(flavour);
    RunKeeps(Start(flavour), run, false);
    AckCommitsInstalled(After(Start(flavour), run), OwedAfter(Start(flavour), run, false), frame, now);
  }

  /** A half-finished rotation is never stuck for good: the acknowledgement that heals it is on
      the wire, and its arrival puts both sides in step on the responder's key. */
  lemma AckHeals(s: System, initiator: Party, now: int)
    requires Inv(s) && Paired(s) && Ahead(s.Session(initiator.Peer()), s.Session(initiator))
    ensures var ack := RotationAck(s.Session(initiator.Peer()).iteration);
            var step := Deliver(initiator, Frame(ack, ControlTag(s.Session(initiator).key, ack)));
            && Enabled(s, step)
            && var t := Apply(s, step, now);
               && Paired(t) && InStep(t.Session(Device), t.Session(Gateway))
               && t.Session(initiator).key == s.Session(initiator.Peer()).key
  {
    var x := Pair(s.Session(Device), s.Session(Gateway));
    assert Ahead(x.At(initiator.Peer()), x.At(initiator));
    AckKeepsLink(x, s.current.value, s.tags, initiator, s.Session(initiator.Peer()).iteration, now);
  }

  /** From sides in step with nothing pending, one rotation frame brings the peer one ahead. */
  lemma RotationReachesPeer(s: System, initiator: Party, now: int)
    requires Inv(s) && Paired(s) && InStep(s.Session(Device), s.Session(Gateway))
    requires !s.Session(Device).pendingActive && !s.Session(Gateway).pendingActive
    ensures var t := Apply(s, Initiate(initiator), now);
            var msg := RotationV2(s.Session(initiator).iteration + 1, Encapsulated(initiator.Peer(), s.drawn));
            var frame := Frame(msg, ControlTag(s.Session(initiator).key, msg));
            && Enabled(s, Initiate(initiator)) && Enabled(t, Deliver(initiator.Peer(), frame))
            && var u := Apply(t, Deliver(initiator.Peer(), frame), now);
               && Inv(u) && Paired(u) && Ahead(u.Session(initiator.Peer()), u.Session(initiator))
               && u.Session(initiator).key == s.Session(initiator).key
  {
    var t := Apply(s, Initiate(initiator), now);
    var msg := RotationV2(s.Session(initiator).iteration + 1, Encapsulated(initiator.Peer(), s.drawn));
    var frame := Frame(msg, ControlTag(s.Session(initiator).key, msg));
    StepKeepsInv(s, Initiate(initiator), now);
    StepKeepsInv(t, Deliver(initiator.Peer(), frame), now);
  }

  /** Rotations that cross on the wire wait for each other: while both sides hold one pending, no
      frame that can arrive changes anything. */
  lemma CrossingRotationsWait(s: System, p: Party, frame: Frame, now: int)
    requires Inv(s) && Paired(s) && InStep(s.Session(Device), s.Session(Gateway))
    requires s.Session(Device).pendingActive && s.Session(Gateway).pendingActive
    requires Enabled(s, Deliver(p, frame))
    ensures Apply(s, Deliver(p, frame), now) == s
  {
    var x := Pair(s.Session(Device), s.Session(Gateway));
    NoAckWhileInStep(x, s.current.value, s.tags, p, frame.body.iteration);
    assert EntryOk(s, s.current.value, s.archive[s.current.value].session);
    assert s.Update(p, s.Session(p)) == s;
  }
}
