/** What giving up on a rotation costs: once the gateway rolls back a rotation that the device
    has applied, nothing but a new handshake brings the two together again. */
module Divergence {
  import opened Options
  import opened Terms
  import opened Sessions
  import opened Protocol
  import opened Agreement
  import opened Runs

  ghost predicate KeyDrawn(k: Key, n: nat) {
    k.Next? ==> DrawnBefore(k.mi, n)
  }

  /** Only the device can open what was encapsulated with this seed. */
  ghost predicate ForDeviceOnly(tags: set<Tag>, seed: nat) {
    forall t | t in tags && t.Tag? && t.body.RotationV2? ::
      t.body.ct.Encapsulated? && t.body.ct.seed == seed ==> t.body.ct.owner == Device
  }

  ghost predicate TagsDrawn(tags: set<Tag>, n: nat) {
    forall t | t in tags && t.Tag? && t.body.RotationV2? :: t.body.ct.Encapsulated? && t.body.ct.seed < n
  }

  ghost predicate PendingOk(g: SessionState, tags: set<Tag>, n: nat) {
    g.pendingActive ==>
      && g.pendingKey.Next? && g.pendingKey.mi.Shared? && g.pendingKey.mi.seed < n
      && ForDeviceOnly(tags, g.pendingKey.mi.seed)
  }

  /** Every secret in use was drawn before, and the secret the gateway waits for was encapsulated
      for the device alone. Holds in every run. */
  ghost predicate SeedsOk(s: System) {
    && TagsDrawn(s.tags, s.drawn)
    && (forall k | k in s.installed :: KeyDrawn(k, s.drawn))
    && (forall r | r in s.archive ::
          s.archive[r].session.pendingActive ==> KeyDrawn(s.archive[r].session.pendingKey, s.drawn))
    && (s.gateway.Some? ==> PendingOk(s.gateway.value, s.tags, s.drawn))
  }

  lemma InitiateKeepsSeeds(s: System, p: Party, now: int)
    requires SeedsOk(s) && Base(s) && Enabled(s, Initiate(p))
    ensures SeedsOk(Apply(s, Initiate(p), now))
  {
    var t := Apply(s, Initiate(p), now);
    assert s.Session(p).key in s.installed || p == Gateway;
    forall k | k in t.installed
      ensures KeyDrawn(k, t.drawn)
    {
      assert KeyDrawn(k, s.drawn);
    }
    forall r | r in t.archive && t.archive[r].session.pendingActive
      ensures KeyDrawn(t.archive[r].session.pendingKey, t.drawn)
    {
      assert r in s.archive;
    }
  }

  /** What a session can hold after one frame: what it held, or a rotation by the frame's secret. */
  lemma ReceivedKeys(s: SessionState, me: Party, frame: Frame, now: int)
    ensures var (t, ack) := Receive(s, me, frame, now);
            && (t == s || (!t.pendingActive && s.pendingActive && t.key == s.pendingKey)
                || (!t.pendingActive && frame.body.RotationV2?
                    && t.key == Next(s.key, Decapsulate(me, frame.body.ct), s.iteration + 1)
                    && frame.tag == ControlTag(s.key, frame.body)))
            && (ack.Some? ==> ack.value.RotationAck?)
  {
  }

  lemma DeliverKeepsSeeds(s: System, p: Party, frame: Frame, now: int)
    requires SeedsOk(s) && Base(s) && Enabled(s, Deliver(p, frame))
    ensures SeedsOk(Apply(s, Deliver(p, frame), now))
  {
    var t := Apply(s, Deliver(p, frame), now);
    ReceivedKeys(s.Session(p), p, frame, now);
    forall r | r in t.archive && t.archive[r].session.pendingActive
      ensures KeyDrawn(t.archive[r].session.pendingKey, t.drawn)
    {
      assert r in s.archive;
    }
  }

  lemma AbortKeepsSeeds(s: System, p: Party, now: int)
    requires SeedsOk(s) && Base(s) && Enabled(s, Abort(p))
    ensures SeedsOk(Apply(s, Abort(p), now))
  {
    if p == Device {
      assert EntryOk(s, s.current.value, s.archive[s.current.value].session);
    }
  }

  lemma CompleteKeepsSeeds(s: System, reply: Reply, now: int)
    requires SeedsOk(s) && Enabled(s, CompleteHandshake(reply))
    ensures SeedsOk(Apply(s, CompleteHandshake(reply), now))
  {
  }

  lemma FinalizeKeepsSeeds(s: System, signature: Key, now: int)
    requires SeedsOk(s)
    ensures SeedsOk(Apply(s, FinalizeHandshake(signature), now))
  {
  }

  lemma SendDataKeepsSeeds(s: System, step: Step, now: int)
    requires SeedsOk(s) && Enabled(s, step) && step.SendData?
    ensures SeedsOk(Apply(s, step, now))
  {
  }

  lemma DeliverDataKeepsSeeds(s: System, step: Step, now: int)
    requires SeedsOk(s) && Enabled(s, step) && step.DeliverData?
    ensures SeedsOk(Apply(s, step, now))
  {
  }

  lemma SeedsKept(s: System, step: Step, now: int)
    requires SeedsOk(s) && Base(s) && Enabled(s, step)
    ensures SeedsOk(Apply(s, step, now))
  {
    match step
    case Initiate(p) => InitiateKeepsSeeds(s, p, now);
    case Deliver(p, frame) => DeliverKeepsSeeds(s, p, frame, now);
    case Abort(p) => AbortKeepsSeeds(s, p, now);
    case CompleteHandshake(reply) => CompleteKeepsSeeds(s, reply, now);
    case FinalizeHandshake(signature) => FinalizeKeepsSeeds(s, signature, now);
    case SendData(_, _) => SendDataKeepsSeeds(s, step, now);
    case DeliverData(_, _) => DeliverDataKeepsSeeds(s, step, now);
    case _ =>
  }

  /** Base and SeedsOk hold in every run, disciplined or not. */
  lemma {:induction false} RunKeepsBase(s: System, run: seq<Event>)
    requires Base(s) && SeedsOk(s) && IsRun(s, run)
    ensures Base(After(s, run)) && SeedsOk(After(s, run))
    decreases |run|
  {
    if run != [] {
      BaseKept(s, run[0].step, run[0].now);
      SeedsKept(s, run[0].step, run[0].now);
      RunKeepsBase(Apply(s, run[0].step, run[0].now), run[1..]);
    }
  }

  /** The device is past key k and the gateway can no longer get there. */
  ghost predicate Split(s: System, k: Key) {
    && k.Next? && k.mi.Shared? && k.mi.seed < s.drawn && ForDeviceOnly(s.tags, k.mi.seed)
    && (s.Online(Device) ==> Extends(s.Session(Device).key, k))
    && (s.gateway.Some? ==> GatewaySplit(s.gateway.value, k))
  }

  ghost predicate GatewaySplit(g: SessionState, k: Key) {
    !Extends(g.key, k) && (g.pendingActive ==> !Extends(g.pendingKey, k))
  }

  predicate KeepsSession(step: Step) {
    !step.CompleteHandshake? && !step.FinalizeHandshake?
  }

  lemma DeliverKeepsSplit(s: System, k: Key, p: Party, frame: Frame, now: int)
    requires Base(s) && SeedsOk(s) && Split(s, k) && Enabled(s, Deliver(p, frame))
    ensures Split(Apply(s, Deliver(p, frame), now), k)
  {
    ReceivedKeys(s.Session(p), p, frame, now);
  }

  lemma InitiateKeepsSplit(s: System, k: Key, p: Party, now: int)
    requires Base(s) && SeedsOk(s) && Split(s, k) && Enabled(s, Initiate(p))
    ensures Split(Apply(s, Initiate(p), now), k)
  {
  }

  lemma SplitKept(s: System, k: Key, step: Step, now: int)
    requires Base(s) && SeedsOk(s) && Split(s, k) && Enabled(s, step) && KeepsSession(step)
    ensures Split(Apply(s, step, now), k)
  {
    match step
    case Deliver(p, frame) => DeliverKeepsSplit(s, k, p, frame, now);
    case Initiate(p) => InitiateKeepsSplit(s, k, p, now);
    case _ =>
  }

  lemma {:induction false} RunKeepsSplit(s: System, k: Key, run: seq<Event>)
    requires Base(s) && SeedsOk(s) && Split(s, k) && IsRun(s, run)
    requires forall e | e in run :: KeepsSession(e.step)
    ensures Split(After(s, run), k)
    decreases |run|
  {
    if run != [] {
      BaseKept(s, run[0].step, run[0].now);
      SeedsKept(s, run[0].step, run[0].now);
      SplitKept(s, k, run[0].step, run[0].now);
      RunKeepsSplit(Apply(s, run[0].step, run[0].now), k, run[1..]);
    }
  }

  lemma {:induction false} PrefixIsRun(s: System, run: seq<Event>, n: nat)
    requires IsRun(s, run) && n <= |run|
    ensures IsRun(s, run[..n])
    decreases |run|
  {
    if n > 0 {
      var t := Apply(s, run[0].step, run[0].now);
      PrefixIsRun(t, run[1..], n - 1);
      assert run[..n][0] == run[0] && run[..n][1..] == run[1..][..n - 1];
    }
  }

  lemma ExtensionIsDeeper(k: Key, base: Key)
    requires Extends(k, base)
    ensures Depth(k) >= Depth(base)
  {
  }

  /** Neither side can use anything the other one sends: no frame, no acknowledgement, no data. */
  ghost predicate Deaf(device: SessionState, gateway: SessionState) {
    && device.key != gateway.key
    && (forall body, now ::
          Receive(gateway, Gateway, Frame(body, ControlTag(device.key, body)), now) == (gateway, None))
    && (forall body, now ::
          Receive(device, Device, Frame(body, ControlTag(gateway.key, body)), now) == (device, None))
    && (forall nonce, text :: ReceiveData(gateway, nonce, Packet(device.key, nonce, text)) == None)
  }

  /** Main result: after any run, roll back at the gateway a rotation that the device has applied.
      In every continuation short of a new handshake, whatever the device sends at any moment is
      refused by the gateway at every moment, and the other way round: the keys of the two never
      meet again. */
  lemma RollbackAfterApplyIsFinal(flavour: Flavour, run: seq<Event>, later: seq<Event>, now: int, i: nat, j: nat)
    requires IsRun(Start(flavour), run)
    requires var s := After(Start(flavour), run); Paired(s) && Ahead(s.Session(Device), s.Session(Gateway))
    requires IsRun(Apply(After(Start(flavour), run), Abort(Gateway), now), later)
    requires forall e | e in later :: KeepsSession(e.step)
    requires i <= |later| && j <= |later|
    ensures var t := Apply(After(Start(flavour), run), Abort(Gateway), now);
            && IsRun(t, later[..i]) && IsRun(t, later[..j])
            && var u, v := After(t, later[..i]), After(t, later[..j]);
               u.Online(Device) && v.Online(Gateway) ==> Deaf(u.Session(Device), v.Session(Gateway))
  {
    StartOk(flavour);
    RunKeepsBase(Start(flavour), run);
    var s := After(Start(flavour), run);
    var k := s.Session(Device).key;
    var t := Apply(s, Abort(Gateway), now);
    BaseKept(s, Abort(Gateway), now);
    SeedsKept(s, Abort(Gateway), now);
    assert Split(t, k) by {
      if Extends(s.gateway.value.key, k) {
        ExtensionIsDeeper(s.gateway.value.key, k);
      }
    }
    PrefixIsRun(t, later, i);
    PrefixIsRun(t, later, j);
    RunKeepsSplit(t, k, later[..i]);
    RunKeepsSplit(t, k, later[..j]);
  }

  lemma Prepend(s: System, e: Event, run: seq<Event>)
    requires Enabled(s, e.step) && IsRun(Apply(s, e.step, e.now), run)
    ensures IsRun(s, [e] + run) && After(s, [e] + run) == After(Apply(s, e.step, e.now), run)
  {
    assert ([e] + run)[1..] == run;
  }

  function NextHello(s: System): Hello {
    Hello(s.drawn)
  }

  function NextReply(s: System): Reply {
    Reply(Encapsulated(Device, s.drawn + 1), s.drawn + 2)
  }

  function NextKey(s: System): Key {
    Initial(Shared(s.drawn + 1), Transcript(NextHello(s), NextReply(s)))
  }

  /** The handshake that starts in s, undisturbed. */
  function Handshake(s: System, t0: int, t1: int): seq<Event> {
    [Event(StartHandshake, t0)] + ([Event(AnswerHello(NextHello(s)), t0)]
      + ([Event(CompleteHandshake(NextReply(s)), t0)] + ([Event(FinalizeHandshake(NextKey(s)), t1)] + [])))
  }

  lemma Opened(s: System, now: int)
    requires Base(s)
    ensures Enabled(s, StartHandshake) && Enabled(Apply(s, StartHandshake, now), AnswerHello(NextHello(s)))
    ensures var t := Apply(Apply(s, StartHandshake, now), AnswerHello(NextHello(s)), now);
            && Base(t) && t.tags == s.tags && t.archive == s.archive && t.hello == Some(NextHello(s))
            && t.attempt == Some(Attempt(NextHello(s), NextReply(s), Shared(s.drawn + 1))) && t.drawn == s.drawn + 3
            && NextKey(s) !in t.archive
  {
    BaseKept(s, StartHandshake, now);
    var t := Apply(s, StartHandshake, now);
    BaseKept(t, AnswerHello(NextHello(s)), now);
    assert NextKey(s) in s.archive ==> EntryOk(s, NextKey(s), s.archive[NextKey(s)].session);
  }

  lemma Closed(s: System, t: System, t0: int, t1: int)
    requires Base(t) && t.tags == s.tags && t.hello == Some(NextHello(s)) && NextKey(s) !in t.archive
    requires t.attempt == Some(Attempt(NextHello(s), NextReply(s), Shared(s.drawn + 1))) && t.drawn == s.drawn + 3
    ensures Enabled(t, CompleteHandshake(NextReply(s)))
    ensures Enabled(Apply(t, CompleteHandshake(NextReply(s)), t0), FinalizeHandshake(NextKey(s)))
    ensures var u := Apply(Apply(t, CompleteHandshake(NextReply(s)), t0), FinalizeHandshake(NextKey(s)), t1);
            && Base(u) && u.tags == s.tags && u.attempt == None
            && u.current == Some(NextKey(s)) && NextKey(s) in u.archive
            && u.Session(Device) == Fresh(NextKey(s), t0) && u.gateway == Some(Fresh(NextKey(s), t1))
  {
    BaseKept(t, CompleteHandshake(NextReply(s)), t0);
    BaseKept(Apply(t, CompleteHandshake(NextReply(s)), t0), FinalizeHandshake(NextKey(s)), t1);
  }

  lemma HandshakeRuns(s: System, t0: int, t1: int)
    requires Base(s)
    ensures IsRun(s, Handshake(s, t0, t1)) && NextKey(s) !in s.archive
    ensures var t := After(s, Handshake(s, t0, t1));
            && Base(t) && t.tags == s.tags && t.attempt == None
            && t.current == Some(NextKey(s)) && NextKey(s) in t.archive
            && t.Session(Device) == Fresh(NextKey(s), t0) && t.gateway == Some(Fresh(NextKey(s), t1))
  {
    var e1, e2 := Event(StartHandshake, t0), Event(AnswerHello(NextHello(s)), t0);
    var e3, e4 := Event(CompleteHandshake(NextReply(s)), t0), Event(FinalizeHandshake(NextKey(s)), t1);
    Opened(s, t0);
    var s1 := Apply(s, e1.step, t0);
    var s2 := Apply(s1, e2.step, t0);
    Closed(s, s2, t0, t1);
    var s3 := Apply(s2, e3.step, t0);
    Prepend(s3, e4, []);
    Prepend(s2, e3, [e4] + []);
    Prepend(s1, e2, [e3] + ([e4] + []));
    Prepend(s, e1, [e2] + ([e3] + ([e4] + [])));
  }

  /** From any state that a run can reach, however far apart the two sides are, a handshake that
      nothing disturbs completes and puts them in step at iteration 0. */
  lemma HandshakeCompletes(flavour: Flavour, run: seq<Event>, t0: int, t1: int)
    requires IsRun(Start(flavour), run)
    ensures var s := After(Start(flavour), run);
            && IsRun(s, Handshake(s, t0, t1))
            && var t := After(s, Handshake(s, t0, t1));
               && Inv(t) && Paired(t)
               && t.Session(Device).key == t.Session(Gateway).key == NextKey(s)
               && t.Session(Device).iteration == t.Session(Gateway).iteration == 0
               && !t.Session(Device).pendingActive && !t.Session(Gateway).pendingActive
  {
    StartOk(flavour);
    RunKeepsBase(Start(flavour), run);
    var s := After(Start(flavour), run);
    HandshakeRuns(s, t0, t1);
    FreshLinked(NextKey(s), t0, t1, s.tags);
  }

  /** Main result: after any run in which the device does not roll back, with gateway aborts and
      retries at will, every handshake that installs a session at the gateway, whatever frames, data
      and other handshakes came in between its messages, leaves that session and the device's in step
      at iteration 0, and agreement holds in every disciplined run from there on. */
  lemma HandshakeRestores(flavour: Flavour, run: seq<Event>, signature: Key, now: int, later: seq<Event>)
    requires IsRun(Start(flavour), run) && forall e | e in run :: e.step != Abort(Device)
    requires var s := After(Start(flavour), run); Apply(s, FinalizeHandshake(signature), now).gateway != s.gateway
    requires var t := Apply(After(Start(flavour), run), FinalizeHandshake(signature), now);
             IsRun(t, later) && Disciplined(t, later, false) && !OwedAfter(t, later, false)
    ensures var t := Apply(After(Start(flavour), run), FinalizeHandshake(signature), now);
            && Inv(t) && t.gateway == Some(Fresh(signature, now)) && signature in t.archive
            && InStep(t.archive[signature].session, t.gateway.value) && t.gateway.value.iteration == 0
    ensures var u := After(Apply(After(Start(flavour), run), FinalizeHandshake(signature), now), later);
            Paired(u) ==> Agreed(Pair(u.Session(Device), u.Session(Gateway)))
  {
    StartOk(flavour);
    InvIsLoose(Start(flavour));
    RunKeepsLoose(Start(flavour), run);
    var s := After(Start(flavour), run);
    LooseKept(s, FinalizeHandshake(signature), now);
    RunKeeps(Apply(s, FinalizeHandshake(signature), now), later, false);
  }

  /** The rotation message that p would send next. */
  function NextRotation(s: System, p: Party): Frame
    requires s.Online(p)
  {
    var msg := RotationV2(s.Session(p).iteration + 1, Encapsulated(p.Peer(), s.drawn));
    Frame(msg, ControlTag(s.Session(p).key, msg))
  }

  /** The gateway begins a rotation, gives it up, and the device gets the message late. */
  function GivenUp(s: System, now: int): seq<Event>
    requires s.Online(Gateway)
  {
    [Event(Initiate(Gateway), now)]
    + ([Event(Abort(Gateway), now)] + ([Event(Deliver(Device, NextRotation(s, Gateway)), now)] + []))
  }

  lemma KeysApartIsDeaf(device: SessionState, gateway: SessionState)
    requires device.key != gateway.key
    ensures Deaf(device, gateway)
  {
  }

  /** The message still applies after the rollback, and takes the device one ahead. */
  lemma LateRotationApplies(s: System, now: int)
    requires Inv(s) && Paired(s) && InStep(s.Session(Device), s.Session(Gateway))
    requires !s.Session(Device).pendingActive && !s.Session(Gateway).pendingActive
    ensures Enabled(s, Initiate(Gateway))
    ensures var s1 := Apply(s, Initiate(Gateway), now);
            && Enabled(s1, Abort(Gateway))
            && var s2 := Apply(s1, Abort(Gateway), now);
               && Enabled(s2, Deliver(Device, NextRotation(s, Gateway)))
               && var s3 := Apply(s2, Deliver(Device, NextRotation(s, Gateway)), now);
                  && Paired(s3) && Ahead(s3.Session(Device), s1.Session(Gateway))
                  && s3.Session(Gateway).key == s.Session(Gateway).key
  {
    RotationReachesPeer(s, Gateway, now);
    var s1 := Apply(s, Initiate(Gateway), now);
    var s2 := Apply(s1, Abort(Gateway), now);
    assert s2.Session(Device) == s1.Session(Device) && s2.tags == s1.tags;
  }

  /** Nor is it safe to roll back before the device has applied the rotation: the message is still
      out there, and when it comes in, neither side can use anything of the other any more. */
  lemma RollbackInFlightDiverges(flavour: Flavour, run: seq<Event>, now: int)
    requires IsRun(Start(flavour), run)
    requires Disciplined(Start(flavour), run, false) && !OwedAfter(Start(flavour), run, false)
    requires var s := After(Start(flavour), run); Paired(s) && InStep(s.Session(Device), s.Session(Gateway))
    requires var s := After(Start(flavour), run); !s.Session(Device).pendingActive && !s.Session(Gateway).pendingActive
    ensures var s := After(Start(flavour), run);
            && IsRun(s, GivenUp(s, now))
            && var t := After(s, GivenUp(s, now));
               Paired(t) && Deaf(t.Session(Device), t.Session(Gateway))
  {
    StartOk(flavour);
    RunKeeps(Start(flavour), run, false);
    var s := After(Start(flavour), run);
    LateRotationApplies(s, now);
    var late := Event(Deliver(Device, NextRotation(s, Gateway)), now);
    var s1 := Apply(s, Initiate(Gateway), now);
    var s2 := Apply(s1, Abort(Gateway), now);
    var s3 := Apply(s2, late.step, now);
    Prepend(s2, late, []);
    Prepend(s1, Event(Abort(Gateway), now), [late] + []);
    Prepend(s, Event(Initiate(Gateway), now), [Event(Abort(Gateway), now)] + ([late] + []));
    assert s3.Session(Device).key == Next(s.Session(Gateway).key, Shared(s.drawn), s.Session(Gateway).iteration + 1);
    KeysApartIsDeaf(s3.Session(Device), s3.Session(Gateway));
  }
}
