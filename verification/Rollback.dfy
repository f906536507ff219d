/** Exactly when rolling a rotation back does harm, and exactly when trying again in the same
    session does. */
module Rollback {
  import opened Terms
  import opened Protocol
  import opened Agreement
  import opened Runs
  import opened Divergence

  function Ends(s: System): Pair
    requires s.Online(Device) && s.Online(Gateway)
  {
    Pair(s.Session(Device), s.Session(Gateway))
  }

  /** The ends of a handshake, with what every run keeps. */
  ghost predicate Ready(s: System) {
    Base(s) && SeedsOk(s) && Paired(s)
  }

  function Sent(key: Key, body: Body): Frame {
    Frame(body, ControlTag(key, body))
  }

  /** The device applies a rotation that was meant for it and acknowledges it. */
  lemma DeviceApplies(s: System, seed: nat, now: int)
    requires Ready(s) && !s.Session(Device).pendingActive
    requires var d := s.Session(Device);
             ControlTag(d.key, RotationV2(d.iteration + 1, Encapsulated(Device, seed))) in s.tags
    ensures var d := s.Session(Device);
            var step := Deliver(Device, Sent(d.key, RotationV2(d.iteration + 1, Encapsulated(Device, seed))));
            && Enabled(s, step)
            && var t := Apply(s, step, now);
               && Paired(t) && t.gateway == s.gateway
               && t.Session(Device).key == Next(d.key, Shared(seed), d.iteration + 1)
               && t.Session(Device).iteration == d.iteration + 1
               && t.installed == s.installed + {t.Session(Device).key}
               && ControlTag(d.key, RotationAck(d.iteration + 1)) in t.tags
  {
    assert EntryOk(s, s.current.value, s.archive[s.current.value].session);
  }

  /** The device commits a rotation of its own that the gateway has acknowledged. */
  lemma DeviceCommits(s: System, now: int)
    requires Ready(s) && Ahead(s.Session(Gateway), s.Session(Device))
    requires ControlTag(s.Session(Device).key, RotationAck(s.Session(Gateway).iteration)) in s.tags
    ensures var step := Deliver(Device, Sent(s.Session(Device).key, RotationAck(s.Session(Gateway).iteration)));
            && Enabled(s, step)
            && var t := Apply(s, step, now);
               && Ready(t) && t.gateway == s.gateway && t.tags == s.tags && t.drawn == s.drawn
               && InStep(t.Session(Device), t.Session(Gateway)) && !t.Session(Device).pendingActive
               && t.installed == s.installed + {t.Session(Device).key}
  {
    var step := Deliver(Device, Sent(s.Session(Device).key, RotationAck(s.Session(Gateway).iteration)));
    assert EntryOk(s, s.current.value, s.archive[s.current.value].session);
    assert s.tags + {} == s.tags;
    BaseKept(s, step, now);
    SeedsKept(s, step, now);
  }

  lemma TwoSteps(s: System, e: Event, f: Event)
    requires Enabled(s, e.step) && Enabled(Apply(s, e.step, e.now), f.step)
    ensures IsRun(s, [e] + ([f] + []))
    ensures After(s, [e] + ([f] + [])) == Apply(Apply(s, e.step, e.now), f.step, f.now)
  {
    Prepend(Apply(s, e.step, e.now), f, []);
    Prepend(s, e, [f] + []);
  }

  ghost predicate LosesBy(s: System, later: seq<Event>) {
    IsRun(s, later) && NoAborts(later) && Paired(After(s, later)) && !Agreed(Ends(After(s, later)))
  }

  /** Without any further rollback the two ends of the handshake can fall apart. */
  ghost predicate CanLose(s: System) {
    exists later :: LosesBy(s, later)
  }

  lemma LosesLater(s: System, e: Event)
    requires Enabled(s, e.step) && !e.step.Abort? && CanLose(Apply(s, e.step, e.now))
    ensures CanLose(s)
  {
    var later :| LosesBy(Apply(s, e.step, e.now), later);
    Prepend(s, e, later);
    assert LosesBy(s, [e] + later);
  }

  /** One side is ahead and nobody waits for it. */
  lemma LosesNow(s: System)
    requires Paired(s) && !Agreed(Ends(s))
    ensures CanLose(s)
  {
    assert LosesBy(s, []);
  }

  /** In step, with the message of the gateway's rotation still out there and the gateway no longer
      waiting for it: the device applies it if it can, and otherwise the gateway itself takes it when
      it is reflected. */
  lemma StrayRotationLoses(s: System, seed: nat, now: int)
    requires Ready(s) && InStep(s.Session(Device), s.Session(Gateway)) && !s.Session(Gateway).pendingActive
    requires s.Session(Device).pendingActive ==>
               s.Session(Device).pendingKey.Next? && s.Session(Device).pendingKey.mi.Shared?
    requires var d := s.Session(Device);
             ControlTag(d.key, RotationV2(d.iteration + 1, Encapsulated(Device, seed))) in s.tags
    ensures CanLose(s)
  {
    var d := s.Session(Device);
    var stray := Sent(d.key, RotationV2(d.iteration + 1, Encapsulated(Device, seed)));
    if d.pendingActive {
      var e := Event(Deliver(Gateway, stray), now);
      var t := Apply(s, e.step, now);
      assert t.Session(Gateway).key == Next(d.key, Rejected(Gateway, Encapsulated(Device, seed)), d.iteration + 1);
      LosesNow(t);
      LosesLater(s, e);
    } else {
      DeviceApplies(s, seed, now);
      var e := Event(Deliver(Device, stray), now);
      LosesNow(Apply(s, e.step, now));
      LosesLater(s, e);
    }
  }

  lemma PendingAbortLoses(s: System, now: int)
    requires Inv(s) && SeedsOk(s) && Paired(s) && s.Session(Gateway).pendingActive
    ensures CanLose(Apply(s, Abort(Gateway), now))
  {
    var x := Ends(s);
    var t := Apply(s, Abort(Gateway), now);
    BaseKept(s, Abort(Gateway), now);
    SeedsKept(s, Abort(Gateway), now);
    assert t.tags == s.tags && t.Session(Device) == s.Session(Device);
    assert PendingSent(x.At(Gateway), Gateway, s.tags);
    var seed := x.gateway.pendingKey.mi.seed;
    if Ahead(x.device, x.gateway) {
      LosesNow(t);
    } else if InStep(x.device, x.gateway) {
      assert x.device.pendingActive ==> PendingSent(x.At(Device), Device, s.tags);
      StrayRotationLoses(t, seed, now);
    } else {
      assert Ahead(x.At(Gateway), x.At(Device));
      DeviceCommits(t, now);
      var e := Event(Deliver(Device, Sent(x.device.key, RotationAck(x.gateway.iteration))), now);
      StrayRotationLoses(Apply(t, e.step, now), seed, now);
      LosesLater(t, e);
    }
  }

  lemma LinkedNeverLoses(s: System, later: seq<Event>)
    requires Inv(s)
    ensures !LosesBy(s, later)
  {
    if IsRun(s, later) && NoAborts(later) {
      NoAbortsIsDisciplined(s, later);
      RunKeeps(s, later, false);
    }
  }

  /** Main result: after any disciplined run, a rollback at the gateway can cost the agreement, even
      with none to follow, exactly if a rotation was pending. */
  lemma RollbackLosesExactly(flavour: Flavour, run: seq<Event>, now: int)
    requires IsRun(Start(flavour), run)
    requires Disciplined(Start(flavour), run, false) && !OwedAfter(Start(flavour), run, false)
    requires Paired(After(Start(flavour), run))
    ensures var s := After(Start(flavour), run);
            CanLose(Apply(s, Abort(Gateway), now)) <==> s.Session(Gateway).pendingActive
  {
    StartOk(flavour);
    RunKeeps(Start(flavour), run, false);
    RunKeepsBase(Start(flavour), run);
    var s := After(Start(flavour), run);
    if s.Session(Gateway).pendingActive {
      PendingAbortLoses(s, now);
    } else {
      IdleAbortKeepsInv(s, now);
      forall later
        ensures !LosesBy(Apply(s, Abort(Gateway), now), later)
      {
        LinkedNeverLoses(Apply(s, Abort(Gateway), now), later);
      }
    }
  }

  ghost predicate BreaksBy(s: System, later: seq<Event>, frame: Frame, now: int) {
    && IsRun(s, later) && NoAborts(later)
    && Enabled(After(s, later), Deliver(Gateway, frame)) && CommitsForeign(After(s, later), frame, now)
  }

  /** Without any further rollback an acknowledgement can make the gateway take a key that the device
      never had. */
  ghost predicate CanBreak(s: System) {
    exists later, frame, now :: BreaksBy(s, later, frame, now)
  }

  ghost predicate DeliveriesOnly(run: seq<Event>) {
    forall e :: e in run ==> e.step.Deliver?
  }

  ghost predicate NetworkBreaksBy(s: System, later: seq<Event>, frame: Frame, now: int) {
    && IsRun(s, later) && DeliveriesOnly(later)
    && Enabled(After(s, later), Deliver(Gateway, frame)) && CommitsForeign(After(s, later), frame, now)
  }

  /** The same by nothing but the arrival of frames. */
  ghost predicate NetworkBreaks(s: System) {
    exists later, frame, now :: NetworkBreaksBy(s, later, frame, now)
  }

  lemma NetworkCanBreak(s: System)
    requires NetworkBreaks(s)
    ensures CanBreak(s)
  {
    var later, frame, now :| NetworkBreaksBy(s, later, frame, now);
    assert BreaksBy(s, later, frame, now);
  }

  lemma BreaksLater(s: System, e: Event)
    requires Enabled(s, e.step) && e.step.Deliver? && NetworkBreaks(Apply(s, e.step, e.now))
    ensures NetworkBreaks(s)
  {
    var later, frame, now :| NetworkBreaksBy(Apply(s, e.step, e.now), later, frame, now);
    Prepend(s, e, later);
    assert NetworkBreaksBy(s, [e] + later, frame, now);
  }

  /** An acknowledgement of the iteration that the gateway waits for is out there, but the key it
      waits for is not the device's. */
  lemma BreaksNow(s: System, now: int)
    requires s.Online(Gateway) && !s.Session(Gateway).closed && s.Session(Gateway).pendingActive
    requires s.Session(Gateway).pendingKey !in s.installed && s.Session(Gateway).pendingKey != s.Session(Gateway).key
    requires ControlTag(s.Session(Gateway).key, RotationAck(s.Session(Gateway).pendingIteration)) in s.tags
    ensures NetworkBreaks(s)
  {
    var late := Sent(s.Session(Gateway).key, RotationAck(s.Session(Gateway).pendingIteration));
    assert NetworkBreaksBy(s, [], late, now);
  }

  /** The gateway rolls back and tries again at once. */
  function Retried(s: System, now: int): System
    requires s.Online(Gateway)
  {
    Apply(Apply(s, Abort(Gateway), now), Initiate(Gateway), now)
  }

  lemma RetriedIs(s: System, now: int)
    requires Inv(s) && SeedsOk(s) && Paired(s)
    ensures var t := Retried(s, now);
            var g := s.Session(Gateway);
            && Ready(t) && t.Session(Device) == s.Session(Device) && s.tags <= t.tags && t.installed == s.installed
            && t.Session(Gateway).key == g.key && t.Session(Gateway).iteration == g.iteration
            && !t.Session(Gateway).closed
            && t.Session(Gateway).pendingActive && t.Session(Gateway).pendingIteration == g.iteration + 1
            && t.Session(Gateway).pendingKey == Next(g.key, Shared(s.drawn), g.iteration + 1)
            && t.Session(Gateway).pendingKey !in s.installed
  {
    BaseKept(s, Abort(Gateway), now);
    SeedsKept(s, Abort(Gateway), now);
    var u := Apply(s, Abort(Gateway), now);
    BaseKept(u, Initiate(Gateway), now);
    SeedsKept(u, Initiate(Gateway), now);
    assert !KeyDrawn(Next(s.Session(Gateway).key, Shared(s.drawn), s.Session(Gateway).iteration + 1), s.drawn);
  }

  /** The gateway rolls back, tries again in the same session, and the late acknowledgement of the
      first attempt arrives. */
  function Retry(ack: Frame, now: int): seq<Event> {
    [Event(Abort(Gateway), now)] + ([Event(Initiate(Gateway), now)] + ([Event(Deliver(Gateway, ack), now)] + []))
  }

  function LateAck(s: System): Frame
    requires s.Online(Gateway) && s.Online(Device)
  {
    var ack := RotationAck(s.Session(Device).iteration);
    Frame(ack, ControlTag(s.Session(Gateway).key, ack))
  }

  lemma RetryRuns(s: System, late: Frame, now: int)
    requires s.Online(Gateway) && Enabled(Retried(s, now), Deliver(Gateway, late))
    ensures IsRun(s, Retry(late, now))
    ensures After(s, Retry(late, now)) == Apply(Retried(s, now), Deliver(Gateway, late), now)
  {
    var u := Apply(s, Abort(Gateway), now);
    var e, f := Event(Initiate(Gateway), now), Event(Deliver(Gateway, late), now);
    TwoSteps(u, e, f);
    Prepend(s, Event(Abort(Gateway), now), [e] + ([f] + []));
  }

  lemma AckTakesPending(s: System, now: int)
    requires s.Online(Gateway) && !s.Session(Gateway).closed && s.Session(Gateway).pendingActive
    requires ControlTag(s.Session(Gateway).key, RotationAck(s.Session(Gateway).pendingIteration)) in s.tags
    ensures var g := s.Session(Gateway);
            var step := Deliver(Gateway, Sent(g.key, RotationAck(g.pendingIteration)));
            && Enabled(s, step)
            && var t := Apply(s, step, now);
               && t.Session(Gateway).key == g.pendingKey && t.Session(Gateway).iteration == g.pendingIteration
               && t.current == s.current && t.archive == s.archive && t.installed == s.installed
  {
  }

  lemma LateAckCommits(s: System, now: int)
    requires Inv(s) && SeedsOk(s) && Paired(s) && Ahead(s.Session(Device), s.Session(Gateway))
    ensures Enabled(Retried(s, now), Deliver(Gateway, LateAck(s)))
    ensures CommitsForeign(Retried(s, now), LateAck(s), now)
  {
    assert Ahead(Ends(s).At(Device), Ends(s).At(Gateway));
    RetriedIs(s, now);
    AckTakesPending(Retried(s, now), now);
  }

  lemma LateAckBreaks(s: System, now: int)
    requires Inv(s) && SeedsOk(s) && Paired(s) && Ahead(s.Session(Device), s.Session(Gateway))
    ensures IsRun(s, Retry(LateAck(s), now))
    ensures var t := After(s, Retry(LateAck(s), now));
            && Paired(t)
            && t.Session(Gateway).key !in t.installed
            && t.Session(Gateway).iteration == t.Session(Device).iteration
  {
    assert Ahead(Ends(s).At(Device), Ends(s).At(Gateway));
    RetriedIs(s, now);
    AckTakesPending(Retried(s, now), now);
    RetryRuns(s, LateAck(s), now);
  }

  /** Why the connection must go down with the rotation: where the device has applied it, trying
      again in the same session lets the late acknowledgement of the first attempt commit the key
      of the second, which the device has never had. */
  lemma RetryInSessionBreaks(flavour: Flavour, run: seq<Event>, now: int)
    requires IsRun(Start(flavour), run)
    requires Disciplined(Start(flavour), run, false) && !OwedAfter(Start(flavour), run, false)
    requires var s := After(Start(flavour), run); Paired(s) && Ahead(s.Session(Device), s.Session(Gateway))
    ensures var s := After(Start(flavour), run);
            && IsRun(s, Retry(LateAck(s), now))
            && var t := After(s, Retry(LateAck(s), now));
               && Paired(t)
               && t.Session(Gateway).key !in t.installed
               && t.Session(Gateway).iteration == t.Session(Device).iteration
  {
    StartOk(flavour);
    RunKeeps(Start(flavour), run, false);
    RunKeepsBase(Start(flavour), run);
    LateAckBreaks(After(Start(flavour), run), now);
  }

  /** In step, the device applies the first rotation and acknowledges its number. */
  lemma StrayRotationBreaks(s: System, seed: nat, now: int)
    requires Ready(s) && InStep(s.Session(Device), s.Session(Gateway)) && !s.Session(Device).pendingActive
    requires var g := s.Session(Gateway);
             && !g.closed && g.pendingActive && g.pendingIteration == g.iteration + 1
             && g.pendingKey !in s.installed && g.pendingKey.Next?
             && g.pendingKey == Next(g.key, g.pendingKey.mi, g.iteration + 1) && g.pendingKey.mi != Shared(seed)
             && ControlTag(g.key, RotationV2(g.iteration + 1, Encapsulated(Device, seed))) in s.tags
    ensures NetworkBreaks(s)
  {
    DeviceApplies(s, seed, now);
    var d := s.Session(Device);
    var e := Event(Deliver(Device, Sent(d.key, RotationV2(d.iteration + 1, Encapsulated(Device, seed)))), now);
    BreaksNow(Apply(s, e.step, now), now);
    BreaksLater(s, e);
  }

  /** The same where the device first has to catch up with the gateway. */
  lemma DeviceCommitsThenBreaks(s: System, seed: nat, now: int)
    requires Ready(s) && Ahead(s.Session(Gateway), s.Session(Device))
    requires ControlTag(s.Session(Device).key, RotationAck(s.Session(Gateway).iteration)) in s.tags
    requires var g := s.Session(Gateway);
             && !g.closed && g.pendingActive && g.pendingIteration == g.iteration + 1
             && g.pendingKey !in s.installed && g.pendingKey.Next? && g.pendingKey != g.key
             && g.pendingKey == Next(g.key, g.pendingKey.mi, g.iteration + 1) && g.pendingKey.mi != Shared(seed)
             && ControlTag(g.key, RotationV2(g.iteration + 1, Encapsulated(Device, seed))) in s.tags
    ensures NetworkBreaks(s)
  {
    DeviceCommits(s, now);
    var e := Event(Deliver(Device, Sent(s.Session(Device).key, RotationAck(s.Session(Gateway).iteration))), now);
    StrayRotationBreaks(Apply(s, e.step, now), seed, now);
    BreaksLater(s, e);
  }

  lemma RetryBreaks(s: System, now: int)
    requires Inv(s) && SeedsOk(s) && Paired(s) && s.Session(Gateway).pendingActive
    requires InStep(s.Session(Device), s.Session(Gateway)) ==> !s.Session(Device).pendingActive
    ensures NetworkBreaks(Retried(s, now))
  {
    var x := Ends(s);
    var t := Retried(s, now);
    RetriedIs(s, now);
    assert PendingSent(x.At(Gateway), Gateway, s.tags);
    var seed := x.gateway.pendingKey.mi.seed;
    if Ahead(x.device, x.gateway) {
      assert Ahead(x.At(Device), x.At(Gateway));
      BreaksNow(t, now);
    } else if InStep(x.device, x.gateway) {
      StrayRotationBreaks(t, seed, now);
    } else {
      assert Ahead(x.At(Gateway), x.At(Device));
      DeviceCommitsThenBreaks(t, seed, now);
    }
  }

  lemma CrossedRetryKeepsInv(s: System, now: int)
    requires Inv(s) && Paired(s) && InStep(s.Session(Device), s.Session(Gateway))
    requires s.Session(Device).pendingActive && s.Session(Gateway).pendingActive
    ensures Inv(Retried(s, now))
  {
    BaseKept(s, Abort(Gateway), now);
    BaseKept(Apply(s, Abort(Gateway), now), Initiate(Gateway), now);
    var root := Root(s.gateway.value.key);
    CrossedRetryKeepsLink(Pair(s.archive[root].session, s.gateway.value), root, s.tags, s.drawn, now);
    var msg := s.gateway.value.AbortRotate().Initiate(Device, s.drawn, now).value.1;
    GatewayMoves(s, Retried(s, now), {ControlTag(s.gateway.value.key, msg)});
  }

  lemma LinkedNeverBreaks(s: System, later: seq<Event>, frame: Frame, now: int)
    requires Inv(s)
    ensures !BreaksBy(s, later, frame, now)
  {
    if IsRun(s, later) && NoAborts(later) && Enabled(After(s, later), Deliver(Gateway, frame)) {
      NoAbortsIsDisciplined(s, later);
      RunKeeps(s, later, false);
      AckCommitsInstalled(After(s, later), false, frame, now);
    }
  }

  /** Main result: after any disciplined run, rolling back a pending rotation and trying again in the
      same session can end in a key that the device never had, exactly unless both sides are in step
      with the device waiting for a rotation of its own. */
  lemma RetryBreaksExactly(flavour: Flavour, run: seq<Event>, now: int)
    requires IsRun(Start(flavour), run)
    requires Disciplined(Start(flavour), run, false) && !OwedAfter(Start(flavour), run, false)
    requires Paired(After(Start(flavour), run)) && After(Start(flavour), run).Session(Gateway).pendingActive
    ensures var s := After(Start(flavour), run);
            CanBreak(Retried(s, now))
            <==> !(InStep(s.Session(Device), s.Session(Gateway)) && s.Session(Device).pendingActive)
  {
    StartOk(flavour);
    RunKeeps(Start(flavour), run, false);
    RunKeepsBase(Start(flavour), run);
    var s := After(Start(flavour), run);
    if InStep(s.Session(Device), s.Session(Gateway)) && s.Session(Device).pendingActive {
      CrossedRetryKeepsInv(s, now);
      forall later, frame, when
        ensures !BreaksBy(Retried(s, now), later, frame, when)
      {
        LinkedNeverBreaks(Retried(s, now), later, frame, when);
      }
    } else {
      RetryBreaks(s, now);
      NetworkCanBreak(Retried(s, now));
    }
  }

  lemma {:induction false} Append(s: System, run: seq<Event>, more: seq<Event>)
    requires IsRun(s, run) && IsRun(After(s, run), more)
    ensures IsRun(s, run + more) && After(s, run + more) == After(After(s, run), more)
    decreases |run|
  {
    if run == [] {
      assert run + more == more;
    } else {
      assert (run + more)[1..] == run[1..] + more;
      Append(Apply(s, run[0].step, run[0].now), run[1..], more);
    }
  }

  ghost predicate EndsAhead(s: System, initiator: Party) {
    Paired(s) && Ahead(s.Session(initiator.Peer()), s.Session(initiator))
  }

  /** One side begins a rotation and the other receives it. */
  function OneRotation(s: System, initiator: Party, now: int): seq<Event>
    requires s.Online(initiator)
  {
    [Event(Initiate(initiator), now)] + ([Event(Deliver(initiator.Peer(), NextRotation(s, initiator)), now)] + [])
  }

  lemma NextRotationApplies(s: System, p: Party, now: int)
    requires Inv(s) && Paired(s) && InStep(s.Session(Device), s.Session(Gateway))
    requires !s.Session(Device).pendingActive && !s.Session(Gateway).pendingActive
    ensures var t := Apply(s, Initiate(p), now);
            && Enabled(s, Initiate(p)) && Enabled(t, Deliver(p.Peer(), NextRotation(s, p)))
            && EndsAhead(Apply(t, Deliver(p.Peer(), NextRotation(s, p)), now), p)
  {
    RotationReachesPeer(s, p, now);
  }

  lemma OneRotationRuns(s: System, p: Party, now: int)
    requires Inv(s) && Paired(s) && InStep(s.Session(Device), s.Session(Gateway))
    requires !s.Session(Device).pendingActive && !s.Session(Gateway).pendingActive
    ensures IsRun(s, OneRotation(s, p, now)) && NoAborts(OneRotation(s, p, now))
    ensures EndsAhead(After(s, OneRotation(s, p, now)), p)
  {
    NextRotationApplies(s, p, now);
    TwoSteps(s, Event(Initiate(p), now), Event(Deliver(p.Peer(), NextRotation(s, p)), now));
  }

  /** These are no empty cases: from the start, with no rollback at all, either side can come to wait
      for a rotation that the other has applied. */
  lemma AheadIsReachable(flavour: Flavour, initiator: Party, now: int)
    ensures exists run ::
              IsRun(Start(flavour), run) && NoAborts(run) && EndsAhead(After(Start(flavour), run), initiator)
  {
    var s := Start(flavour);
    assert After(s, []) == s;
    HandshakeCompletes(flavour, [], now, now);
    var first := Handshake(s, now, now);
    var second := OneRotation(After(s, first), initiator, now);
    OneRotationRuns(After(s, first), initiator, now);
    Append(s, first, second);
    HandshakeHasNoAborts(s, now);
    assert NoAborts(first + second);
  }

  lemma HandshakeHasNoAborts(s: System, now: int)
    ensures NoAborts(Handshake(s, now, now))
  {
  }
}
