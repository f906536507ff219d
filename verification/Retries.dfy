/** Exactly when a rotation begun by the gateway can end in a key that the device never had,
    whatever was rolled back before it. */
module Retries {
  import opened Options
  import opened Terms
  import opened Sessions
  import opened Protocol
  import opened Agreement
  import opened Runs
  import opened Divergence
  import opened Rollback

  /** The session was at key k and has gone on from it. */
  predicate Left(s: SessionState, k: Key) {
    s.key != k && Extends(s.key, k)
  }

  /** Every rotation on the way to k was acknowledged. */
  ghost predicate Acked(k: Key, tags: set<Tag>) {
    k.Next? ==> Acked(k.prev, tags) && ControlTag(k.prev, RotationAck(Depth(k))) in tags
  }

  /** Each rotation on the way to k the device has made, or is about to make, or has left behind by
      another; or the gateway made it by opening a ciphertext that was not for it. */
  ghost predicate Path(k: Key, d: SessionState) {
    k.Next? ==>
      && Path(k.prev, d)
      && (|| Left(d, k.prev)
          || (d.key == k.prev && d.pendingActive && d.pendingKey == k)
          || (k.mi.Rejected? && k.mi.holder == Gateway))
  }

  /** A rotation frame's sender has been at its key; a device that is still there waits for just that
      rotation. An acknowledgement is sent only by a side that has left the key. */
  ghost predicate FrameTrail(t: Tag, x: Pair)
    requires t.Tag?
  {
    && t.frameType == FrameType(t.body)
    && t.iteration == t.body.iteration == Depth(t.key) + 1
    && match t.body
       case RotationV2(i, ct) =>
         && ct.Encapsulated?
         && Extends(x.At(ct.owner.Peer()).key, t.key)
         && (ct.owner == Gateway && x.device.key == t.key ==>
               x.device.pendingActive && x.device.pendingKey == Next(t.key, Shared(ct.seed), i))
       case RotationAck(_) => Left(x.device, t.key) || Left(x.gateway, t.key)
  }

  /** What the two ends of a handshake keep of each other however often the gateway rolls back. */
  ghost predicate Trail(x: Pair, root: Key, tags: set<Tag>) {
    && Sound(x.device) && Sound(x.gateway)
    && Root(x.device.key) == Root(x.gateway.key) == root
    && Acked(x.device.key, tags) && Acked(x.gateway.key, tags)
    && Path(x.gateway.key, x.device)
    && (x.device.pendingActive ==> PendingSent(x.device, Device, tags))
    && forall t | t in tags && t.Tag? && Root(t.key) == root :: FrameTrail(t, x)
  }

  /** The key stays or is rotated once. */
  ghost predicate Onward(a: Key, b: Key) {
    b == a || (b.Next? && b.prev == a)
  }

  /** What the device does with a rotation it waits for: keep waiting or commit it. */
  ghost predicate Forward(a: SessionState, b: SessionState) {
    && Onward(a.key, b.key)
    && (a.pendingActive && b.key == a.key ==> b.pendingActive && b.pendingKey == a.pendingKey)
    && (a.pendingActive && b.key != a.key ==> b.key == a.pendingKey)
  }

  lemma OnwardKeepsLeft(a: SessionState, b: SessionState, k: Key)
    requires Onward(a.key, b.key) && Extends(a.key, k)
    ensures Extends(b.key, k)
    ensures Left(a, k) || b.key != a.key ==> Left(b, k)
  {
    ExtensionIsDeeper(a.key, k);
  }

  lemma {:induction false} PathKept(k: Key, a: SessionState, b: SessionState)
    requires Path(k, a) && Forward(a, b)
    ensures Path(k, b)
  {
    if k.Next? {
      PathKept(k.prev, a, b);
      if Extends(a.key, k.prev) {
        OnwardKeepsLeft(a, b, k.prev);
      }
    }
  }

  lemma {:induction false} AckedGrows(k: Key, tags: set<Tag>, more: set<Tag>)
    requires Acked(k, tags)
    ensures Acked(k, tags + more)
  {
    if k.Next? {
      AckedGrows(k.prev, tags, more);
    }
  }

  lemma {:induction false} LeftWasAcked(k: Key, at: Key, tags: set<Tag>)
    requires Acked(k, tags) && k != at && Extends(k, at)
    ensures ControlTag(at, RotationAck(Depth(at) + 1)) in tags
  {
    if k.prev != at {
      LeftWasAcked(k.prev, at, tags);
    }
  }

  lemma FrameStays(t: Tag, x: Pair, y: Pair)
    requires t.Tag? && FrameTrail(t, x)
    requires Forward(x.device, y.device) && Onward(x.gateway.key, y.gateway.key)
    ensures FrameTrail(t, y)
  {
    if Extends(x.device.key, t.key) {
      OnwardKeepsLeft(x.device, y.device, t.key);
    }
    if Extends(x.gateway.key, t.key) {
      OnwardKeepsLeft(x.gateway, y.gateway, t.key);
    }
  }

  lemma MovesKeepTrail(x: Pair, y: Pair, root: Key, tags: set<Tag>, more: set<Tag>)
    requires Trail(x, root, tags)
    requires Forward(x.device, y.device) && Onward(x.gateway.key, y.gateway.key)
    requires Sound(y.device) && Sound(y.gateway)
    requires y.device.key != x.device.key ==> ControlTag(x.device.key, RotationAck(Depth(y.device.key))) in tags + more
    requires y.gateway.key != x.gateway.key ==>
               && ControlTag(x.gateway.key, RotationAck(Depth(y.gateway.key))) in tags + more
               && Path(y.gateway.key, x.device)
    requires y.device.pendingActive ==> PendingSent(y.device, Device, tags + more)
    requires forall t | t in more && t.Tag? && Root(t.key) == root :: FrameTrail(t, y)
    ensures Trail(y, root, tags + more)
  {
    AckedGrows(x.device.key, tags, more);
    AckedGrows(x.gateway.key, tags, more);
    PathKept(y.gateway.key, x.device, y.device);
    forall t | t in tags + more && t.Tag? && Root(t.key) == root
      ensures FrameTrail(t, y)
    {
      if t in tags {
        FrameStays(t, x, y);
      }
    }
  }

  lemma InitiateKeepsTrail(x: Pair, root: Key, tags: set<Tag>, p: Party, seed: nat, now: int)
    requires Trail(x, root, tags) && x.At(p).Initiate(p.Peer(), seed, now).Ok?
    ensures var (t, msg) := x.At(p).Initiate(p.Peer(), seed, now).value;
            Trail(x.Put(p, t), root, tags + {ControlTag(x.At(p).key, msg)})
  {
    var (t, msg) := x.At(p).Initiate(p.Peer(), seed, now).value;
    MovesKeepTrail(x, x.Put(p, t), root, tags, {ControlTag(x.At(p).key, msg)});
  }

  /** What a responder applies under its own key leads on along the path. */
  lemma RespondKeepsTrail(x: Pair, root: Key, tags: set<Tag>, p: Party, msg: Body, now: int)
    requires Trail(x, root, tags)
    requires msg.RotationV2? && ControlTag(x.At(p).key, msg) in tags && x.At(p).Respond(p, msg, now).Ok?
    ensures var (t, ack) := x.At(p).Respond(p, msg, now).value;
            Trail(x.Put(p, t), root, tags + {ControlTag(x.At(p).key, ack)})
  {
    var (t, ack) := x.At(p).Respond(p, msg, now).value;
    var y := x.Put(p, t);
    assert FrameTrail(ControlTag(x.At(p).key, msg), x);
    assert Left(t, x.At(p).key);
    MovesKeepTrail(x, y, root, tags, {ControlTag(x.At(p).key, ack)});
  }

  lemma AckKeepsTrail(x: Pair, root: Key, tags: set<Tag>, p: Party, i: nat, now: int)
    requires Trail(x, root, tags)
    requires ControlTag(x.At(p).key, RotationAck(i)) in tags && x.At(p).ApplyAck(i, now).Ok?
    ensures Trail(x.Put(p, x.At(p).ApplyAck(i, now).value), root, tags)
  {
    assert FrameTrail(ControlTag(x.At(p).key, RotationAck(i)), x);
    assert tags + {} == tags;
    MovesKeepTrail(x, x.Put(p, x.At(p).ApplyAck(i, now).value), root, tags, {});
  }

  lemma ReceiveKeepsTrail(x: Pair, root: Key, tags: set<Tag>, p: Party, frame: Frame, now: int)
    requires Trail(x, root, tags)
    requires frame.tag in tags || frame.tag.Forged? || Root(frame.tag.key) != root
    ensures var (t, ack) := Receive(x.At(p), p, frame, now);
            Trail(x.Put(p, t), root, tags + if ack.Some? then {ControlTag(x.At(p).key, ack.value)} else {})
  {
    var s := x.At(p);
    assert tags + {} == tags;
    assert x.Put(p, s) == x;
    if frame.tag == ControlTag(s.key, frame.body) {
      match frame.body
      case RotationV2(_, _) =>
        if s.Respond(p, frame.body, now).Ok? {
          RespondKeepsTrail(x, root, tags, p, frame.body, now);
        }
      case RotationAck(i) =>
        if s.ApplyAck(i, now).Ok? {
          AckKeepsTrail(x, root, tags, p, i, now);
        }
    }
  }

  /** The device's end of the gateway's handshake, live or not, and the gateway's. */
  function Both(s: System): Pair
    requires s.gateway.Some? && Root(s.gateway.value.key) in s.archive
  {
    Pair(s.archive[Root(s.gateway.value.key)].session, s.gateway.value)
  }

  ghost predicate Trailed(s: System)
    requires Base(s)
  {
    s.gateway.Some? ==> Trail(Both(s), Root(s.gateway.value.key), s.tags)
  }

  /** A handshake leaves both at its key. */
  lemma FreshTrail(s: System)
    requires Inv(s) && s.gateway.Some? && !s.gateway.value.key.Next? && !s.gateway.value.pendingActive
    ensures Trailed(s)
  {
    var x, root := Both(s), s.gateway.value.key;
    assert x.At(Device) == x.device;
    forall t | t in s.tags && t.Tag? && Root(t.key) == root
      ensures FrameTrail(t, x)
    {
      assert FrameOk(t, x);
    }
  }

  /** Frames of other handshakes and changes that leave the keys alone. */
  lemma SameKeysKeepTrail(x: Pair, y: Pair, root: Key, tags: set<Tag>, more: set<Tag>)
    requires Trail(x, root, tags) && SameKeys(x.device, y.device) && SameKeys(x.gateway, y.gateway)
    requires forall t | t in more && t.Tag? :: Root(t.key) != root
    ensures Trail(y, root, tags + more)
  {
    MovesKeepTrail(x, y, root, tags, more);
  }

  lemma InitiateKeepsTrailed(s: System, p: Party, now: int)
    requires Base(s) && Trailed(s) && Enabled(s, Initiate(p))
    ensures Base(Apply(s, Initiate(p), now)) && Trailed(Apply(s, Initiate(p), now))
  {
    BaseKept(s, Initiate(p), now);
    if s.gateway.Some? && s.Session(p).Initiate(p.Peer(), s.drawn, now).Ok? {
      var root := Root(s.gateway.value.key);
      var msg := s.Session(p).Initiate(p.Peer(), s.drawn, now).value.1;
      if p == Gateway || s.current.value == root {
        InitiateKeepsTrail(Both(s), root, s.tags, p, s.drawn, now);
      } else {
        SameKeysKeepTrail(Both(s), Both(s), root, s.tags, {ControlTag(s.Session(p).key, msg)});
      }
    }
  }

  lemma DeliverKeepsTrailed(s: System, p: Party, frame: Frame, now: int)
    requires Base(s) && Trailed(s) && Enabled(s, Deliver(p, frame))
    ensures Base(Apply(s, Deliver(p, frame), now)) && Trailed(Apply(s, Deliver(p, frame), now))
  {
    BaseKept(s, Deliver(p, frame), now);
    if s.gateway.Some? {
      var root := Root(s.gateway.value.key);
      if p == Gateway || s.current.value == root {
        ReceiveKeepsTrail(Both(s), root, s.tags, p, frame, now);
      } else {
        var ack := Receive(s.Session(p), p, frame, now).1;
        SameKeysKeepTrail(Both(s), Both(s), root, s.tags,
                          if ack.Some? then {ControlTag(s.Session(p).key, ack.value)} else {});
      }
    }
  }

  lemma DataKeepsTrailed(s: System, step: Step, now: int)
    requires Base(s) && Trailed(s) && Enabled(s, step) && (step.SendData? || step.DeliverData?)
    ensures Base(Apply(s, step, now)) && Trailed(Apply(s, step, now))
  {
    BaseKept(s, step, now);
    var t := Apply(s, step, now);
    assert s.tags + {} == s.tags;
    if s.gateway.Some? {
      SameKeysKeepTrail(Both(s), Both(t), Root(s.gateway.value.key), s.tags, {});
    }
  }

  lemma OtherStepKeepsTrailed(s: System, step: Step, now: int)
    requires Base(s) && Trailed(s) && Enabled(s, step)
    requires step.StartHandshake? || step.AnswerHello? || step.CompleteHandshake? || step.Drop?
             || step == Abort(Gateway)
    ensures Base(Apply(s, step, now)) && Trailed(Apply(s, step, now))
  {
    BaseKept(s, step, now);
    var t := Apply(s, step, now);
    assert s.tags + {} == s.tags;
    if s.gateway.Some? && t.gateway.Some? {
      MovesKeepTrail(Both(s), Both(t), Root(s.gateway.value.key), s.tags, {});
    }
  }

  /** Holds in every run in which the device does not roll back. */
  lemma TrailedKept(s: System, step: Step, now: int)
    requires Loose(s) && Trailed(s) && Enabled(s, step) && step != Abort(Device)
    ensures Loose(Apply(s, step, now)) && Trailed(Apply(s, step, now))
  {
    LooseKept(s, step, now);
    match step
    case Initiate(p) => InitiateKeepsTrailed(s, p, now);
    case Deliver(p, frame) => DeliverKeepsTrailed(s, p, frame, now);
    case FinalizeHandshake(_) =>
      if Apply(s, step, now).gateway != s.gateway {
        FreshTrail(Apply(s, step, now));
      }
    case SendData(_, _) => DataKeepsTrailed(s, step, now);
    case DeliverData(_, _) => DataKeepsTrailed(s, step, now);
    case _ => OtherStepKeepsTrailed(s, step, now);
  }

  /** The device is at key k or waits for it. */
  predicate Meets(d: SessionState, k: Key) {
    d.key == k || (d.pendingActive && d.pendingKey == k)
  }

  /** The device of this handshake is at work and can still act at the gateway's key: it is there with
      nothing pending, or on its way there. */
  ghost predicate CanAnswer(s: System)
    requires Base(s) && s.gateway.Some?
  {
    var d, k := Both(s).device, s.gateway.value.key;
    s.current == Some(Root(k)) && Meets(d, k) && !(d.key == k && d.pendingActive)
  }

  /** The gateway waits for an acknowledgement that nobody can ever send. */
  ghost predicate Stuck(s: System)
    requires Base(s)
  {
    && s.gateway.Some? && s.gateway.value.pendingActive
    && ControlTag(s.gateway.value.key, RotationAck(s.gateway.value.pendingIteration)) !in s.tags
    && !CanAnswer(s)
  }

  ghost predicate Safe(s: System) {
    Inv(s) || (Loose(s) && Trailed(s) && Stuck(s))
  }

  lemma StuckGatewayWaits(s: System, frame: Frame, now: int)
    requires Base(s) && Trailed(s) && Stuck(s) && Enabled(s, Deliver(Gateway, frame))
    ensures Apply(s, Deliver(Gateway, frame), now) == s
  {
    var x := Both(s);
    assert frame.tag in s.tags && frame.tag.Tag? && Root(frame.tag.key) == Root(x.gateway.key) ==>
        FrameTrail(frame.tag, x);
    assert s.Update(Gateway, s.gateway.value) == s;
  }

  /** A device that cannot answer never comes to. */
  lemma DeviceStaysAway(x: Pair, root: Key, tags: set<Tag>, frame: Frame, now: int)
    requires Trail(x, root, tags) && (!Meets(x.device, x.gateway.key)
                                      || (x.device.key == x.gateway.key && x.device.pendingActive))
    requires frame.tag in tags || frame.tag.Forged? || Root(frame.tag.key) != root
    requires ControlTag(x.gateway.key, RotationAck(x.gateway.iteration + 1)) !in tags
    ensures var (d, ack) := Receive(x.device, Device, frame, now);
            && (!Meets(d, x.gateway.key) || (d.key == x.gateway.key && d.pendingActive))
            && (ack.Some? ==> x.device.key != x.gateway.key)
  {
    if x.device.key == x.gateway.key && frame.tag in tags && frame.tag.Tag? && frame.tag.key == x.device.key {
      assert FrameTrail(frame.tag, x);
    }
  }

  lemma DeviceKeepsStuck(s: System, frame: Frame, now: int)
    requires Base(s) && Trailed(s) && Stuck(s) && Enabled(s, Deliver(Device, frame))
    ensures Base(Apply(s, Deliver(Device, frame), now)) && Stuck(Apply(s, Deliver(Device, frame), now))
  {
    BaseKept(s, Deliver(Device, frame), now);
    if s.current == Some(Root(s.gateway.value.key)) {
      DeviceStaysAway(Both(s), s.current.value, s.tags, frame, now);
    } else {
      assert Root(s.Session(Device).key) == s.current.value;
    }
  }

  /** A rotation that the device begins brings it nowhere near: its secret is new. */
  lemma InitiateKeepsStuck(s: System, p: Party, now: int)
    requires Base(s) && Trailed(s) && Stuck(s) && Enabled(s, Initiate(p))
    ensures Base(Apply(s, Initiate(p), now)) && Stuck(Apply(s, Initiate(p), now))
  {
    BaseKept(s, Initiate(p), now);
  }

  lemma StuckKept(s: System, step: Step, now: int)
    requires Loose(s) && Trailed(s) && Stuck(s) && Enabled(s, step) && !step.Abort?
    requires Base(Apply(s, step, now)) && Apply(s, step, now).gateway.Some?
    requires step.FinalizeHandshake? ==> Apply(s, step, now).gateway == s.gateway
    ensures Stuck(Apply(s, step, now))
  {
    match step
    case Deliver(p, frame) =>
      if p == Gateway { StuckGatewayWaits(s, frame, now); } else { DeviceKeepsStuck(s, frame, now); }
    case Initiate(p) => InitiateKeepsStuck(s, p, now);
    case _ =>
  }

  lemma SafeKept(s: System, step: Step, now: int)
    requires Safe(s) && Enabled(s, step) && !step.Abort?
    ensures Safe(Apply(s, step, now))
  {
    var t := Apply(s, step, now);
    if Inv(s) {
      StepKeepsInv(s, step, now);
    } else {
      TrailedKept(s, step, now);
      LooseKept(s, step, now);
      if t.gateway.None? {
        assert t.(gateway := None) == t;
      } else if !step.FinalizeHandshake? || t.gateway == s.gateway {
        StuckKept(s, step, now);
      }
    }
  }

  lemma SafeNeverCommits(s: System, frame: Frame, now: int)
    requires Safe(s) && Enabled(s, Deliver(Gateway, frame))
    ensures !CommitsForeign(s, frame, now)
  {
    if Inv(s) {
      AckCommitsInstalled(s, false, frame, now);
    } else {
      StuckGatewayWaits(s, frame, now);
    }
  }

  lemma {:induction false} SafeNeverBreaks(s: System, later: seq<Event>, frame: Frame, now: int)
    requires Safe(s)
    ensures !BreaksBy(s, later, frame, now)
    decreases |later|
  {
    if BreaksBy(s, later, frame, now) {
      if later == [] {
        SafeNeverCommits(s, frame, now);
      } else {
        assert later[0] in later;
        SafeKept(s, later[0].step, later[0].now);
        SafeNeverBreaks(Apply(s, later[0].step, later[0].now), later[1..], frame, now);
      }
    }
  }

  lemma SafeCannotBreak(s: System)
    requires Safe(s)
    ensures !CanBreak(s)
  {
    forall later, frame, now
      ensures !BreaksBy(s, later, frame, now)
    {
      SafeNeverBreaks(s, later, frame, now);
    }
  }

  /** The gateway has begun a rotation under key k before. */
  ghost predicate BegunBefore(tags: set<Tag>, k: Key) {
    exists seed: nat :: ControlTag(k, RotationV2(Depth(k) + 1, Encapsulated(Device, seed))) in tags
  }

  /** The device has gone on from the gateway's key, or can still act at that key, under which an earlier
      rotation was given up. */
  ghost predicate Ripe(s: System)
    requires Base(s) && s.gateway.Some?
  {
    || Left(Both(s).device, s.gateway.value.key)
    || (CanAnswer(s) && BegunBefore(s.tags, s.gateway.value.key))
  }

  /** The first rotation begun at a key that the device is at, or about to reach, leaves the two linked. */
  lemma FirstIsLinked(x: Pair, root: Key, tags: set<Tag>, seed: nat, now: int)
    requires Trail(x, root, tags) && !x.gateway.pendingActive
    requires Meets(x.device, x.gateway.key) && !(x.device.key == x.gateway.key && x.device.pendingActive)
    requires !BegunBefore(tags, x.gateway.key)
    ensures x.gateway.Initiate(Device, seed, now).Ok?
    ensures var (g, msg) := x.gateway.Initiate(Device, seed, now).value;
            Linked(Pair(x.device, g), root, tags + {ControlTag(x.gateway.key, msg)})
  {
    var (g, msg) := x.gateway.Initiate(Device, seed, now).value;
    var y := Pair(x.device, g);
    var all := tags + {ControlTag(x.gateway.key, msg)};
    forall t | t in all && t.Tag? && Root(t.key) == root
      ensures FrameOk(t, y)
    {
      if t in tags {
        assert FrameTrail(t, x);
        FrameTrailIsOk(t, x, y, tags);
      }
    }
  }

  lemma AtOrDeeper(k: Key, base: Key)
    ensures Extends(k, base) ==> k == base || Depth(k) > Depth(base)
  {
  }

  lemma FrameTrailIsOk(t: Tag, x: Pair, y: Pair, tags: set<Tag>)
    requires t in tags && t.Tag? && FrameTrail(t, x) && !BegunBefore(tags, x.gateway.key)
    requires Sound(x.device) && Sound(x.gateway)
    requires y.device == x.device && y.gateway.key == x.gateway.key && y.gateway.iteration == x.gateway.iteration
    ensures FrameOk(t, y)
  {
    AtOrDeeper(x.device.key, t.key);
    AtOrDeeper(x.gateway.key, t.key);
    if t.body.RotationV2? {
      assert t == ControlTag(t.key, RotationV2(Depth(t.key) + 1, Encapsulated(t.body.ct.owner, t.body.ct.seed)));
    }
  }

  lemma UnripeIsSafe(s: System, now: int)
    requires Loose(s) && Trailed(s) && s.gateway.Some? && !s.gateway.value.pendingActive && !Ripe(s)
    ensures Safe(Apply(s, Initiate(Gateway), now))
  {
    var x, k := Both(s), s.gateway.value.key;
    var t := Apply(s, Initiate(Gateway), now);
    TrailedKept(s, Initiate(Gateway), now);
    if CanAnswer(s) {
      FirstIsLinked(x, Root(k), s.tags, s.drawn, now);
    } else {
      var ack := ControlTag(k, RotationAck(x.gateway.iteration + 1));
      assert ack in s.tags ==> FrameTrail(ack, x);
    }
  }

  /** The new rotation is one that the device cannot have had. */
  lemma BegunIs(s: System, now: int)
    requires Base(s) && SeedsOk(s) && s.gateway.Some? && !s.gateway.value.pendingActive
    ensures var t := Apply(s, Initiate(Gateway), now);
            var g := s.gateway.value;
            && Base(t) && SeedsOk(t) && t.current == s.current && t.archive == s.archive
            && s.tags <= t.tags && t.installed == s.installed
            && t.gateway.Some? && t.gateway.value.key == g.key && t.gateway.value.iteration == g.iteration
            && !t.gateway.value.closed
            && t.gateway.value.pendingActive && t.gateway.value.pendingIteration == g.iteration + 1
            && t.gateway.value.pendingKey == Next(g.key, Shared(s.drawn), g.iteration + 1)
            && t.gateway.value.pendingKey !in s.installed
  {
    BaseKept(s, Initiate(Gateway), now);
    SeedsKept(s, Initiate(Gateway), now);
    assert !KeyDrawn(Next(s.gateway.value.key, Shared(s.drawn), s.gateway.value.iteration + 1), s.drawn);
  }

  lemma RipeBreaks(s: System, now: int)
    requires Base(s) && SeedsOk(s) && Trailed(s) && s.gateway.Some? && !s.gateway.value.pendingActive && Ripe(s)
    ensures NetworkBreaks(Apply(s, Initiate(Gateway), now))
  {
    var x, k := Both(s), s.gateway.value.key;
    var t := Apply(s, Initiate(Gateway), now);
    BegunIs(s, now);
    if Left(x.device, k) {
      LeftWasAcked(x.device.key, k, s.tags);
      BreaksNow(t, now);
    } else {
      var seed: nat :| ControlTag(k, RotationV2(Depth(k) + 1, Encapsulated(Device, seed))) in s.tags;
      assert seed < s.drawn;
      if x.device.key == k {
        StrayRotationBreaks(t, seed, now);
      } else {
        DeviceCommitsThenBreaks(t, seed, now);
      }
    }
  }

  lemma {:induction false} RunKeepsTrail(s: System, run: seq<Event>)
    requires Loose(s) && Trailed(s) && SeedsOk(s) && IsRun(s, run) && forall e | e in run :: e.step != Abort(Device)
    ensures Loose(After(s, run)) && Trailed(After(s, run)) && SeedsOk(After(s, run))
    decreases |run|
  {
    if run != [] {
      TrailedKept(s, run[0].step, run[0].now);
      SeedsKept(s, run[0].step, run[0].now);
      RunKeepsTrail(Apply(s, run[0].step, run[0].now), run[1..]);
    }
  }

  lemma BeginBreaks(s: System, now: int)
    requires Loose(s) && Trailed(s) && SeedsOk(s) && s.gateway.Some? && !s.gateway.value.pendingActive
    ensures CanBreak(Apply(s, Initiate(Gateway), now)) <==> Ripe(s)
    ensures NetworkBreaks(Apply(s, Initiate(Gateway), now)) <==> Ripe(s)
  {
    var t := Apply(s, Initiate(Gateway), now);
    if Ripe(s) {
      RipeBreaks(s, now);
      NetworkCanBreak(t);
    } else {
      UnripeIsSafe(s, now);
      SafeCannotBreak(t);
      if NetworkBreaks(t) {
        NetworkCanBreak(t);
      }
    }
  }

  /** Main result: after any run without a rollback at the device, with rollbacks, retries, cuts and
      handshakes of the gateway at will, a rotation begun now can end in a key that the device never
      had, exactly if the device has gone on from the gateway's key, or can still act at it and an
      earlier rotation from it was given up. The arrival of frames is then enough. */
  lemma BeginBreaksExactly(flavour: Flavour, run: seq<Event>, now: int)
    requires IsRun(Start(flavour), run) && forall e | e in run :: e.step != Abort(Device)
    requires After(Start(flavour), run).gateway.Some? && !After(Start(flavour), run).gateway.value.pendingActive
    ensures var s := After(Start(flavour), run);
            && Base(s)
            && (CanBreak(Apply(s, Initiate(Gateway), now)) <==> Ripe(s))
            && (NetworkBreaks(Apply(s, Initiate(Gateway), now)) <==> Ripe(s))
  {
    StartOk(flavour);
    InvIsLoose(Start(flavour));
    RunKeepsTrail(Start(flavour), run);
    BeginBreaks(After(Start(flavour), run), now);
  }

  lemma {:induction false} DisciplineSparesDevice(s: System, run: seq<Event>, owed: bool)
    requires IsRun(s, run) && Disciplined(s, run, owed)
    ensures forall e | e in run :: e.step != Abort(Device)
    decreases |run|
  {
    if run != [] {
      DisciplineSparesDevice(Apply(s, run[0].step, run[0].now), run[1..], Owes(s, run[0], owed));
      assert forall e | e in run :: e == run[0] || e in run[1..];
    }
  }

  /** Right after the first rollback the condition is that of RetryBreaksExactly. */
  lemma RolledBackIsRipe(flavour: Flavour, run: seq<Event>, now: int)
    requires IsRun(Start(flavour), run)
    requires Disciplined(Start(flavour), run, false) && !OwedAfter(Start(flavour), run, false)
    requires Paired(After(Start(flavour), run)) && After(Start(flavour), run).Session(Gateway).pendingActive
    ensures var s := After(Start(flavour), run);
            && Base(Apply(s, Abort(Gateway), now))
            && (Ripe(Apply(s, Abort(Gateway), now))
                <==> !(InStep(s.Session(Device), s.Session(Gateway)) && s.Session(Device).pendingActive))
  {
    StartOk(flavour);
    InvIsLoose(Start(flavour));
    DisciplineSparesDevice(Start(flavour), run, false);
    RunKeepsTrail(Start(flavour), run);
    var s := After(Start(flavour), run);
    TrailedKept(s, Abort(Gateway), now);
    SeedsKept(s, Abort(Gateway), now);
    BeginBreaks(Apply(s, Abort(Gateway), now), now);
    RetryBreaksExactly(flavour, run, now);
  }
}
