/** What the two ends of one handshake keep true of each other, whatever the network does. */
module Agreement {
  import opened Terms
  import opened Sessions
  import opened Protocol

  /** The two sessions of one handshake. */
  datatype Pair = Pair(device: SessionState, gateway: SessionState) {
    function At(p: Party): SessionState {
      if p == Device then device else gateway
    }

    function Put(p: Party, s: SessionState): Pair {
      if p == Device then this.(device := s) else this.(gateway := s)
    }
  }

  ghost predicate InStep(a: SessionState, b: SessionState) {
    a.key == b.key && a.iteration == b.iteration
  }

  /** The responder is one rotation ahead and the initiator holds just that key as pending. */
  ghost predicate Ahead(responder: SessionState, initiator: SessionState) {
    && initiator.pendingActive
    && initiator.pendingKey == responder.key
    && initiator.pendingIteration == responder.iteration == initiator.iteration + 1
  }

  ghost predicate Agreed(x: Pair) {
    InStep(x.device, x.gateway) || Ahead(x.device, x.gateway) || Ahead(x.gateway, x.device)
  }

  ghost predicate Sound(s: SessionState) {
    && !s.closed
    && s.key != Zero
    && s.iteration == Depth(s.key)
    && (s.pendingActive ==>
          && s.pendingIteration == s.iteration + 1
          && s.pendingKey.Next?
          && s.pendingKey == Next(s.key, s.pendingKey.mi, s.iteration + 1))
  }

  lemma ReceiveKeepsSound(s: SessionState, me: Party, frame: Frame, now: int)
    requires Sound(s)
    ensures var t := Receive(s, me, frame, now).0; Sound(t) && Root(t.key) == Root(s.key)
  {
  }

  /** A rotation frame's sender still waits under the frame's key or has left it. What a gateway
      waits for may have taken the place of the frame's rotation only while the device cannot apply
      that, because it waits for one of its own. An acknowledgement is sent only by a side that has
      left the key it is tagged with. */
  ghost predicate FrameOk(t: Tag, x: Pair)
    requires t.Tag?
  {
    && t.frameType == FrameType(t.body)
    && t.iteration == t.body.iteration == Depth(t.key) + 1
    && match t.body
       case RotationV2(i, ct) =>
         && ct.Encapsulated?
         && var sender := x.At(ct.owner.Peer());
         && Depth(t.key) <= sender.iteration
         && (sender.key == t.key ==>
               && sender.pendingActive
               && (sender.pendingKey == Next(t.key, Shared(ct.seed), i)
                   || (ct.owner == Device && x.device.key == t.key && x.device.pendingActive)))
       case RotationAck(_) =>
         Depth(t.key) < x.device.iteration || Depth(t.key) < x.gateway.iteration
  }

  ghost predicate AckSent(x: Pair, tags: set<Tag>) {
    forall p: Party | Ahead(x.At(p), x.At(p.Peer())) ::
      ControlTag(x.At(p.Peer()).key, RotationAck(x.At(p).iteration)) in tags
  }

  /** The message of a pending rotation is on the wire. */
  ghost predicate RotationSent(x: Pair, tags: set<Tag>) {
    forall p: Party | x.At(p).pendingActive :: PendingSent(x.At(p), p, tags)
  }

  ghost predicate PendingSent(s: SessionState, p: Party, tags: set<Tag>) {
    && s.pendingKey.Next? && s.pendingKey.mi.Shared?
    && ControlTag(s.key, RotationV2(s.pendingIteration, Encapsulated(p.Peer(), s.pendingKey.mi.seed))) in tags
  }

  ghost predicate Linked(x: Pair, root: Key, tags: set<Tag>) {
    && Sound(x.device) && Sound(x.gateway)
    && Root(x.device.key) == Root(x.gateway.key) == root
    && Agreed(x)
    && AckSent(x, tags) && RotationSent(x, tags)
    && forall t | t in tags && t.Tag? && Root(t.key) == root :: FrameOk(t, x)
  }

  /** Nothing but packet counters, clocks and replay windows differ. */
  ghost predicate SameKeys(a: SessionState, b: SessionState) {
    && a.key == b.key && a.iteration == b.iteration && a.closed == b.closed
    && a.pendingActive == b.pendingActive && a.pendingKey == b.pendingKey
    && a.pendingIteration == b.pendingIteration
  }

  lemma SameKeysKeepLink(x: Pair, y: Pair, root: Key, tags: set<Tag>)
    requires Linked(x, root, tags)
    requires SameKeys(x.device, y.device) && SameKeys(x.gateway, y.gateway)
    ensures Linked(y, root, tags)
  {
    forall t | t in tags && t.Tag? && Root(t.key) == root
      ensures FrameOk(t, y)
    {
      assert FrameOk(t, x);
    }
    forall p: Party | Ahead(y.At(p), y.At(p.Peer()))
      ensures ControlTag(y.At(p.Peer()).key, RotationAck(y.At(p).iteration)) in tags
    {
      assert Ahead(x.At(p), x.At(p.Peer()));
    }
    forall p: Party | y.At(p).pendingActive
      ensures PendingSent(y.At(p), p, tags)
    {
      assert PendingSent(x.At(p), p, tags);
    }
  }

  /** Frames of other handshakes change nothing between these two. */
  lemma OtherFramesKeepLink(x: Pair, root: Key, tags: set<Tag>, more: set<Tag>)
    requires Linked(x, root, tags)
    requires forall t | t in more && t.Tag? :: Root(t.key) != root
    ensures Linked(x, root, tags + more)
  {
  }

  lemma FreshLinked(k0: Key, now: int, later: int, tags: set<Tag>)
    requires k0.Initial?
    requires forall t | t in tags && t.Tag? :: Root(t.key) != k0
    ensures Linked(Pair(Fresh(k0, now), Fresh(k0, later)), k0, tags)
  {
  }

  lemma InitiateKeepsFrame(t: Tag, x: Pair, p: Party, seed: nat, now: int)
    requires t.Tag? && FrameOk(t, x) && x.At(p).Initiate(p.Peer(), seed, now).Ok?
    ensures FrameOk(t, x.Put(p, x.At(p).Initiate(p.Peer(), seed, now).value.0))
  {
  }

  lemma InitiateKeepsLink(x: Pair, root: Key, tags: set<Tag>, p: Party, seed: nat, now: int)
    requires Linked(x, root, tags)
    requires x.At(p).Initiate(p.Peer(), seed, now).Ok?
    ensures var (t, msg) := x.At(p).Initiate(p.Peer(), seed, now).value;
            Linked(x.Put(p, t), root, tags + {ControlTag(x.At(p).key, msg)})
  {
    var (s, msg) := x.At(p).Initiate(p.Peer(), seed, now).value;
    var y := x.Put(p, s);
    forall t | t in tags && t.Tag? && Root(t.key) == root
      ensures FrameOk(t, y)
    {
      InitiateKeepsFrame(t, x, p, seed, now);
    }
  }

  /** A gateway that rolls back with nothing pending stays linked. */
  lemma IdleAbortKeepsLink(x: Pair, root: Key, tags: set<Tag>)
    requires Linked(x, root, tags) && !x.gateway.pendingActive
    ensures Linked(Pair(x.device, x.gateway.AbortRotate()), root, tags)
  {
    var y := Pair(x.device, x.gateway.AbortRotate());
    forall t | t in tags && t.Tag? && Root(t.key) == root
      ensures FrameOk(t, y)
    {
      assert FrameOk(t, x);
    }
    assert x.device.pendingActive ==> PendingSent(x.At(Device), Device, tags);
    assert Ahead(y.At(Gateway), y.At(Device)) ==> Ahead(x.At(Gateway), x.At(Device));
  }

  /** Nor does it matter if the gateway gives up one rotation for another while the device waits for
      one of its own. */
  lemma CrossedRetryKeepsLink(x: Pair, root: Key, tags: set<Tag>, seed: nat, now: int)
    requires Linked(x, root, tags) && InStep(x.device, x.gateway)
    requires x.device.pendingActive && x.gateway.pendingActive
    ensures x.gateway.AbortRotate().Initiate(Device, seed, now).Ok?
    ensures var (g, msg) := x.gateway.AbortRotate().Initiate(Device, seed, now).value;
            Linked(Pair(x.device, g), root, tags + {ControlTag(x.gateway.key, msg)})
  {
    var (g, msg) := x.gateway.AbortRotate().Initiate(Device, seed, now).value;
    var y := Pair(x.device, g);
    forall t | t in tags && t.Tag? && Root(t.key) == root
      ensures FrameOk(t, y)
    {
      assert FrameOk(t, x);
    }
    assert PendingSent(x.At(Device), Device, tags);
  }

  /** A rotation frame accepted by p came from its peer, under the key both have. */
  lemma RotationComesFromPeer(x: Pair, root: Key, tags: set<Tag>, p: Party, msg: Body, now: int)
    requires Linked(x, root, tags)
    requires msg.RotationV2? && ControlTag(x.At(p).key, msg) in tags
    requires x.At(p).Respond(p, msg, now).Ok?
    ensures InStep(x.device, x.gateway)
    ensures msg.ct.Encapsulated? && msg.ct.owner == p
    ensures x.At(p.Peer()).pendingActive
    ensures x.At(p.Peer()).pendingKey == Next(x.At(p).key, Decapsulate(p, msg.ct), msg.iteration)
  {
    var t := ControlTag(x.At(p).key, msg);
    assert FrameOk(t, x);
    assert !x.At(p).pendingActive;
  }

  lemma RespondKeepsLink(x: Pair, root: Key, tags: set<Tag>, p: Party, msg: Body, now: int)
    requires Linked(x, root, tags)
    requires msg.RotationV2? && ControlTag(x.At(p).key, msg) in tags
    requires x.At(p).Respond(p, msg, now).Ok?
    ensures var (t, ack) := x.At(p).Respond(p, msg, now).value;
            && Ahead(t, x.At(p.Peer()))
            && Linked(x.Put(p, t), root, tags + {ControlTag(x.At(p).key, ack)})
  {
    RotationComesFromPeer(x, root, tags, p, msg, now);
    var (s, ack) := x.At(p).Respond(p, msg, now).value;
    var y := x.Put(p, s);
    forall t | t in tags && t.Tag? && Root(t.key) == root
      ensures FrameOk(t, y)
    {
      assert FrameOk(t, x);
    }
  }

  /** An acknowledgement accepted by p means that its peer already has p's pending key. */
  lemma AckComesFromPeer(x: Pair, root: Key, tags: set<Tag>, p: Party, i: nat, now: int)
    requires Linked(x, root, tags)
    requires ControlTag(x.At(p).key, RotationAck(i)) in tags
    ensures Ahead(x.At(p.Peer()), x.At(p))
    ensures x.At(p).ApplyAck(i, now).Ok?
  {
    assert FrameOk(ControlTag(x.At(p).key, RotationAck(i)), x);
  }

  lemma NoAckWhileInStep(x: Pair, root: Key, tags: set<Tag>, p: Party, i: nat)
    requires Linked(x, root, tags) && InStep(x.device, x.gateway)
    ensures ControlTag(x.At(p).key, RotationAck(i)) !in tags
  {
  }

  lemma AckKeepsLink(x: Pair, root: Key, tags: set<Tag>, p: Party, i: nat, now: int)
    requires Linked(x, root, tags)
    requires ControlTag(x.At(p).key, RotationAck(i)) in tags
    ensures x.At(p).ApplyAck(i, now).Ok?
    ensures var s := x.At(p).ApplyAck(i, now).value;
            && InStep(s, x.At(p.Peer()))
            && Linked(x.Put(p, s), root, tags)
  {
    AckComesFromPeer(x, root, tags, p, i, now);
    var y := x.Put(p, x.At(p).ApplyAck(i, now).value);
    forall t | t in tags && t.Tag? && Root(t.key) == root
      ensures FrameOk(t, y)
    {
      assert FrameOk(t, x);
    }
  }

  lemma ReceiveKeepsLink(x: Pair, root: Key, tags: set<Tag>, p: Party, frame: Frame, now: int)
    requires Linked(x, root, tags)
    requires frame.tag in tags || frame.tag.Forged? || Root(frame.tag.key) != root
    ensures var (t, ack) := Receive(x.At(p), p, frame, now);
            Linked(x.Put(p, t), root, tags + if ack.Some? then {ControlTag(x.At(p).key, ack.value)} else {})
  {
    var s := x.At(p);
    if !s.closed && frame.tag == ControlTag(s.key, frame.body) {
      match frame.body
      case RotationV2(_, _) =>
        if s.Respond(p, frame.body, now).Ok? {
          RespondKeepsLink(x, root, tags, p, frame.body, now);
        } else {
          assert tags + {} == tags;
        }
      case RotationAck(i) =>
        AckKeepsLink(x, root, tags, p, i, now);
        assert tags + {} == tags;
    } else {
      assert tags + {} == tags;
    }
  }
}
