/** Control frames at the grain of the gateway's lock sections. A handler reads the key and checks the
    tag in one call and has the frame applied in the next; the scheduler begins a rotation in one call
    and reads the key for its tag in the next. Each call looks the session up anew, so a handshake
    that finishes in between puts another session under the second. */
module ControlRaces {
  import opened Options
  import opened Terms
  import opened Sessions
  import opened Protocol
  import opened Agreement
  import opened Runs
  import opened Divergence
  import opened Rollback

  /** A frame, or a message of the gateway's own, between its two calls: made in the gateway's session
      of that number, under that key. */
  datatype Held = Held(session: nat, key: Key, body: Body)

  /** The sessions of the gateway are numbered in the order of their installation. Any number of
      handlers may hold a frame that has been checked; only the scheduler holds a message to send.
      The last field records the tags that messages would have had if sent at once. */
  datatype World = World(system: System, sessions: nat, checked: set<Held>, unsent: Option<Held>, begun: set<Tag>)

  datatype Move =
    | Whole(step: Step)
    | Check(frame: Frame)
    | Take(held: Held)
    | Begin
    | Send

  /** There are no rollbacks here. */
  predicate Possible(w: World, m: Move) {
    match m
    case Whole(step) =>
      && Enabled(w.system, step)
      && !step.Abort? && step != Initiate(Gateway) && !(step.Deliver? && step.to == Gateway)
    case Check(frame) => Enabled(w.system, Deliver(Gateway, frame))
    case Take(h) => h in w.checked
    case Begin => w.system.Online(Gateway) && w.unsent.None?
    case Send => w.unsent.Some?
  }

  /** What the second call makes of a frame: the tag is not looked at again. */
  function Answer(s: SessionState, body: Body, now: int): (SessionState, Option<Body>) {
    match body
    case RotationV2(_, _) =>
      (match s.Respond(Gateway, body, now)
       case Ok((t, ack)) => (t, Some(ack))
       case Err(_) => (s, None))
    case RotationAck(i) =>
      (match s.ApplyAck(i, now)
       case Ok(t) => (t, None)
       case Err(_) => (s, None))
  }

  function Installs(s: System, step: Step, now: int): bool
    requires Enabled(s, step)
  {
    step.FinalizeHandshake? && Apply(s, step, now).gateway != s.gateway
  }

  function Moved(w: World, m: Move, now: int): World
    requires Possible(w, m)
  {
    var s := w.system;
    match m
    case Whole(step) =>
      w.(system := Apply(s, step, now), sessions := if Installs(s, step, now) then w.sessions + 1 else w.sessions)
    case Check(frame) =>
      var g := s.gateway.value;
      if g.closed || frame.tag != ControlTag(g.key, frame.body) then w
      else w.(checked := w.checked + {Held(w.sessions, g.key, frame.body)})
    case Take(h) =>
      if s.gateway.None? then w
      else
        var (t, ack) := Answer(s.gateway.value, h.body, now);
        w.(system := s.(gateway := Some(t),
                        tags := s.tags + if ack.Some? then {ControlTag(h.key, ack.value)} else {}))
    case Begin =>
      var g := s.gateway.value;
      (match g.Initiate(Device, s.drawn, now)
       case Ok((t, msg)) =>
         w.(system := s.(gateway := Some(t), drawn := s.drawn + 1), unsent := Some(Held(w.sessions, g.key, msg)),
            begun := w.begun + {ControlTag(g.key, msg)})
       case Err(_) => w)
    case Send =>
      if s.gateway.None? || s.gateway.value.closed then w.(unsent := None)
      else
        w.(system := s.(tags := s.tags + {ControlTag(s.gateway.value.key, w.unsent.value.body)}), unsent := None)
  }

  /** With nothing in between, the two calls for a frame are its arrival. */
  lemma UndisturbedFrame(w: World, frame: Frame, now: int)
    requires Possible(w, Check(frame)) && !w.system.gateway.value.closed
    requires frame.tag == ControlTag(w.system.gateway.value.key, frame.body)
    ensures var held := Held(w.sessions, w.system.gateway.value.key, frame.body);
            && Possible(Moved(w, Check(frame), now), Take(held))
            && Moved(Moved(w, Check(frame), now), Take(held), now).system
               == Apply(w.system, Deliver(Gateway, frame), now)
  {
  }

  /** And those for a message are its beginning. */
  lemma UndisturbedMessage(w: World, now: int)
    requires Possible(w, Begin) && w.system.gateway.value.Initiate(Device, w.system.drawn, now).Ok?
    ensures Possible(Moved(w, Begin, now), Send)
    ensures Moved(Moved(w, Begin, now), Send, now).system == Apply(w.system, Initiate(Gateway), now)
  {
  }

  /** The second call finds the session of the first, or none. */
  predicate Clean(w: World, m: Move)
    requires Possible(w, m)
  {
    w.system.gateway.Some? ==>
      && (m.Take? ==> m.held.session == w.sessions)
      && (m.Send? ==> w.unsent.value.session == w.sessions)
  }

  /** The protocol's state if every message had been sent when it was begun. */
  function AtOnce(w: World): System {
    w.system.(tags := w.system.tags + w.begun)
  }

  /** The gateway has been at the key of a frame checked in its present session. */
  ghost predicate CheckedOk(w: World, h: Held) {
    && h.session <= w.sessions
    && h.body.iteration == Depth(h.key) + 1 && ControlTag(h.key, h.body) in w.system.tags
    && (h.session == w.sessions && w.system.gateway.Some? ==> Extends(w.system.gateway.value.key, h.key))
  }

  /** Nobody has seen a message that is not sent, so its session waits for it at the same key. */
  ghost predicate UnsentOk(w: World, h: Held) {
    && h.session <= w.sessions
    && h.body.RotationV2? && h.body.ct.Encapsulated? && h.body.ct.owner == Device
    && ControlTag(h.key, h.body) in w.begun
    && (h.session == w.sessions && w.system.gateway.Some? ==>
          var g := w.system.gateway.value;
          && g.key == h.key && g.pendingActive
          && g.pendingKey.Next? && g.pendingKey.mi == Shared(h.body.ct.seed) && g.pendingIteration == h.body.iteration
          && g.pendingKey !in w.system.installed && ControlTag(h.key, h.body) !in w.system.tags)
  }

  ghost predicate Good(w: World) {
    && Inv(AtOnce(w)) && SeedsOk(AtOnce(w))
    && (forall h | h in w.checked :: CheckedOk(w, h))
    && (w.unsent.Some? ==> UnsentOk(w, w.unsent.value))
  }

  lemma SameDepth(k: Key, base: Key)
    requires Extends(k, base) && Depth(k) == Depth(base)
    ensures k == base
  {
    if k != base {
      ExtensionIsDeeper(k.prev, base);
    }
  }

  lemma Gates(w: World)
    requires Good(w) && w.system.gateway.Some?
    ensures var g := w.system.gateway.value;
            && Sound(g) && !Compromised(g.key) && Root(g.key) in w.system.archive
            && LinkedEnd(AtOnce(w), Root(g.key), g)
  {
  }

  lemma TagsCommute(tags: set<Tag>, begun: set<Tag>, more: set<Tag>)
    ensures tags + more + begun == tags + begun + more
  {
  }

  lemma WholeIsStep(w: World, step: Step, now: int)
    requires Possible(w, Whole(step))
    ensures Enabled(AtOnce(w), step) && AtOnce(Moved(w, Whole(step), now)) == Apply(AtOnce(w), step, now)
  {
    var s := w.system;
    match step
    case Initiate(_) =>
      match s.Session(Device).Initiate(Gateway, s.drawn, now) {
        case Ok((_, msg)) => TagsCommute(s.tags, w.begun, {ControlTag(s.Session(Device).key, msg)});
        case Err(_) =>
      }
    case Deliver(_, frame) =>
      var ack := Receive(s.Session(Device), Device, frame, now).1;
      TagsCommute(s.tags, w.begun, if ack.Some? then {ControlTag(s.Session(Device).key, ack.value)} else {});
    case _ =>
  }

  /** The device cannot come to have the key of a message that it cannot have seen. */
  lemma UnseenKeyStaysForeign(w: World, frame: Frame, now: int)
    requires Good(w) && Possible(w, Whole(Deliver(Device, frame)))
    requires w.unsent.Some? && w.unsent.value.session == w.sessions && w.system.gateway.Some?
    ensures Receive(w.system.Session(Device), Device, frame, now).0.key != w.system.gateway.value.pendingKey
  {
    var d, g := w.system.Session(Device), w.system.gateway.value;
    var root := Root(g.key);
    Gates(w);
    var x := Pair(w.system.archive[root].session, g);
    assert EntryOk(AtOnce(w), w.system.current.value, d);
    assert d.key in w.system.installed;
    assert x.device.pendingActive ==> PendingSent(x.At(Device), Device, AtOnce(w).tags);
  }

  /** What the device begins itself has a new secret, and a key it is at it has had. */
  lemma InitiateKeepsUnsent(w: World, now: int)
    requires Good(w) && Possible(w, Whole(Initiate(Device))) && w.unsent.Some?
    ensures UnsentOk(Moved(w, Whole(Initiate(Device)), now), w.unsent.value)
  {
    var d := w.system.Session(Device);
    assert EntryOk(AtOnce(w), w.system.current.value, d);
    assert d.key in w.system.installed;
  }

  lemma DeliverKeepsUnsent(w: World, frame: Frame, now: int)
    requires Good(w) && Possible(w, Whole(Deliver(Device, frame))) && w.unsent.Some?
    ensures UnsentOk(Moved(w, Whole(Deliver(Device, frame)), now), w.unsent.value)
  {
    if w.unsent.value.session == w.sessions && w.system.gateway.Some? {
      UnseenKeyStaysForeign(w, frame, now);
    }
  }

  lemma WholeKeepsUnsent(w: World, step: Step, now: int)
    requires Good(w) && Possible(w, Whole(step)) && w.unsent.Some?
    ensures UnsentOk(Moved(w, Whole(step), now), w.unsent.value)
  {
    match step
    case Initiate(_) => InitiateKeepsUnsent(w, now);
    case Deliver(_, frame) => DeliverKeepsUnsent(w, frame, now);
    case _ =>
  }

  lemma WholeKeepsChecked(w: World, step: Step, now: int, h: Held)
    requires Good(w) && Possible(w, Whole(step)) && CheckedOk(w, h)
    ensures CheckedOk(Moved(w, Whole(step), now), h)
  {
  }

  lemma WholeKeepsGood(w: World, step: Step, now: int)
    requires Good(w) && Possible(w, Whole(step))
    ensures Good(Moved(w, Whole(step), now))
  {
    WholeIsStep(w, step, now);
    StepKeepsInv(AtOnce(w), step, now);
    SeedsKept(AtOnce(w), step, now);
    if w.unsent.Some? {
      WholeKeepsUnsent(w, step, now);
    }
    forall h | h in w.checked
      ensures CheckedOk(Moved(w, Whole(step), now), h)
    {
      WholeKeepsChecked(w, step, now, h);
    }
  }

  lemma CheckKeepsGood(w: World, frame: Frame, now: int)
    requires Good(w) && Possible(w, Check(frame))
    ensures Good(Moved(w, Check(frame), now))
  {
    Gates(w);
    var g := w.system.gateway.value;
    if frame.tag == ControlTag(g.key, frame.body) {
      var x := Pair(w.system.archive[Root(g.key)].session, g);
      assert FrameOk(frame.tag, x);
      assert CheckedOk(Moved(w, Check(frame), now), Held(w.sessions, g.key, frame.body));
    }
    assert AtOnce(Moved(w, Check(frame), now)) == AtOnce(w);
  }

  /** In the session of its check, a frame no longer applies once the key has moved on. */
  lemma OtherKeyRefuses(w: World, h: Held, now: int)
    requires Good(w) && h in w.checked && w.system.gateway.Some? && h.session == w.sessions
    requires w.system.gateway.value.key != h.key
    ensures Answer(w.system.gateway.value, h.body, now) == (w.system.gateway.value, None)
    ensures AtOnce(Moved(w, Take(h), now)) == AtOnce(w)
  {
    Gates(w);
    var g := w.system.gateway.value;
    if g.iteration == Depth(h.key) {
      SameDepth(g.key, h.key);
      assert false;
    }
    assert Moved(w, Take(h), now).system.tags == w.system.tags;
  }

  lemma HeldCanArrive(w: World, h: Held)
    requires Good(w) && h in w.checked && w.system.gateway.Some?
    ensures !w.system.gateway.value.closed
    ensures Enabled(AtOnce(w), Deliver(Gateway, Frame(h.body, ControlTag(h.key, h.body))))
  {
    assert CheckedOk(w, h);
  }

  lemma AnswerIsReceive(g: SessionState, body: Body, now: int)
    requires !g.closed
    ensures Receive(g, Gateway, Frame(body, ControlTag(g.key, body)), now) == Answer(g, body, now)
  {
  }

  /** At the key of its check it applies as if it had arrived just now. */
  lemma TakeIsDeliver(w: World, h: Held, now: int)
    requires h in w.checked && w.system.gateway.Some? && !w.system.gateway.value.closed
    requires w.system.gateway.value.key == h.key
    requires Enabled(AtOnce(w), Deliver(Gateway, Frame(h.body, ControlTag(h.key, h.body))))
    ensures AtOnce(Moved(w, Take(h), now))
            == Apply(AtOnce(w), Deliver(Gateway, Frame(h.body, ControlTag(h.key, h.body))), now)
  {
    AnswerIsReceive(w.system.gateway.value, h.body, now);
    var ack := Answer(w.system.gateway.value, h.body, now).1;
    TagsCommute(w.system.tags, w.begun, if ack.Some? then {ControlTag(h.key, ack.value)} else {});
  }

  /** While its message is not sent, the gateway stays as it is. */
  lemma UnsentHolds(w: World, h: Held, now: int)
    requires Good(w) && h in w.checked && w.system.gateway.Some? && h.session == w.sessions
    requires w.unsent.Some? && w.unsent.value.session == w.sessions
    ensures Answer(w.system.gateway.value, h.body, now) == (w.system.gateway.value, None)
  {
    Gates(w);
    var g := w.system.gateway.value;
    var root := Root(g.key);
    var x := Pair(w.system.archive[root].session, g);
    if g.key != h.key {
      OtherKeyRefuses(w, h, now);
    }
    assert EntryOk(AtOnce(w), root, x.device);
    if h.body.RotationAck? && g.key == h.key {
      AckComesFromPeer(x, root, AtOnce(w).tags, Gateway, h.body.iteration, now);
    }
  }

  lemma TakeKeepsInv(w: World, h: Held, now: int)
    requires Good(w) && h in w.checked && w.system.gateway.Some? && h.session == w.sessions
    ensures Inv(AtOnce(Moved(w, Take(h), now))) && SeedsOk(AtOnce(Moved(w, Take(h), now)))
  {
    if w.system.gateway.value.key != h.key {
      OtherKeyRefuses(w, h, now);
    } else {
      var step := Deliver(Gateway, Frame(h.body, ControlTag(h.key, h.body)));
      HeldCanArrive(w, h);
      TakeIsDeliver(w, h, now);
      StepKeepsInv(AtOnce(w), step, now);
      SeedsKept(AtOnce(w), step, now);
    }
  }

  lemma AnswerMovesOn(s: SessionState, body: Body, now: int, k: Key)
    requires Sound(s) && Extends(s.key, k)
    ensures Extends(Answer(s, body, now).0.key, k)
  {
  }

  lemma TakeKeepsGood(w: World, h: Held, now: int)
    requires Good(w) && Possible(w, Take(h)) && Clean(w, Take(h))
    ensures Good(Moved(w, Take(h), now))
  {
    if w.system.gateway.Some? {
      Gates(w);
      TakeKeepsInv(w, h, now);
      if w.unsent.Some? && w.unsent.value.session == w.sessions {
        UnsentHolds(w, h, now);
      }
      forall k | k in w.checked
        ensures CheckedOk(Moved(w, Take(h), now), k)
      {
        assert CheckedOk(w, k);
        if k.session == w.sessions {
          AnswerMovesOn(w.system.gateway.value, h.body, now, k.key);
        }
      }
    }
  }

  lemma BeginKeepsGood(w: World, now: int)
    requires Good(w) && Possible(w, Begin)
    ensures Good(Moved(w, Begin, now))
  {
    var a, t := AtOnce(w), Moved(w, Begin, now);
    var g := w.system.gateway.value;
    Gates(w);
    if g.Initiate(Device, w.system.drawn, now).Ok? {
      StepKeepsInv(a, Initiate(Gateway), now);
      SeedsKept(a, Initiate(Gateway), now);
      assert AtOnce(t) == Apply(a, Initiate(Gateway), now) by {
        assert AtOnce(t).tags == Apply(a, Initiate(Gateway), now).tags;
      }
      assert !KeyDrawn(t.system.gateway.value.pendingKey, w.system.drawn);
      forall h | h in w.checked
        ensures CheckedOk(t, h)
      {
        assert CheckedOk(w, h);
      }
    }
  }

  lemma SendKeepsGood(w: World, now: int)
    requires Good(w) && Possible(w, Send) && Clean(w, Send)
    ensures Good(Moved(w, Send, now))
  {
    var t := Moved(w, Send, now);
    assert AtOnce(t).tags == AtOnce(w).tags;
    assert AtOnce(t) == AtOnce(w);
    forall h | h in w.checked
      ensures CheckedOk(t, h)
    {
      assert CheckedOk(w, h);
    }
  }

  datatype Timed = Timed(move: Move, now: int)

  ghost predicate IsCourse(w: World, course: seq<Timed>)
    decreases |course|
  {
    course == [] || (Possible(w, course[0].move) && IsCourse(Moved(w, course[0].move, course[0].now), course[1..]))
  }

  ghost function Reached(w: World, course: seq<Timed>): World
    requires IsCourse(w, course)
    decreases |course|
  {
    if course == [] then w else Reached(Moved(w, course[0].move, course[0].now), course[1..])
  }

  /** No session is replaced between the two calls for a frame or a message. */
  ghost predicate CleanCourse(w: World, course: seq<Timed>)
    requires IsCourse(w, course)
    decreases |course|
  {
    course != [] ==>
      Clean(w, course[0].move) && CleanCourse(Moved(w, course[0].move, course[0].now), course[1..])
  }

  lemma MoveKeepsGood(w: World, m: Move, now: int)
    requires Good(w) && Possible(w, m) && Clean(w, m)
    ensures Good(Moved(w, m, now))
  {
    match m
    case Whole(step) => WholeKeepsGood(w, step, now);
    case Check(frame) => CheckKeepsGood(w, frame, now);
    case Take(h) => TakeKeepsGood(w, h, now);
    case Begin => BeginKeepsGood(w, now);
    case Send => SendKeepsGood(w, now);
  }

  lemma {:induction false} CourseKeepsGood(w: World, course: seq<Timed>)
    requires Good(w) && IsCourse(w, course) && CleanCourse(w, course)
    ensures Good(Reached(w, course))
    decreases |course|
  {
    if course != [] {
      MoveKeepsGood(w, course[0].move, course[0].now);
      CourseKeepsGood(Moved(w, course[0].move, course[0].now), course[1..]);
    }
  }

  function Opening(flavour: Flavour): World {
    World(Start(flavour), 0, {}, None, {})
  }

  lemma OpeningIsGood(flavour: Flavour)
    ensures Good(Opening(flavour))
  {
    StartOk(flavour);
    assert AtOnce(Opening(flavour)) == Start(flavour);
  }

  /** Main result: split into their two calls, with any number of handlers at work, frames and
      messages of the gateway leave the two ends agreed, as long as no session is replaced between
      the calls for one of them. */
  lemma SplitCallsAgree(flavour: Flavour, course: seq<Timed>)
    requires IsCourse(Opening(flavour), course) && CleanCourse(Opening(flavour), course)
    ensures var s := Reached(Opening(flavour), course).system;
            Paired(s) ==> Agreed(Pair(s.Session(Device), s.Session(Gateway)))
  {
    OpeningIsGood(flavour);
    CourseKeepsGood(Opening(flavour), course);
  }

  /** No two rotation messages carry the same secret. */
  ghost predicate SeedsOnce(tags: set<Tag>) {
    forall t, u | t in tags && u in tags && t.Tag? && u.Tag? && t.body.RotationV2? && u.body.RotationV2? ::
      t.body.ct.Encapsulated? && u.body.ct.Encapsulated? && t.body.ct.seed == u.body.ct.seed ==> t == u
  }

  /** What is held belongs to no handshake that is yet to be installed, and once its session is replaced
      to another than the gateway's. */
  ghost predicate OtherRoot(w: World, h: Held) {
    && Root(h.key) in w.system.archive
    && (w.system.attempt.Some? ==> Root(h.key) != AttemptKey(w.system.attempt.value))
    && (w.system.gateway.Some? && h.session != w.sessions ==> Root(h.key) != Root(w.system.gateway.value.key))
  }

  ghost predicate Sharp(w: World) {
    && Good(w) && SeedsOnce(AtOnce(w).tags)
    && (forall h | h in w.checked :: OtherRoot(w, h))
    && (w.unsent.Some? ==> OtherRoot(w, w.unsent.value))
  }

  lemma SeedsStayOnce(s: System, step: Step, now: int)
    requires Enabled(s, step) && SeedsOnce(s.tags) && TagsDrawn(s.tags, s.drawn)
    ensures SeedsOnce(Apply(s, step, now).tags)
  {
  }

  lemma MoveKeepsSeedsOnce(w: World, m: Move, now: int)
    requires Sharp(w) && Possible(w, m) && Clean(w, m)
    ensures SeedsOnce(AtOnce(Moved(w, m, now)).tags)
  {
    var a, t := AtOnce(w), Moved(w, m, now);
    match m
    case Whole(step) =>
      WholeIsStep(w, step, now);
      SeedsStayOnce(a, step, now);
    case Check(_) =>
    case Take(h) =>
      if w.system.gateway.Some? {
        if w.system.gateway.value.key != h.key {
          OtherKeyRefuses(w, h, now);
        } else {
          HeldCanArrive(w, h);
          TakeIsDeliver(w, h, now);
          SeedsStayOnce(a, Deliver(Gateway, Frame(h.body, ControlTag(h.key, h.body))), now);
        }
      }
    case Begin =>
      SeedsStayOnce(a, Initiate(Gateway), now);
      assert AtOnce(t).tags == Apply(a, Initiate(Gateway), now).tags;
    case Send => assert AtOnce(t).tags == a.tags;
  }

  lemma AnswerKeepsRoots(w: World, hello: Hello, now: int, h: Held)
    requires Good(w) && OtherRoot(w, h)
    ensures OtherRoot(Moved(w, Whole(AnswerHello(hello)), now), h)
  {
    assert EntryOk(AtOnce(w), Root(h.key), w.system.archive[Root(h.key)].session);
  }

  lemma WholeKeepsRoots(w: World, step: Step, now: int, h: Held)
    requires Good(w) && Possible(w, Whole(step)) && OtherRoot(w, h) && h.session <= w.sessions
    requires !step.AnswerHello?
    ensures OtherRoot(Moved(w, Whole(step), now), h)
  {
  }

  lemma SplitKeepsRoots(w: World, m: Move, now: int, h: Held)
    requires Good(w) && Possible(w, m) && !m.Whole? && OtherRoot(w, h)
    ensures OtherRoot(Moved(w, m, now), h)
  {
    if w.system.gateway.Some? {
      Gates(w);
    }
  }

  lemma MoveKeepsRoots(w: World, m: Move, now: int, h: Held)
    requires Good(w) && Possible(w, m) && OtherRoot(w, h) && h.session <= w.sessions
    ensures OtherRoot(Moved(w, m, now), h)
  {
    if !m.Whole? {
      SplitKeepsRoots(w, m, now, h);
    } else if m.step.AnswerHello? {
      AnswerKeepsRoots(w, m.step.hello, now, h);
    } else {
      WholeKeepsRoots(w, m.step, now, h);
    }
  }

  lemma MoveKeepsHeldRoots(w: World, m: Move, now: int)
    requires Sharp(w) && Possible(w, m)
    ensures forall h | h in Moved(w, m, now).checked :: OtherRoot(Moved(w, m, now), h)
    ensures Moved(w, m, now).unsent.Some? ==> OtherRoot(Moved(w, m, now), Moved(w, m, now).unsent.value)
  {
    var t := Moved(w, m, now);
    forall h | h in t.checked
      ensures OtherRoot(t, h)
    {
      if h in w.checked {
        MoveKeepsRoots(w, m, now, h);
      }
    }
    if w.unsent.Some? && t.unsent.Some? {
      MoveKeepsRoots(w, m, now, w.unsent.value);
    }
  }

  lemma MoveKeepsSharp(w: World, m: Move, now: int)
    requires Sharp(w) && Possible(w, m) && Clean(w, m)
    ensures Sharp(Moved(w, m, now))
  {
    MoveKeepsGood(w, m, now);
    MoveKeepsSeedsOnce(w, m, now);
    MoveKeepsHeldRoots(w, m, now);
  }

  lemma {:induction false} CourseKeepsSharp(w: World, course: seq<Timed>)
    requires Sharp(w) && IsCourse(w, course) && CleanCourse(w, course)
    ensures Sharp(Reached(w, course))
    decreases |course|
  {
    if course != [] {
      MoveKeepsSharp(w, course[0].move, course[0].now);
      CourseKeepsSharp(Moved(w, course[0].move, course[0].now), course[1..]);
    }
  }

  lemma StrayRotationSplits(w: World, h: Held, now: int)
    requires Sharp(w) && Paired(w.system) && h in w.checked && h.session != w.sessions && h.body.RotationV2?
    requires w.system.gateway.value.Respond(Gateway, h.body, now).Ok?
    ensures !Agreed(Ends(Moved(w, Take(h), now).system))
  {
    Gates(w);
    var x := Ends(w.system);
    assert x.device.pendingActive ==> PendingSent(x.At(Device), Device, AtOnce(w).tags);
    assert ControlTag(h.key, h.body) in AtOnce(w).tags;
  }

  lemma StrayAckSplits(w: World, h: Held, now: int)
    requires Sharp(w) && Paired(w.system) && h.body.RotationAck?
    requires w.system.gateway.value.ApplyAck(h.body.iteration, now).Ok?
    ensures var x := Ends(w.system);
            Agreed(Pair(x.device, x.gateway.ApplyAck(h.body.iteration, now).value)) <==> Ahead(x.device, x.gateway)
  {
    Gates(w);
    var x := Ends(w.system);
    assert x.device.pendingActive ==> PendingSent(x.At(Device), Device, AtOnce(w).tags);
    assert PendingSent(x.At(Gateway), Gateway, AtOnce(w).tags);
  }

  /** Main result: a frame checked in a session that has been replaced, and applied to the new one,
      leaves the two ends agreed exactly if it is refused, or is an acknowledgement and the device has
      just then applied the new session's own rotation. */
  lemma StrayTakeExactly(flavour: Flavour, course: seq<Timed>, h: Held, now: int)
    requires IsCourse(Opening(flavour), course) && CleanCourse(Opening(flavour), course)
    requires var w := Reached(Opening(flavour), course);
             Paired(w.system) && h in w.checked && h.session != w.sessions
    ensures var w := Reached(Opening(flavour), course);
            var g := w.system.gateway.value;
            && Paired(Moved(w, Take(h), now).system)
            && (Agreed(Ends(Moved(w, Take(h), now).system))
                <==> Answer(g, h.body, now) == (g, None)
                     || (h.body.RotationAck? && Ahead(w.system.Session(Device), g)))
  {
    OpeningIsGood(flavour);
    CourseKeepsSharp(Opening(flavour), course);
    var w := Reached(Opening(flavour), course);
    var g := w.system.gateway.value;
    Gates(w);
    if h.body.RotationAck? && g.ApplyAck(h.body.iteration, now).Ok? {
      StrayAckSplits(w, h, now);
    } else if h.body.RotationV2? && g.Respond(Gateway, h.body, now).Ok? {
      StrayRotationSplits(w, h, now);
    }
  }

  /** And a message begun in a session that has been replaced, sent under the new one's key, splits the
      two on its arrival exactly if they are in step, the device waits for nothing, and the message
      carries the next iteration. */
  lemma StraySendExactly(flavour: Flavour, course: seq<Timed>, now: int)
    requires IsCourse(Opening(flavour), course) && CleanCourse(Opening(flavour), course)
    requires var w := Reached(Opening(flavour), course);
             Paired(w.system) && w.unsent.Some? && w.unsent.value.session != w.sessions
    ensures var w := Reached(Opening(flavour), course);
            var body := w.unsent.value.body;
            var d, g := w.system.Session(Device), w.system.gateway.value;
            var t := Moved(w, Send, now).system;
            var step := Deliver(Device, Frame(body, ControlTag(g.key, body)));
            && Enabled(t, step) && Paired(Apply(t, step, now))
            && (Agreed(Ends(Apply(t, step, now)))
                <==> !(InStep(d, g) && !d.pendingActive && body.iteration == d.iteration + 1))
  {
    OpeningIsGood(flavour);
    CourseKeepsSharp(Opening(flavour), course);
    SentAstray(Reached(Opening(flavour), course), now);
  }

  lemma SentAstray(w: World, now: int)
    requires Sharp(w) && Paired(w.system) && w.unsent.Some? && w.unsent.value.session != w.sessions
    ensures var body := w.unsent.value.body;
            var d, g := w.system.Session(Device), w.system.gateway.value;
            var t := Moved(w, Send, now).system;
            var step := Deliver(Device, Frame(body, ControlTag(g.key, body)));
            && Enabled(t, step) && Paired(Apply(t, step, now))
            && (Agreed(Ends(Apply(t, step, now)))
                <==> !(InStep(d, g) && !d.pendingActive && body.iteration == d.iteration + 1))
  {
    Gates(w);
    var x := Ends(w.system);
    assert x.gateway.pendingActive ==> PendingSent(x.At(Gateway), Gateway, AtOnce(w).tags);
    assert ControlTag(w.unsent.value.key, w.unsent.value.body) in AtOnce(w).tags;
  }

  lemma {:induction false} Then(w: World, course: seq<Timed>, more: seq<Timed>)
    requires IsCourse(w, course) && IsCourse(Reached(w, course), more)
    ensures IsCourse(w, course + more) && Reached(w, course + more) == Reached(Reached(w, course), more)
    ensures CleanCourse(w, course) && CleanCourse(Reached(w, course), more) ==> CleanCourse(w, course + more)
    decreases |course|
  {
    if course == [] {
      assert course + more == more;
    } else {
      assert (course + more)[1..] == course[1..] + more;
      Then(Moved(w, course[0].move, course[0].now), course[1..], more);
    }
  }

  lemma ThenOne(w: World, course: seq<Timed>, e: Timed)
    requires IsCourse(w, course) && CleanCourse(w, course)
    requires Possible(Reached(w, course), e.move) && Clean(Reached(w, course), e.move)
    ensures IsCourse(w, course + [e]) && CleanCourse(w, course + [e])
    ensures Reached(w, course + [e]) == Moved(Reached(w, course), e.move, e.now)
  {
    var v := Moved(Reached(w, course), e.move, e.now);
    assert IsCourse(v, []) && CleanCourse(v, []) && Reached(v, []) == v;
    assert [e][1..] == [];
    Then(w, course, [e]);
  }

  function Wholes(run: seq<Event>): seq<Timed> {
    if run == [] then [] else [Timed(Whole(run[0].step), run[0].now)] + Wholes(run[1..])
  }

  predicate OfHandshake(step: Step) {
    step.StartHandshake? || step.AnswerHello? || step.CompleteHandshake? || step.FinalizeHandshake?
  }

  /** Whatever is held stays so over a handshake, and as long as the count of sessions stays, so does
      the gateway's handshake. */
  lemma {:induction false} HandshakeIsCourse(w: World, run: seq<Event>)
    requires IsRun(w.system, run) && forall e | e in run :: OfHandshake(e.step)
    ensures IsCourse(w, Wholes(run)) && CleanCourse(w, Wholes(run))
    ensures var v := Reached(w, Wholes(run));
            && v == w.(system := After(w.system, run), sessions := v.sessions)
            && (v.sessions == w.sessions ==> v.system.gateway == w.system.gateway) && v.sessions >= w.sessions
    decreases |run|
  {
    if run != [] {
      var e := Timed(Whole(run[0].step), run[0].now);
      var u := Moved(w, e.move, e.now);
      HandshakeIsCourse(u, run[1..]);
      assert Wholes(run)[1..] == Wholes(run[1..]);
    }
  }

  lemma HandshakeIsHandshake(s: System)
    ensures forall e | e in Handshake(s, 0, 0) :: OfHandshake(e.step)
  {
  }

  /** A new handshake at any moment puts a new session into place and keeps what is held. */
  lemma Reconnected(w: World, course: seq<Timed>)
    requires IsCourse(w, course) && CleanCourse(w, course) && Base(Reached(w, course).system)
    ensures var v := Reached(w, course);
            var longer := course + Wholes(Handshake(v.system, 0, 0));
            && IsCourse(w, longer) && CleanCourse(w, longer)
            && var u := Reached(w, longer);
               && u.checked == v.checked && u.unsent == v.unsent && u.sessions > v.sessions
               && Base(u.system) && Paired(u.system)
               && u.system.Session(Device) == u.system.gateway.value == Fresh(NextKey(v.system), 0)
  {
    var v := Reached(w, course);
    var run := Handshake(v.system, 0, 0);
    HandshakeRuns(v.system, 0, 0);
    HandshakeIsHandshake(v.system);
    HandshakeIsCourse(v, run);
    Then(w, course, Wholes(run));
  }

  ghost predicate TakeSplits(w: World, course: seq<Timed>, h: Held, now: int) {
    && IsCourse(w, course) && CleanCourse(w, course) && h in Reached(w, course).checked
    && var s := Moved(Reached(w, course), Take(h), now).system; Paired(s) && !Agreed(Ends(s))
  }

  function DeviceRotation(s: System): Body {
    RotationV2(1, Encapsulated(Gateway, s.drawn))
  }

  /** The device begins a rotation and a handler of the gateway checks it. */
  function RotationChecked(s: System): seq<Timed>
    requires s.gateway.Some?
  {
    var frame := Frame(DeviceRotation(s), ControlTag(s.gateway.value.key, DeviceRotation(s)));
    [Timed(Whole(Initiate(Device)), 0)] + [Timed(Check(frame), 0)]
  }

  lemma RotationIsChecked(w: World)
    requires Base(w.system) && Paired(w.system)
    requires w.system.Session(Device) == w.system.gateway.value == Fresh(Root(w.system.gateway.value.key), 0)
    ensures var course := RotationChecked(w.system);
            && IsCourse(w, course) && CleanCourse(w, course)
            && var v := Reached(w, course);
               && Base(v.system) && v.sessions == w.sessions
               && Held(w.sessions, w.system.gateway.value.key, DeviceRotation(w.system)) in v.checked
  {
    var e := Timed(Whole(Initiate(Device)), 0);
    var k := w.system.gateway.value.key;
    BaseKept(w.system, Initiate(Device), 0);
    assert [] + [e] == [e] && IsCourse(w, []) && CleanCourse(w, []) && Reached(w, []) == w;
    ThenOne(w, [], e);
    ThenOne(w, [e], Timed(Check(Frame(DeviceRotation(w.system), ControlTag(k, DeviceRotation(w.system)))), 0));
  }

  lemma OldRotationSplits(flavour: Flavour, course: seq<Timed>, h: Held)
    requires IsCourse(Opening(flavour), course) && CleanCourse(Opening(flavour), course)
    requires var w := Reached(Opening(flavour), course);
             && Paired(w.system) && h in w.checked && h.session != w.sessions
             && w.system.gateway == Some(Fresh(w.system.gateway.value.key, 0))
             && h.body.RotationV2? && h.body.iteration == 1
    ensures TakeSplits(Opening(flavour), course, h, 0)
  {
    StrayTakeExactly(flavour, course, h, 0);
  }

  ghost predicate HoldsFirst(w: World, course: seq<Timed>, h: Held) {
    && IsCourse(w, course) && CleanCourse(w, course) && Base(Reached(w, course).system)
    && h in Reached(w, course).checked && h.session <= Reached(w, course).sessions
    && h.body.RotationV2? && h.body.iteration == 1
  }

  lemma FirstIsHeld(flavour: Flavour)
    ensures exists course, h :: HoldsFirst(Opening(flavour), course, h)
  {
    var w := Opening(flavour);
    OpeningIsGood(flavour);
    assert IsCourse(w, []) && CleanCourse(w, []) && Reached(w, []) == w;
    Reconnected(w, []);
    var first := [] + Wholes(Handshake(w.system, 0, 0));
    var v := Reached(w, first);
    RotationIsChecked(v);
    Then(w, first, RotationChecked(v.system));
    assert HoldsFirst(w, first + RotationChecked(v.system),
                      Held(v.sessions, v.system.gateway.value.key, DeviceRotation(v.system)));
  }

  /** It happens: from the start, a rotation of the device is checked, the device connects anew, and the
      rotation is applied to the new session. */
  lemma StrayTakeCanSplit(flavour: Flavour)
    ensures exists course, h, now :: TakeSplits(Opening(flavour), course, h, now)
  {
    FirstIsHeld(flavour);
    var course, h :| HoldsFirst(Opening(flavour), course, h);
    Reconnected(Opening(flavour), course);
    var longer := course + Wholes(Handshake(Reached(Opening(flavour), course).system, 0, 0));
    OldRotationSplits(flavour, longer, h);
  }
}
