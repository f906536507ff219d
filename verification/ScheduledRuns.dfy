/** The scheduler at work on one device, its calls interleaved with everything else that happens to
    the session: frames, packets, handshakes, lost connections. Every run of the two together is a
    run of the protocol; when it keeps the discipline, and when it goes wrong, is said exactly. */
module ScheduledRuns {
  import opened Options
  import opened Terms
  import opened Sessions
  import opened Protocol
  import opened Agreement
  import opened Runs
  import opened Divergence
  import opened Rollback
  import opened Retries
  import Schedulers

  /** Where the scheduler stands in the turn of the device. */
  datatype Point = Idle | Cutting | Looking | Deciding | Beginning

  datatype World = World(system: System, point: Point)

  datatype Act =
    | Happens(step: Step, now: int)
    | Begins(now: int)
    | Cut(revoke: bool, now: int)
    | Look
    | Decide(now: int)
    | Begin(connected: bool, now: int)

  predicate StaleIn(s: System, limits: Limits, now: int) {
    s.gateway.Some? && s.gateway.value.Stale(limits.ackTimeout, limits, now)
  }

  predicate DueIn(s: System, limits: Limits, now: int) {
    s.gateway.Some? && s.gateway.value.NeedsRotation(limits, now)
  }

  predicate PendingIn(s: System) {
    s.gateway.Some? && s.gateway.value.pendingActive
  }

  /** Only the scheduler makes the gateway begin a rotation, and nobody else rolls one back. */
  predicate Mild(step: Step) {
    !step.Abort? && step != Initiate(Gateway)
  }

  predicate Possible(w: World, a: Act) {
    match a
    case Happens(step, _) => Enabled(w.system, step) && Mild(step)
    case Begins(_) => w.point.Idle?
    case Cut(_, _) => w.point.Cutting?
    case Look => w.point.Looking?
    case Decide(_) => w.point.Deciding?
    case Begin(_, _) => w.point.Beginning?
  }

  /** The steps of the protocol that an act takes, at most one. A cut without a revocation only closes
      the connection: the session goes when a handler closes it, which is a step of its own. */
  function Events(w: World, limits: Limits, a: Act): seq<Event>
    requires Possible(w, a)
  {
    match a
    case Happens(step, now) => [Event(step, now)]
    case Begins(now) => if StaleIn(w.system, limits, now) then [Event(Abort(Gateway), now)] else []
    case Cut(revoke, now) => if revoke then [Event(Drop(Gateway), now)] else []
    case Look => []
    case Decide(_) => []
    case Begin(connected, now) =>
      if connected && w.system.gateway.Some? then [Event(Initiate(Gateway), now)] else []
  }

  function PointAfter(w: World, limits: Limits, a: Act): Point
    requires Possible(w, a)
  {
    match a
    case Happens(_, _) => w.point
    case Begins(now) => if StaleIn(w.system, limits, now) then Cutting else Looking
    case Cut(_, _) => Idle
    case Look => if PendingIn(w.system) then Idle else Deciding
    case Decide(now) => if DueIn(w.system, limits, now) then Beginning else Idle
    case Begin(_, _) => Idle
  }

  function Next(w: World, limits: Limits, a: Act): World
    requires Possible(w, a)
  {
    var events := Events(w, limits, a);
    World(if events == [] then w.system else Apply(w.system, events[0].step, events[0].now), PointAfter(w, limits, a))
  }

  ghost predicate IsPlay(w: World, limits: Limits, acts: seq<Act>)
    decreases |acts|
  {
    acts == [] || (Possible(w, acts[0]) && IsPlay(Next(w, limits, acts[0]), limits, acts[1..]))
  }

  ghost function Ending(w: World, limits: Limits, acts: seq<Act>): World
    requires IsPlay(w, limits, acts)
    decreases |acts|
  {
    if acts == [] then w else Ending(Next(w, limits, acts[0]), limits, acts[1..])
  }

  /** The run of the protocol that this comes to. */
  ghost function Run(w: World, limits: Limits, acts: seq<Act>): seq<Event>
    requires IsPlay(w, limits, acts)
    decreases |acts|
  {
    if acts == [] then [] else Events(w, limits, acts[0]) + Run(Next(w, limits, acts[0]), limits, acts[1..])
  }

  lemma {:induction false} PlayIsRun(w: World, limits: Limits, acts: seq<Act>)
    requires IsPlay(w, limits, acts)
    ensures IsRun(w.system, Run(w, limits, acts))
    ensures After(w.system, Run(w, limits, acts)) == Ending(w, limits, acts).system
    decreases |acts|
  {
    if acts != [] {
      var next := Next(w, limits, acts[0]);
      PlayIsRun(next, limits, acts[1..]);
      var events, rest := Events(w, limits, acts[0]), Run(next, limits, acts[1..]);
      if events == [] {
        assert events + rest == rest;
      } else {
        assert events == [events[0]];
        Prepend(w.system, events[0], rest);
      }
    }
  }

  /** Once the scheduler has looked, nothing is pending until it begins a rotation itself. */
  ghost predicate PointOk(w: World) {
    w.point.Deciding? || w.point.Beginning? ==> !PendingIn(w.system)
  }

  lemma PointKept(w: World, limits: Limits, a: Act)
    requires PointOk(w) && Possible(w, a)
    ensures PointOk(Next(w, limits, a))
  {
    if a.Happens? && a.step.Deliver? && a.step.to == Gateway && !PendingIn(w.system) {
      NothingPendingStays(w.system.gateway.value, Gateway, a.step.frame, a.now);
    }
  }

  lemma {:induction false} PointHolds(w: World, limits: Limits, acts: seq<Act>)
    requires PointOk(w) && IsPlay(w, limits, acts)
    ensures PointOk(Ending(w, limits, acts))
    decreases |acts|
  {
    if acts != [] {
      PointKept(w, limits, acts[0]);
      PointHolds(Next(w, limits, acts[0]), limits, acts[1..]);
    }
  }

  function Opening(flavour: Flavour): World {
    World(Start(flavour), Idle)
  }

  /** Main result: over all interleavings, the scheduler never begins a rotation while one is pending,
      although it looks in one step and begins in another. */
  lemma NeverBeginsWhilePending(flavour: Flavour, limits: Limits, acts: seq<Act>, connected: bool, now: int)
    requires IsPlay(Opening(flavour), limits, acts)
    requires Possible(Ending(Opening(flavour), limits, acts), Begin(connected, now))
    ensures !PendingIn(Ending(Opening(flavour), limits, acts).system)
  {
    PointHolds(Opening(flavour), limits, acts);
  }

  predicate RollsBack(w: World, limits: Limits, a: Act) {
    a.Begins? && StaleIn(w.system, limits, a.now)
  }

  /** The scheduler begins a rotation in the session that the gateway has. */
  predicate BeginsRotation(w: World, a: Act) {
    a.Begin? && a.connected && w.system.gateway.Some?
  }

  /** The gateway's session goes, or a handshake puts a new one in its place. */
  predicate Replaces(s: System, e: Event)
    requires Enabled(s, e.step)
  {
    e.step == Drop(Gateway) || (e.step.FinalizeHandshake? && Apply(s, e.step, e.now).gateway != s.gateway)
  }

  predicate ReplacesIn(w: World, limits: Limits, a: Act)
    requires Possible(w, a)
  {
    var events := Events(w, limits, a);
    events != [] && Enabled(w.system, events[0].step) && Replaces(w.system, events[0])
  }

  /** A rotation is begun before anything takes the gateway's present session away. */
  ghost predicate BeginsInPlace(w: World, limits: Limits, acts: seq<Act>)
    requires IsPlay(w, limits, acts)
    decreases |acts|
  {
    acts != []
    && (BeginsRotation(w, acts[0])
        || (!ReplacesIn(w, limits, acts[0]) && BeginsInPlace(Next(w, limits, acts[0]), limits, acts[1..])))
  }

  /** At some turn the scheduler rolls a rotation back, and later it begins another while the session
      is still in place. */
  ghost predicate RetriesInPlace(w: World, limits: Limits, acts: seq<Act>)
    requires IsPlay(w, limits, acts)
    decreases |acts|
  {
    acts != []
    && ((RollsBack(w, limits, acts[0]) && BeginsInPlace(Next(w, limits, acts[0]), limits, acts[1..]))
        || RetriesInPlace(Next(w, limits, acts[0]), limits, acts[1..]))
  }

  lemma ActOwes(w: World, limits: Limits, a: Act, owed: bool)
    requires Possible(w, a)
    ensures var events := Events(w, limits, a);
            if events == [] then
              !BeginsRotation(w, a) && !RollsBack(w, limits, a) && !ReplacesIn(w, limits, a)
            else
              && Enabled(w.system, events[0].step)
              && (Obeys(events[0], owed) <==> !(owed && BeginsRotation(w, a)))
              && (Owes(w.system, events[0], owed)
                  <==> RollsBack(w, limits, a) || (owed && !ReplacesIn(w, limits, a)))
  {
  }

  lemma {:induction false} DisciplinedPlays(w: World, limits: Limits, acts: seq<Act>, owed: bool)
    requires IsPlay(w, limits, acts)
    ensures IsRun(w.system, Run(w, limits, acts))
    ensures Disciplined(w.system, Run(w, limits, acts), owed)
            <==> !RetriesInPlace(w, limits, acts) && !(owed && BeginsInPlace(w, limits, acts))
    decreases |acts|
  {
    PlayIsRun(w, limits, acts);
    if acts != [] {
      ActOwes(w, limits, acts[0], owed);
      var next := Next(w, limits, acts[0]);
      var events, rest := Events(w, limits, acts[0]), Run(next, limits, acts[1..]);
      PlayIsRun(next, limits, acts[1..]);
      if events == [] {
        assert events + rest == rest;
        DisciplinedPlays(next, limits, acts[1..], owed);
      } else {
        assert (events + rest)[0] == events[0] && (events + rest)[1..] == rest;
        DisciplinedPlays(next, limits, acts[1..], Owes(w.system, events[0], owed));
      }
    }
  }

  /** Main result: the scheduler keeps the rule of rolling back, cutting and starting afresh, exactly if
      it never begins a rotation in a session that it has rolled back and that is still in place. */
  lemma PlayIsDisciplined(flavour: Flavour, limits: Limits, acts: seq<Act>)
    requires IsPlay(Opening(flavour), limits, acts)
    ensures IsRun(Start(flavour), Run(Opening(flavour), limits, acts))
    ensures Disciplined(Start(flavour), Run(Opening(flavour), limits, acts), false)
            <==> !RetriesInPlace(Opening(flavour), limits, acts)
  {
    DisciplinedPlays(Opening(flavour), limits, acts, false);
  }

  /** Where the gateway waits for nothing, no frames make it commit anything. */
  lemma {:induction false} IdleDoesNotCommit(s: System, later: seq<Event>, frame: Frame, now: int)
    requires !PendingIn(s)
    ensures !NetworkBreaksBy(s, later, frame, now)
    decreases |later|
  {
    if NetworkBreaksBy(s, later, frame, now) {
      if later == [] {
        NothingPendingStays(s.gateway.value, Gateway, frame, now);
      } else {
        assert later[0] in later;
        if later[0].step.to == Gateway {
          NothingPendingStays(s.gateway.value, Gateway, later[0].step.frame, later[0].now);
        }
        IdleDoesNotCommit(Apply(s, later[0].step, later[0].now), later[1..], frame, now);
      }
    }
  }

  /** What a play keeps until a rotation is begun that can go wrong. */
  ghost predicate Sheltered(w: World) {
    && Loose(w.system) && Trailed(w.system) && SeedsOk(w.system) && PointOk(w)
    && (PendingIn(w.system) ==> Safe(w.system))
  }

  lemma ShelteredDoesNotBreak(w: World)
    requires Sheltered(w)
    ensures !NetworkBreaks(w.system)
  {
    if NetworkBreaks(w.system) {
      var later, frame, now :| NetworkBreaksBy(w.system, later, frame, now);
      if PendingIn(w.system) {
        SafeNeverBreaks(w.system, later, frame, now);
      } else {
        IdleDoesNotCommit(w.system, later, frame, now);
      }
    }
  }

  /** A rotation is begun that can end in a key the device never had. */
  ghost predicate BeginsRipe(w: World, a: Act) {
    BeginsRotation(w, a) && Base(w.system) && Ripe(w.system)
  }

  lemma MildStepLeavesIdle(s: System, step: Step, now: int)
    requires Enabled(s, step) && Mild(step) && !PendingIn(s)
    ensures !PendingIn(Apply(s, step, now))
  {
    if step.Deliver? && step.to == Gateway {
      NothingPendingStays(s.gateway.value, Gateway, step.frame, now);
    }
  }

  lemma ShelterKept(w: World, limits: Limits, a: Act)
    requires Sheltered(w) && Possible(w, a) && !BeginsRipe(w, a)
    ensures Sheltered(Next(w, limits, a))
  {
    PointKept(w, limits, a);
    var events := Events(w, limits, a);
    if events != [] {
      TrailedKept(w.system, events[0].step, events[0].now);
      SeedsKept(w.system, events[0].step, events[0].now);
      match a
      case Happens(step, now) =>
        if PendingIn(w.system) { SafeKept(w.system, step, now); } else { MildStepLeavesIdle(w.system, step, now); }
      case Begin(_, now) => UnripeIsSafe(w.system, now);
      case _ =>
    }
  }

  ghost predicate RipeAlong(w: World, limits: Limits, acts: seq<Act>)
    requires IsPlay(w, limits, acts)
    decreases |acts|
  {
    acts != [] && (BeginsRipe(w, acts[0]) || RipeAlong(Next(w, limits, acts[0]), limits, acts[1..]))
  }

  /** At some point of the play the arrival of frames can make the gateway commit a key that the device
      never had. */
  ghost predicate BreaksAlong(w: World, limits: Limits, acts: seq<Act>)
    requires IsPlay(w, limits, acts)
    decreases |acts|
  {
    NetworkBreaks(w.system) || (acts != [] && BreaksAlong(Next(w, limits, acts[0]), limits, acts[1..]))
  }

  lemma {:induction false} BreaksIfRipe(w: World, limits: Limits, acts: seq<Act>)
    requires Sheltered(w) && IsPlay(w, limits, acts)
    ensures BreaksAlong(w, limits, acts) <==> RipeAlong(w, limits, acts)
    decreases |acts|
  {
    ShelteredDoesNotBreak(w);
    if acts != [] {
      if BeginsRipe(w, acts[0]) {
        BeginBreaks(w.system, acts[0].now);
      } else {
        ShelterKept(w, limits, acts[0]);
        BreaksIfRipe(Next(w, limits, acts[0]), limits, acts[1..]);
      }
    }
  }

  lemma OpeningIsSheltered(flavour: Flavour)
    ensures Sheltered(Opening(flavour)) && Kept(Start(flavour), false)
  {
    StartOk(flavour);
    InvIsLoose(Start(flavour));
  }

  /** Main result: under the scheduler, with any number of rollbacks, cuts and reconnections and any
      behaviour of the network, the gateway can be brought to commit a key that the device never had,
      exactly if it begins a rotation when the device has gone on from its key, or can still act at
      that key and an earlier rotation from it was given up. */
  lemma ScheduledAcksAreSafe(flavour: Flavour, limits: Limits, acts: seq<Act>)
    requires IsPlay(Opening(flavour), limits, acts)
    ensures BreaksAlong(Opening(flavour), limits, acts) <==> RipeAlong(Opening(flavour), limits, acts)
  {
    OpeningIsSheltered(flavour);
    BreaksIfRipe(Opening(flavour), limits, acts);
  }

  lemma {:induction false} OnlyRetriesAreRipe(w: World, limits: Limits, acts: seq<Act>, owed: bool)
    requires Sheltered(w) && Kept(w.system, owed) && IsPlay(w, limits, acts)
    requires !RetriesInPlace(w, limits, acts) && !(owed && BeginsInPlace(w, limits, acts))
    ensures !RipeAlong(w, limits, acts)
    decreases |acts|
  {
    if acts != [] {
      ActOwes(w, limits, acts[0], owed);
      if BeginsRipe(w, acts[0]) {
        BeginBreaks(w.system, acts[0].now);
        StepKeepsInv(w.system, Initiate(Gateway), acts[0].now);
        SafeCannotBreak(Apply(w.system, Initiate(Gateway), acts[0].now));
      } else {
        ShelterKept(w, limits, acts[0]);
        var events := Events(w, limits, acts[0]);
        if events == [] {
          OnlyRetriesAreRipe(Next(w, limits, acts[0]), limits, acts[1..], owed);
        } else {
          EventKeeps(w.system, events[0], owed);
          OnlyRetriesAreRipe(Next(w, limits, acts[0]), limits, acts[1..], Owes(w.system, events[0], owed));
        }
      }
    }
  }

  /** Only a rotation begun in a session that was rolled back and is still in place can go wrong. */
  lemma OnlyRetriesBreak(flavour: Flavour, limits: Limits, acts: seq<Act>)
    requires IsPlay(Opening(flavour), limits, acts) && !RetriesInPlace(Opening(flavour), limits, acts)
    ensures !BreaksAlong(Opening(flavour), limits, acts)
  {
    OpeningIsSheltered(flavour);
    OnlyRetriesAreRipe(Opening(flavour), limits, acts, false);
    ScheduledAcksAreSafe(flavour, limits, acts);
  }

  /** As long as every rolled-back session is gone before the next rotation is begun, no
      acknowledgement makes the gateway commit a key that the device never had. */
  lemma RetryFreeAcksAreSafe(flavour: Flavour, limits: Limits, acts: seq<Act>, frame: Frame, now: int)
    requires IsPlay(Opening(flavour), limits, acts) && !RetriesInPlace(Opening(flavour), limits, acts)
    requires Enabled(Ending(Opening(flavour), limits, acts).system, Deliver(Gateway, frame))
    ensures !CommitsForeign(Ending(Opening(flavour), limits, acts).system, frame, now)
  {
    PlayIsDisciplined(flavour, limits, acts);
    PlayIsRun(Opening(flavour), limits, acts);
    if frame.body.RotationAck? {
      AckCommitsInstalledKey(flavour, Run(Opening(flavour), limits, acts), frame, now);
    }
  }

  function Happenings(mid: seq<Event>): seq<Act> {
    if mid == [] then [] else [Happens(mid[0].step, mid[0].now)] + Happenings(mid[1..])
  }

  /** A turn that begins a rotation. */
  function FullTurn(now: int): seq<Act> {
    [Begins(now)] + ([Look] + ([Decide(now)] + ([Begin(true, now)] + [])))
  }

  /** A turn that rolls back and cuts, whatever happens then, and the next turn. */
  function TwoTurns(now: int, mid: seq<Event>, later: int): seq<Act> {
    [Begins(now)] + ([Cut(false, now)] + (Happenings(mid) + FullTurn(later)))
  }

  /** Nothing takes the gateway's session away. */
  ghost predicate StaysInPlace(s: System, mid: seq<Event>)
    requires IsRun(s, mid)
    decreases |mid|
  {
    mid != [] ==>
      !Replaces(s, mid[0]) && StaysInPlace(Apply(s, mid[0].step, mid[0].now), mid[1..])
  }

  lemma FirstAct(w: World, limits: Limits, a: Act, rest: seq<Act>)
    ensures IsPlay(w, limits, [a] + rest) <==> Possible(w, a) && IsPlay(Next(w, limits, a), limits, rest)
    ensures IsPlay(w, limits, [a] + rest) ==>
              var next := Next(w, limits, a);
              && Ending(w, limits, [a] + rest) == Ending(next, limits, rest)
              && (BeginsInPlace(w, limits, [a] + rest) <==>
                    BeginsRotation(w, a) || (!ReplacesIn(w, limits, a) && BeginsInPlace(next, limits, rest)))
              && (RetriesInPlace(w, limits, [a] + rest) <==>
                    (RollsBack(w, limits, a) && BeginsInPlace(next, limits, rest))
                    || RetriesInPlace(next, limits, rest))
  {
    assert ([a] + rest)[1..] == rest;
  }

  lemma TurnBegins(s: System, limits: Limits, now: int)
    requires !PendingIn(s)
    ensures IsPlay(World(s, Idle), limits, FullTurn(now)) <==> DueIn(s, limits, now)
    ensures DueIn(s, limits, now) ==>
              && Ending(World(s, Idle), limits, FullTurn(now)).system == Apply(s, Initiate(Gateway), now)
              && BeginsInPlace(World(s, Idle), limits, FullTurn(now))
              && !RetriesInPlace(World(s, Idle), limits, FullTurn(now))
  {
    FirstAct(World(s, Beginning), limits, Begin(true, now), []);
    FirstAct(World(s, Deciding), limits, Decide(now), [Begin(true, now)] + []);
    FirstAct(World(s, Looking), limits, Look, [Decide(now)] + ([Begin(true, now)] + []));
    FirstAct(World(s, Idle), limits, Begins(now), [Look] + ([Decide(now)] + ([Begin(true, now)] + [])));
  }

  lemma {:induction false} NextTurnBegins(s: System, limits: Limits, mid: seq<Event>, now: int)
    requires !PendingIn(s) && IsRun(s, mid) && forall e | e in mid :: Mild(e.step)
    ensures var acts := Happenings(mid) + FullTurn(now);
            && (IsPlay(World(s, Idle), limits, acts) <==> DueIn(After(s, mid), limits, now))
            && (DueIn(After(s, mid), limits, now) ==>
                  && Ending(World(s, Idle), limits, acts).system == Apply(After(s, mid), Initiate(Gateway), now)
                  && (BeginsInPlace(World(s, Idle), limits, acts) <==> StaysInPlace(s, mid))
                  && !RetriesInPlace(World(s, Idle), limits, acts))
    decreases |mid|
  {
    if mid == [] {
      assert Happenings(mid) + FullTurn(now) == FullTurn(now);
      TurnBegins(s, limits, now);
    } else {
      var a, t := Happens(mid[0].step, mid[0].now), Apply(s, mid[0].step, mid[0].now);
      var rest := Happenings(mid[1..]) + FullTurn(now);
      assert Happenings(mid) + FullTurn(now) == [a] + rest;
      MildStepLeavesIdle(s, mid[0].step, mid[0].now);
      NextTurnBegins(t, limits, mid[1..], now);
      FirstAct(World(s, Idle), limits, a, rest);
    }
  }

  /** After a rollback and its cut, whatever happens before the device's next turn, that turn begins a
      rotation exactly if one is due then, and begins it in the rolled-back session exactly if nothing
      has taken that away. */
  lemma NextTurnRetriesExactly(w: World, limits: Limits, now: int, mid: seq<Event>, later: int)
    requires w.point.Idle? && StaleIn(w.system, limits, now)
    requires IsRun(Apply(w.system, Abort(Gateway), now), mid) && forall e | e in mid :: Mild(e.step)
    ensures var s := Apply(w.system, Abort(Gateway), now);
            && (IsPlay(w, limits, TwoTurns(now, mid, later)) <==> DueIn(After(s, mid), limits, later))
            && (IsPlay(w, limits, TwoTurns(now, mid, later)) ==>
                  && Ending(w, limits, TwoTurns(now, mid, later)).system
                     == Apply(After(s, mid), Initiate(Gateway), later)
                  && (RetriesInPlace(w, limits, TwoTurns(now, mid, later)) <==> StaysInPlace(s, mid)))
  {
    var s := Apply(w.system, Abort(Gateway), now);
    var rest := Happenings(mid) + FullTurn(later);
    NextTurnBegins(s, limits, mid, later);
    FirstAct(World(s, Cutting), limits, Cut(false, now), rest);
    FirstAct(w, limits, Begins(now), [Cut(false, now)] + rest);
  }

  /** Where the device has applied the rotation and the session stays in place, the late
      acknowledgement commits a key that the device never had. */
  lemma NextTurnBreaks(w: World, limits: Limits, now: int)
    requires w.point.Idle? && StaleIn(w.system, limits, now) && DueIn(w.system, limits, now)
    requires Inv(w.system) && SeedsOk(w.system) && Paired(w.system)
    requires Ahead(w.system.Session(Device), w.system.Session(Gateway))
    ensures IsPlay(w, limits, TwoTurns(now, [], now)) && RetriesInPlace(w, limits, TwoTurns(now, [], now))
    ensures var t := Ending(w, limits, TwoTurns(now, [], now)).system;
            Enabled(t, Deliver(Gateway, LateAck(w.system))) && CommitsForeign(t, LateAck(w.system), now)
  {
    NextTurnRetriesExactly(w, limits, now, [], now);
    LateAckCommits(w.system, now);
  }

  ghost predicate GoesWrongBy(w: World, limits: Limits, acts: seq<Act>, frame: Frame, now: int) {
    && IsPlay(w, limits, acts)
    && Enabled(Ending(w, limits, acts).system, Deliver(Gateway, frame))
    && CommitsForeign(Ending(w, limits, acts).system, frame, now)
  }

  ghost predicate CanGoWrong(w: World, limits: Limits) {
    exists acts, frame, now :: GoesWrongBy(w, limits, acts, frame, now)
  }

  lemma GoesWrongLater(w: World, limits: Limits, a: Act)
    requires Possible(w, a) && CanGoWrong(Next(w, limits, a), limits)
    ensures CanGoWrong(w, limits)
  {
    var acts, frame, now :| GoesWrongBy(Next(w, limits, a), limits, acts, frame, now);
    FirstAct(w, limits, a, acts);
    assert GoesWrongBy(w, limits, [a] + acts, frame, now);
  }

  /** Between two turns, anything but the scheduler's own steps may happen first. */
  lemma {:induction false} EventsThenWrong(s: System, limits: Limits, run: seq<Event>)
    requires IsRun(s, run) && forall e | e in run :: Mild(e.step)
    requires CanGoWrong(World(After(s, run), Idle), limits)
    ensures CanGoWrong(World(s, Idle), limits)
    decreases |run|
  {
    if run != [] {
      EventsThenWrong(Apply(s, run[0].step, run[0].now), limits, run[1..]);
      GoesWrongLater(World(s, Idle), limits, Happens(run[0].step, run[0].now));
    }
  }

  lemma TurnThenWrong(s: System, limits: Limits, now: int)
    requires s.gateway.Some? && !PendingIn(s) && DueIn(s, limits, now)
    requires CanGoWrong(World(Apply(s, Initiate(Gateway), now), Idle), limits)
    ensures CanGoWrong(World(s, Idle), limits)
  {
    GoesWrongLater(World(s, Beginning), limits, Begin(true, now));
    GoesWrongLater(World(s, Deciding), limits, Decide(now));
    GoesWrongLater(World(s, Looking), limits, Look);
    GoesWrongLater(World(s, Idle), limits, Begins(now));
  }

  /** In step, nothing pending, and a rotation is due. */
  ghost predicate Quiet(s: System, limits: Limits, due: int) {
    && Inv(s) && SeedsOk(s) && Paired(s) && InStep(s.Session(Device), s.Session(Gateway))
    && !s.Session(Device).pendingActive && !s.Session(Gateway).pendingActive && DueIn(s, limits, due)
  }

  lemma RotationKeepsSeeds(s: System, due: int)
    requires Inv(s) && SeedsOk(s) && s.Online(Gateway)
    requires Enabled(Apply(s, Initiate(Gateway), due), Deliver(Device, NextRotation(s, Gateway)))
    ensures SeedsOk(Apply(Apply(s, Initiate(Gateway), due), Deliver(Device, NextRotation(s, Gateway)), due))
  {
    BaseKept(s, Initiate(Gateway), due);
    SeedsKept(s, Initiate(Gateway), due);
    SeedsKept(Apply(s, Initiate(Gateway), due), Deliver(Device, NextRotation(s, Gateway)), due);
  }

  function Patience(limits: Limits): int {
    if limits.ackTimeout > 0 then limits.ackTimeout else 0
  }

  lemma InitiateLeavesDue(s: System, limits: Limits, due: int, late: int)
    requires s.Online(Gateway) && !PendingIn(s) && DueIn(s, limits, due) && late >= due + Patience(limits)
    ensures StaleIn(Apply(s, Initiate(Gateway), due), limits, late)
    ensures DueIn(Apply(s, Initiate(Gateway), due), limits, late)
  {
  }

  /** The gateway begins a rotation and the device applies it. */
  lemma RotationLeavesDue(s: System, limits: Limits, due: int, late: int)
    requires Quiet(s, limits, due) && late >= due + Patience(limits)
    ensures var u := Apply(s, Initiate(Gateway), due);
            && Enabled(u, Deliver(Device, NextRotation(s, Gateway)))
            && var v := Apply(u, Deliver(Device, NextRotation(s, Gateway)), due);
               && Inv(v) && SeedsOk(v) && EndsAhead(v, Gateway) && StaleIn(v, limits, late) && DueIn(v, limits, late)
  {
    RotationReachesPeer(s, Gateway, due);
    RotationKeepsSeeds(s, due);
    InitiateLeavesDue(s, limits, due, late);
  }

  lemma RotationThenWrong(s: System, limits: Limits, due: int)
    requires Quiet(s, limits, due)
    ensures CanGoWrong(World(s, Idle), limits)
  {
    var late := due + Patience(limits);
    RotationLeavesDue(s, limits, due, late);
    var u := Apply(s, Initiate(Gateway), due);
    var rotation := Deliver(Device, NextRotation(s, Gateway));
    var v := Apply(u, rotation, due);
    NextTurnBreaks(World(v, Idle), limits, late);
    assert GoesWrongBy(World(v, Idle), limits, TwoTurns(late, [], late), LateAck(v), late);
    GoesWrongLater(World(u, Idle), limits, Happens(rotation, due));
    TurnThenWrong(s, limits, due);
  }

  lemma HandshakeLeavesQuiet(flavour: Flavour, limits: Limits)
    ensures var s := Start(flavour);
            IsRun(s, Handshake(s, 0, 0)) && Quiet(After(s, Handshake(s, 0, 0)), limits, limits.interval)
  {
    var s := Start(flavour);
    assert After(s, []) == s;
    HandshakeCompletes(flavour, [], 0, 0);
    StartOk(flavour);
    HandshakeRuns(s, 0, 0);
    RunKeepsBase(s, Handshake(s, 0, 0));
  }

  lemma HandshakeIsMild(s: System)
    ensures forall e | e in Handshake(s, 0, 0) :: Mild(e.step)
  {
  }

  /** It happens, whatever the settings: from the very start, with one handshake, one rotation that the
      device applies, and a session that stays in place after the rollback. */
  lemma RetryCanBreak(flavour: Flavour, limits: Limits)
    ensures CanGoWrong(Opening(flavour), limits)
  {
    var run := Handshake(Start(flavour), 0, 0);
    HandshakeLeavesQuiet(flavour, limits);
    HandshakeIsMild(Start(flavour));
    RotationThenWrong(After(Start(flavour), run), limits, limits.interval);
    EventsThenWrong(Start(flavour), limits, run);
  }

  /** The acts of one turn in which nothing else happens, as the scheduler's books decide it. */
  function TurnActs(t: Schedulers.Turn, cfg: Schedulers.Config, b: Schedulers.Books, connected: bool): seq<Act> {
    [Begins(t.at)]
    + (if t.aborted then [Cut(Schedulers.Revoke(t.device) in b.MaybeRotate(cfg, t).1, t.at)] + []
       else [Look] + if t.pending then [] else LastActs(t, connected))
  }

  function LastActs(t: Schedulers.Turn, connected: bool): seq<Act> {
    [Decide(t.at)] + if t.needs then [Begin(connected, t.at)] + [] else []
  }

  /** What the turn of the scheduler's object leaves of the gateway's session; a revoked device has none. */
  function LeftOver(s: System, t: Schedulers.Turn, cfg: Schedulers.Config, b: Schedulers.Books, connected: bool)
    : Option<SessionState>
  {
    var actions := b.MaybeRotate(cfg, t).1;
    if s.gateway.None? || Schedulers.Revoke(t.device) in actions then None
    else Some(Schedulers.SessionAfter(s.gateway.value, t, actions, connected, s.drawn))
  }

  ghost predicate EndsWith(w: World, limits: Limits, acts: seq<Act>, session: Option<SessionState>) {
    IsPlay(w, limits, acts) && Ending(w, limits, acts).point.Idle? && Ending(w, limits, acts).system.gateway == session
  }

  lemma UndisturbedCut(
    s: System, t: Schedulers.Turn, cfg: Schedulers.Config, b: Schedulers.Books, d: Schedulers.DeviceID, connected: bool)
    requires t == Schedulers.Observe(cfg.limits, d, s.gateway, t.at, t.challengeSent) && t.aborted
    ensures EndsWith(World(s, Idle), cfg.limits, TurnActs(t, cfg, b, connected), LeftOver(s, t, cfg, b, connected))
  {
    var revoke := Schedulers.Revoke(d) in b.MaybeRotate(cfg, t).1;
    FirstAct(World(Apply(s, Abort(Gateway), t.at), Cutting), cfg.limits, Cut(revoke, t.at), []);
    FirstAct(World(s, Idle), cfg.limits, Begins(t.at), [Cut(revoke, t.at)] + []);
  }

  lemma UndisturbedLast(
    s: System, t: Schedulers.Turn, cfg: Schedulers.Config, b: Schedulers.Books, d: Schedulers.DeviceID, connected: bool)
    requires t == Schedulers.Observe(cfg.limits, d, s.gateway, t.at, t.challengeSent) && !t.aborted && !t.pending
    ensures EndsWith(World(s, Deciding), cfg.limits, LastActs(t, connected), LeftOver(s, t, cfg, b, connected))
  {
    if t.needs {
      FirstAct(World(s, Beginning), cfg.limits, Begin(connected, t.at), []);
      FirstAct(World(s, Deciding), cfg.limits, Decide(t.at), [Begin(connected, t.at)] + []);
    } else {
      FirstAct(World(s, Deciding), cfg.limits, Decide(t.at), []);
    }
  }

  /** The scheduler's object and its acts agree: undisturbed, the acts of a turn leave the session that
      the turn of the object leaves, and none after a revocation. */
  lemma UndisturbedTurn(
    s: System, cfg: Schedulers.Config, b: Schedulers.Books, d: Schedulers.DeviceID, connected: bool,
    at: int, sent: bool)
    ensures var t := Schedulers.Observe(cfg.limits, d, s.gateway, at, sent);
            EndsWith(World(s, Idle), cfg.limits, TurnActs(t, cfg, b, connected), LeftOver(s, t, cfg, b, connected))
  {
    var t := Schedulers.Observe(cfg.limits, d, s.gateway, at, sent);
    if t.aborted {
      UndisturbedCut(s, t, cfg, b, d, connected);
    } else {
      var last := if t.pending then [] else LastActs(t, connected);
      if !t.pending {
        UndisturbedLast(s, t, cfg, b, d, connected);
      }
      FirstAct(World(s, Looking), cfg.limits, Look, last);
      FirstAct(World(s, Idle), cfg.limits, Begins(at), [Look] + last);
    }
  }
}
