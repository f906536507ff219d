/** What holds over all interleavings of the accept loop, the connection handlers and a shutdown. */
module ServerRuns {
  import opened Options
  import opened Servers

  /** A connection is accepted while its handler is running or about to be started. */
  ghost predicate AcceptedOk(w: World) {
    && (forall c :: c in w.tables.accepted <==>
          (c in w.handlers && !w.handlers[c].phase.Released?) || w.loop == Spawning(c))
    && (w.loop.Spawning? ==> w.loop.conn !in w.handlers && w.loop.conn < w.nextConn)
    && (forall c | c in w.handlers :: c < w.nextConn)
  }

  predicate Counted(t: Tables, limit: int) {
    t.active == |t.accepted| && (t.active <= limit || t.active == 0)
  }

  ghost predicate CountsOk(w: World, limit: int) {
    Counted(w.tables, limit) && w.running == |w.handlers.Keys|
  }

  /** The connection on record for a device is served for that device. */
  ghost predicate Serves(w: World, d: DeviceID, c: Conn) {
    c in w.handlers && w.handlers[c].device == d
    && (w.handlers[c].phase.Serving? || w.handlers[c].phase.Ended? || w.handlers[c].phase.Closed?)
  }

  ghost predicate ConnsOk(w: World) {
    forall d | d in w.tables.conns :: Serves(w, d, w.tables.conns[d])
  }

  /** The handler c created session x and, once it has captured a session to close, that is x. */
  ghost predicate Owns(w: World, d: DeviceID, x: nat, c: Conn) {
    && c in w.handlers && w.handlers[c].device == d
    && match w.handlers[c].phase
       case Established(s) => s == x
       case Captured(s, own) => s == x && own == Some(x)
       case Serving(s, own) => s == x && own == Some(x)
       case Ended(s, own) => s == x && own == Some(x)
       case _ => false
  }

  ghost predicate SessionsOk(w: World) {
    forall d | d in w.sessions :: w.sessions[d] < w.nextSession && exists c :: Owns(w, d, w.sessions[d], c)
  }

  ghost predicate LoopOk(w: World) {
    && (w.loop.NotStarted? ==> w.handlers == map[])
    && (w.loop == Exited(true) ==> w.handlers == map[])
    && (w.shutdown.Some? ==> w.tables.closing)
    && (w.shutdown == Some(false) ==> w.handlers == map[] && !w.loop.Spawning?)
  }

  ghost predicate Inv(w: World, limit: int) {
    AcceptedOk(w) && CountsOk(w, limit) && ConnsOk(w) && SessionsOk(w) && LoopOk(w)
  }

  lemma OwnerStays(w: World, step: Step, limit: int, d: DeviceID, x: nat, c: Conn)
    requires AcceptedOk(w) && Enabled(w, step) && Owns(w, d, x, c) && d in w.sessions && w.sessions[d] == x
    requires Lookup(Apply(w, step, limit).sessions, d) == Some(x) && x < w.nextSession
    ensures Owns(Apply(w, step, limit), d, x, c)
  {
  }

  lemma SessionsKept(w: World, step: Step, limit: int)
    requires AcceptedOk(w) && SessionsOk(w) && Enabled(w, step)
    ensures SessionsOk(Apply(w, step, limit))
  {
    var v := Apply(w, step, limit);
    forall d | d in v.sessions
      ensures v.sessions[d] < v.nextSession && exists c :: Owns(v, d, v.sessions[d], c)
    {
      if step.FinishHandshake? && d == step.device {
        assert Owns(v, d, v.sessions[d], step.conn);
      } else {
        assert d in w.sessions && v.sessions[d] == w.sessions[d];
        var c :| Owns(w, d, w.sessions[d], c);
        OwnerStays(w, step, limit, d, w.sessions[d], c);
      }
    }
  }

  lemma AcceptedKept(w: World, step: Step, limit: int)
    requires AcceptedOk(w) && Enabled(w, step)
    ensures AcceptedOk(Apply(w, step, limit))
  {
  }

  lemma AdmitKeepsCount(t: Tables, c: Conn, limit: int)
    requires Counted(t, limit) && c !in t.accepted
    ensures Counted(t.Admit(c, limit).0, limit)
  {
  }

  lemma ReleaseKeepsCount(t: Tables, c: Conn, limit: int)
    requires Counted(t, limit) && c in t.accepted
    ensures Counted(t.Release(c), limit)
  {
  }

  lemma ActiveKept(w: World, step: Step, limit: int)
    requires AcceptedOk(w) && Counted(w.tables, limit) && Enabled(w, step)
    ensures Counted(Apply(w, step, limit).tables, limit)
  {
    match step
    case Accept =>
      assert w.nextConn !in w.tables.accepted;
      AdmitKeepsCount(w.tables, w.nextConn, limit);
    case Release(c) =>
      assert c in w.tables.accepted;
      ReleaseKeepsCount(w.tables, c, limit);
    case _ =>
  }

  lemma OthersKeepHandlers(w: World, step: Step, limit: int)
    requires Enabled(w, step) && !step.Spawn? && !step.Done?
    ensures Apply(w, step, limit).handlers.Keys == w.handlers.Keys && Apply(w, step, limit).running == w.running
  {
    if step.FinishHandshake? {
      assert Apply(w, step, limit).handlers.Keys == w.handlers.Keys + {step.conn};
    }
  }

  lemma SpawnCounts(w: World, limit: int)
    requires AcceptedOk(w) && w.running == |w.handlers.Keys| && Enabled(w, Spawn)
    ensures Apply(w, Spawn, limit).running == |Apply(w, Spawn, limit).handlers.Keys|
  {
    assert Apply(w, Spawn, limit).handlers.Keys == w.handlers.Keys + {w.loop.conn};
  }

  lemma DoneCounts(w: World, c: Conn, limit: int)
    requires w.running == |w.handlers.Keys| && Enabled(w, Done(c))
    ensures Apply(w, Done(c), limit).running == |Apply(w, Done(c), limit).handlers.Keys|
  {
    assert Apply(w, Done(c), limit).handlers.Keys == w.handlers.Keys - {c};
  }

  lemma RunningKept(w: World, step: Step, limit: int)
    requires AcceptedOk(w) && w.running == |w.handlers.Keys| && Enabled(w, step)
    ensures Apply(w, step, limit).running == |Apply(w, step, limit).handlers.Keys|
  {
    if step.Spawn? {
      SpawnCounts(w, limit);
    } else if step.Done? {
      DoneCounts(w, step.conn, limit);
    } else {
      OthersKeepHandlers(w, step, limit);
    }
  }

  lemma ConnsKept(w: World, step: Step, limit: int)
    requires AcceptedOk(w) && ConnsOk(w) && Enabled(w, step)
    ensures ConnsOk(Apply(w, step, limit))
  {
    var v := Apply(w, step, limit);
    forall d | d in v.tables.conns
      ensures Serves(v, d, v.tables.conns[d])
    {
      assert d in w.tables.conns ==> Serves(w, d, w.tables.conns[d]);
    }
  }

  lemma LoopKept(w: World, step: Step, limit: int)
    requires CountsOk(w, limit) && LoopOk(w) && Enabled(w, step)
    ensures LoopOk(Apply(w, step, limit))
  {
  }

  lemma InvKept(w: World, step: Step, limit: int)
    requires Inv(w, limit) && Enabled(w, step)
    ensures Inv(Apply(w, step, limit), limit)
  {
    AcceptedKept(w, step, limit);
    ActiveKept(w, step, limit);
    RunningKept(w, step, limit);
    ConnsKept(w, step, limit);
    SessionsKept(w, step, limit);
    LoopKept(w, step, limit);
  }

  lemma {:induction false} RunKeepsInv(w: World, run: seq<Step>, limit: int)
    requires Inv(w, limit) && IsRun(w, run, limit)
    ensures Inv(After(w, run, limit), limit)
    decreases |run|
  {
    if run != [] {
      InvKept(w, run[0], limit);
      RunKeepsInv(Apply(w, run[0], limit), run[1..], limit);
    }
  }

  /** No session is orphaned: the handler whose handshake created it is still running. */
  lemma SessionsHaveHandlers(run: seq<Step>, limit: int, d: DeviceID)
    requires IsRun(START, run, limit) && d in After(START, run, limit).sessions
    ensures exists c :: Owns(After(START, run, limit), d, After(START, run, limit).sessions[d], c)
  {
    RunKeepsInv(START, run, limit);
  }

  /** The counter is the number of accepted connections, never above the limit, and every
      connection commands can be sent on is an accepted one serving that device. */
  lemma ConnectionsCounted(run: seq<Step>, limit: nat)
    requires IsRun(START, run, limit)
    ensures var w := After(START, run, limit);
            && w.tables.active == |w.tables.accepted| <= limit
            && forall d | d in w.tables.conns ::
                 w.tables.conns[d] in w.tables.accepted
                 && w.tables.conns[d] in w.handlers && w.handlers[w.tables.conns[d]].device == d
  {
    RunKeepsInv(START, run, limit);
    var w := After(START, run, limit);
    assert forall d | d in w.tables.conns :: Serves(w, d, w.tables.conns[d]);
  }

  lemma {:induction false} ClosingIsShutdown(w: World, run: seq<Step>, limit: int)
    requires IsRun(w, run, limit)
    ensures After(w, run, limit).tables.closing <==> w.tables.closing || BeginShutdown in run
    decreases |run|
  {
    if run != [] {
      ClosingIsShutdown(Apply(w, run[0], limit), run[1..], limit);
      assert BeginShutdown in run <==> run[0] == BeginShutdown || BeginShutdown in run[1..];
    }
  }

  /** A connection is turned away exactly if a shutdown has begun, or is over the limit exactly if as many
      as allowed are accepted and not yet released; otherwise it is accepted. */
  lemma AdmittedExactly(run: seq<Step>, limit: int, c: Conn)
    requires IsRun(START, run, limit)
    ensures var w := After(START, run, limit);
            var (t, admission) := w.tables.Admit(c, limit);
            && admission == (if BeginShutdown in run then Refused
                             else if |w.tables.accepted| >= limit then OverLimit
                             else Admitted)
            && t == if admission == Admitted then
                      w.tables.(accepted := w.tables.accepted + {c}, active := |w.tables.accepted| + 1)
                    else w.tables
  {
    RunKeepsInv(START, run, limit);
    ClosingIsShutdown(START, run, limit);
  }

  /** Once closing has begun it stays so and no connection is accepted any more. */
  lemma {:induction false} ClosingAddsNothing(w: World, run: seq<Step>, limit: int)
    requires w.tables.closing && IsRun(w, run, limit)
    ensures After(w, run, limit).tables.closing
    ensures After(w, run, limit).tables.accepted <= w.tables.accepted
    decreases |run|
  {
    if run != [] {
      ClosingAddsNothing(Apply(w, run[0], limit), run[1..], limit);
    }
  }

  lemma {:induction false} LoopOutcome(w: World, run: seq<Step>, limit: int)
    requires IsRun(w, run, limit) && w.loop != Exited(false) && AcceptFails(false) !in run
    ensures After(w, run, limit).loop != Exited(false)
    decreases |run|
  {
    if run != [] {
      assert run[0] in run;
      LoopOutcome(Apply(w, run[0], limit), run[1..], limit);
    }
  }

  lemma OwnerRuns(w: World, d: DeviceID)
    requires SessionsOk(w)
    ensures d in w.sessions ==> w.handlers != map[]
  {
    if d in w.sessions {
      var c :| Owns(w, d, w.sessions[d], c);
    }
  }

  ghost predicate NothingLeft(w: World) {
    && w.handlers == map[] && w.running == 0 && w.sessions == map[]
    && w.tables.conns == map[] && w.tables.accepted == {} && w.tables.active == 0
  }

  lemma WithoutHandlersNothingIsLeft(w: World, limit: int)
    requires Inv(w, limit) && w.handlers == map[] && !w.loop.Spawning?
    ensures NothingLeft(w)
  {
    assert w.tables.accepted == {};
    forall d
      ensures d !in w.sessions
    {
      OwnerRuns(w, d);
    }
  }

  /** A successful shutdown leaves nothing behind, provided the accept loop never ended on an
      error other than its closed listener. */
  lemma ShutdownLeavesNothing(run: seq<Step>, limit: int)
    requires IsRun(START, run, limit) && ShutdownSucceeds(After(START, run, limit))
    requires AcceptFails(false) !in run
    ensures NothingLeft(After(START, run, limit))
  {
    RunKeepsInv(START, run, limit);
    LoopOutcome(START, run, limit);
    WithoutHandlersNothingIsLeft(After(START, run, limit), limit);
  }

  lemma {:induction false} Continue(w: World, run: seq<Step>, more: seq<Step>, limit: int)
    requires IsRun(w, run, limit) && IsRun(After(w, run, limit), more, limit)
    ensures IsRun(w, run + more, limit)
    ensures After(w, run + more, limit) == After(After(w, run, limit), more, limit)
    decreases |run|
  {
    if run == [] {
      assert run + more == more;
    } else {
      assert (run + more)[1..] == run[1..] + more;
      Continue(Apply(w, run[0], limit), run[1..], more, limit);
    }
  }

  lemma Prepend(w: World, step: Step, rest: seq<Step>, limit: int)
    requires Enabled(w, step) && IsRun(Apply(w, step, limit), rest, limit)
    ensures IsRun(w, [step] + rest, limit)
    ensures After(w, [step] + rest, limit) == After(Apply(w, step, limit), rest, limit)
  {
    assert ([step] + rest)[1..] == rest;
  }

  /** That proviso is the whole of it: from every run that is accepting connections, an accept
      error makes a shutdown begun afterwards succeed at once, with every handler, connection and
      session still there. */
  lemma AcceptErrorAbandonsHandlers(run: seq<Step>, limit: int)
    requires IsRun(START, run, limit) && After(START, run, limit).loop.Accepting?
    ensures var abandoned := run + [AcceptFails(false), BeginShutdown];
            IsRun(START, abandoned, limit)
            && var w, v := After(START, run, limit), After(START, abandoned, limit);
               ShutdownSucceeds(v) && v.handlers == w.handlers && v.sessions == w.sessions
               && v.tables.accepted == w.tables.accepted && v.tables.conns == w.tables.conns
  {
    var w := After(START, run, limit);
    var u := Apply(w, AcceptFails(false), limit);
    Prepend(u, BeginShutdown, [], limit);
    Prepend(w, AcceptFails(false), [BeginShutdown] + [], limit);
    assert [AcceptFails(false), BeginShutdown] == [AcceptFails(false)] + ([BeginShutdown] + []);
    Continue(START, run, [AcceptFails(false), BeginShutdown], limit);
  }

  lemma {:induction false} EmptyStaysEmpty(w: World, run: seq<Step>, limit: int)
    requires w.loop == Exited(false) && w.handlers == map[] && IsRun(w, run, limit)
    ensures After(w, run, limit).loop == Exited(false) && After(w, run, limit).handlers == map[]
    decreases |run|
  {
    if run != [] {
      EmptyStaysEmpty(Apply(w, run[0], limit), run[1..], limit);
    }
  }

  ghost predicate ShutDownBy(w: World, more: seq<Step>, limit: int) {
    IsRun(w, more, limit) && ShutdownSucceeds(After(w, more, limit))
  }

  /** After such an error every successful shutdown, whatever happens before it, leaves nothing behind,
      exactly if no handler was running at the error. */
  lemma ShutdownAfterErrorExactly(run: seq<Step>, limit: int)
    requires IsRun(START, run, limit) && After(START, run, limit).loop.Accepting?
    ensures var u := Apply(After(START, run, limit), AcceptFails(false), limit);
            (forall more | ShutDownBy(u, more, limit) :: NothingLeft(After(u, more, limit)))
            <==> After(START, run, limit).handlers == map[]
  {
    var w := After(START, run, limit);
    var u := Apply(w, AcceptFails(false), limit);
    RunKeepsInv(START, run, limit);
    InvKept(w, AcceptFails(false), limit);
    if w.handlers == map[] {
      forall more | ShutDownBy(u, more, limit)
        ensures NothingLeft(After(u, more, limit))
      {
        RunKeepsInv(u, more, limit);
        EmptyStaysEmpty(u, more, limit);
        WithoutHandlersNothingIsLeft(After(u, more, limit), limit);
      }
    } else {
      Prepend(u, BeginShutdown, [], limit);
      assert ShutDownBy(u, [BeginShutdown] + [], limit);
    }
  }

  /** A device's session in the table is the one the handler created or a later one, and so is
      what the handler captures. */
  ghost predicate NoneEarlier(w: World) {
    forall c | c in w.handlers ::
      match w.handlers[c].phase
      case Established(x) =>
        x < w.nextSession && (w.handlers[c].device in w.sessions ==> w.sessions[w.handlers[c].device] >= x)
      case Captured(x, own) => own.Some? ==> own.value >= x
      case Serving(x, own) => own.Some? ==> own.value >= x
      case Ended(x, own) => own.Some? ==> own.value >= x
      case _ => true
  }

  lemma {:induction false} RunKeepsOrder(w: World, run: seq<Step>, limit: int)
    requires IsRun(w, run, limit) && NoneEarlier(w)
    ensures NoneEarlier(After(w, run, limit))
    decreases |run|
  {
    if run != [] {
      RunKeepsOrder(Apply(w, run[0], limit), run[1..], limit);
    }
  }

  /** Over all interleavings, a handler that ends closes the session it created, a later one of
      the same device, or none, and touches no other device. */
  lemma ClosesOwnOrLater(run: seq<Step>, limit: int, c: Conn)
    requires IsRun(START, run, limit) && Enabled(After(START, run, limit), CloseOwn(c))
    ensures var w := After(START, run, limit);
            var h := w.handlers[c];
            var left := Apply(w, CloseOwn(c), limit).sessions;
            left == w.sessions
            || (left == w.sessions - {h.device} && h.device in w.sessions && w.sessions[h.device] >= h.phase.session)
  {
    RunKeepsOrder(START, run, limit);
  }

  /** No handshake of a device finishes while another handler of the device has its own session still
      to capture. */
  ghost predicate NoOverlap(w: World, run: seq<Step>, limit: int)
    requires IsRun(w, run, limit)
    decreases |run|
  {
    run != [] ==>
      && (run[0].FinishHandshake? ==>
            forall c | c in w.handlers && w.handlers[c].phase.Established? :: w.handlers[c].device != run[0].device)
      && NoOverlap(Apply(w, run[0], limit), run[1..], limit)
  }

  predicate NoneOr(own: Option<nat>, x: nat) {
    own == None || own == Some(x)
  }

  ghost predicate CapturedOwn(w: World) {
    forall c | c in w.handlers ::
      match w.handlers[c].phase
      case Established(x) => NoneOr(Lookup(w.sessions, w.handlers[c].device), x)
      case Captured(x, own) => NoneOr(own, x)
      case Serving(x, own) => NoneOr(own, x)
      case Ended(x, own) => NoneOr(own, x)
      case _ => true
  }

  lemma {:induction false} RunCapturesOwn(w: World, run: seq<Step>, limit: int)
    requires IsRun(w, run, limit) && NoOverlap(w, run, limit) && CapturedOwn(w)
    ensures CapturedOwn(After(w, run, limit))
    decreases |run|
  {
    if run != [] {
      RunCapturesOwn(Apply(w, run[0], limit), run[1..], limit);
    }
  }

  /** If no two handshakes of a device overlap in this way, a handler that ends closes the session it
      created or none, whatever the other connections do. */
  lemma ClosesOnlyItsOwn(run: seq<Step>, limit: int, c: Conn)
    requires IsRun(START, run, limit) && NoOverlap(START, run, limit)
    requires Enabled(After(START, run, limit), CloseOwn(c))
    ensures var w := After(START, run, limit);
            var h := w.handlers[c];
            var left := Apply(w, CloseOwn(c), limit).sessions;
            left == w.sessions
            || (left == w.sessions - {h.device} && Lookup(w.sessions, h.device) == Some(h.phase.session))
  {
    RunCapturesOwn(START, run, limit);
  }

  lemma {:induction false} PrefixRuns(w: World, run: seq<Step>, limit: int, n: nat)
    requires IsRun(w, run, limit) && n <= |run|
    ensures IsRun(w, run[..n], limit)
    ensures n < |run| ==> Enabled(After(w, run[..n], limit), run[n])
    decreases |run|
  {
    if n > 0 {
      assert run[..n][0] == run[0] && run[..n][1..] == run[1..][..n - 1];
      PrefixRuns(Apply(w, run[0], limit), run[1..], limit, n - 1);
    }
  }

  lemma LastStep(run: seq<Step>, limit: int)
    requires IsRun(START, run, limit) && run != []
    ensures var n := |run| - 1;
            && IsRun(START, run[..n], limit) && Enabled(After(START, run[..n], limit), run[n])
            && After(START, run, limit) == Apply(After(START, run[..n], limit), run[n], limit)
  {
    var n := |run| - 1;
    PrefixRuns(START, run, limit, n);
    var w := After(START, run[..n], limit);
    Prepend(w, run[n], [], limit);
    Continue(START, run[..n], [run[n]] + [], limit);
    assert run == run[..n] + ([run[n]] + []);
  }

  /** Step i of the run made session x for device d, for connection c. */
  ghost predicate MadeAt(run: seq<Step>, limit: int, i: nat, c: Conn, d: DeviceID, x: nat)
    requires i < |run|
  {
    && run[i] == FinishHandshake(c, d) && IsRun(START, run[..i], limit)
    && x == After(START, run[..i], limit).nextSession
  }

  lemma MadeOfPrefix(run: seq<Step>, limit: int, i: nat, c: Conn, d: DeviceID, x: nat)
    requires i < |run| - 1
    ensures MadeAt(run[..|run| - 1], limit, i, c, d, x) == MadeAt(run, limit, i, c, d, x)
  {
    assert run[..|run| - 1][..i] == run[..i];
  }

  /** Where the sessions of the table come from. */
  ghost predicate TableHistory(run: seq<Step>, limit: int, w: World) {
    forall d | d in w.sessions :: exists j, e :: 0 <= j < |run| && MadeAt(run, limit, j, e, d, w.sessions[d])
  }

  /** Where the sessions still to be captured come from. */
  ghost predicate HandlerHistory(run: seq<Step>, limit: int, w: World) {
    forall c | c in w.handlers && w.handlers[c].phase.Established? ::
      exists i :: 0 <= i < |run| && MadeAt(run, limit, i, c, w.handlers[c].device, w.handlers[c].phase.session)
  }

  lemma TableStep(run: seq<Step>, limit: int, w: World)
    requires run != [] && IsRun(START, run[..|run| - 1], limit) && w == After(START, run[..|run| - 1], limit)
    requires TableHistory(run[..|run| - 1], limit, w) && Enabled(w, run[|run| - 1])
    ensures TableHistory(run, limit, Apply(w, run[|run| - 1], limit))
  {
    var n := |run| - 1;
    var v := Apply(w, run[n], limit);
    forall d | d in v.sessions
      ensures exists j, e :: 0 <= j < |run| && MadeAt(run, limit, j, e, d, v.sessions[d])
    {
      if run[n].FinishHandshake? && run[n].device == d {
        assert MadeAt(run, limit, n, run[n].conn, d, v.sessions[d]);
      } else {
        var j, e :| 0 <= j < n && MadeAt(run[..n], limit, j, e, d, w.sessions[d]);
        MadeOfPrefix(run, limit, j, e, d, w.sessions[d]);
      }
    }
  }

  lemma HandlerStep(run: seq<Step>, limit: int, w: World)
    requires run != [] && IsRun(START, run[..|run| - 1], limit) && w == After(START, run[..|run| - 1], limit)
    requires HandlerHistory(run[..|run| - 1], limit, w) && Enabled(w, run[|run| - 1])
    ensures HandlerHistory(run, limit, Apply(w, run[|run| - 1], limit))
  {
    var n := |run| - 1;
    var v := Apply(w, run[n], limit);
    forall c | c in v.handlers && v.handlers[c].phase.Established?
      ensures exists i :: 0 <= i < |run| && MadeAt(run, limit, i, c, v.handlers[c].device, v.handlers[c].phase.session)
    {
      var d, x := v.handlers[c].device, v.handlers[c].phase.session;
      if run[n].FinishHandshake? && run[n].conn == c {
        assert MadeAt(run, limit, n, c, d, x);
      } else {
        var i :| 0 <= i < n && MadeAt(run[..n], limit, i, c, d, x);
        MadeOfPrefix(run, limit, i, c, d, x);
      }
    }
  }

  lemma {:induction false} HistoryHolds(run: seq<Step>, limit: int)
    requires IsRun(START, run, limit)
    ensures TableHistory(run, limit, After(START, run, limit)) && HandlerHistory(run, limit, After(START, run, limit))
  {
    if run != [] {
      LastStep(run, limit);
      HistoryHolds(run[..|run| - 1], limit);
      TableStep(run, limit, After(START, run[..|run| - 1], limit));
      HandlerStep(run, limit, After(START, run[..|run| - 1], limit));
    }
  }

  lemma {:induction false} NumbersGrow(w: World, run: seq<Step>, limit: int, n: nat)
    requires IsRun(w, run, limit) && n <= |run|
    ensures IsRun(w, run[..n], limit) && After(w, run[..n], limit).nextSession <= After(w, run, limit).nextSession
    ensures n < |run| && run[n].FinishHandshake? ==>
              After(w, run[..n], limit).nextSession < After(w, run, limit).nextSession
    decreases |run|
  {
    if run != [] {
      if n == 0 {
        NumbersGrow(Apply(w, run[0], limit), run[1..], limit, 0);
      } else {
        assert run[..n][0] == run[0] && run[..n][1..] == run[1..][..n - 1];
        NumbersGrow(Apply(w, run[0], limit), run[1..], limit, n - 1);
      }
    }
  }

  /** Sessions made later have greater numbers. */
  lemma MadeInOrder(run: seq<Step>, limit: int, i: nat, j: nat, c: Conn, e: Conn, d: DeviceID, x: nat, y: nat)
    requires i < |run| && j < |run| && IsRun(START, run, limit)
    requires MadeAt(run, limit, i, c, d, x) && MadeAt(run, limit, j, e, d, y)
    ensures i < j <==> x < y
    ensures i == j <==> x == y
  {
    if i < j {
      assert run[..j][..i] == run[..i];
      NumbersGrow(START, run[..j], limit, i);
    } else if j < i {
      assert run[..i][..j] == run[..j];
      NumbersGrow(START, run[..i], limit, j);
    }
  }

  /** Another handshake of c's device finished after c's own, at step j, and its session is the one in
      the table. */
  ghost predicate Overtaken(run: seq<Step>, limit: int, c: Conn, d: DeviceID, x: nat, i: nat, j: nat)
    requires i < j < |run| && IsRun(START, run, limit)
  {
    && MadeAt(run, limit, i, c, d, x)
    && exists e: Conn, y: nat ::
         MadeAt(run, limit, j, e, d, y) && Lookup(After(START, run, limit).sessions, d) == Some(y)
  }

  lemma ForeignWasOvertaken(run: seq<Step>, limit: int, c: Conn, d: DeviceID, x: nat)
    requires IsRun(START, run, limit) && Enabled(After(START, run, limit), Capture(c))
    requires After(START, run, limit).handlers[c] == Handler(d, Established(x))
    requires !NoneOr(Lookup(After(START, run, limit).sessions, d), x)
    ensures exists i, j | 0 <= i < j < |run| :: Overtaken(run, limit, c, d, x, i, j)
  {
    var w := After(START, run, limit);
    HistoryHolds(run, limit);
    RunKeepsOrder(START, run, limit);
    var i :| 0 <= i < |run| && MadeAt(run, limit, i, c, d, x);
    var j, e :| 0 <= j < |run| && MadeAt(run, limit, j, e, d, w.sessions[d]);
    MadeInOrder(run, limit, i, j, c, e, d, x, w.sessions[d]);
    assert Overtaken(run, limit, c, d, x, i, j);
  }

  lemma OvertakenIsForeign(run: seq<Step>, limit: int, c: Conn, d: DeviceID, x: nat, i: nat, j: nat)
    requires i < j < |run| && IsRun(START, run, limit) && Overtaken(run, limit, c, d, x, i, j)
    ensures !NoneOr(Lookup(After(START, run, limit).sessions, d), x)
  {
    var e: Conn, y: nat :| MadeAt(run, limit, j, e, d, y) && Lookup(After(START, run, limit).sessions, d) == Some(y);
    MadeInOrder(run, limit, i, j, c, e, d, x, y);
  }

  /** Main result: over all interleavings, a handler captures a session that is not its own exactly if
      another handshake of its device finished in between and the session of that one is still in the
      table at the capture. */
  lemma CapturesForeignExactly(run: seq<Step>, limit: int, c: Conn)
    requires IsRun(START, run, limit) && Enabled(After(START, run, limit), Capture(c))
    ensures var w := After(START, run, limit);
            var d, x := w.handlers[c].device, w.handlers[c].phase.session;
            !NoneOr(Apply(w, Capture(c), limit).handlers[c].phase.own, x)
            <==> exists i, j | 0 <= i < j < |run| :: Overtaken(run, limit, c, d, x, i, j)
  {
    var w := After(START, run, limit);
    var d, x := w.handlers[c].device, w.handlers[c].phase.session;
    if !NoneOr(Lookup(w.sessions, d), x) {
      ForeignWasOvertaken(run, limit, c, d, x);
    }
    forall i, j | 0 <= i < j < |run| && Overtaken(run, limit, c, d, x, i, j)
      ensures !NoneOr(Lookup(w.sessions, d), x)
    {
      OvertakenIsForeign(run, limit, c, d, x, i, j);
    }
  }

  lemma OverlapLeavesForeign(w: World, limit: int, d: DeviceID, c: Conn, e: Conn)
    requires c != e && c in w.handlers && e in w.handlers
    requires w.handlers[c].phase.Handshaking? && w.handlers[e].phase.Handshaking?
    ensures var w1 := Apply(w, FinishHandshake(c, d), limit);
            && Enabled(w1, FinishHandshake(e, d))
            && var w2 := Apply(w1, FinishHandshake(e, d), limit);
               && Enabled(w2, Capture(c))
               && var w3 := Apply(w2, Capture(c), limit);
                  && w3.sessions == w.sessions[d := w.nextSession + 1]
                  && w3.handlers[c] == Handler(d, Captured(w.nextSession, Some(w.nextSession + 1)))
                  && w3.handlers[e] == Handler(d, Established(w.nextSession + 1))
  {
    var w1 := Apply(w, FinishHandshake(c, d), limit);
    assert w1.handlers[c] == Handler(d, Established(w.nextSession)) && w1.handlers[e] == w.handlers[e];
    var w2 := Apply(w1, FinishHandshake(e, d), limit);
    assert w2.handlers[c] == w1.handlers[c] && w2.handlers[e] == Handler(d, Established(w.nextSession + 1));
    assert w2.sessions == w.sessions[d := w.nextSession + 1];
  }

  lemma RunToEnd(w: World, limit: int, c: Conn)
    requires c in w.handlers && w.handlers[c].phase.Captured?
    ensures var run := [Register(c)] + ([End(c)] + []);
            var h := w.handlers[c];
            IsRun(w, run, limit)
            && After(w, run, limit).handlers == w.handlers[c := h.(phase := Ended(h.phase.session, h.phase.own))]
            && After(w, run, limit).sessions == w.sessions
  {
    var v := Apply(w, Register(c), limit);
    Prepend(v, End(c), [], limit);
    Prepend(w, Register(c), [End(c)] + [], limit);
  }

  /** Two connections are accepted and both handlers wait for a handshake. */
  const TWO_WAITING :=
    World(Tables(map[], {0, 1}, 2, false), Accepting,
          map[0 := Handler([], Handshaking), 1 := Handler([], Handshaking)], 2, map[], 2, 0, None)

  lemma OneAccepted(w: World, limit: int, rest: seq<Step>)
    requires w.loop.Accepting? && !w.tables.closing && w.tables.active < limit
    requires var v := Apply(Apply(w, Accept, limit), Spawn, limit); IsRun(v, rest, limit)
    ensures var v := Apply(Apply(w, Accept, limit), Spawn, limit);
            var run := [Accept] + ([Spawn] + rest);
            IsRun(w, run, limit) && After(w, run, limit) == After(v, rest, limit)
  {
    var u := Apply(w, Accept, limit);
    Prepend(u, Spawn, rest, limit);
    Prepend(w, Accept, [Spawn] + rest, limit);
  }

  /** The start of the run below. */
  function TwoConnections(): seq<Step> {
    [Serve] + ([Accept] + ([Spawn] + ([Accept] + ([Spawn] + []))))
  }

  lemma TwoConnectionsWait(limit: int)
    requires limit >= 2
    ensures IsRun(START, TwoConnections(), limit) && After(START, TwoConnections(), limit) == TWO_WAITING
  {
    var w1 := Apply(START, Serve, limit);
    var w2 := Apply(Apply(w1, Accept, limit), Spawn, limit);
    OneAccepted(w2, limit, []);
    OneAccepted(w1, limit, [Accept] + ([Spawn] + []));
    Prepend(START, Serve, [Accept] + ([Spawn] + ([Accept] + ([Spawn] + []))), limit);
    assert After(START, TwoConnections(), limit) == TWO_WAITING;
  }

  /** Both finish their handshakes for one device before the first captures. */
  function Overlapping(d: DeviceID, c: Conn, e: Conn): seq<Step> {
    [FinishHandshake(c, d)] + ([FinishHandshake(e, d)] + ([Capture(c)] + ([Register(c)] + ([End(c)] + []))))
  }

  lemma ForeignIsClosed(w: World, limit: int, d: DeviceID, c: Conn, e: Conn, x: nat)
    requires c != e && c in w.handlers && e in w.handlers && Lookup(w.sessions, d) == Some(x + 1)
    requires w.handlers[c] == Handler(d, Captured(x, Some(x + 1))) && w.handlers[e] == Handler(d, Established(x + 1))
    ensures var rest := [Register(c)] + ([End(c)] + []);
            && IsRun(w, rest, limit)
            && var v := After(w, rest, limit);
               && Enabled(v, CloseOwn(c)) && Owns(v, d, x + 1, e)
               && Lookup(v.sessions, d) == Some(x + 1)
               && d !in Apply(v, CloseOwn(c), limit).sessions
  {
    RunToEnd(w, limit, c);
  }

  lemma OverlappingRuns(w: World, limit: int, d: DeviceID, c: Conn, e: Conn)
    requires c != e && c in w.handlers && e in w.handlers
    requires w.handlers[c].phase.Handshaking? && w.handlers[e].phase.Handshaking?
    ensures IsRun(w, Overlapping(d, c, e), limit)
    ensures var v := After(w, Overlapping(d, c, e), limit);
            && Enabled(v, CloseOwn(c)) && Owns(v, d, w.nextSession + 1, e)
            && Lookup(v.sessions, d) == Some(w.nextSession + 1)
            && d !in Apply(v, CloseOwn(c), limit).sessions
  {
    OverlapLeavesForeign(w, limit, d, c, e);
    var w1 := Apply(w, FinishHandshake(c, d), limit);
    var w2 := Apply(w1, FinishHandshake(e, d), limit);
    ForeignIsClosed(Apply(w2, Capture(c), limit), limit, d, c, e, w.nextSession);
    var rest := [Register(c)] + ([End(c)] + []);
    Prepend(w2, Capture(c), rest, limit);
    Prepend(w1, FinishHandshake(e, d), [Capture(c)] + rest, limit);
    Prepend(w, FinishHandshake(c, d), [FinishHandshake(e, d)] + ([Capture(c)] + rest), limit);
  }

  /** It happens: from the start of the server, with room for two connections, the first handler of a
      device closes the session of the second, whose handler keeps running without one. */
  lemma CanCloseAnothers(limit: int, d: DeviceID)
    requires limit >= 2
    ensures var run := TwoConnections() + Overlapping(d, 0, 1);
            IsRun(START, run, limit)
            && var v := After(START, run, limit);
               && Enabled(v, CloseOwn(0)) && Owns(v, d, 1, 1) && Lookup(v.sessions, d) == Some(1)
               && d !in Apply(v, CloseOwn(0), limit).sessions
  {
    TwoConnectionsWait(limit);
    OverlappingRuns(TWO_WAITING, limit, d, 0, 1);
    Continue(START, TwoConnections(), Overlapping(d, 0, 1), limit);
  }

  /** The first connection is on record when the second finishes a handshake of the same device. */
  function OnRecord(d: DeviceID, c: Conn, e: Conn): seq<Step> {
    [FinishHandshake(c, d)] + ([Capture(c)] + ([Register(c)] + ([FinishHandshake(e, d)] + [])))
  }

  /** The first is cut and its handler ends, and the second goes on record. */
  function CutAndReplaced(c: Conn, e: Conn): seq<Step> {
    [End(c)] + ([CloseOwn(c)] + ([Unregister(c)] + ([Capture(e)] + ([Register(e)] + []))))
  }

  function Recorded(w: World, limit: int, c: Conn): World
    requires c in w.handlers && w.handlers[c].phase.Established?
  {
    Apply(Apply(w, Capture(c), limit), Register(c), limit)
  }

  lemma GoesOnRecord(w: World, limit: int, d: DeviceID, c: Conn, x: nat, rest: seq<Step>)
    requires c in w.handlers && w.handlers[c] == Handler(d, Established(x)) && Lookup(w.sessions, d) == Some(x)
    requires IsRun(Recorded(w, limit, c), rest, limit)
    ensures var v := Recorded(w, limit, c);
            && v.handlers == w.handlers[c := Handler(d, Serving(x, Some(x)))]
            && v.sessions == w.sessions && v.nextSession == w.nextSession && Lookup(v.tables.conns, d) == Some(c)
            && IsRun(w, [Capture(c)] + ([Register(c)] + rest), limit)
            && After(w, [Capture(c)] + ([Register(c)] + rest), limit) == After(v, rest, limit)
  {
    Prepend(Apply(w, Capture(c), limit), Register(c), rest, limit);
    Prepend(w, Capture(c), [Register(c)] + rest, limit);
  }

  lemma OnRecordRuns(w: World, limit: int, d: DeviceID, c: Conn, e: Conn)
    requires c != e && c in w.handlers && e in w.handlers
    requires w.handlers[c].phase.Handshaking? && w.handlers[e].phase.Handshaking?
    ensures IsRun(w, OnRecord(d, c, e), limit)
    ensures var v := After(w, OnRecord(d, c, e), limit);
            && Lookup(v.tables.conns, d) == Some(c) && Lookup(v.sessions, d) == Some(w.nextSession + 1)
            && c in v.handlers && v.handlers[c] == Handler(d, Serving(w.nextSession, Some(w.nextSession)))
            && e in v.handlers && v.handlers[e] == Handler(d, Established(w.nextSession + 1))
  {
    var w1 := Apply(w, FinishHandshake(c, d), limit);
    GoesOnRecord(w1, limit, d, c, w.nextSession, []);
    var w2 := Recorded(w1, limit, c);
    Prepend(w2, FinishHandshake(e, d), [], limit);
    GoesOnRecord(w1, limit, d, c, w.nextSession, [FinishHandshake(e, d)] + []);
    Prepend(w, FinishHandshake(c, d), [Capture(c)] + ([Register(c)] + ([FinishHandshake(e, d)] + [])), limit);
  }

  function Gone(w: World, limit: int, c: Conn): World
    requires c in w.handlers && w.handlers[c].phase.Serving?
  {
    Apply(Apply(Apply(w, End(c), limit), CloseOwn(c), limit), Unregister(c), limit)
  }

  lemma HandlerEnds(w: World, limit: int, d: DeviceID, c: Conn, x: nat, rest: seq<Step>)
    requires c in w.handlers && w.handlers[c] == Handler(d, Serving(x, Some(x))) && Lookup(w.sessions, d) != Some(x)
    requires IsRun(Gone(w, limit, c), rest, limit)
    ensures var v := Gone(w, limit, c);
            && v.handlers == w.handlers[c := Handler(d, Returned)] && v.sessions == w.sessions
            && IsRun(w, [End(c)] + ([CloseOwn(c)] + ([Unregister(c)] + rest)), limit)
            && After(w, [End(c)] + ([CloseOwn(c)] + ([Unregister(c)] + rest)), limit) == After(v, rest, limit)
  {
    var w1 := Apply(w, End(c), limit);
    Prepend(Apply(w1, CloseOwn(c), limit), Unregister(c), rest, limit);
    Prepend(w1, CloseOwn(c), [Unregister(c)] + rest, limit);
    Prepend(w, End(c), [CloseOwn(c)] + ([Unregister(c)] + rest), limit);
  }

  lemma CutRuns(w: World, limit: int, d: DeviceID, c: Conn, e: Conn, x: nat, y: nat)
    requires c != e && x != y && c in w.handlers && e in w.handlers && Lookup(w.sessions, d) == Some(y)
    requires w.handlers[c] == Handler(d, Serving(x, Some(x))) && w.handlers[e] == Handler(d, Established(y))
    ensures IsRun(w, CutAndReplaced(c, e), limit)
    ensures var v := After(w, CutAndReplaced(c, e), limit);
            && Lookup(v.tables.conns, d) == Some(e) && v.sessions == w.sessions
            && c in v.handlers && v.handlers[c].phase.Returned?
  {
    HandlerEnds(w, limit, d, c, x, []);
    GoesOnRecord(Gone(w, limit, c), limit, d, e, y, []);
    HandlerEnds(w, limit, d, c, x, [Capture(e)] + ([Register(e)] + []));
  }

  /** Cutting a device's connection need not take its session down, however soon the handler ends: from
      the start, the connection on record is cut and its handler returns, and the session is still the
      one that another handler of the device has made and now serves. */
  lemma CutCanMissSession(limit: int, d: DeviceID)
    requires limit >= 2
    ensures var before := TwoConnections() + OnRecord(d, 0, 1);
            && IsRun(START, before, limit)
            && var w := After(START, before, limit);
               && Lookup(w.tables.conns, d) == Some(0) && Lookup(w.sessions, d) == Some(1)
               && IsRun(w, CutAndReplaced(0, 1), limit)
               && var v := After(w, CutAndReplaced(0, 1), limit);
                  && 0 in v.handlers && v.handlers[0].phase.Returned?
                  && Lookup(v.tables.conns, d) == Some(1) && Lookup(v.sessions, d) == Some(1)
  {
    TwoConnectionsWait(limit);
    OnRecordRuns(TWO_WAITING, limit, d, 0, 1);
    Continue(START, TwoConnections(), OnRecord(d, 0, 1), limit);
    CutRuns(After(START, TwoConnections() + OnRecord(d, 0, 1), limit), limit, d, 0, 1, 0, 1);
  }
}
