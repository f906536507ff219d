/** What the books of the scheduler say about the whole history of turns and sweeps, for any number
    of ticks over any devices. */
module SchedulerRuns {
  import opened Options
  import opened Schedulers
  import opened Sessions
  import Terms

  /** A tick is one turn per connected device and then one sweep. */
  datatype Step = Took(turn: Turn) | Swept(active: set<DeviceID>, now: int)

  const EMPTY := Books(map[], map[], map[], map[])

  function Next(b: Books, cfg: Config, s: Step): Books {
    match s
    case Took(t) => b.Serve(cfg, t).0
    case Swept(active, now) => b.Sweep(active, now)
  }

  function After(cfg: Config, steps: seq<Step>): Books {
    if steps == [] then EMPTY else Next(After(cfg, steps[..|steps| - 1]), cfg, steps[|steps| - 1])
  }

  function Clock(s: Step): int {
    match s
    case Took(t) => t.at
    case Swept(_, now) => now
  }

  /** The clock does not run backwards. */
  ghost predicate Monotone(steps: seq<Step>) {
    forall i, j | 0 <= i < j < |steps| :: Clock(steps[i]) <= Clock(steps[j])
  }

  predicate TimedOut(s: Step, d: DeviceID) {
    s.Took? && s.turn.device == d && s.turn.aborted
  }

  /** The scheduler reads the iteration of the device's session. */
  predicate Looked(s: Step, d: DeviceID) {
    s.Took? && s.turn.device == d && !s.turn.aborted && !s.turn.pending
  }

  predicate Left(s: Step, d: DeviceID) {
    s.Swept? && d !in s.active
  }

  /** At step i, step q is the last look at a device that has not left since. */
  ghost predicate LastLook(steps: seq<Step>, q: int, i: nat, d: DeviceID)
    requires i <= |steps|
  {
    0 <= q < i && Looked(steps[q], d) && forall k | q < k < i :: !Looked(steps[k], d) && !Left(steps[k], d)
  }

  /** A rotation is seen to have succeeded. */
  ghost predicate Grew(steps: seq<Step>, i: nat, d: DeviceID)
    requires i < |steps|
  {
    Looked(steps[i], d) && exists q :: LastLook(steps, q, i, d) && steps[q].turn.iteration < steps[i].turn.iteration
  }

  /** An hour has gone by without a new timeout. */
  ghost predicate QuietHour(steps: seq<Step>, i: nat, d: DeviceID)
    requires i < |steps|
  {
    steps[i].Swept?
    && forall j | 0 <= j < i && TimedOut(steps[j], d) :: steps[j].turn.at < steps[i].now - FAILURE_RETENTION
  }

  /** The timeouts of a device since its last reset; reaching the limit is itself a reset. */
  ghost function Timeouts(steps: seq<Step>, d: DeviceID, limit: int): nat {
    if steps == [] then 0 else
      var n := |steps| - 1;
      var before := Timeouts(steps[..n], d, limit);
      if Grew(steps, n, d) || QuietHour(steps, n, d) then 0
      else if !TimedOut(steps[n], d) then before
      else if before + 1 < limit then before + 1
      else 0
  }

  ghost predicate FailuresTrack(b: Books, steps: seq<Step>, d: DeviceID, limit: int) {
    && b.Count(d) == Timeouts(steps, d, limit)
    && (d in b.failures <==> b.Count(d) > 0)
    && (d in b.failures <==> d in b.failureSeen)
    && (d in b.failureSeen ==>
          && (exists j :: 0 <= j < |steps| && TimedOut(steps[j], d) && steps[j].turn.at == b.failureSeen[d])
          && forall j | 0 <= j < |steps| && TimedOut(steps[j], d) :: steps[j].turn.at <= b.failureSeen[d])
  }

  ghost predicate LookTracks(b: Books, steps: seq<Step>, d: DeviceID) {
    && (d in b.lastIteration <==> exists q :: LastLook(steps, q, |steps|, d))
    && forall q | LastLook(steps, q, |steps|, d) :: steps[q].turn.iteration == b.lastIteration[d]
  }

  lemma LookOfPrefix(steps: seq<Step>, q: int, d: DeviceID)
    requires steps != []
    ensures var n := |steps| - 1;
            LastLook(steps, q, n + 1, d) ==
            if q == n then Looked(steps[n], d)
            else LastLook(steps[..n], q, n, d) && !Looked(steps[n], d) && !Left(steps[n], d)
  {
    var n := |steps| - 1;
    assert forall k | 0 <= k < n :: steps[..n][k] == steps[k];
  }

  /** What a step does to the iteration on the books. */
  lemma StepOnLook(b: Books, cfg: Config, s: Step, d: DeviceID)
    ensures var v := Next(b, cfg, s);
            if Looked(s, d) then d in v.lastIteration && v.lastIteration[d] == s.turn.iteration
            else if Left(s, d) then d !in v.lastIteration
            else (d in v.lastIteration <==> d in b.lastIteration)
                 && (d in b.lastIteration ==> v.lastIteration[d] == b.lastIteration[d])
  {
  }

  lemma LookKept(b: Books, cfg: Config, steps: seq<Step>, d: DeviceID)
    requires steps != [] && LookTracks(b, steps[..|steps| - 1], d)
    ensures LookTracks(Next(b, cfg, steps[|steps| - 1]), steps, d)
  {
    var n := |steps| - 1;
    var before := steps[..n];
    assert |before| == n;
    StepOnLook(b, cfg, steps[n], d);
    forall q
      ensures LastLook(steps, q, |steps|, d) ==
              if q == n then Looked(steps[n], d)
              else LastLook(before, q, |before|, d) && !Looked(steps[n], d) && !Left(steps[n], d)
    {
      LookOfPrefix(steps, q, d);
    }
    if Looked(steps[n], d) {
      assert LastLook(steps, n, |steps|, d);
    } else if !Left(steps[n], d) {
      forall q | LastLook(before, q, |before|, d)
        ensures LastLook(steps, q, |steps|, d) && d in b.lastIteration && steps[q].turn.iteration == b.lastIteration[d]
      {
        assert before[q] == steps[q];
      }
      if d in b.lastIteration {
        var q :| LastLook(before, q, |before|, d);
        assert LastLook(steps, q, |steps|, d);
      }
    }
  }

  lemma GrewIsOnTheBooks(b: Books, steps: seq<Step>, d: DeviceID)
    requires steps != [] && LookTracks(b, steps[..|steps| - 1], d) && Looked(steps[|steps| - 1], d)
    ensures Grew(steps, |steps| - 1, d) ==
            (d in b.lastIteration && steps[|steps| - 1].turn.iteration > b.lastIteration[d])
  {
    var n := |steps| - 1;
    assert forall q :: LastLook(steps, q, n, d) <==> LastLook(steps[..n], q, n, d);
  }

  ghost predicate SameFailures(b: Books, v: Books, d: DeviceID) {
    && b.Count(d) == v.Count(d)
    && (d in b.failures <==> d in v.failures)
    && (d in b.failureSeen <==> d in v.failureSeen)
    && (d in b.failureSeen ==> v.failureSeen[d] == b.failureSeen[d])
  }

  ghost predicate NoFailures(v: Books, d: DeviceID) {
    v.Count(d) == 0 && d !in v.failures && d !in v.failureSeen
  }

  /** What a turn does to the failure record of each device. */
  lemma TurnOnFailures(b: Books, cfg: Config, t: Turn, d: DeviceID)
    requires d in b.failures <==> d in b.failureSeen
    requires d in b.failures <==> b.Count(d) > 0
    ensures var v := b.Serve(cfg, t).0;
            if TimedOut(Took(t), d) then
              if b.Count(d) + 1 < cfg.maxFailures
              then v.Count(d) == b.Count(d) + 1 && d in v.failures && d in v.failureSeen && v.failureSeen[d] == t.at
              else NoFailures(v, d)
            else if Looked(Took(t), d) && d in b.lastIteration && t.iteration > b.lastIteration[d] then NoFailures(v, d)
            else SameFailures(b, v, d)
  {
  }

  lemma StaleIsQuiet(b: Books, steps: seq<Step>, d: DeviceID, limit: int)
    requires steps != [] && steps[|steps| - 1].Swept? && FailuresTrack(b, steps[..|steps| - 1], d, limit)
    ensures d in b.failureSeen ==>
              (QuietHour(steps, |steps| - 1, d) <==> b.failureSeen[d] < steps[|steps| - 1].now - FAILURE_RETENTION)
  {
    var n := |steps| - 1;
    assert forall k | 0 <= k < n :: steps[..n][k] == steps[k];
  }

  lemma SweepKeepsFailures(b: Books, cfg: Config, steps: seq<Step>, d: DeviceID)
    requires steps != [] && steps[|steps| - 1].Swept?
    requires FailuresTrack(b, steps[..|steps| - 1], d, cfg.maxFailures)
    ensures FailuresTrack(Next(b, cfg, steps[|steps| - 1]), steps, d, cfg.maxFailures)
  {
    var n := |steps| - 1;
    var v := Next(b, cfg, steps[n]);
    StaleIsQuiet(b, steps, d, cfg.maxFailures);
    assert NoFailures(v, d) || SameFailures(b, v, d);
    if d in v.failureSeen {
      SeenKept(b, v, steps, d, cfg.maxFailures);
    }
  }

  lemma SeenKept(b: Books, v: Books, steps: seq<Step>, d: DeviceID, limit: int)
    requires steps != [] && FailuresTrack(b, steps[..|steps| - 1], d, limit)
    requires d in b.failureSeen && d in v.failureSeen && v.failureSeen[d] == b.failureSeen[d]
    requires !TimedOut(steps[|steps| - 1], d)
    ensures exists j :: 0 <= j < |steps| && TimedOut(steps[j], d) && steps[j].turn.at == v.failureSeen[d]
    ensures forall j | 0 <= j < |steps| && TimedOut(steps[j], d) :: steps[j].turn.at <= v.failureSeen[d]
  {
    var n := |steps| - 1;
    var j :| 0 <= j < n && TimedOut(steps[..n][j], d) && steps[..n][j].turn.at == b.failureSeen[d];
    assert TimedOut(steps[j], d);
    assert forall k | 0 <= k < n :: steps[..n][k] == steps[k];
  }

  lemma TurnKeepsFailures(b: Books, cfg: Config, steps: seq<Step>, d: DeviceID)
    requires steps != [] && steps[|steps| - 1].Took? && Monotone(steps)
    requires LookTracks(b, steps[..|steps| - 1], d)
    requires FailuresTrack(b, steps[..|steps| - 1], d, cfg.maxFailures)
    ensures FailuresTrack(Next(b, cfg, steps[|steps| - 1]), steps, d, cfg.maxFailures)
  {
    var n := |steps| - 1;
    var s, v := steps[n], Next(b, cfg, steps[n]);
    TurnOnFailures(b, cfg, s.turn, d);
    if TimedOut(s, d) {
      forall k | 0 <= k < |steps| && TimedOut(steps[k], d)
        ensures steps[k].turn.at <= s.turn.at
      {
        assert k < n ==> Clock(steps[k]) <= Clock(s);
      }
    } else {
      if Looked(s, d) {
        GrewIsOnTheBooks(b, steps, d);
      }
      if d in v.failureSeen {
        SeenKept(b, v, steps, d, cfg.maxFailures);
      }
    }
  }

  lemma {:induction false} BooksTrack(cfg: Config, steps: seq<Step>, d: DeviceID)
    requires Monotone(steps)
    ensures LookTracks(After(cfg, steps), steps, d)
    ensures FailuresTrack(After(cfg, steps), steps, d, cfg.maxFailures)
  {
    if steps != [] {
      var n := |steps| - 1;
      BooksTrack(cfg, steps[..n], d);
      LookKept(After(cfg, steps[..n]), cfg, steps, d);
      assert forall i | 0 <= i < n :: Clock(steps[..n][i]) == Clock(steps[i]);
      if steps[n].Took? {
        TurnKeepsFailures(After(cfg, steps[..n]), cfg, steps, d);
      } else {
        SweepKeepsFailures(After(cfg, steps[..n]), cfg, steps, d);
      }
    }
  }

  /** The failure count of every device, connected or not, is its timeouts since the last reset. */
  lemma FailuresCountTimeouts(cfg: Config, steps: seq<Step>, d: DeviceID)
    requires Monotone(steps)
    ensures After(cfg, steps).Count(d) == Timeouts(steps, d, cfg.maxFailures)
  {
    BooksTrack(cfg, steps, d);
  }

  ghost predicate IsReset(steps: seq<Step>, i: nat, d: DeviceID, limit: int)
    requires i < |steps|
  {
    || Grew(steps, i, d)
    || QuietHour(steps, i, d)
    || (TimedOut(steps[i], d) && Timeouts(steps[..i], d, limit) + 1 >= limit)
  }

  function TimeoutsIn(steps: seq<Step>, d: DeviceID): nat {
    if steps == [] then 0 else TimeoutsIn(steps[..|steps| - 1], d) + if TimedOut(steps[|steps| - 1], d) then 1 else 0
  }

  ghost predicate CountsFrom(steps: seq<Step>, r: nat, d: DeviceID, limit: int)
    requires r <= |steps|
  {
    && Timeouts(steps, d, limit) == TimeoutsIn(steps[r..], d)
    && (r > 0 ==> IsReset(steps, r - 1, d, limit))
    && forall k | r <= k < |steps| :: !IsReset(steps, k, d, limit)
  }

  lemma ResetOfPrefix(steps: seq<Step>, n: nat, k: nat, d: DeviceID, limit: int)
    requires k < n <= |steps|
    ensures IsReset(steps[..n], k, d, limit) == IsReset(steps, k, d, limit)
  {
    assert steps[..n][..k] == steps[..k];
    assert forall q :: LastLook(steps[..n], q, k, d) <==> LastLook(steps, q, k, d);
    assert forall q | 0 <= q <= k :: steps[..n][q] == steps[q];
  }

  lemma LastOfSuffix(steps: seq<Step>, r: nat)
    requires r < |steps|
    ensures steps[r..] == steps[..|steps| - 1][r..] + [steps[|steps| - 1]]
    ensures steps[r..][..|steps[r..]| - 1] == steps[..|steps| - 1][r..]
  {
    assert steps == steps[..|steps| - 1] + [steps[|steps| - 1]];
  }

  lemma SumGoesOn(steps: seq<Step>, r: nat, d: DeviceID)
    requires r < |steps|
    ensures TimeoutsIn(steps[r..], d)
            == TimeoutsIn(steps[..|steps| - 1][r..], d) + if TimedOut(steps[|steps| - 1], d) then 1 else 0
  {
    LastOfSuffix(steps, r);
    assert steps[r..][|steps[r..]| - 1] == steps[|steps| - 1];
  }

  lemma TimeoutsGoOn(steps: seq<Step>, d: DeviceID, limit: int)
    requires steps != [] && !IsReset(steps, |steps| - 1, d, limit)
    ensures Timeouts(steps, d, limit)
            == Timeouts(steps[..|steps| - 1], d, limit) + if TimedOut(steps[|steps| - 1], d) then 1 else 0
  {
  }

  lemma CountGoesOn(steps: seq<Step>, r: nat, d: DeviceID, limit: int)
    requires r < |steps| && CountsFrom(steps[..|steps| - 1], r, d, limit) && !IsReset(steps, |steps| - 1, d, limit)
    ensures CountsFrom(steps, r, d, limit)
  {
    var n := |steps| - 1;
    SumGoesOn(steps, r, d);
    TimeoutsGoOn(steps, d, limit);
    if r > 0 {
      ResetOfPrefix(steps, n, r - 1, d, limit);
    }
    forall k | r <= k < |steps|
      ensures !IsReset(steps, k, d, limit)
    {
      if k < n {
        ResetOfPrefix(steps, n, k, d, limit);
      }
    }
  }

  /** Between two resets nothing but the timeouts themselves changes the count. */
  lemma {:induction false} CountedSinceReset(steps: seq<Step>, d: DeviceID, limit: int)
    ensures exists r | 0 <= r <= |steps| :: CountsFrom(steps, r, d, limit)
  {
    if steps == [] {
      assert CountsFrom(steps, 0, d, limit);
    } else {
      var n := |steps| - 1;
      CountedSinceReset(steps[..n], d, limit);
      var r :| 0 <= r <= n && CountsFrom(steps[..n], r, d, limit);
      if IsReset(steps, n, d, limit) {
        assert steps[n + 1..] == [];
        assert CountsFrom(steps, n + 1, d, limit);
      } else {
        CountGoesOn(steps, r, d, limit);
      }
    }
  }

  /** The count stays below the limit from step to step exactly when the limit is positive. */
  lemma {:induction false} BelowLimit(cfg: Config, steps: seq<Step>, d: DeviceID)
    requires Monotone(steps)
    ensures After(cfg, steps).Count(d) < cfg.maxFailures <==> cfg.maxFailures >= 1
  {
    BooksTrack(cfg, steps, d);
    TimeoutsBelow(steps, d, cfg.maxFailures);
  }

  lemma {:induction false} TimeoutsBelow(steps: seq<Step>, d: DeviceID, limit: int)
    ensures Timeouts(steps, d, limit) < limit || Timeouts(steps, d, limit) == 0
  {
    if steps != [] {
      TimeoutsBelow(steps[..|steps| - 1], d, limit);
    }
  }

  lemma ServeActions(b: Books, cfg: Config, t: Turn)
    ensures var actions := b.Serve(cfg, t).1;
            && (Disconnect(t.device) in actions <==> t.aborted)
            && (Revoke(t.device) in actions <==> t.aborted && b.Count(t.device) + 1 >= cfg.maxFailures)
            && (Initiate(t.device) in actions <==> !t.aborted && !t.pending && t.needs)
            && forall a | a in actions :: a.device == t.device
  {
  }

  /** A turn cuts the connection exactly if a rotation has waited for the timeout, and undoes it;
      revokes exactly if that is the timeout which reaches the limit in the history; and begins a
      rotation exactly if one is due and none is pending, so that it is never refused. */
  lemma TurnActions(
    cfg: Config, steps: seq<Step>, d: DeviceID, session: Option<SessionState>, at: int, sent: bool,
    connected: bool, seed: nat)
    requires Monotone(steps)
    ensures var t := Observe(cfg.limits, d, session, at, sent);
            var actions := After(cfg, steps).Serve(cfg, t).1;
            var stale := session.Some? && session.value.pendingActive
                         && at - session.value.pendingStartedAt >= cfg.limits.ackTimeout;
            && (Disconnect(d) in actions <==> stale)
            && (Revoke(d) in actions <==> stale && Timeouts(steps, d, cfg.maxFailures) + 1 >= cfg.maxFailures)
            && (Initiate(d) in actions <==>
                  session.Some? && !session.value.pendingActive
                  && session.value.NeedsRotation(cfg.limits, at))
            && After(cfg, steps).MaybeRotate(cfg, t).1
               == (if stale then
                     (if Timeouts(steps, d, cfg.maxFailures) + 1 >= cfg.maxFailures then [Revoke(d)] else [])
                     + [Disconnect(d)]
                   else if session.Some? && !session.value.pendingActive
                           && session.value.NeedsRotation(cfg.limits, at) then [Initiate(d)]
                   else [])
            && (stale ==> !SessionAfter(session.value, t, actions, connected, seed).pendingActive)
            && (Initiate(d) in actions ==> session.value.Initiate(Terms.Device, seed, at).Ok?)
            && (session.Some? && !session.value.pendingActive ==>
                  var seen := After(cfg, steps).Serve(cfg, t).0.lastIteration;
                  d in seen && seen[d] == session.value.iteration)
            && forall a | a in actions :: a.device == d
  {
    FailuresCountTimeouts(cfg, steps, d);
    ServeActions(After(cfg, steps), cfg, Observe(cfg.limits, d, session, at, sent));
  }

  /** What a turn leaves of the session: a stale rotation is undone, and the session closed if this was
      one timeout too many; a rotation that is due begins over a connection; nothing else changes. */
  lemma TurnOnSession(cfg: Config, b: Books, v: Visit, s: SessionState)
    ensures var left := ViewAfter(v, Some(s), cfg, b, Observe(cfg.limits, v.device, Some(s), v.at, v.challengeSent));
            var stale := s.pendingActive && v.at - s.pendingStartedAt >= cfg.limits.ackTimeout;
            && left.Some?
            && if stale && b.Count(v.device) + 1 >= cfg.maxFailures then
                 left.value.closed && !left.value.pendingActive && left.value.key == Terms.Zero
               else if stale then
                 left.value == s.AbortRotate() && !left.value.pendingActive && left.value.key == s.key
               else if !s.pendingActive && s.NeedsRotation(cfg.limits, v.at) && v.connected then
                 && left.value.pendingActive && left.value.pendingIteration == s.iteration + 1
                 && left.value.pendingKey == Terms.Next(s.key, Terms.Shared(v.seed), s.iteration + 1)
                 && left.value.key == s.key && left.value.pendingStartedAt == v.at
               else left.value == s
  {
  }

  /** Being disconnected does not clear the count; only an hour of absence does. */
  lemma {:induction false} AbsenceKeepsCount(cfg: Config, steps: seq<Step>, more: seq<Step>, d: DeviceID, j: nat)
    requires j < |steps| && TimedOut(steps[j], d)
    requires forall s | s in more :: s.Swept? && s.now <= steps[j].turn.at + FAILURE_RETENTION
    ensures Timeouts(steps + more, d, cfg.maxFailures) == Timeouts(steps, d, cfg.maxFailures)
  {
    if more == [] {
      assert steps + more == steps;
    } else {
      var n := |more| - 1;
      AbsenceKeepsCount(cfg, steps, more[..n], d, j);
      assert (steps + more)[..|steps| + n] == steps + more[..n];
      assert (steps + more)[|steps| + n] == more[n] && more[n] in more;
      assert (steps + more)[j] == steps[j];
    }
  }

  ghost predicate Issued(cfg: Config, steps: seq<Step>, i: int, d: DeviceID) {
    && 0 <= i < |steps| && steps[i].Took? && steps[i].turn.device == d
    && Challenge(d) in After(cfg, steps[..i]).Serve(cfg, steps[i].turn).1
  }

  /** A challenge went out at step i and the device has stayed connected since. */
  ghost predicate Standing(cfg: Config, steps: seq<Step>, i: int, d: DeviceID) {
    Issued(cfg, steps, i, d) && forall k | i < k < |steps| :: !Left(steps[k], d)
  }

  ghost predicate ChecksTrack(cfg: Config, steps: seq<Step>, d: DeviceID) {
    var b := After(cfg, steps);
    && (d in b.lastCheck ==> exists i :: Standing(cfg, steps, i, d) && steps[i].turn.at == b.lastCheck[d])
    && (forall i | Standing(cfg, steps, i, d) :: d in b.lastCheck && steps[i].turn.at <= b.lastCheck[d])
  }

  lemma IssuedOfPrefix(cfg: Config, steps: seq<Step>, i: int, d: DeviceID)
    requires steps != [] && i < |steps| - 1
    ensures Issued(cfg, steps[..|steps| - 1], i, d) == Issued(cfg, steps, i, d)
  {
    if 0 <= i {
      assert steps[..|steps| - 1][..i] == steps[..i];
    }
  }

  lemma TurnOnChecks(b: Books, cfg: Config, t: Turn, d: DeviceID)
    ensures var v := b.Serve(cfg, t).0;
            if Challenge(d) in b.Serve(cfg, t).1
            then d in v.lastCheck && v.lastCheck[d] == t.at
            else (d in v.lastCheck <==> d in b.lastCheck) && (d in b.lastCheck ==> v.lastCheck[d] == b.lastCheck[d])
    ensures Challenge(d) in b.Serve(cfg, t).1 ==> t.device == d
  {
  }

  lemma StandingOfPrefix(cfg: Config, steps: seq<Step>, i: int, d: DeviceID)
    requires steps != [] && i < |steps| - 1
    ensures Standing(cfg, steps, i, d) ==
            (Standing(cfg, steps[..|steps| - 1], i, d) && !Left(steps[|steps| - 1], d))
  {
    var n := |steps| - 1;
    IssuedOfPrefix(cfg, steps, i, d);
    assert forall k | 0 <= k < n :: steps[..n][k] == steps[k];
  }

  lemma {:induction false} ChecksKept(cfg: Config, steps: seq<Step>, d: DeviceID)
    requires Monotone(steps)
    ensures ChecksTrack(cfg, steps, d)
  {
    if steps != [] {
      var n := |steps| - 1;
      assert forall i | 0 <= i < n :: Clock(steps[..n][i]) == Clock(steps[i]);
      ChecksKept(cfg, steps[..n], d);
      if Issued(cfg, steps, n, d) {
        IssuedIsLatest(cfg, After(cfg, steps[..n]), steps, d);
      } else if Left(steps[n], d) {
        DepartureEnds(cfg, steps, d);
      } else {
        QuietStepKeeps(cfg, After(cfg, steps[..n]), steps, d);
      }
    }
  }

  /** The challenge of the last step is the latest. */
  lemma IssuedIsLatest(cfg: Config, b: Books, steps: seq<Step>, d: DeviceID)
    requires steps != [] && Monotone(steps) && b == After(cfg, steps[..|steps| - 1])
    requires Issued(cfg, steps, |steps| - 1, d)
    ensures ChecksTrack(cfg, steps, d)
  {
    var n := |steps| - 1;
    TurnOnChecks(b, cfg, steps[n].turn, d);
    assert Standing(cfg, steps, n, d) && After(cfg, steps).lastCheck[d] == steps[n].turn.at;
    forall i | Standing(cfg, steps, i, d)
      ensures steps[i].turn.at <= steps[n].turn.at
    {
      assert i < n ==> Clock(steps[i]) <= Clock(steps[n]);
    }
  }

  /** Neither a challenge nor a departure at the last step: what stood still stands. */
  lemma QuietStepKeeps(cfg: Config, b: Books, steps: seq<Step>, d: DeviceID)
    requires steps != [] && b == After(cfg, steps[..|steps| - 1])
    requires ChecksTrack(cfg, steps[..|steps| - 1], d)
    requires !Issued(cfg, steps, |steps| - 1, d) && !Left(steps[|steps| - 1], d)
    ensures ChecksTrack(cfg, steps, d)
  {
    var n := |steps| - 1;
    SameCheck(cfg, b, steps[n], d);
    if d in b.lastCheck {
      var i :| Standing(cfg, steps[..n], i, d) && steps[..n][i].turn.at == b.lastCheck[d];
      StandingOfPrefix(cfg, steps, i, d);
      assert Standing(cfg, steps, i, d) && steps[i].turn.at == b.lastCheck[d];
    }
    forall i | Standing(cfg, steps, i, d)
      ensures d in b.lastCheck && steps[i].turn.at <= b.lastCheck[d]
    {
      StandingOfPrefix(cfg, steps, i, d);
      assert Standing(cfg, steps[..n], i, d) && steps[..n][i] == steps[i];
    }
  }

  lemma DepartureEnds(cfg: Config, steps: seq<Step>, d: DeviceID)
    requires steps != [] && Left(steps[|steps| - 1], d)
    ensures ChecksTrack(cfg, steps, d)
  {
    assert d !in After(cfg, steps).lastCheck;
    forall i
      ensures !Standing(cfg, steps, i, d)
    {
      assert !Issued(cfg, steps, |steps| - 1, d);
    }
  }

  lemma SameCheck(cfg: Config, b: Books, s: Step, d: DeviceID)
    requires !Left(s, d) && (s.Took? ==> Challenge(d) !in b.Serve(cfg, s.turn).1)
    ensures var v := Next(b, cfg, s);
            (d in v.lastCheck <==> d in b.lastCheck) && (d in b.lastCheck ==> v.lastCheck[d] == b.lastCheck[d])
  {
    if s.Took? {
      TurnOnChecks(b, cfg, s.turn, d);
    }
  }

  /** A firmware challenge is held back exactly when one went out less than the interval ago and
      the device has not been away since. */
  lemma ChallengeDueExactly(cfg: Config, steps: seq<Step>, t: Turn)
    requires Monotone(steps)
    ensures After(cfg, steps).MaybeRotate(cfg, t).0.ChallengeDue(cfg, t.device, t.at)
            <==> forall i | Standing(cfg, steps, i, t.device) :: t.at - steps[i].turn.at >= cfg.firmwareInterval
  {
    ChecksKept(cfg, steps, t.device);
  }

  /** Main result: a challenge goes out, and is remembered as of now, exactly if it can be sent and none
      went out within the interval to a device that has stayed connected since. */
  lemma ChallengeGoesExactly(cfg: Config, steps: seq<Step>, t: Turn)
    requires Monotone(steps)
    ensures var (b, actions) := After(cfg, steps).Serve(cfg, t);
            && (Challenge(t.device) in actions
                <==> t.challengeSent
                     && forall i | Standing(cfg, steps, i, t.device) ::
                          t.at - steps[i].turn.at >= cfg.firmwareInterval)
            && (Challenge(t.device) in actions ==> t.device in b.lastCheck && b.lastCheck[t.device] == t.at)
  {
    ChallengeDueExactly(cfg, steps, t);
    var (b, rotation) := After(cfg, steps).MaybeRotate(cfg, t);
    assert Challenge(t.device) !in rotation;
  }

  /** The steps of one tick. */
  function TickSteps(turns: seq<Turn>, now: int): (r: seq<Step>)
    ensures |r| == |turns| + 1
  {
    seq(|turns|, i requires 0 <= i < |turns| => Took(turns[i])) + [Swept(Devices(turns), now)]
  }

  lemma OneMore(cfg: Config, steps: seq<Step>, s: Step)
    ensures After(cfg, steps + [s]) == Next(After(cfg, steps), cfg, s)
  {
    assert (steps + [s])[..|steps|] == steps;
  }

  lemma TurnSteps(turns: seq<Turn>, now: int, i: nat)
    requires i < |turns|
    ensures TickSteps(turns[..|turns| - 1], now)[..i] == TickSteps(turns, now)[..i]
    ensures TickSteps(turns, now)[..i + 1] == TickSteps(turns, now)[..i] + [Took(turns[i])]
  {
  }

  lemma {:induction false} ServingIsSteps(cfg: Config, steps: seq<Step>, turns: seq<Turn>, now: int)
    ensures After(cfg, steps + TickSteps(turns, now)[..|turns|]) == After(cfg, steps).ServeAll(cfg, turns).0
  {
    var all := TickSteps(turns, now);
    if turns == [] {
      assert steps + all[..0] == steps;
    } else {
      var n := |turns| - 1;
      ServingIsSteps(cfg, steps, turns[..n], now);
      TurnSteps(turns, now, n);
      assert steps + all[..n + 1] == (steps + all[..n]) + [Took(turns[n])];
      OneMore(cfg, steps + all[..n], Took(turns[n]));
    }
  }

  /** The i-th turn of a tick takes action a. */
  ghost predicate DoneAt(cfg: Config, steps: seq<Step>, turns: seq<Turn>, now: int, i: nat, a: Action)
    requires i < |turns|
  {
    a in After(cfg, steps + TickSteps(turns, now)[..i]).Serve(cfg, turns[i]).1
  }

  /** The same on the books at the start of the tick. */
  predicate ServedAt(b: Books, cfg: Config, turns: seq<Turn>, i: nat, a: Action)
    requires i < |turns|
  {
    a in b.ServeAll(cfg, turns[..i]).0.Serve(cfg, turns[i]).1
  }

  lemma DoneIsServed(cfg: Config, steps: seq<Step>, turns: seq<Turn>, now: int, i: nat, a: Action)
    requires i < |turns|
    ensures DoneAt(cfg, steps, turns, now, i, a) == ServedAt(After(cfg, steps), cfg, turns, i, a)
  {
    ServingIsSteps(cfg, steps, turns[..i], now);
    assert TickSteps(turns[..i], now)[..i] == TickSteps(turns, now)[..i];
  }

  lemma LogGrows(b: Books, cfg: Config, turns: seq<Turn>, a: Action)
    requires turns != []
    ensures a in b.ServeAll(cfg, turns).1 <==>
              a in b.ServeAll(cfg, turns[..|turns| - 1]).1 || ServedAt(b, cfg, turns, |turns| - 1, a)
  {
  }

  lemma ServedOfPrefix(b: Books, cfg: Config, turns: seq<Turn>, i: nat, a: Action)
    requires i < |turns| - 1
    ensures ServedAt(b, cfg, turns[..|turns| - 1], i, a) == ServedAt(b, cfg, turns, i, a)
  {
    assert turns[..|turns| - 1][..i] == turns[..i];
  }

  ghost predicate ServedBefore(b: Books, cfg: Config, turns: seq<Turn>, n: nat, a: Action)
    requires n <= |turns|
  {
    exists i | 0 <= i < n :: ServedAt(b, cfg, turns, i, a)
  }

  lemma ServedBeforeLast(b: Books, cfg: Config, turns: seq<Turn>, a: Action)
    requires turns != []
    ensures var n := |turns| - 1; ServedBefore(b, cfg, turns[..n], n, a) == ServedBefore(b, cfg, turns, n, a)
  {
    var n := |turns| - 1;
    if ServedBefore(b, cfg, turns[..n], n, a) {
      var i :| 0 <= i < n && ServedAt(b, cfg, turns[..n], i, a);
      ServedOfPrefix(b, cfg, turns, i, a);
    } else if ServedBefore(b, cfg, turns, n, a) {
      var i :| 0 <= i < n && ServedAt(b, cfg, turns, i, a);
      ServedOfPrefix(b, cfg, turns, i, a);
    }
  }

  lemma {:induction false} LogIsServed(b: Books, cfg: Config, turns: seq<Turn>, a: Action)
    ensures a in b.ServeAll(cfg, turns).1 <==> ServedBefore(b, cfg, turns, |turns|, a)
  {
    if turns != [] {
      LogIsServed(b, cfg, turns[..|turns| - 1], a);
      LogGrows(b, cfg, turns, a);
      ServedBeforeLast(b, cfg, turns, a);
    }
  }

  /** A tick is those steps, and its log is what their turns did. */
  lemma TickIsSteps(cfg: Config, steps: seq<Step>, turns: seq<Turn>, now: int, a: Action)
    ensures After(cfg, steps + TickSteps(turns, now)) == After(cfg, steps).Tick(cfg, turns, now).0
    ensures a in After(cfg, steps).Tick(cfg, turns, now).1 <==>
              exists i | 0 <= i < |turns| :: DoneAt(cfg, steps, turns, now, i, a)
  {
    ServingIsSteps(cfg, steps, turns, now);
    LogIsServed(After(cfg, steps), cfg, turns, a);
    forall i | 0 <= i < |turns|
      ensures DoneAt(cfg, steps, turns, now, i, a) == ServedAt(After(cfg, steps), cfg, turns, i, a)
    {
      DoneIsServed(cfg, steps, turns, now, i, a);
    }
    SweepIsStep(cfg, steps, turns, now);
  }

  lemma SweepIsStep(cfg: Config, steps: seq<Step>, turns: seq<Turn>, now: int)
    ensures var all := TickSteps(turns, now);
            After(cfg, steps + all) == After(cfg, steps + all[..|turns|]).Sweep(Devices(turns), now)
  {
    var all := TickSteps(turns, now);
    assert steps + all == (steps + all[..|turns|]) + [Swept(Devices(turns), now)];
    OneMore(cfg, steps + all[..|turns|], Swept(Devices(turns), now));
  }
}
