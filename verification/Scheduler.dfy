/** The background cycle of the gateway: on every tick each connected device gets a turn, in which
    a rotation left unacknowledged is undone and the connection cut, and then the books on absent
    devices are swept. Devices that keep failing are revoked. */
module Schedulers {
  import opened Bytes
  import opened Options
  import opened Sessions
  import Terms

  type DeviceID = Bytes

  /** One hour, in nanoseconds: how long a failure count lives without a new failure. */
  const FAILURE_RETENTION := 3_600_000_000_000

  datatype Config = Config(maxFailures: int, firmwareInterval: int, limits: Limits)

  datatype Action =
    | Disconnect(device: DeviceID)
    | Revoke(device: DeviceID)
    | Initiate(device: DeviceID)
    | Challenge(device: DeviceID)

  /** What a turn finds: whether a stale rotation was undone, whether one is pending, whether one is
      due, the iteration of the session, and whether a firmware challenge goes out. */
  datatype Turn = Turn(
    device: DeviceID,
    at: int,
    aborted: bool,
    pending: bool,
    needs: bool,
    iteration: nat,
    challengeSent: bool)

  /** What the turn of a device finds in its session; without one nothing is stale, pending or due and
      the iteration reads 0. */
  function Observe(limits: Limits, d: DeviceID, session: Option<SessionState>, at: int, challengeSent: bool): Turn {
    match session
    case None => Turn(d, at, false, false, false, 0, challengeSent)
    case Some(s) =>
      Turn(d, at, s.Stale(limits.ackTimeout, limits, at), s.pendingActive, s.NeedsRotation(limits, at), s.iteration,
           challengeSent)
  }

  /** What the actions of a turn leave of the session. A revocation closes it; a rotation begins only
      over a connection. */
  function SessionAfter(s: SessionState, t: Turn, actions: seq<Action>, connected: bool, seed: nat): SessionState {
    if Revoke(t.device) in actions then s.AbortRotate().Close()
    else if Disconnect(t.device) in actions then s.AbortRotate()
    else if Initiate(t.device) in actions && connected then
      match s.Initiate(Terms.Device, seed, t.at)
      case Ok((next, _)) => next
      case Err(_) => s
    else s
  }

  datatype Books = Books(
    failures: map<DeviceID, int>,
    failureSeen: map<DeviceID, int>,
    lastIteration: map<DeviceID, nat>,
    lastCheck: map<DeviceID, int>)
  {
    function Count(d: DeviceID): int {
      if d in failures then failures[d] else 0
    }

    function Forget(d: DeviceID): Books {
      this.(failures := failures - {d}, failureSeen := failureSeen - {d})
    }

    function NoteSuccess(d: DeviceID): Books {
      if Count(d) != 0 then Forget(d) else this
    }

    function CheckProgress(d: DeviceID, iteration: nat): Books {
      var b := if d in lastIteration && iteration > lastIteration[d] then NoteSuccess(d) else this;
      b.(lastIteration := b.lastIteration[d := iteration])
    }

    function CountFailure(d: DeviceID, at: int): Books {
      this.(failures := failures[d := Count(d) + 1], failureSeen := failureSeen[d := at])
    }

    function MaybeRotate(cfg: Config, t: Turn): (Books, seq<Action>) {
      if t.aborted then
        var b := CountFailure(t.device, t.at);
        if b.Count(t.device) < cfg.maxFailures then (b, [Disconnect(t.device)])
        else (b.Forget(t.device), [Revoke(t.device), Disconnect(t.device)])
      else if t.pending then (this, [])
      else (CheckProgress(t.device, t.iteration), if t.needs then [Initiate(t.device)] else [])
    }

    predicate ChallengeDue(cfg: Config, d: DeviceID, at: int) {
      !(d in lastCheck && at - lastCheck[d] < cfg.firmwareInterval)
    }

    function MaybeCheckFirmware(cfg: Config, d: DeviceID, at: int, sent: bool): (Books, seq<Action>) {
      if ChallengeDue(cfg, d, at) && sent then (this.(lastCheck := lastCheck[d := at]), [Challenge(d)])
      else (this, [])
    }

    function Serve(cfg: Config, t: Turn): (Books, seq<Action>) {
      var (b, rotation) := MaybeRotate(cfg, t);
      var (c, check) := b.MaybeCheckFirmware(cfg, t.device, t.at, t.challengeSent);
      (c, rotation + check)
    }

    function Stale(now: int): set<DeviceID> {
      set d | d in failureSeen && failureSeen[d] < now - FAILURE_RETENTION
    }

    function ForgetStale(now: int): Books {
      this.(failures := failures - Stale(now), failureSeen := failureSeen - Stale(now))
    }

    function Sweep(active: set<DeviceID>, now: int): Books {
      ForgetStale(now).(lastCheck := lastCheck - (lastCheck.Keys - active),
                        lastIteration := lastIteration - (lastIteration.Keys - active))
    }

    /** The turns of one tick, in order. */
    function ServeAll(cfg: Config, turns: seq<Turn>): (Books, seq<Action>) {
      if turns == [] then (this, []) else
        var n := |turns| - 1;
        var (b, before) := ServeAll(cfg, turns[..n]);
        var (c, actions) := b.Serve(cfg, turns[n]);
        (c, before + actions)
    }

    function Tick(cfg: Config, turns: seq<Turn>, now: int): (Books, seq<Action>) {
      var (b, actions) := ServeAll(cfg, turns);
      (b.Sweep(Devices(turns), now), actions)
    }
  }

  function Devices(turns: seq<Turn>): set<DeviceID> {
    set t | t in turns :: t.device
  }

  lemma ServesOneMore(b: Books, cfg: Config, turns: seq<Turn>, i: nat)
    requires i < |turns|
    ensures b.ServeAll(cfg, turns[..i + 1])
            == (b.ServeAll(cfg, turns[..i]).0.Serve(cfg, turns[i]).0,
                b.ServeAll(cfg, turns[..i]).1 + b.ServeAll(cfg, turns[..i]).0.Serve(cfg, turns[i]).1)
  {
    assert turns[..i + 1][..i] == turns[..i];
  }

  function Active(ids: seq<DeviceID>): set<DeviceID> {
    set d | d in ids
  }

  ghost function View(session: Session?): Option<SessionState>
    reads session
  {
    if session == null then None else Some(session.State())
  }

  /** What a tick has in hand for one connected device. */
  datatype Visit = Visit(
    device: DeviceID,
    session: Session?,
    connected: bool,
    seed: nat,
    at: int,
    challengeSent: bool)

  function SessionsOf(visits: seq<Visit>): set<Session?> {
    set v | v in visits && v.session != null :: v.session
  }

  ghost predicate Apart(visits: seq<Visit>) {
    forall i, j | 0 <= i < |visits| && 0 <= j < |visits| && i != j ::
      visits[i].session == null || visits[i].session != visits[j].session
  }

  /** The sessions of a tick as they stand. */
  ghost function Views(visits: seq<Visit>): (r: seq<Option<SessionState>>)
    reads SessionsOf(visits)
    ensures |r| == |visits| && forall i | 0 <= i < |visits| :: r[i] == View(visits[i].session)
  {
    if visits == [] then [] else
      Views(visits[..|visits| - 1]) + [View(visits[|visits| - 1].session)]
  }

  /** The turns of a tick, each on the device's session. */
  ghost function Turns(limits: Limits, visits: seq<Visit>, views: seq<Option<SessionState>>): seq<Turn>
    requires |visits| == |views|
  {
    seq(|visits|, i requires 0 <= i < |visits| =>
      Observe(limits, visits[i].device, views[i], visits[i].at, visits[i].challengeSent))
  }

  /** What a turn leaves of its session. */
  function ViewAfter(v: Visit, session: Option<SessionState>, cfg: Config, b: Books, t: Turn): Option<SessionState> {
    match session
    case None => None
    case Some(s) => Some(SessionAfter(s, t, b.MaybeRotate(cfg, t).1, v.connected, v.seed))
  }

  /** What a tick leaves of its sessions. */
  ghost function ViewsAfter(visits: seq<Visit>, views: seq<Option<SessionState>>, cfg: Config, b: Books)
    : (r: seq<Option<SessionState>>)
    requires |visits| == |views|
    ensures |r| == |visits|
  {
    var turns := Turns(cfg.limits, visits, views);
    seq(|visits|, i requires 0 <= i < |visits| =>
      ViewAfter(visits[i], views[i], cfg, b.ServeAll(cfg, turns[..i]).0, turns[i]))
  }

  function IDsOf(visits: seq<Visit>): set<DeviceID> {
    set v | v in visits :: v.device
  }

  lemma IDsOfOneMore(visits: seq<Visit>, i: nat)
    requires i < |visits|
    ensures IDsOf(visits[..i + 1]) == IDsOf(visits[..i]) + {visits[i].device}
  {
    assert visits[..i + 1] == visits[..i] + [visits[i]];
    assert visits[i] in visits[..i + 1];
    assert forall v :: v in visits[..i] ==> v in visits[..i + 1];
  }

  method ActiveDeviceIDs(visits: seq<Visit>) returns (ids: seq<DeviceID>)
    ensures Active(ids) == IDsOf(visits)
  {
    ids := [];
    for i := 0 to |visits|
      invariant Active(ids) == IDsOf(visits[..i])
    {
      ids := ids + [visits[i].device];
      IDsOfOneMore(visits, i);
    }
    assert visits[..|visits|] == visits;
  }

  lemma SameDevices(limits: Limits, visits: seq<Visit>, views: seq<Option<SessionState>>)
    requires |visits| == |views|
    ensures IDsOf(visits) == Devices(Turns(limits, visits, views))
  {
    var turns := Turns(limits, visits, views);
    forall d | d in IDsOf(visits)
      ensures d in Devices(turns)
    {
      var i :| 0 <= i < |visits| && visits[i].device == d;
      assert turns[i] in turns && turns[i].device == d;
    }
    forall d | d in Devices(turns)
      ensures d in IDsOf(visits)
    {
      var i :| 0 <= i < |turns| && turns[i].device == d;
      assert visits[i] in visits && visits[i].device == d;
    }
  }

  class Scheduler {
    const cfg: Config
    var rotationFailures: map<DeviceID, int>
    var failureSeen: map<DeviceID, int>
    var lastIteration: map<DeviceID, nat>
    var lastFirmwareCheck: map<DeviceID, int>

    function State(): Books
      reads this
    {
      Books(rotationFailures, failureSeen, lastIteration, lastFirmwareCheck)
    }

    constructor (cfg: Config)
      ensures this.cfg == cfg && State() == Books(map[], map[], map[], map[])
    {
      this.cfg := cfg;
      rotationFailures, failureSeen, lastIteration, lastFirmwareCheck := map[], map[], map[], map[];
    }

    method NoteRotationSuccess(d: DeviceID)
      modifies this
      ensures State() == old(State()).NoteSuccess(d)
    {
      if d in rotationFailures && rotationFailures[d] != 0 {
        rotationFailures := rotationFailures - {d};
        failureSeen := failureSeen - {d};
      }
    }

    method CheckRotationProgress(d: DeviceID, iteration: nat)
      modifies this
      ensures State() == old(State()).CheckProgress(d, iteration)
    {
      if d in lastIteration && iteration > lastIteration[d] {
        NoteRotationSuccess(d);
      }
      lastIteration := lastIteration[d := iteration];
    }

    /** One device's rotation: undo what has gone stale, otherwise begin what is due. */
    method MaybeRotate(d: DeviceID, session: Session?, connected: bool, seed: nat, at: int, challengeSent: bool)
      returns (actions: seq<Action>)
      modifies this, session
      ensures (State(), actions)
              == old(State()).MaybeRotate(cfg, Observe(cfg.limits, d, old(View(session)), at, challengeSent))
      ensures session != null ==>
                session.State() == SessionAfter(old(session.State()),
                                                Observe(cfg.limits, d, old(View(session)), at, challengeSent),
                                                actions, connected, seed)
    {
      var aborted, pending, needs := false, false, false;
      var iteration := 0;
      if session != null {
        aborted := session.AbortIfStale(cfg.limits.ackTimeout, cfg.limits, at);
      }
      if aborted {
        var fails := 1;
        if d in rotationFailures {
          fails := rotationFailures[d] + 1;
        }
        rotationFailures := rotationFailures[d := fails];
        failureSeen := failureSeen[d := at];
        if fails < cfg.maxFailures {
          return [Disconnect(d)];
        }
        session.Close();
        rotationFailures := rotationFailures - {d};
        failureSeen := failureSeen - {d};
        return [Revoke(d), Disconnect(d)];
      }
      if session != null {
        pending := session.pendingActive;
      }
      if pending {
        return [];
      }
      if session != null {
        needs := session.NeedsRotation(cfg.limits, at);
        iteration := session.iteration;
      }
      CheckRotationProgress(d, iteration);
      if !needs {
        return [];
      }
      if connected {
        var _ := session.InitiateRotationAtomic(Terms.Device, seed, at);
      }
      return [Initiate(d)];
    }

    method MaybeCheckFirmware(d: DeviceID, at: int, sent: bool) returns (actions: seq<Action>)
      modifies this
      ensures (State(), actions) == old(State()).MaybeCheckFirmware(cfg, d, at, sent)
    {
      if d in lastFirmwareCheck && at - lastFirmwareCheck[d] < cfg.firmwareInterval {
        return [];
      }
      if !sent {
        return [];
      }
      lastFirmwareCheck := lastFirmwareCheck[d := at];
      return [Challenge(d)];
    }

    method ForgetStaleFailures(now: int)
      modifies this`rotationFailures, this`failureSeen
      ensures State() == old(State()).ForgetStale(now)
    {
      var cutoff := now - FAILURE_RETENTION;
      ghost var stale := old(State()).Stale(now);
      ghost var gone: set<DeviceID> := {};
      var ids := failureSeen.Keys;
      while ids != {}
        invariant ids <= old(failureSeen).Keys
        invariant gone <= stale && gone !! ids && forall d | d in stale :: d in gone || d in ids
        invariant rotationFailures == old(rotationFailures) - gone && failureSeen == old(failureSeen) - gone
        decreases |ids|
      {
        var d :| d in ids;
        if failureSeen[d] < cutoff {
          rotationFailures := rotationFailures - {d};
          failureSeen := failureSeen - {d};
          gone := gone + {d};
        }
        ids := ids - {d};
      }
      assert gone == stale;
    }

    method PruneChecks(active: set<DeviceID>)
      modifies this`lastFirmwareCheck
      ensures lastFirmwareCheck == old(lastFirmwareCheck) - (old(lastFirmwareCheck).Keys - active)
    {
      var ids := lastFirmwareCheck.Keys;
      while ids != {}
        invariant ids <= old(lastFirmwareCheck).Keys
        invariant lastFirmwareCheck == old(lastFirmwareCheck) - (old(lastFirmwareCheck).Keys - active - ids)
        decreases |ids|
      {
        var d :| d in ids;
        if d !in active {
          lastFirmwareCheck := lastFirmwareCheck - {d};
        }
        ids := ids - {d};
      }
      assert old(lastFirmwareCheck).Keys - active - {} == old(lastFirmwareCheck).Keys - active;
    }

    method PruneIterations(active: set<DeviceID>)
      modifies this`lastIteration
      ensures lastIteration == old(lastIteration) - (old(lastIteration).Keys - active)
    {
      var ids := lastIteration.Keys;
      while ids != {}
        invariant ids <= old(lastIteration).Keys
        invariant lastIteration == old(lastIteration) - (old(lastIteration).Keys - active - ids)
        decreases |ids|
      {
        var d :| d in ids;
        if d !in active {
          lastIteration := lastIteration - {d};
        }
        ids := ids - {d};
      }
      assert old(lastIteration).Keys - active - {} == old(lastIteration).Keys - active;
    }

    method PruneState(ids: seq<DeviceID>, now: int)
      modifies this
      ensures State() == old(State()).Sweep(Active(ids), now)
    {
      var active: set<DeviceID> := {};
      for i := 0 to |ids|
        invariant active == Active(ids[..i]) && State() == old(State())
      {
        active := active + {ids[i]};
        assert ids[..i + 1] == ids[..i] + [ids[i]];
      }
      assert ids[..|ids|] == ids;
      PruneChecks(active);
      ForgetStaleFailures(now);
      PruneIterations(active);
    }

    /** One device's turn. */
    method Serve(v: Visit) returns (actions: seq<Action>)
      modifies this, v.session
      ensures (State(), actions)
              == old(State()).Serve(cfg, Observe(cfg.limits, v.device, old(View(v.session)), v.at, v.challengeSent))
      ensures View(v.session) == ViewAfter(v, old(View(v.session)), cfg, old(State()),
                                           Observe(cfg.limits, v.device, old(View(v.session)), v.at, v.challengeSent))
    {
      var rotation := MaybeRotate(v.device, v.session, v.connected, v.seed, v.at, v.challengeSent);
      var check := MaybeCheckFirmware(v.device, v.at, v.challengeSent);
      actions := rotation + check;
    }

    /** One of the turns of a tick; the other sessions stay as they are. */
    method ServeOne(visits: seq<Visit>, i: nat) returns (actions: seq<Action>)
      requires Apart(visits) && i < |visits|
      modifies this, visits[i].session
      ensures var v := visits[i];
              var t := Observe(cfg.limits, v.device, old(View(visits[i].session)), v.at, v.challengeSent);
              && (State(), actions) == old(State()).Serve(cfg, t)
              && View(v.session) == ViewAfter(v, old(View(visits[i].session)), cfg, old(State()), t)
      ensures forall k | 0 <= k < |visits| && k != i :: View(visits[k].session) == old(View(visits[k].session))
    {
      assert forall k | 0 <= k < |visits| && k != i ::
          visits[k].session == null || visits[k].session != visits[i].session;
      actions := Serve(visits[i]);
    }

    /** The turns of a tick, one device after the other. */
    method ServeEach(visits: seq<Visit>) returns (actions: seq<Action>)
      requires Apart(visits)
      modifies this, SessionsOf(visits)
      ensures (State(), actions) == old(State()).ServeAll(cfg, Turns(cfg.limits, visits, old(Views(visits))))
      ensures Views(visits) == ViewsAfter(visits, old(Views(visits)), cfg, old(State()))
    {
      actions := [];
      ghost var views := Views(visits);
      ghost var turns := Turns(cfg.limits, visits, views);
      ghost var left := ViewsAfter(visits, views, cfg, State());
      for i := 0 to |visits|
        invariant (State(), actions) == old(State()).ServeAll(cfg, turns[..i])
        invariant forall k | 0 <= k < i :: View(visits[k].session) == left[k]
        invariant forall k | i <= k < |visits| :: View(visits[k].session) == views[k]
      {
        assert visits[i].session != null ==> visits[i].session in SessionsOf(visits);
        ServesOneMore(old(State()), cfg, turns, i);
        var more := ServeOne(visits, i);
        actions := actions + more;
      }
      assert turns[..|turns|] == turns;
    }

    /** One tick over the devices connected now, each with a session of its own or none. */
    method Tick(visits: seq<Visit>, now: int) returns (actions: seq<Action>)
      requires Apart(visits)
      modifies this, SessionsOf(visits)
      ensures (State(), actions) == old(State()).Tick(cfg, Turns(cfg.limits, visits, old(Views(visits))), now)
      ensures Views(visits) == ViewsAfter(visits, old(Views(visits)), cfg, old(State()))
    {
      var active := ActiveDeviceIDs(visits);
      ghost var views := Views(visits);
      actions := ServeEach(visits);
      ghost var left := Views(visits);
      PruneState(active, now);
      assert Views(visits) == left;
      SameDevices(cfg.limits, visits, views);
    }
  }
}
