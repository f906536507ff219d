/** Msg3 at the grain of the gateway's lock sections: the registry is read and the signature checked in
    one, the session installed in another, and anything may be called in between. */
module GatewayRaces {
  import opened Options
  import opened ReplayGuards
  import opened Wire
  import opened Gateways
  import opened GatewayRuns

  /** A handshake that has passed all checks and waits to be installed. */
  datatype Verified = Verified(device: DeviceID, identity: Identity, attempt: nat, key: InitialKey)

  datatype World = World(state: GatewayState, waiting: map<nat, Verified>, next: nat)

  datatype Step =
    | Other(request: Request)
    | Check(id: DeviceID, attempt: nat, signature: Signature, now: int)
    | Install(number: nat)

  function CheckMsg3(cfg: Config, s: GatewayState, id: DeviceID, attempt: nat, signature: Signature, now: int)
    : (GatewayState, Option<Verified>)
  {
    var (t, outcome) := s.HandleMsg3(cfg, id, attempt, signature, now);
    if outcome.Established? && id in s.devices
    then (s.(pendingHandshake := t.pendingHandshake),
          Some(Verified(id, s.devices[id].identity, outcome.attempt, outcome.key)))
    else (t, None)
  }

  function InstallSession(s: GatewayState, v: Verified): GatewayState {
    s.(sessions := s.sessions[v.device := LiveSession(s.made, v.key, v.identity, v.attempt)], made := s.made + 1)
  }

  /** Msg3 itself is called in its two parts only. */
  predicate Enabled(w: World, step: Step) {
    match step
    case Other(r) => !r.op.Msg3?
    case Check(_, _, _, _) => true
    case Install(n) => n in w.waiting
  }

  function Next(cfg: Config, w: World, step: Step): World
    requires Enabled(w, step)
  {
    match step
    case Other(r) => w.(state := Apply(cfg, w.state, r).0)
    case Check(id, attempt, signature, now) =>
      var (t, verified) := CheckMsg3(cfg, w.state, id, attempt, signature, now);
      if verified.Some? then World(t, w.waiting[w.next := verified.value], w.next + 1) else w.(state := t)
    case Install(n) => World(InstallSession(w.state, w.waiting[n]), w.waiting - {n}, w.next)
  }

  /** Undisturbed, the two parts are the whole call. */
  lemma PartsMakeMsg3(cfg: Config, s: GatewayState, id: DeviceID, attempt: nat, signature: Signature, now: int)
    ensures var (t, verified) := CheckMsg3(cfg, s, id, attempt, signature, now);
            s.HandleMsg3(cfg, id, attempt, signature, now).0
            == if verified.Some? then InstallSession(t, verified.value) else t
  {
  }

  /** The registry still has the device, not revoked, under the identity that was checked. */
  predicate Standing(s: GatewayState, v: Verified) {
    v.device in s.devices && !s.devices[v.device].revoked && s.devices[v.device].identity == v.identity
  }

  lemma InstallKeepsExactly(s: GatewayState, v: Verified)
    requires RegistryOk(s)
    ensures RegistryOk(InstallSession(s, v)) <==> Standing(s, v)
  {
    var t := InstallSession(s, v);
    if Standing(s, v) {
      forall d: DeviceID
        ensures SessionOk(t, d) && RecordOk(t, d)
      {
        assert SessionOk(s, d) && RecordOk(s, d);
      }
    } else {
      assert !SessionOk(t, v.device);
    }
  }

  lemma CheckKeeps(cfg: Config, s: GatewayState, id: DeviceID, attempt: nat, signature: Signature, now: int)
    requires RegistryOk(s)
    ensures RegistryOk(CheckMsg3(cfg, s, id, attempt, signature, now).0)
  {
    var t := CheckMsg3(cfg, s, id, attempt, signature, now).0;
    assert t.devices == s.devices && t.sessions == s.sessions;
    forall d: DeviceID
      ensures SessionOk(t, d) && RecordOk(t, d)
    {
      assert SessionOk(s, d) && RecordOk(s, d);
    }
  }

  lemma CallKeeps(cfg: Config, s: GatewayState, r: Request)
    requires RegistryOk(s)
    ensures RegistryOk(Apply(cfg, s, r).0)
  {
    forall d: DeviceID
      ensures SessionOk(Apply(cfg, s, r).0, d) && RecordOk(Apply(cfg, s, r).0, d)
    {
      assert SessionOk(s, d) && RecordOk(s, d);
      StepKeepsRegistry(cfg, s, r, d);
    }
  }

  ghost predicate IsRun(cfg: Config, w: World, run: seq<Step>)
    decreases |run|
  {
    run == [] || (Enabled(w, run[0]) && IsRun(cfg, Next(cfg, w, run[0]), run[1..]))
  }

  /** The registry and the sessions agree at every moment of the run. */
  ghost predicate AgreesThroughout(cfg: Config, w: World, run: seq<Step>)
    requires IsRun(cfg, w, run)
    decreases |run|
  {
    RegistryOk(w.state) && (run != [] ==> AgreesThroughout(cfg, Next(cfg, w, run[0]), run[1..]))
  }

  /** No handshake is installed whose record has changed since it was checked. */
  ghost predicate InstallsStanding(cfg: Config, w: World, run: seq<Step>)
    requires IsRun(cfg, w, run)
    decreases |run|
  {
    run != [] ==>
      && (run[0].Install? ==> Standing(w.state, w.waiting[run[0].number]))
      && InstallsStanding(cfg, Next(cfg, w, run[0]), run[1..])
  }

  lemma {:induction false} AgreesIfStanding(cfg: Config, w: World, run: seq<Step>)
    requires IsRun(cfg, w, run) && RegistryOk(w.state)
    ensures AgreesThroughout(cfg, w, run) <==> InstallsStanding(cfg, w, run)
    decreases |run|
  {
    if run != [] {
      var next := Next(cfg, w, run[0]);
      match run[0] {
        case Other(r) => CallKeeps(cfg, w.state, r);
        case Check(id, attempt, signature, now) => CheckKeeps(cfg, w.state, id, attempt, signature, now);
        case Install(n) => InstallKeepsExactly(w.state, w.waiting[n]);
      }
      if RegistryOk(next.state) {
        AgreesIfStanding(cfg, next, run[1..]);
      }
    }
  }

  function Opening(guard: GuardState): World {
    World(NewGateway(guard), map[], 0)
  }

  /** Main result: over all interleavings, every live session matches the registry at every moment
      exactly if no handshake is installed after its device was revoked, deleted or given another
      identity since the check. */
  lemma SplitSessionsMatchExactly(cfg: Config, guard: GuardState, run: seq<Step>)
    requires IsRun(cfg, Opening(guard), run)
    ensures AgreesThroughout(cfg, Opening(guard), run) <==> InstallsStanding(cfg, Opening(guard), run)
  {
    assert forall d: DeviceID :: SessionOk(NewGateway(guard), d) && RecordOk(NewGateway(guard), d);
    AgreesIfStanding(cfg, Opening(guard), run);
  }

  ghost function After(cfg: Config, w: World, run: seq<Step>): World
    requires IsRun(cfg, w, run)
    decreases |run|
  {
    if run == [] then w else After(cfg, Next(cfg, w, run[0]), run[1..])
  }

  lemma Prepend(cfg: Config, w: World, step: Step, rest: seq<Step>)
    requires Enabled(w, step) && IsRun(cfg, Next(cfg, w, step), rest)
    ensures IsRun(cfg, w, [step] + rest) && After(cfg, w, [step] + rest) == After(cfg, Next(cfg, w, step), rest)
  {
    assert ([step] + rest)[1..] == rest;
  }

  /** The handshake is checked, the device revoked, the session installed. */
  function Race(w: World, d: DeviceID, reason: string, now: int): seq<Step>
    requires d in w.state.pendingHandshake && d in w.state.devices
  {
    var p := w.state.pendingHandshake[d];
    [Check(d, p.id, SignedBy(w.state.devices[d].identity, Confirm(p.Key())), now)]
    + ([Other(Request(Revoke(d, reason), now))] + ([Install(w.next)] + []))
  }

  /** A revocation between the check and the installation leaves the revoked device with a session. */
  lemma RevokedInBetween(cfg: Config, w: World, d: DeviceID, reason: string, now: int)
    requires d in w.state.pendingHandshake && w.state.Get(d) == Done && w.next !in w.waiting
    requires !w.state.Expired(w.state.pendingHandshake[d], cfg, now)
    ensures IsRun(cfg, w, Race(w, d, reason, now))
    ensures var end := After(cfg, w, Race(w, d, reason, now)).state;
            d in end.sessions && d in end.devices && end.devices[d].revoked
  {
    var p := w.state.pendingHandshake[d];
    var check := Check(d, p.id, SignedBy(w.state.devices[d].identity, Confirm(p.Key())), now);
    var revoke := Other(Request(Revoke(d, reason), now));
    var w1 := Next(cfg, w, check);
    AttemptCompletes(cfg, w.state, d, now);
    assert w.next in w1.waiting && w1.waiting[w.next].device == d;
    var w2 := Next(cfg, w1, revoke);
    Prepend(cfg, w2, Install(w.next), []);
    Prepend(cfg, w1, revoke, [Install(w.next)] + []);
    Prepend(cfg, w, check, [revoke] + ([Install(w.next)] + []));
  }

  /** It can happen: a device is registered and begins a handshake, and then the race. */
  lemma RevokedWithSession(
    cfg: Config, ttl: int, serial: SerialOutput, msg1: HandshakeMsg1, msg2: HandshakeMsg2, reason: string, now: int)
    requires cfg.handshakeTimeout >= 0 && serial.deviceID == msg1.deviceID
    requires NewGateway(NewGuard(ttl, now)).CheckSerial(serial) == Done
    ensures exists run :: IsRun(cfg, Opening(NewGuard(ttl, now)), run)
              && RevokedLive(After(cfg, Opening(NewGuard(ttl, now)), run).state, msg1.deviceID)
  {
    var d := msg1.deviceID;
    var w := Opening(NewGuard(ttl, now));
    var register := Other(Request(Register(serial), now));
    var hello := Other(Request(Msg1(msg1, 0, msg2), now));
    var w1 := Next(cfg, w, register);
    var w2 := Next(cfg, w1, hello);
    assert w2.state.Get(d) == Done && w2.state.pendingHandshake[d] == Pending(1, msg1, msg2, 0, now);
    RevokedInBetween(cfg, w2, d, reason, now);
    var race := Race(w2, d, reason, now);
    Prepend(cfg, w1, hello, race);
    Prepend(cfg, w, register, [hello] + race);
  }

  predicate RevokedLive(s: GatewayState, d: DeviceID) {
    d in s.sessions && d in s.devices && s.devices[d].revoked
  }
}
