/** What holds over every sequence of calls to the gateway, from any number of connections. */
module GatewayRuns {
  import opened Bytes
  import opened Options
  import opened Wire
  import opened ReplayGuards
  import opened Gateways

  datatype Op =
    | Register(serial: SerialOutput)
    | Reregister(serial: SerialOutput)
    | Delete(id: DeviceID)
    | Revoke(id: DeviceID, reason: string)
    | Msg1(msg1: HandshakeMsg1, secret: nat, msg2: HandshakeMsg2)
    | Msg3(id: DeviceID, attempt: nat, signature: Signature)
    | Close(id: DeviceID, want: Option<nat>)
    | IssueChallenge(id: DeviceID, challenge: Bytes)
    | VerifyFirmware(id: DeviceID, answer: FirmwareAnswer)
    | Shutdown

  datatype Request = Request(op: Op, now: int)

  function Apply(cfg: Config, s: GatewayState, r: Request): (GatewayState, Outcome) {
    match r.op
    case Register(serial) => s.Register(serial, r.now)
    case Reregister(serial) => s.Reregister(serial)
    case Delete(id) => s.Delete(id)
    case Revoke(id, reason) => s.Revoke(id, reason)
    case Msg1(msg1, secret, msg2) => s.HandleMsg1(cfg, msg1, secret, msg2, r.now)
    case Msg3(id, attempt, signature) => s.HandleMsg3(cfg, id, attempt, signature, r.now)
    case Close(id, want) => s.CloseSession(id, want)
    case IssueChallenge(id, challenge) => s.IssueChallenge(cfg, id, challenge, r.now)
    case VerifyFirmware(id, answer) => s.VerifyFirmware(cfg, id, answer, r.now)
    case Shutdown => (s.Shutdown(), Done)
  }

  function After(cfg: Config, s: GatewayState, run: seq<Request>): GatewayState {
    if run == [] then s else
      var n := |run| - 1;
      Apply(cfg, After(cfg, s, run[..n]), run[n]).0
  }

  function OutcomeOf(cfg: Config, s: GatewayState, run: seq<Request>, i: nat): Outcome
    requires i < |run|
  {
    Apply(cfg, After(cfg, s, run[..i]), run[i]).1
  }

  lemma OutcomeOfPrefix(cfg: Config, s: GatewayState, run: seq<Request>, n: nat, i: nat)
    requires i < n <= |run|
    ensures OutcomeOf(cfg, s, run[..n], i) == OutcomeOf(cfg, s, run, i)
  {
    assert run[..n][..i] == run[..i];
  }

  /** Which calls can have which outcome. */
  lemma OutcomeFrame(cfg: Config, s: GatewayState, r: Request)
    ensures var outcome := Apply(cfg, s, r).1;
            && (outcome.Answered? ==> r.op.Msg1?)
            && (outcome.Established? ==> r.op.Msg3?)
            && (outcome.Checked? ==> r.op.VerifyFirmware?)
            && (outcome == ChallengeIssued ==> r.op.IssueChallenge?)
  {
  }

  /** Which calls can touch which table. */
  lemma PendingFrame(cfg: Config, s: GatewayState, r: Request)
    requires !r.op.Msg1? && !r.op.Msg3? && !r.op.Shutdown?
    ensures var t := Apply(cfg, s, r).0;
            t.pendingHandshake == s.pendingHandshake && t.nextPendingID == s.nextPendingID
  {
  }

  lemma FirmwareFrame(cfg: Config, s: GatewayState, r: Request)
    requires !r.op.IssueChallenge? && !r.op.VerifyFirmware? && !r.op.Shutdown?
    ensures Apply(cfg, s, r).0.pendingFirmware == s.pendingFirmware
  {
  }

  lemma Frame(cfg: Config, s: GatewayState, r: Request)
    ensures var t := Apply(cfg, s, r).0;
            && (!r.op.Msg1? && !r.op.Msg3? && !r.op.Shutdown? ==>
                  t.pendingHandshake == s.pendingHandshake && t.nextPendingID == s.nextPendingID)
            && (!r.op.IssueChallenge? && !r.op.VerifyFirmware? && !r.op.Shutdown? ==>
                  t.pendingFirmware == s.pendingFirmware)
  {
    if !r.op.Msg1? && !r.op.Msg3? && !r.op.Shutdown? {
      PendingFrame(cfg, s, r);
    }
    if !r.op.IssueChallenge? && !r.op.VerifyFirmware? && !r.op.Shutdown? {
      FirmwareFrame(cfg, s, r);
    }
  }

  // The registry and the live sessions

  ghost predicate RegistryOk(s: GatewayState) {
    forall d: DeviceID :: SessionOk(s, d) && RecordOk(s, d)
  }

  ghost predicate SessionOk(s: GatewayState, d: DeviceID) {
    d in s.sessions ==>
      d in s.devices && !s.devices[d].revoked && s.sessions[d].identity == s.devices[d].identity
  }

  ghost predicate RecordOk(s: GatewayState, d: DeviceID) {
    d in s.devices ==> ValidDeviceID(d)
  }

  lemma VerifyKeepsRegistry(cfg: Config, s: GatewayState, id: DeviceID, answer: FirmwareAnswer, now: int, d: DeviceID)
    requires SessionOk(s, d) && RecordOk(s, d)
    ensures var t := s.VerifyFirmware(cfg, id, answer, now).0; SessionOk(t, d) && RecordOk(t, d)
  {
  }

  lemma Msg3KeepsRegistry(
    cfg: Config, s: GatewayState, id: DeviceID, attempt: nat, signature: Signature, now: int, d: DeviceID)
    requires SessionOk(s, d) && RecordOk(s, d)
    ensures var t := s.HandleMsg3(cfg, id, attempt, signature, now).0; SessionOk(t, d) && RecordOk(t, d)
  {
  }

  lemma StepKeepsRegistry(cfg: Config, s: GatewayState, r: Request, d: DeviceID)
    requires SessionOk(s, d) && RecordOk(s, d)
    ensures SessionOk(Apply(cfg, s, r).0, d) && RecordOk(Apply(cfg, s, r).0, d)
  {
    match r.op
    case VerifyFirmware(id, answer) => VerifyKeepsRegistry(cfg, s, id, answer, r.now, d);
    case Msg3(id, attempt, signature) => Msg3KeepsRegistry(cfg, s, id, attempt, signature, r.now, d);
    case _ =>
  }

  lemma {:induction false} RegistryKept(cfg: Config, s: GatewayState, run: seq<Request>)
    requires RegistryOk(s)
    ensures RegistryOk(After(cfg, s, run))
  {
    if run != [] {
      var n := |run| - 1;
      RegistryKept(cfg, s, run[..n]);
      forall d: DeviceID
        ensures SessionOk(After(cfg, s, run), d) && RecordOk(After(cfg, s, run), d)
      {
        StepKeepsRegistry(cfg, After(cfg, s, run[..n]), run[n], d);
      }
    }
  }

  /** Main result: after any calls, every live session belongs to a registered device that is not
      revoked, and was authenticated under the identity key now in the registry. */
  lemma SessionsMatchRegistry(cfg: Config, guard: GuardState, run: seq<Request>, d: DeviceID)
    requires d in After(cfg, NewGateway(guard), run).sessions
    ensures var s := After(cfg, NewGateway(guard), run);
            && d in s.devices && !s.devices[d].revoked && ValidDeviceID(d)
            && s.sessions[d].identity == s.devices[d].identity
  {
    RegistryKept(cfg, NewGateway(guard), run);
    assert SessionOk(After(cfg, NewGateway(guard), run), d);
  }

  predicate RevokedOut(s: GatewayState, d: DeviceID) {
    d in s.devices && s.devices[d].revoked && d !in s.sessions
  }

  lemma StepKeepsOut(cfg: Config, s: GatewayState, r: Request, d: DeviceID)
    requires RevokedOut(s, d) && r.op != Delete(d)
    ensures RevokedOut(Apply(cfg, s, r).0, d)
  {
  }

  /** A revoked device stays out, whatever is called, until an administrator deletes its record. */
  lemma {:induction false} RevokedStaysOut(cfg: Config, s: GatewayState, run: seq<Request>, d: DeviceID)
    requires RegistryOk(s) && d in s.devices && s.devices[d].revoked
    requires forall i | 0 <= i < |run| :: run[i].op != Delete(d)
    ensures RevokedOut(After(cfg, s, run), d)
  {
    if run != [] {
      var n := |run| - 1;
      RevokedStaysOut(cfg, s, run[..n], d);
      StepKeepsOut(cfg, After(cfg, s, run[..n]), run[n], d);
    } else {
      assert SessionOk(s, d);
    }
  }

  // Handshakes in progress

  /** A Msg3 for another attempt than the pending one changes nothing at all. */
  lemma OtherAttemptUntouched(cfg: Config, s: GatewayState, d: DeviceID, attempt: nat, signature: Signature, now: int)
    requires attempt != 0
    requires d in s.pendingHandshake ==> s.pendingHandshake[d].id != attempt
    ensures var (t, outcome) := s.HandleMsg3(cfg, d, attempt, signature, now);
            && t == s
            && outcome == (if d in s.pendingHandshake then Superseded else NoPendingHandshake)
  {
  }

  /** The calls that end an attempt: an admitted Msg1 of the same device, its own Msg3 (or one that
      names no attempt), and the shutdown of the gateway. */
  predicate Ends(d: DeviceID, attempt: nat, r: Request, outcome: Outcome) {
    match r.op
    case Msg1(msg1, _, _) => msg1.deviceID == d && outcome.Answered?
    case Msg3(id, a, _) => id == d && (a == 0 || a == attempt)
    case Shutdown => true
    case _ => false
  }

  lemma StepKeepsAttempt(cfg: Config, s: GatewayState, r: Request, d: DeviceID)
    requires d in s.pendingHandshake
    requires !s.Expired(s.pendingHandshake[d], cfg, r.now)
    requires !Ends(d, s.pendingHandshake[d].id, r, Apply(cfg, s, r).1)
    ensures var t := Apply(cfg, s, r).0;
            d in t.pendingHandshake && t.pendingHandshake[d] == s.pendingHandshake[d]
  {
    Frame(cfg, s, r);
    OutcomeFrame(cfg, s, r);
  }

  lemma {:induction false} AttemptSurvives(cfg: Config, s: GatewayState, run: seq<Request>, d: DeviceID)
    requires d in s.pendingHandshake
    requires forall i | 0 <= i < |run| ::
               && !s.Expired(s.pendingHandshake[d], cfg, run[i].now)
               && !Ends(d, s.pendingHandshake[d].id, run[i], OutcomeOf(cfg, s, run, i))
    ensures var t := After(cfg, s, run);
            d in t.pendingHandshake && t.pendingHandshake[d] == s.pendingHandshake[d]
  {
    if run != [] {
      var n := |run| - 1;
      forall i | 0 <= i < n
        ensures !s.Expired(s.pendingHandshake[d], cfg, run[..n][i].now)
        ensures !Ends(d, s.pendingHandshake[d].id, run[..n][i], OutcomeOf(cfg, s, run[..n], i))
      {
        OutcomeOfPrefix(cfg, s, run, n, i);
        assert !Ends(d, s.pendingHandshake[d].id, run[i], OutcomeOf(cfg, s, run, i));
      }
      AttemptSurvives(cfg, s, run[..n], d);
      assert !Ends(d, s.pendingHandshake[d].id, run[n], OutcomeOf(cfg, s, run, n));
      StepKeepsAttempt(cfg, After(cfg, s, run[..n]), run[n], d);
    }
  }

  /** A pending attempt that has not expired completes with the right signature, and takes nothing
      of another device with it. */
  lemma AttemptCompletes(cfg: Config, s: GatewayState, d: DeviceID, now: int)
    requires d in s.pendingHandshake && !s.Expired(s.pendingHandshake[d], cfg, now) && s.Get(d) == Done
    ensures var p := s.pendingHandshake[d];
            var signature := SignedBy(s.devices[d].identity, Confirm(p.Key()));
            var (t, outcome) := s.HandleMsg3(cfg, d, p.id, signature, now);
            && outcome == Established(p.id, p.Key())
            && d in t.sessions && t.sessions[d].key == p.Key()
            && t.sessions - {d} == s.sessions - {d} && t.pendingHandshake == s.pendingHandshake - {d}
            && t.devices == s.devices && t.pendingFirmware == s.pendingFirmware
  {
  }

  /** Main result: once Msg1 was answered, the attempt can be completed after any calls of other
      connections, and completes with the key of its own messages, until its own Msg3, a newer Msg1
      of the device, or expiry. */
  lemma NewestCompletable(
    cfg: Config, s: GatewayState, msg1: HandshakeMsg1, secret: nat, msg2: HandshakeMsg2, issuedAt: int,
    t: GatewayState, attempt: nat, run: seq<Request>, now: int)
    requires s.HandleMsg1(cfg, msg1, secret, msg2, issuedAt) == (t, Answered(attempt))
    requires now - issuedAt <= cfg.handshakeTimeout
    requires forall i | 0 <= i < |run| ::
               && run[i].now - issuedAt <= cfg.handshakeTimeout
               && !Ends(msg1.deviceID, attempt, run[i], OutcomeOf(cfg, t, run, i))
    requires After(cfg, t, run).Get(msg1.deviceID) == Done
    ensures var d, k0 := msg1.deviceID, InitialKey(secret, msg1, msg2);
            var u := After(cfg, t, run);
            var (v, outcome) := u.HandleMsg3(cfg, d, attempt, SignedBy(u.devices[d].identity, Confirm(k0)), now);
            outcome == Established(attempt, k0) && d in v.sessions && v.sessions[d].key == k0
  {
    var d := msg1.deviceID;
    assert t.pendingHandshake[d] == Pending(attempt, msg1, msg2, secret, issuedAt);
    AttemptSurvives(cfg, t, run, d);
    AttemptCompletes(cfg, After(cfg, t, run), d, now);
  }

  /** What pruning drops, no Msg3 could have completed any more. */
  lemma PrunedWasLost(
    cfg: Config, s: GatewayState, d: DeviceID, pruneTime: int, attempt: nat, signature: Signature, now: int)
    requires d in s.pendingHandshake && d !in s.Prune(cfg, pruneTime).pendingHandshake
    requires pruneTime <= now
    ensures !s.HandleMsg3(cfg, d, attempt, signature, now).1.Established?
    ensures s.HandleMsg3(cfg, d, attempt, signature, now).0.sessions == s.sessions
  {
  }

  /** Call k answered the Msg1 from which the pending entry p of device d was made. */
  ghost predicate Origin(cfg: Config, start: GatewayState, run: seq<Request>, d: DeviceID, p: Pending, k: nat)
    requires k < |run|
  {
    && run[k] == Request(Msg1(p.msg1, p.secret, p.msg2), p.issuedAt)
    && p.msg1.deviceID == d
    && OutcomeOf(cfg, start, run, k) == Answered(p.id)
  }

  ghost predicate OriginsOk(cfg: Config, start: GatewayState, run: seq<Request>) {
    var s := After(cfg, start, run);
    forall d | d in s.pendingHandshake ::
      && s.pendingHandshake[d].id <= s.nextPendingID
      && exists k :: 0 <= k < |run| && Origin(cfg, start, run, d, s.pendingHandshake[d], k)
  }

  ghost predicate IdsDistinct(s: GatewayState) {
    forall d, e | d in s.pendingHandshake && e in s.pendingHandshake && d != e ::
      s.pendingHandshake[d].id != s.pendingHandshake[e].id
  }

  /** An id that has been answered is not above the counter; one that has been used is not pending. */
  ghost predicate IdsSpent(s: GatewayState, outcome: Outcome) {
    && (outcome.Answered? ==> outcome.id <= s.nextPendingID)
    && (outcome.Established? ==>
          && outcome.attempt <= s.nextPendingID
          && forall d | d in s.pendingHandshake :: s.pendingHandshake[d].id != outcome.attempt)
  }

  ghost predicate AttemptsOk(cfg: Config, start: GatewayState, run: seq<Request>) {
    OriginsOk(cfg, start, run) && IdsDistinct(After(cfg, start, run)) && SpentOk(cfg, start, run)
  }

  ghost predicate SpentOk(cfg: Config, start: GatewayState, run: seq<Request>) {
    forall j | 0 <= j < |run| :: IdsSpent(After(cfg, start, run), OutcomeOf(cfg, start, run, j))
  }

  /** One call adds at most one attempt, under the next id, and completes at most one. */
  lemma PendingStep(cfg: Config, s: GatewayState, r: Request)
    ensures var (t, outcome) := Apply(cfg, s, r);
            && t.nextPendingID == s.nextPendingID + (if outcome.Answered? then 1 else 0)
            && (outcome.Answered? ==> outcome.id == t.nextPendingID)
            && (forall d | d in t.pendingHandshake ::
                  || (d in s.pendingHandshake && t.pendingHandshake[d] == s.pendingHandshake[d])
                  || var p := t.pendingHandshake[d];
                     && r == Request(Msg1(p.msg1, p.secret, p.msg2), p.issuedAt)
                     && p.msg1.deviceID == d && outcome == Answered(p.id))
            && (outcome.Established? ==>
                  && r.op.id in s.pendingHandshake && outcome.attempt == s.pendingHandshake[r.op.id].id
                  && r.op.id !in t.pendingHandshake)
  {
    Frame(cfg, s, r);
    OutcomeFrame(cfg, s, r);
  }

  lemma OriginKept(cfg: Config, start: GatewayState, run: seq<Request>, n: nat, d: DeviceID, p: Pending, k: nat)
    requires k < n <= |run| && Origin(cfg, start, run[..n], d, p, k)
    ensures Origin(cfg, start, run, d, p, k)
  {
    OutcomeOfPrefix(cfg, start, run, n, k);
  }

  lemma OriginsStep(cfg: Config, start: GatewayState, run: seq<Request>)
    requires run != [] && OriginsOk(cfg, start, run[..|run| - 1])
    ensures OriginsOk(cfg, start, run)
  {
    var n := |run| - 1;
    var s, t := After(cfg, start, run[..n]), After(cfg, start, run);
    PendingStep(cfg, s, run[n]);
    forall d | d in t.pendingHandshake
      ensures exists k :: 0 <= k < |run| && Origin(cfg, start, run, d, t.pendingHandshake[d], k)
    {
      var p := t.pendingHandshake[d];
      if d in s.pendingHandshake && p == s.pendingHandshake[d] {
        var k :| 0 <= k < n && Origin(cfg, start, run[..n], d, p, k);
        OriginKept(cfg, start, run, n, d, p, k);
      } else {
        assert Origin(cfg, start, run, d, p, n);
      }
    }
  }

  lemma IdsStep(cfg: Config, s: GatewayState, r: Request)
    requires IdsDistinct(s) && forall d | d in s.pendingHandshake :: s.pendingHandshake[d].id <= s.nextPendingID
    ensures IdsDistinct(Apply(cfg, s, r).0) && IdsSpent(Apply(cfg, s, r).0, Apply(cfg, s, r).1)
  {
    PendingStep(cfg, s, r);
  }

  lemma SpentStep(cfg: Config, s: GatewayState, r: Request, earlier: Outcome)
    requires IdsSpent(s, earlier)
    ensures IdsSpent(Apply(cfg, s, r).0, earlier)
  {
    PendingStep(cfg, s, r);
  }

  lemma SpentKept(cfg: Config, s: GatewayState, start: GatewayState, run: seq<Request>, j: nat)
    requires j < |run| - 1 && s == After(cfg, start, run[..|run| - 1])
    requires IdsSpent(s, OutcomeOf(cfg, start, run[..|run| - 1], j))
    ensures IdsSpent(Apply(cfg, s, run[|run| - 1]).0, OutcomeOf(cfg, start, run, j))
  {
    OutcomeOfPrefix(cfg, start, run, |run| - 1, j);
    SpentStep(cfg, s, run[|run| - 1], OutcomeOf(cfg, start, run, j));
  }

  lemma AllSpentKept(cfg: Config, s: GatewayState, start: GatewayState, run: seq<Request>)
    requires run != [] && s == After(cfg, start, run[..|run| - 1]) && SpentOk(cfg, start, run[..|run| - 1])
    requires IdsSpent(Apply(cfg, s, run[|run| - 1]).0, Apply(cfg, s, run[|run| - 1]).1)
    ensures SpentOk(cfg, start, run)
  {
    var n := |run| - 1;
    forall j | 0 <= j < |run|
      ensures IdsSpent(Apply(cfg, s, run[n]).0, OutcomeOf(cfg, start, run, j))
    {
      if j < n {
        SpentKept(cfg, s, start, run, j);
      }
    }
  }

  lemma AttemptsStep(cfg: Config, start: GatewayState, run: seq<Request>)
    requires run != [] && AttemptsOk(cfg, start, run[..|run| - 1])
    ensures AttemptsOk(cfg, start, run)
  {
    var n := |run| - 1;
    var s := After(cfg, start, run[..n]);
    OriginsStep(cfg, start, run);
    IdsStep(cfg, s, run[n]);
    AllSpentKept(cfg, s, start, run);
  }

  lemma {:induction false} AttemptsHold(cfg: Config, guard: GuardState, run: seq<Request>)
    ensures AttemptsOk(cfg, NewGateway(guard), run)
  {
    if run != [] {
      AttemptsHold(cfg, guard, run[..|run| - 1]);
      AttemptsStep(cfg, NewGateway(guard), run);
    }
  }

  /** Call j made a session out of the Msg1 of call k: same device, same attempt, not too long
      before, and the key of exactly that call's messages and secret. */
  ghost predicate MadeFrom(cfg: Config, start: GatewayState, run: seq<Request>, j: nat, k: nat)
    requires k < j < |run|
  {
    var made := OutcomeOf(cfg, start, run, j);
    && run[j].op.Msg3? && run[k].op.Msg1? && made.Established?
    && run[k].op.msg1.deviceID == run[j].op.id
    && OutcomeOf(cfg, start, run, k) == Answered(made.attempt)
    && (run[j].op.attempt == 0 || run[j].op.attempt == made.attempt)
    && made.key == InitialKey(run[k].op.secret, run[k].op.msg1, run[k].op.msg2)
    && run[j].now - run[k].now <= cfg.handshakeTimeout
    && SignedFor(After(cfg, start, run[..j]), run[j].op.id, made.key, run[j].op.signature)
  }

  /** The device has confirmed the key with the identity key in the registry. */
  predicate SignedFor(s: GatewayState, d: DeviceID, key: InitialKey, signature: Signature) {
    d in s.devices && signature == SignedBy(s.devices[d].identity, Confirm(key))
  }

  /** No session without the device's signature over the key of the very handshake. */
  lemma EstablishedIsSigned(
    cfg: Config, s: GatewayState, d: DeviceID, attempt: nat, signature: Signature, now: int)
    requires s.HandleMsg3(cfg, d, attempt, signature, now).1.Established?
    ensures d in s.pendingHandshake
    ensures s.HandleMsg3(cfg, d, attempt, signature, now).1.key == s.pendingHandshake[d].Key()
    ensures SignedFor(s, d, s.pendingHandshake[d].Key(), signature)
  {
  }

  /** Main result: every session comes from one answered Msg1 of its device, and its Msg3 carried the
      signature over the key under the identity registered at that call. */
  lemma SessionHasOrigin(cfg: Config, guard: GuardState, run: seq<Request>, j: nat)
    requires j < |run| && OutcomeOf(cfg, NewGateway(guard), run, j).Established?
    ensures exists k | 0 <= k < j :: MadeFrom(cfg, NewGateway(guard), run, j, k)
  {
    var start := NewGateway(guard);
    AttemptsHold(cfg, guard, run[..j]);
    var s := After(cfg, start, run[..j]);
    PendingStep(cfg, s, run[j]);
    Frame(cfg, s, run[j]);
    OutcomeFrame(cfg, s, run[j]);
    var p := s.pendingHandshake[run[j].op.id];
    var k :| 0 <= k < j && Origin(cfg, start, run[..j], run[j].op.id, p, k);
    OriginKept(cfg, start, run, j, run[j].op.id, p, k);
    EstablishedIsSigned(cfg, s, run[j].op.id, run[j].op.attempt, run[j].op.signature, run[j].now);
    assert MadeFrom(cfg, start, run, j, k);
  }

  /** Main result: no attempt yields two sessions, and no two Msg1 are answered with one id. */
  lemma AttemptsUsedOnce(cfg: Config, guard: GuardState, run: seq<Request>, i: nat, j: nat)
    requires i < j < |run|
    ensures var a, b := OutcomeOf(cfg, NewGateway(guard), run, i), OutcomeOf(cfg, NewGateway(guard), run, j);
            && (a.Established? && b.Established? ==> a.attempt != b.attempt)
            && (a.Answered? && b.Answered? ==> a.id < b.id)
  {
    var start := NewGateway(guard);
    AttemptsHold(cfg, guard, run[..j]);
    OutcomeOfPrefix(cfg, start, run, j, i);
    assert IdsSpent(After(cfg, start, run[..j]), OutcomeOf(cfg, start, run[..j], i));
    PendingStep(cfg, After(cfg, start, run[..j]), run[j]);
  }

  // Replayed handshakes

  /** The checks the replay guard saw during the run, one for each Msg1. */
  function GuardCalls(run: seq<Request>): seq<Call> {
    if run == [] then [] else
      var n := |run| - 1;
      var rest := GuardCalls(run[..n]);
      match run[n].op
      case Msg1(msg1, _, _) => rest + [Call(NonceKey(msg1.deviceID, msg1.nonce), run[n].now)]
      case _ => rest
  }

  lemma GuardStep(cfg: Config, s: GatewayState, r: Request)
    ensures Apply(cfg, s, r).0.guard ==
            match r.op
            case Msg1(msg1, _, _) => s.guard.Check(NonceKey(msg1.deviceID, msg1.nonce), r.now).0
            case _ => s.guard
  {
  }

  lemma {:induction false} GuardTracks(cfg: Config, guard: GuardState, run: seq<Request>)
    ensures After(cfg, NewGateway(guard), run).guard == ReplayGuards.After(guard, GuardCalls(run))
  {
    if run != [] {
      var n := |run| - 1;
      GuardTracks(cfg, guard, run[..n]);
      GuardStep(cfg, After(cfg, NewGateway(guard), run[..n]), run[n]);
      if run[n].op.Msg1? {
        assert GuardCalls(run)[..|GuardCalls(run)| - 1] == GuardCalls(run[..n]);
      }
    }
  }

  lemma {:induction false} GuardCallsPrefix(run: seq<Request>, n: nat)
    requires n <= |run|
    ensures GuardCalls(run[..n]) <= GuardCalls(run)
    decreases |run|
  {
    if n < |run| {
      GuardCallsPrefix(run[..|run| - 1], n);
      assert run[..|run| - 1][..n] == run[..n];
    } else {
      assert run[..n] == run;
    }
  }

  lemma {:induction false} GuardCallsMonotone(start: int, run: seq<Request>)
    requires forall i, j | 0 <= i < j < |run| :: run[i].now <= run[j].now
    requires forall i | 0 <= i < |run| :: start <= run[i].now
    ensures Monotone(start, GuardCalls(run))
    ensures run != [] ==> forall c | c in GuardCalls(run) :: c.now <= run[|run| - 1].now
  {
    if run != [] {
      GuardCallsMonotone(start, run[..|run| - 1]);
    }
  }

  /** The check made for call i is the next one after those of the calls before it. */
  lemma CheckOfCall(run: seq<Request>, i: nat)
    requires i < |run| && run[i].op.Msg1?
    ensures var c := |GuardCalls(run[..i])|;
            && c < |GuardCalls(run)| && GuardCalls(run)[..c] == GuardCalls(run[..i])
            && GuardCalls(run)[c] == Call(NonceKey(run[i].op.msg1.deviceID, run[i].op.msg1.nonce), run[i].now)
  {
    assert run[..i + 1][..i] == run[..i];
    GuardCallsPrefix(run, i + 1);
    assert GuardCalls(run[..i + 1])[|GuardCalls(run[..i])|] == GuardCalls(run)[|GuardCalls(run[..i])|];
  }

  lemma AnsweredIfAdmitted(cfg: Config, s: GatewayState, r: Request)
    requires r.op.Msg1? && Apply(cfg, s, r).1.Answered?
    ensures s.guard.Check(NonceKey(r.op.msg1.deviceID, r.op.msg1.nonce), r.now).1
  {
  }

  /** An answered Msg1 is an admission of its nonce by the guard, at its place in the calls. */
  lemma AnsweredWasAdmitted(cfg: Config, guard: GuardState, run: seq<Request>, i: nat) returns (c: nat)
    requires i < |run| && run[i].op.Msg1? && OutcomeOf(cfg, NewGateway(guard), run, i).Answered?
    ensures c == |GuardCalls(run[..i])| < |GuardCalls(run)|
    ensures GuardCalls(run)[c] == Call(NonceKey(run[i].op.msg1.deviceID, run[i].op.msg1.nonce), run[i].now)
    ensures Admitted(guard, GuardCalls(run), c)
  {
    c := |GuardCalls(run[..i])|;
    CheckOfCall(run, i);
    GuardTracks(cfg, guard, run[..i]);
    AnsweredIfAdmitted(cfg, After(cfg, NewGateway(guard), run[..i]), run[i]);
  }

  lemma EarlierCall(run: seq<Request>, i: nat, j: nat)
    requires i < j < |run| && run[i].op.Msg1?
    ensures |GuardCalls(run[..i])| < |GuardCalls(run[..j])|
  {
    GuardCallsPrefix(run[..j], i + 1);
    assert run[..j][..i + 1] == run[..i + 1] && run[..i + 1][..i] == run[..i];
  }

  lemma AnsweredApart(cfg: Config, guard: GuardState, run: seq<Request>, i: nat, j: nat)
    requires guard.current == map[] && guard.previous == map[] && guard.ttl > 0
    requires i < j < |run| && run[i].op.Msg1? && run[j].op.Msg1?
    requires forall a, b | 0 <= a < b < |run| :: run[a].now <= run[b].now
    requires forall a | 0 <= a < |run| :: guard.rotated <= run[a].now
    requires run[i].op.msg1.deviceID == run[j].op.msg1.deviceID && run[i].op.msg1.nonce == run[j].op.msg1.nonce
    requires OutcomeOf(cfg, NewGateway(guard), run, i).Answered? && OutcomeOf(cfg, NewGateway(guard), run, j).Answered?
    ensures run[j].now - run[i].now >= guard.ttl / 2
  {
    var a := AnsweredWasAdmitted(cfg, guard, run, i);
    var b := AnsweredWasAdmitted(cfg, guard, run, j);
    EarlierCall(run, i, j);
    GuardCallsMonotone(guard.rotated, run);
    AdmissionsApart(guard, GuardCalls(run), a, b);
  }

  /** Main result: a recorded Msg1 sent again is not answered again within half the nonce TTL. */
  lemma RecordedMsg1Refused(cfg: Config, ttl: int, began: int, run: seq<Request>, i: nat, j: nat)
    requires i < j < |run|
    requires forall a, b | 0 <= a < b < |run| :: run[a].now <= run[b].now
    requires forall a | 0 <= a < |run| :: began <= run[a].now
    requires run[i].op.Msg1? && run[j].op.Msg1?
    requires run[i].op.msg1.deviceID == run[j].op.msg1.deviceID && run[i].op.msg1.nonce == run[j].op.msg1.nonce
    ensures var start := NewGateway(NewGuard(ttl, began));
            OutcomeOf(cfg, start, run, i).Answered? && OutcomeOf(cfg, start, run, j).Answered? ==>
              run[j].now - run[i].now >= NewGuard(ttl, began).ttl / 2
  {
    var guard := NewGuard(ttl, began);
    if OutcomeOf(cfg, NewGateway(guard), run, i).Answered? && OutcomeOf(cfg, NewGateway(guard), run, j).Answered? {
      AnsweredApart(cfg, guard, run, i, j);
    }
  }

  // Firmware challenges

  /** Overwriting a challenge never loses an answer that would still count, for every gateway
      state and time, exactly if challenges are re-issued only after their answers expire. */
  lemma NoAnswerableChallengeLost(cfg: Config)
    ensures (forall s: GatewayState, d: DeviceID, challenge: Bytes, now: int, later: int
               | d in s.pendingFirmware && now <= later
                 && s.IssueChallenge(cfg, d, challenge, now).1 == ChallengeIssued ::
               !s.Answerable(cfg, s.pendingFirmware[d], later))
            <==> cfg.challengeTimeout > cfg.responseValidity
  {
    if cfg.challengeTimeout <= cfg.responseValidity {
      var d: DeviceID := ['a' as int as byte];
      var hash: Bytes32 := seq(32, _ => 0);
      var rec := DeviceRecord(Identity(0, d), [], hash, false, "", 0);
      var s := NewGateway(NewGuard(0, 0)).(devices := map[d := rec], pendingFirmware := map[d := FirmwareCheck([], 0)]);
      var now := cfg.responseValidity;
      assert s.IssueChallenge(cfg, d, [], now).1 == ChallengeIssued && s.Answerable(cfg, s.pendingFirmware[d], now);
    }
  }

  /** Did call m replace or consume the challenge of device d? */
  ghost predicate Touches(cfg: Config, start: GatewayState, run: seq<Request>, d: DeviceID, m: nat)
    requires m < |run|
  {
    || (run[m].op.IssueChallenge? && run[m].op.id == d && OutcomeOf(cfg, start, run, m) == ChallengeIssued)
    || (run[m].op.VerifyFirmware? && run[m].op.id == d)
    || run[m].op.Shutdown?
  }

  /** Call k issued the challenge c to device d, and nothing has touched it since. */
  ghost predicate LatestChallenge(
    cfg: Config, start: GatewayState, run: seq<Request>, d: DeviceID, c: FirmwareCheck, k: nat)
    requires k < |run|
  {
    && run[k] == Request(IssueChallenge(d, c.challenge), c.issuedAt)
    && OutcomeOf(cfg, start, run, k) == ChallengeIssued
    && forall m | k < m < |run| :: !Touches(cfg, start, run, d, m)
  }

  /** Only an issued challenge enters the table; an answer, right or wrong, takes it out. */
  lemma ChallengeStep(cfg: Config, s: GatewayState, r: Request, d: DeviceID)
    requires d in Apply(cfg, s, r).0.pendingFirmware
    ensures var (t, outcome) := Apply(cfg, s, r);
            if r.op.IssueChallenge? && r.op.id == d && outcome == ChallengeIssued then
              t.pendingFirmware[d] == FirmwareCheck(r.op.challenge, r.now)
            else
              && d in s.pendingFirmware && t.pendingFirmware[d] == s.pendingFirmware[d]
              && !r.op.Shutdown? && !(r.op.VerifyFirmware? && r.op.id == d)
  {
    Frame(cfg, s, r);
    OutcomeFrame(cfg, s, r);
  }

  lemma {:induction false} ChallengesHold(cfg: Config, guard: GuardState, run: seq<Request>, d: DeviceID)
    returns (k: nat)
    requires d in After(cfg, NewGateway(guard), run).pendingFirmware
    ensures k < |run|
    ensures LatestChallenge(cfg, NewGateway(guard), run, d, After(cfg, NewGateway(guard), run).pendingFirmware[d], k)
  {
    var start := NewGateway(guard);
    var n := |run| - 1;
    var s := After(cfg, start, run[..n]);
    ChallengeStep(cfg, s, run[n], d);
    if run[n].op.IssueChallenge? && run[n].op.id == d && OutcomeOf(cfg, start, run, n) == ChallengeIssued {
      k := n;
    } else {
      k := ChallengesHold(cfg, guard, run[..n], d);
      OutcomeOfPrefix(cfg, start, run, n, k);
      forall m | k < m < |run|
        ensures !Touches(cfg, start, run, d, m)
      {
        if m < n {
          OutcomeOfPrefix(cfg, start, run, n, m);
          assert !Touches(cfg, start, run[..n], d, m);
        }
      }
    }
  }

  /** Call j judged an answer against the challenge of call k, the latest of the device, issued no
      longer ago than the validity, with no other answer in between. */
  ghost predicate AnswersTo(cfg: Config, start: GatewayState, run: seq<Request>, j: nat, k: nat)
    requires k < j < |run|
  {
    var verdict := OutcomeOf(cfg, start, run, j);
    && run[j].op.VerifyFirmware? && verdict.Checked?
    && run[k].op == IssueChallenge(run[j].op.id, verdict.challenge)
    && OutcomeOf(cfg, start, run, k) == ChallengeIssued
    && (forall m | k < m < j :: !Touches(cfg, start, run, run[j].op.id, m))
    && run[j].now - run[k].now <= cfg.responseValidity
  }

  /** Main result: every judged answer is judged against the latest challenge of its device, and
      a challenge is consumed at most once. */
  lemma AnswerMeetsLatestChallenge(cfg: Config, guard: GuardState, run: seq<Request>, j: nat)
    requires j < |run| && OutcomeOf(cfg, NewGateway(guard), run, j).Checked?
    ensures exists k | 0 <= k < j :: AnswersTo(cfg, NewGateway(guard), run, j, k)
  {
    var start := NewGateway(guard);
    Frame(cfg, After(cfg, start, run[..j]), run[j]);
    OutcomeFrame(cfg, After(cfg, start, run[..j]), run[j]);
    var d := run[j].op.id;
    var k := ChallengesHold(cfg, guard, run[..j], d);
    OutcomeOfPrefix(cfg, start, run, j, k);
    forall m | k < m < j
      ensures !Touches(cfg, start, run, d, m)
    {
      OutcomeOfPrefix(cfg, start, run, j, m);
      assert !Touches(cfg, start, run[..j], d, m);
    }
    assert AnswersTo(cfg, start, run, j, k);
  }

  /** Every answer to an open challenge of an active device within its validity is judged against it, and
      revokes the device unless it is the reference hash signed together with that challenge. */
  lemma AnswerIsJudged(cfg: Config, s: GatewayState, d: DeviceID, answer: FirmwareAnswer, now: int)
    requires d in s.pendingFirmware && now - s.pendingFirmware[d].issuedAt <= cfg.responseValidity
    requires s.Get(d) == Done
    ensures var (t, verdict) := s.VerifyFirmware(cfg, d, answer, now);
            var challenge, hash := s.pendingFirmware[d].challenge, s.devices[d].firmwareHash;
            && verdict.Checked? && verdict.challenge == challenge
            && (answer != FirmwareAnswer(hash, SignedBy(s.devices[d].identity, Attest(challenge, hash))) ==>
                  d in t.devices && t.devices[d].revoked && d !in t.sessions)
  {
  }

  /** A judged answer passes exactly if the device's own key signed the challenge together with the
      reference hash; any other leaves the device revoked and without a session. */
  lemma FailedCheckRevokes(cfg: Config, s: GatewayState, d: DeviceID, answer: FirmwareAnswer, now: int)
    requires s.VerifyFirmware(cfg, d, answer, now).1.Checked?
    ensures var (t, verdict) := s.VerifyFirmware(cfg, d, answer, now);
            var genuine := answer == FirmwareAnswer(s.devices[d].firmwareHash,
                             SignedBy(s.devices[d].identity, Attest(verdict.challenge, s.devices[d].firmwareHash)));
            && (genuine <==> verdict.signatureValid && verdict.hashMatches)
            && (genuine ==> t.devices == s.devices && t.sessions == s.sessions)
            && (!genuine ==> d in t.devices && t.devices[d].revoked && d !in t.sessions)
  {
  }
}
