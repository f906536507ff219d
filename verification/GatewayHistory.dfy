/** The gateway's tables as its history of calls determines them: which call registered a device, gave
    it its keys, revoked it, attempted its handshake, issued its challenge and made its session; and
    from these alone, exactly which calls succeed. */
module GatewayHistory {
  import opened Options
  import ReplayGuards
  import opened Gateways
  import opened GatewayRuns

  predicate Acceptable(serial: SerialOutput) {
    ValidDeviceID(serial.deviceID) && serial.checksumOk && serial.kemPubOk && serial.identityOk
  }

  /** A judged answer that does not pass. */
  predicate Condemns(outcome: Outcome) {
    outcome.Checked? && !(outcome.signatureValid && outcome.hashMatches)
  }

  // The call that made the device what it is now, as long as nothing has undone it

  ghost function RegisteredBy(cfg: Config, start: GatewayState, run: seq<Request>, d: DeviceID): (k: Option<nat>)
    ensures k.Some? ==> k.value < |run| && run[k.value].op.Register?
  {
    if run == [] then None else
      var n := |run| - 1;
      match run[n].op
      case Register(serial) =>
        if serial.deviceID == d && OutcomeOf(cfg, start, run, n) == Done then Some(n)
        else RegisteredBy(cfg, start, run[..n], d)
      case Delete(id) => if id == d then None else RegisteredBy(cfg, start, run[..n], d)
      case _ => RegisteredBy(cfg, start, run[..n], d)
  }

  ghost function KeyedBy(cfg: Config, start: GatewayState, run: seq<Request>, d: DeviceID): (k: Option<nat>)
    ensures k.Some? ==> k.value < |run| && (run[k.value].op.Register? || run[k.value].op.Reregister?)
  {
    if run == [] then None else
      var n := |run| - 1;
      match run[n].op
      case Register(serial) =>
        if serial.deviceID == d && OutcomeOf(cfg, start, run, n) == Done then Some(n)
        else KeyedBy(cfg, start, run[..n], d)
      case Reregister(serial) =>
        if serial.deviceID == d && OutcomeOf(cfg, start, run, n) == Done then Some(n)
        else KeyedBy(cfg, start, run[..n], d)
      case Delete(id) => if id == d then None else KeyedBy(cfg, start, run[..n], d)
      case _ => KeyedBy(cfg, start, run[..n], d)
  }

  ghost function RevokedBy(cfg: Config, start: GatewayState, run: seq<Request>, d: DeviceID): (k: Option<nat>)
    ensures k.Some? ==> k.value < |run| && (run[k.value].op.Revoke? || run[k.value].op.VerifyFirmware?)
  {
    if run == [] then None else
      var n := |run| - 1;
      match run[n].op
      case Revoke(id, _) =>
        if id == d && OutcomeOf(cfg, start, run, n) == Done then Some(n) else RevokedBy(cfg, start, run[..n], d)
      case VerifyFirmware(id, _) =>
        if id == d && Condemns(OutcomeOf(cfg, start, run, n)) then Some(n) else RevokedBy(cfg, start, run[..n], d)
      case Delete(id) => if id == d then None else RevokedBy(cfg, start, run[..n], d)
      case _ => RevokedBy(cfg, start, run[..n], d)
  }

  ghost function ChallengedBy(cfg: Config, start: GatewayState, run: seq<Request>, d: DeviceID): (k: Option<nat>)
    ensures k.Some? ==> k.value < |run| && run[k.value].op.IssueChallenge?
  {
    if run == [] then None else
      var n := |run| - 1;
      match run[n].op
      case IssueChallenge(id, _) =>
        if id == d && OutcomeOf(cfg, start, run, n) == ChallengeIssued then Some(n)
        else ChallengedBy(cfg, start, run[..n], d)
      case VerifyFirmware(id, _) => if id == d then None else ChallengedBy(cfg, start, run[..n], d)
      case Shutdown => None
      case _ => ChallengedBy(cfg, start, run[..n], d)
  }

  /** An answered Msg1, until a newer one of the device, its Msg3, its expiry at somebody's Msg1, or the
      shutdown. */
  ghost function AttemptedBy(cfg: Config, start: GatewayState, run: seq<Request>, d: DeviceID): (k: Option<nat>)
    ensures k.Some? ==> k.value < |run| && run[k.value].op.Msg1? && OutcomeOf(cfg, start, run, k.value).Answered?
  {
    if run == [] then None else
      var n := |run| - 1;
      var before := AttemptedBy(cfg, start, run[..n], d);
      assert before.Some? ==> run[..n][..before.value] == run[..before.value];
      match run[n].op
      case Msg1(msg1, _, _) =>
        if !OutcomeOf(cfg, start, run, n).Answered? then before
        else if msg1.deviceID == d then Some(n)
        else if before.Some? && run[n].now - run[before.value].now > cfg.handshakeTimeout then None
        else before
      case Msg3(id, attempt, _) =>
        if id == d && before.Some? && (attempt == 0 || attempt == OutcomeOf(cfg, start, run, before.value).id) then None
        else before
      case Shutdown => None
      case _ => before
  }

  /** How many sessions the calls have made; the object of the next one has this number. */
  ghost function Made(cfg: Config, start: GatewayState, run: seq<Request>): nat {
    if run == [] then 0 else
      Made(cfg, start, run[..|run| - 1]) + if OutcomeOf(cfg, start, run, |run| - 1).Established? then 1 else 0
  }

  /** The call ends the device's session if its object has this number. */
  predicate Closes(r: Request, outcome: Outcome, d: DeviceID, serial: nat) {
    match r.op
    case Reregister(s) => s.deviceID == d && outcome == Done
    case Delete(id) => id == d
    case Revoke(id, _) => id == d
    case VerifyFirmware(id, _) => id == d && Condemns(outcome)
    case Close(id, want) => id == d && (want.Some? ==> want.value == serial)
    case Shutdown => true
    case _ => false
  }

  ghost function SessionBy(cfg: Config, start: GatewayState, run: seq<Request>, d: DeviceID): (k: Option<nat>)
    ensures k.Some? ==> k.value < |run| && run[k.value].op.Msg3? && OutcomeOf(cfg, start, run, k.value).Established?
  {
    if run == [] then None else
      var n := |run| - 1;
      var before := SessionBy(cfg, start, run[..n], d);
      assert before.Some? ==> run[..n][..before.value] == run[..before.value];
      if run[n].op.Msg3? && run[n].op.id == d && OutcomeOf(cfg, start, run, n).Established? then Some(n)
      else if before.Some? && Closes(run[n], OutcomeOf(cfg, start, run, n), d, Made(cfg, start, run[..before.value]))
      then None
      else before
  }

  // The tables follow the calls

  function ReasonOf(r: Request, outcome: Outcome): string {
    match r.op
    case Revoke(_, reason) => reason
    case _ => if outcome.Checked? && outcome.signatureValid then "firmware hash mismatch" else "signature not verified"
  }

  predicate Same<T(==)>(before: map<DeviceID, T>, after: map<DeviceID, T>, d: DeviceID) {
    (d in after <==> d in before) && (d in before ==> after[d] == before[d])
  }

  /** The record of a device is the one its calls have given it. */
  ghost predicate RecordFollows(cfg: Config, start: GatewayState, run: seq<Request>, d: DeviceID) {
    var s := After(cfg, start, run);
    var made, keyed := RegisteredBy(cfg, start, run, d), KeyedBy(cfg, start, run, d);
    var revoked := RevokedBy(cfg, start, run, d);
    && (d in s.devices <==> made.Some?) && (made.Some? <==> keyed.Some?) && (revoked.Some? ==> made.Some?)
    && (made.Some? ==>
          var rec, serial := s.devices[d], run[keyed.value].op.serial;
          && rec.createdAt == run[made.value].now
          && rec.identity == serial.identity && rec.kemPub == serial.kemPub && rec.firmwareHash == serial.firmwareHash
          && (rec.revoked <==> revoked.Some?)
          && rec.revokedReason == if revoked.None? then ""
                                  else ReasonOf(run[revoked.value], OutcomeOf(cfg, start, run, revoked.value)))
  }

  /** What one call makes of the record of a device. */
  lemma CallOnRecord(cfg: Config, s: GatewayState, r: Request, d: DeviceID)
    ensures var (t, outcome) := Apply(cfg, s, r);
            if r.op.Register? && r.op.serial.deviceID == d && outcome == Done then
              var serial := r.op.serial;
              && d !in s.devices && d in t.devices
              && t.devices[d]
                 == DeviceRecord(serial.identity, serial.kemPub, serial.firmwareHash, false, "", r.now)
            else if r.op.Reregister? && r.op.serial.deviceID == d && outcome == Done then
              var serial := r.op.serial;
              && d in s.devices && d in t.devices
              && t.devices[d] == s.devices[d].(identity := serial.identity, kemPub := serial.kemPub,
                                               firmwareHash := serial.firmwareHash)
            else if r.op == Delete(d) then d !in t.devices
            else if (r.op.Revoke? && r.op.id == d && outcome == Done)
                    || (r.op.VerifyFirmware? && r.op.id == d && Condemns(outcome)) then
              && d in s.devices && d in t.devices
              && t.devices[d] == s.devices[d].(revoked := true, revokedReason := ReasonOf(r, outcome))
            else Same(s.devices, t.devices, d)
  {
  }

  lemma RecordStep(cfg: Config, start: GatewayState, run: seq<Request>, d: DeviceID)
    requires run != [] && RecordFollows(cfg, start, run[..|run| - 1], d)
    ensures RecordFollows(cfg, start, run, d)
  {
    var n := |run| - 1;
    CallOnRecord(cfg, After(cfg, start, run[..n]), run[n], d);
    var revoked := RevokedBy(cfg, start, run[..n], d);
    if revoked.Some? {
      OutcomeOfPrefix(cfg, start, run, n, revoked.value);
    }
  }

  lemma {:induction false} RecordsHold(cfg: Config, guard: ReplayGuards.GuardState, run: seq<Request>, d: DeviceID)
    ensures RecordFollows(cfg, NewGateway(guard), run, d)
  {
    if run != [] {
      RecordsHold(cfg, guard, run[..|run| - 1], d);
      RecordStep(cfg, NewGateway(guard), run, d);
    }
  }

  ghost predicate ChallengeFollows(cfg: Config, start: GatewayState, run: seq<Request>, d: DeviceID) {
    var s, k := After(cfg, start, run), ChallengedBy(cfg, start, run, d);
    && (d in s.pendingFirmware <==> k.Some?)
    && (k.Some? ==> s.pendingFirmware[d] == FirmwareCheck(run[k.value].op.challenge, run[k.value].now))
  }

  /** What one call makes of the open challenge of a device. */
  lemma CallOnChallenge(cfg: Config, s: GatewayState, r: Request, d: DeviceID)
    ensures var (t, outcome) := Apply(cfg, s, r);
            if r.op.IssueChallenge? && r.op.id == d && outcome == ChallengeIssued then
              d in t.pendingFirmware && t.pendingFirmware[d] == FirmwareCheck(r.op.challenge, r.now)
            else if r.op.Shutdown? || (r.op.VerifyFirmware? && r.op.id == d) then d !in t.pendingFirmware
            else Same(s.pendingFirmware, t.pendingFirmware, d)
  {
    Frame(cfg, s, r);
  }

  lemma {:induction false} ChallengesFollow(cfg: Config, guard: ReplayGuards.GuardState, run: seq<Request>, d: DeviceID)
    ensures ChallengeFollows(cfg, NewGateway(guard), run, d)
  {
    if run != [] {
      var n := |run| - 1;
      ChallengesFollow(cfg, guard, run[..n], d);
      CallOnChallenge(cfg, After(cfg, NewGateway(guard), run[..n]), run[n], d);
    }
  }

  /** The handshake that an answered Msg1 opens. */
  function Opened(r: Request, id: nat): Pending
    requires r.op.Msg1?
  {
    Pending(id, r.op.msg1, r.op.msg2, r.op.secret, r.now)
  }

  ghost predicate AttemptFollows(cfg: Config, start: GatewayState, run: seq<Request>, d: DeviceID) {
    var s, k := After(cfg, start, run), AttemptedBy(cfg, start, run, d);
    && (d in s.pendingHandshake <==> k.Some?)
    && (k.Some? ==> s.pendingHandshake[d] == Opened(run[k.value], OutcomeOf(cfg, start, run, k.value).id))
  }

  /** The call ends the open handshake p of the device. */
  predicate EndsAttempt(cfg: Config, r: Request, outcome: Outcome, d: DeviceID, p: Pending) {
    match r.op
    case Msg1(_, _, _) => outcome.Answered? && r.now - p.issuedAt > cfg.handshakeTimeout
    case Msg3(id, attempt, _) => id == d && (attempt == 0 || attempt == p.id)
    case Shutdown => true
    case _ => false
  }

  /** What one call makes of the open handshake of a device. */
  lemma CallOnAttempt(cfg: Config, s: GatewayState, r: Request, d: DeviceID)
    ensures var (t, outcome) := Apply(cfg, s, r);
            if r.op.Msg1? && r.op.msg1.deviceID == d && outcome.Answered? then
              d in t.pendingHandshake && t.pendingHandshake[d] == Opened(r, outcome.id)
            else if d in s.pendingHandshake && EndsAttempt(cfg, r, outcome, d, s.pendingHandshake[d]) then
              d !in t.pendingHandshake
            else Same(s.pendingHandshake, t.pendingHandshake, d)
  {
    Frame(cfg, s, r);
  }

  lemma AttemptStep(cfg: Config, start: GatewayState, run: seq<Request>, d: DeviceID)
    requires run != [] && AttemptFollows(cfg, start, run[..|run| - 1], d)
    ensures AttemptFollows(cfg, start, run, d)
  {
    var n := |run| - 1;
    CallOnAttempt(cfg, After(cfg, start, run[..n]), run[n], d);
    var k := AttemptedBy(cfg, start, run[..n], d);
    if k.Some? {
      OutcomeOfPrefix(cfg, start, run, n, k.value);
    }
  }

  lemma {:induction false} AttemptsFollow(cfg: Config, guard: ReplayGuards.GuardState, run: seq<Request>, d: DeviceID)
    ensures AttemptFollows(cfg, NewGateway(guard), run, d)
  {
    if run != [] {
      AttemptsFollow(cfg, guard, run[..|run| - 1], d);
      AttemptStep(cfg, NewGateway(guard), run, d);
    }
  }

  ghost predicate SessionFollows(cfg: Config, start: GatewayState, run: seq<Request>, d: DeviceID) {
    var s, k := After(cfg, start, run), SessionBy(cfg, start, run, d);
    && s.made == Made(cfg, start, run)
    && (d in s.sessions <==> k.Some?)
    && (k.Some? ==>
          var made := OutcomeOf(cfg, start, run, k.value);
          && s.sessions[d].serial == Made(cfg, start, run[..k.value])
          && s.sessions[d].key == made.key && s.sessions[d].attempt == made.attempt)
  }

  /** What one call makes of the session of a device. */
  lemma CallOnSession(cfg: Config, s: GatewayState, r: Request, d: DeviceID)
    requires SessionOk(s, d)
    ensures var (t, outcome) := Apply(cfg, s, r);
            && t.made == s.made + (if outcome.Established? then 1 else 0)
            && if r.op.Msg3? && r.op.id == d && outcome.Established? then
                 && d in t.sessions && d in s.devices
                 && t.sessions[d] == LiveSession(s.made, outcome.key, s.devices[d].identity, outcome.attempt)
               else if d in s.sessions && Closes(r, outcome, d, s.sessions[d].serial) then d !in t.sessions
               else Same(s.sessions, t.sessions, d)
  {
  }

  lemma SessionStep(cfg: Config, start: GatewayState, run: seq<Request>, d: DeviceID)
    requires run != [] && SessionFollows(cfg, start, run[..|run| - 1], d)
    requires SessionOk(After(cfg, start, run[..|run| - 1]), d)
    ensures SessionFollows(cfg, start, run, d)
  {
    var n := |run| - 1;
    CallOnSession(cfg, After(cfg, start, run[..n]), run[n], d);
    var k := SessionBy(cfg, start, run[..n], d);
    if k.Some? {
      OutcomeOfPrefix(cfg, start, run, n, k.value);
      assert run[..n][..k.value] == run[..k.value];
    }
  }

  lemma {:induction false} SessionsFollow(cfg: Config, guard: ReplayGuards.GuardState, run: seq<Request>, d: DeviceID)
    ensures SessionFollows(cfg, NewGateway(guard), run, d)
  {
    if run != [] {
      SessionsFollow(cfg, guard, run[..|run| - 1], d);
      RegistryKept(cfg, NewGateway(guard), run[..|run| - 1]);
      assert SessionOk(After(cfg, NewGateway(guard), run[..|run| - 1]), d);
      SessionStep(cfg, NewGateway(guard), run, d);
    }
  }

  // Exactly which calls succeed, by the history before them

  /** Registered and not revoked. */
  ghost predicate Active(cfg: Config, start: GatewayState, run: seq<Request>, d: DeviceID) {
    RegisteredBy(cfg, start, run, d).Some? && RevokedBy(cfg, start, run, d).None?
  }

  ghost predicate Registered(cfg: Config, start: GatewayState, run: seq<Request>, d: DeviceID) {
    RegisteredBy(cfg, start, run, d).Some?
  }

  /** What is answered for a device that is not active. */
  ghost function Refusal(cfg: Config, start: GatewayState, run: seq<Request>, d: DeviceID): Outcome {
    if Registered(cfg, start, run, d) then DeviceRevoked else DeviceNotFound
  }

  lemma ActiveIsDone(cfg: Config, guard: ReplayGuards.GuardState, run: seq<Request>, d: DeviceID)
    ensures var start := NewGateway(guard);
            After(cfg, start, run).Get(d) == if Active(cfg, start, run, d) then Done else Refusal(cfg, start, run, d)
  {
    RecordsHold(cfg, guard, run, d);
  }

  /** Main result: a registration is accepted exactly if its serial output passes every check and the
      device is not registered, a new one exactly if it passes and the device is active; deletion and
      revocation go through exactly for registered devices. */
  lemma RegistryChangesExactly(cfg: Config, guard: ReplayGuards.GuardState, run: seq<Request>, j: nat)
    requires j < |run|
    ensures var start := NewGateway(guard);
            var past, outcome := run[..j], OutcomeOf(cfg, start, run, j);
            match run[j].op
            case Register(serial) =>
              && (outcome == Done <==> Acceptable(serial) && !Registered(cfg, start, past, serial.deviceID))
              && (outcome == DeviceExists <==> Acceptable(serial) && Registered(cfg, start, past, serial.deviceID))
            case Reregister(serial) =>
              && (outcome == Done <==> Acceptable(serial) && Active(cfg, start, past, serial.deviceID))
              && (Acceptable(serial) && !Active(cfg, start, past, serial.deviceID) ==>
                    outcome == Refusal(cfg, start, past, serial.deviceID))
            case Delete(id) =>
              outcome == if Registered(cfg, start, past, id) then Done else DeviceNotFound
            case Revoke(id, _) =>
              outcome == if Registered(cfg, start, past, id) then Done else DeviceNotFound
            case _ => true
  {
    match run[j].op
    case Register(serial) => ActiveIsDone(cfg, guard, run[..j], serial.deviceID);
    case Reregister(serial) => ActiveIsDone(cfg, guard, run[..j], serial.deviceID);
    case Delete(id) => ActiveIsDone(cfg, guard, run[..j], id);
    case Revoke(id, _) => ActiveIsDone(cfg, guard, run[..j], id);
    case _ =>
  }

  /** What a refused serial output is told is the first check that it fails. */
  lemma SerialRefusals(s: GatewayState, serial: SerialOutput)
    ensures var r := s.CheckSerial(serial);
            && (r == Done <==> Acceptable(serial))
            && (r == InvalidDeviceID <==> !ValidDeviceID(serial.deviceID))
            && (r == ChecksumMismatch ==> !serial.checksumOk)
            && (r == InvalidKEMKey ==> !serial.kemPubOk && serial.checksumOk)
            && (r == InvalidIdentityKey ==> !serial.identityOk && serial.kemPubOk && serial.checksumOk)
            && r in {Done, InvalidDeviceID, ChecksumMismatch, InvalidKEMKey, InvalidIdentityKey}
  {
  }

  /** Main result: a Msg1 is answered exactly if its device is active and the replay guard, after the
      Msg1 before it, admits its nonce. */
  lemma AnsweredExactly(cfg: Config, guard: ReplayGuards.GuardState, run: seq<Request>, j: nat)
    requires j < |run| && run[j].op.Msg1?
    ensures var start := NewGateway(guard);
            var msg1 := run[j].op.msg1;
            var past, outcome := run[..j], OutcomeOf(cfg, start, run, j);
            var admitted := ReplayGuards.After(guard, GuardCalls(past))
                              .Check(ReplayGuards.NonceKey(msg1.deviceID, msg1.nonce), run[j].now).1;
            && (outcome.Answered? <==> admitted && Active(cfg, start, past, msg1.deviceID))
            && (outcome == ReplayDetected <==> !admitted)
            && (admitted && !Active(cfg, start, past, msg1.deviceID) ==>
                  outcome == Refusal(cfg, start, past, msg1.deviceID))
  {
    ActiveIsDone(cfg, guard, run[..j], run[j].op.msg1.deviceID);
    GuardTracks(cfg, guard, run[..j]);
  }

  /** Main result: a Msg3 makes a session exactly if a handshake of its device is open, is the caller's
      own, has not expired, and the device is active and has signed the key of that handshake's
      messages with the identity key it was last given. */
  lemma EstablishedExactly(cfg: Config, guard: ReplayGuards.GuardState, run: seq<Request>, j: nat)
    requires j < |run| && run[j].op.Msg3?
    ensures var start := NewGateway(guard);
            var d, outcome := run[j].op.id, OutcomeOf(cfg, start, run, j);
            var attempted, keyed := AttemptedBy(cfg, start, run[..j], d), KeyedBy(cfg, start, run[..j], d);
            if attempted.None? then outcome == NoPendingHandshake
            else
              var msg1 := run[attempted.value];
              var id := OutcomeOf(cfg, start, run[..j], attempted.value).id;
              var key := InitialKey(msg1.op.secret, msg1.op.msg1, msg1.op.msg2);
              if run[j].op.attempt != 0 && run[j].op.attempt != id then outcome == Superseded
              else if run[j].now - msg1.now > cfg.handshakeTimeout then outcome == HandshakeExpired
              else if !Active(cfg, start, run[..j], d) then outcome == Refusal(cfg, start, run[..j], d)
              else
                outcome == if keyed.Some?
                              && run[j].op.signature == SignedBy(run[keyed.value].op.serial.identity, Confirm(key))
                           then Established(id, key) else ConfirmationFailed
  {
    var d := run[j].op.id;
    ActiveIsDone(cfg, guard, run[..j], d);
    RecordsHold(cfg, guard, run[..j], d);
    AttemptsFollow(cfg, guard, run[..j], d);
  }

  /** A challenge goes out exactly if the device is active and has no recent one open. */
  lemma ChallengedExactly(cfg: Config, guard: ReplayGuards.GuardState, run: seq<Request>, j: nat)
    requires j < |run| && run[j].op.IssueChallenge?
    ensures var start := NewGateway(guard);
            var d, outcome := run[j].op.id, OutcomeOf(cfg, start, run, j);
            var open := ChallengedBy(cfg, start, run[..j], d);
            var recent := open.Some? && run[j].now - run[open.value].now < cfg.challengeTimeout;
            && (outcome == ChallengeIssued <==> Active(cfg, start, run[..j], d) && !recent)
            && (outcome == ChallengePending <==> Active(cfg, start, run[..j], d) && recent)
            && (!Active(cfg, start, run[..j], d) ==> outcome == Refusal(cfg, start, run[..j], d))
  {
    ActiveIsDone(cfg, guard, run[..j], run[j].op.id);
    ChallengesFollow(cfg, guard, run[..j], run[j].op.id);
  }

  /** Main result: an answer is judged exactly if a challenge of its device is open, within its validity,
      and the device is active. It passes exactly if it is the reference hash, signed together with
      that challenge by the identity key the device was last given; any other answer leaves the
      device revoked and without a session. */
  lemma JudgedExactly(cfg: Config, guard: ReplayGuards.GuardState, run: seq<Request>, j: nat)
    requires j < |run| && run[j].op.VerifyFirmware?
    ensures var start := NewGateway(guard);
            var d, outcome := run[j].op.id, OutcomeOf(cfg, start, run, j);
            var open, keyed := ChallengedBy(cfg, start, run[..j], d), KeyedBy(cfg, start, run[..j], d);
            var answer, t := run[j].op.answer, After(cfg, start, run[..j + 1]);
            if open.None? then outcome == NoPendingChallenge
            else if run[j].now - run[open.value].now > cfg.responseValidity then outcome == ChallengeExpired
            else if !Active(cfg, start, run[..j], d) then outcome == Refusal(cfg, start, run[..j], d)
            else
              && keyed.Some?
              && var serial, challenge := run[keyed.value].op.serial, run[open.value].op.challenge;
                 var signed := SignedBy(serial.identity, Attest(challenge, answer.firmwareHash));
                 && outcome == Checked(challenge, answer.signature == signed,
                                       answer.firmwareHash == serial.firmwareHash)
                 && (answer != FirmwareAnswer(serial.firmwareHash, signed) ==>
                       d in t.devices && t.devices[d].revoked && d !in t.sessions)
  {
    var d := run[j].op.id;
    ActiveIsDone(cfg, guard, run[..j], d);
    RecordsHold(cfg, guard, run[..j], d);
    ChallengesFollow(cfg, guard, run[..j], d);
    assert run[..j + 1][..j] == run[..j];
  }

  /** Main result: a session is there exactly from the Msg3 that made it to the first call that ends it,
      and closing by object closes that very one or nothing. */
  lemma SessionsExactly(cfg: Config, guard: ReplayGuards.GuardState, run: seq<Request>, d: DeviceID, want: Option<nat>)
    ensures var start := NewGateway(guard);
            var s, made := After(cfg, start, run), SessionBy(cfg, start, run, d);
            && (d in s.sessions <==> made.Some?)
            && (made.Some? ==>
                  OutcomeOf(cfg, start, run, made.value) == Established(s.sessions[d].attempt, s.sessions[d].key))
            && (s.CloseSession(d, want).1 == Closed(true) <==>
                  made.Some? && (want.Some? ==> want.value == Made(cfg, start, run[..made.value])))
  {
    SessionsFollow(cfg, guard, run, d);
  }
}
