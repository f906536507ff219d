/** The gateway's tables: the device registry, handshakes and firmware checks in progress, and the
    live sessions. Each method runs as one step. */
module Gateways {
  import opened Bytes
  import opened Options
  import opened Wire
  import opened ReplayGuards

  type DeviceID = Bytes

  datatype Identity = Identity(algorithm: nat, publicKey: Bytes)

  datatype DeviceRecord = DeviceRecord(
    identity: Identity,
    kemPub: Bytes,
    firmwareHash: Bytes32,
    revoked: bool,
    revokedReason: string,
    createdAt: int)

  /** The serial-port output an administrator carries over, with the verdicts of the library
      checks on it. */
  datatype SerialOutput = SerialOutput(
    deviceID: DeviceID,
    identity: Identity,
    kemPub: Bytes,
    firmwareHash: Bytes32,
    checksumOk: bool,
    kemPubOk: bool,
    identityOk: bool)

  /** K0, determined by the encapsulated secret and the two messages of the transcript. */
  datatype InitialKey = InitialKey(secret: nat, msg1: HandshakeMsg1, msg2: HandshakeMsg2)

  /** What a device signs: the confirmation of a key, or a challenge with its firmware hash. */
  datatype Statement = Confirm(k0: InitialKey) | Attest(challenge: Bytes, firmwareHash: Bytes32)

  datatype Signature = SignedBy(signer: Identity, what: Statement) | Invalid(bits: Bytes)

  predicate Verify(signer: Identity, what: Statement, signature: Signature) {
    signature == SignedBy(signer, what)
  }

  datatype Pending = Pending(id: nat, msg1: HandshakeMsg1, msg2: HandshakeMsg2, secret: nat, issuedAt: int) {
    function Key(): InitialKey {
      InitialKey(secret, msg1, msg2)
    }
  }

  datatype FirmwareCheck = FirmwareCheck(challenge: Bytes, issuedAt: int)

  datatype FirmwareAnswer = FirmwareAnswer(firmwareHash: Bytes32, signature: Signature)

  /** A session object: serial tells objects apart as their addresses do; the identity it was
      authenticated under and its attempt are history. */
  datatype LiveSession = LiveSession(serial: nat, key: InitialKey, identity: Identity, attempt: nat)

  datatype Config = Config(handshakeTimeout: int, challengeTimeout: int, responseValidity: int)

  datatype Outcome =
    | Done
    | InvalidDeviceID
    | ChecksumMismatch
    | InvalidKEMKey
    | InvalidIdentityKey
    | DeviceExists
    | DeviceNotFound
    | DeviceRevoked
    | ReplayDetected
    | Answered(id: nat)
    | Superseded
    | NoPendingHandshake
    | HandshakeExpired
    | ConfirmationFailed
    | Established(attempt: nat, key: InitialKey)
    | Closed(existed: bool)
    | ChallengePending
    | ChallengeIssued
    | NoPendingChallenge
    | ChallengeExpired
    | Checked(challenge: Bytes, signatureValid: bool, hashMatches: bool)

  predicate IDChar(c: byte) {
    || 'A' as int <= c as int <= 'Z' as int || 'a' as int <= c as int <= 'z' as int
    || '0' as int <= c as int <= '9' as int
    || c as int == '.' as int || c as int == '_' as int || c as int == '-' as int
  }

  predicate ValidDeviceID(id: DeviceID) {
    1 <= |id| <= 128 && forall i :: 0 <= i < |id| ==> IDChar(id[i])
  }

  datatype GatewayState = GatewayState(
    devices: map<DeviceID, DeviceRecord>,
    pendingHandshake: map<DeviceID, Pending>,
    nextPendingID: nat,
    pendingFirmware: map<DeviceID, FirmwareCheck>,
    sessions: map<DeviceID, LiveSession>,
    made: nat,
    guard: GuardState)
  {
    /** Store.Get succeeds only for a device that is registered and not revoked. */
    function Get(id: DeviceID): Outcome {
      if id !in devices then DeviceNotFound else if devices[id].revoked then DeviceRevoked else Done
    }

    function CheckSerial(serial: SerialOutput): Outcome {
      if !ValidDeviceID(serial.deviceID) then InvalidDeviceID
      else if !serial.checksumOk then ChecksumMismatch
      else if !serial.kemPubOk then InvalidKEMKey
      else if !serial.identityOk then InvalidIdentityKey
      else Done
    }

    function Register(serial: SerialOutput, now: int): (GatewayState, Outcome) {
      var checked := CheckSerial(serial);
      if checked != Done then (this, checked)
      else if serial.deviceID in devices then (this, DeviceExists)
      else
        var rec := DeviceRecord(serial.identity, serial.kemPub, serial.firmwareHash, false, "", now);
        (this.(devices := devices[serial.deviceID := rec]), Done)
    }

    function Reregister(serial: SerialOutput): (GatewayState, Outcome) {
      var checked := CheckSerial(serial);
      if checked != Done then (this, checked)
      else if Get(serial.deviceID) != Done then (this, Get(serial.deviceID))
      else
        var rec := devices[serial.deviceID].(identity := serial.identity, kemPub := serial.kemPub,
                                             firmwareHash := serial.firmwareHash);
        (this.(devices := devices[serial.deviceID := rec], sessions := sessions - {serial.deviceID}), Done)
    }

    /** A revoked device may be deleted; that is how its ID is freed. */
    function Delete(id: DeviceID): (GatewayState, Outcome) {
      if id !in devices then (this, DeviceNotFound)
      else (this.(devices := devices - {id}, sessions := sessions - {id}), Done)
    }

    function Revoke(id: DeviceID, reason: string): (GatewayState, Outcome) {
      if id !in devices then (this, DeviceNotFound)
      else (this.(devices := devices[id := devices[id].(revoked := true, revokedReason := reason)],
                  sessions := sessions - {id}), Done)
    }

    predicate Expired(p: Pending, cfg: Config, now: int) {
      now - p.issuedAt > cfg.handshakeTimeout
    }

    function Prune(cfg: Config, now: int): GatewayState {
      this.(pendingHandshake :=
              map d | d in pendingHandshake && !Expired(pendingHandshake[d], cfg, now) :: pendingHandshake[d])
    }

    /** secret and msg2 are what encapsulation and the random generator return for this call. */
    function HandleMsg1(cfg: Config, msg1: HandshakeMsg1, secret: nat, msg2: HandshakeMsg2, now: int)
      : (GatewayState, Outcome)
    {
      var (g, admitted) := guard.Check(NonceKey(msg1.deviceID, msg1.nonce), now);
      var s := this.(guard := g);
      if !admitted then (s, ReplayDetected)
      else if Get(msg1.deviceID) != Done then (s, Get(msg1.deviceID))
      else
        var pruned := s.Prune(cfg, now);
        var id := nextPendingID + 1;
        var attempt := Pending(id, msg1, msg2, secret, now);
        (pruned.(nextPendingID := id, pendingHandshake := pruned.pendingHandshake[msg1.deviceID := attempt]),
         Answered(id))
    }

    /** id 0 skips the check that the attempt is the caller's own. */
    function HandleMsg3(cfg: Config, id: DeviceID, attempt: nat, signature: Signature, now: int)
      : (GatewayState, Outcome)
    {
      if id !in pendingHandshake then (this, NoPendingHandshake)
      else if attempt != 0 && pendingHandshake[id].id != attempt then (this, Superseded)
      else
        var p := pendingHandshake[id];
        var s := this.(pendingHandshake := pendingHandshake - {id});
        if Expired(p, cfg, now) then (s, HandshakeExpired)
        else if Get(id) != Done then (s, Get(id))
        else if !Verify(devices[id].identity, Confirm(p.Key()), signature) then (s, ConfirmationFailed)
        else
          var live := LiveSession(made, p.Key(), devices[id].identity, p.id);
          (s.(sessions := sessions[id := live], made := made + 1), Established(p.id, p.Key()))
    }

    /** With a serial given, closes the session only if it is that very object. */
    function CloseSession(id: DeviceID, want: Option<nat>): (GatewayState, Outcome) {
      if id !in sessions || (want.Some? && sessions[id].serial != want.value) then (this, Closed(false))
      else (this.(sessions := sessions - {id}), Closed(true))
    }

    function IssueChallenge(cfg: Config, id: DeviceID, challenge: Bytes, now: int): (GatewayState, Outcome) {
      if Get(id) != Done then (this, Get(id))
      else if id in pendingFirmware && now - pendingFirmware[id].issuedAt < cfg.challengeTimeout then
        (this, ChallengePending)
      else (this.(pendingFirmware := pendingFirmware[id := FirmwareCheck(challenge, now)]), ChallengeIssued)
    }

    predicate Answerable(cfg: Config, c: FirmwareCheck, now: int) {
      now - c.issuedAt <= cfg.responseValidity
    }

    function VerifyFirmware(cfg: Config, id: DeviceID, answer: FirmwareAnswer, now: int): (GatewayState, Outcome) {
      if id !in pendingFirmware then (this, NoPendingChallenge)
      else
        var c := pendingFirmware[id];
        var s := this.(pendingFirmware := pendingFirmware - {id});
        if !Answerable(cfg, c, now) then (s, ChallengeExpired)
        else if Get(id) != Done then (s, Get(id))
        else
          var signed := Verify(devices[id].identity, Attest(c.challenge, answer.firmwareHash), answer.signature);
          var matches := answer.firmwareHash == devices[id].firmwareHash;
          var verdict := Checked(c.challenge, signed, matches);
          if signed && matches then (s, verdict)
          else (s.Revoke(id, if signed then "firmware hash mismatch" else "signature not verified").0, verdict)
    }

    function Shutdown(): GatewayState {
      this.(sessions := map[], pendingHandshake := map[], pendingFirmware := map[])
    }
  }

  function NewGateway(guard: GuardState): GatewayState {
    GatewayState(map[], map[], 0, map[], map[], 0, guard)
  }

  class Gateway {
    const cfg: Config
    var devices: map<DeviceID, DeviceRecord>
    var pendingHandshake: map<DeviceID, Pending>
    var nextPendingID: nat
    var pendingFirmware: map<DeviceID, FirmwareCheck>
    var sessions: map<DeviceID, LiveSession>
    var made: nat
    const replayGuard: ReplayGuard

    function State(): GatewayState
      reads this, replayGuard
    {
      GatewayState(devices, pendingHandshake, nextPendingID, pendingFirmware, sessions, made, replayGuard.State())
    }

    constructor (cfg: Config, now: int)
      ensures State() == NewGateway(NewGuard(0, now)) && this.cfg == cfg
      ensures fresh(replayGuard)
    {
      this.cfg := cfg;
      replayGuard := new ReplayGuard(0, now);
      devices, pendingHandshake, pendingFirmware, sessions := map[], map[], map[], map[];
      nextPendingID, made := 0, 0;
    }

    method Get(id: DeviceID) returns (r: Outcome)
      ensures r == State().Get(id)
    {
      if id !in devices {
        return DeviceNotFound;
      }
      if devices[id].revoked {
        return DeviceRevoked;
      }
      return Done;
    }

    method CheckSerial(serial: SerialOutput) returns (r: Outcome)
      ensures r == State().CheckSerial(serial)
    {
      if !ValidDeviceID(serial.deviceID) {
        return InvalidDeviceID;
      }
      if !serial.checksumOk {
        return ChecksumMismatch;
      }
      if !serial.kemPubOk {
        return InvalidKEMKey;
      }
      if !serial.identityOk {
        return InvalidIdentityKey;
      }
      return Done;
    }

    method RegisterDevice(serial: SerialOutput, now: int) returns (r: Outcome)
      modifies this
      ensures (State(), r) == old(State()).Register(serial, now)
    {
      r := CheckSerial(serial);
      if r != Done {
        return;
      }
      if serial.deviceID in devices {
        return DeviceExists;
      }
      devices := devices[serial.deviceID :=
        DeviceRecord(serial.identity, serial.kemPub, serial.firmwareHash, false, "", now)];
      return Done;
    }

    method ReregisterDevice(serial: SerialOutput) returns (r: Outcome)
      modifies this
      ensures (State(), r) == old(State()).Reregister(serial)
    {
      r := CheckSerial(serial);
      if r != Done {
        return;
      }
      r := Get(serial.deviceID);
      if r != Done {
        return;
      }
      var prior := devices[serial.deviceID];
      devices := devices[serial.deviceID :=
        DeviceRecord(serial.identity, serial.kemPub, serial.firmwareHash, prior.revoked, prior.revokedReason,
                     prior.createdAt)];
      var _ := CloseSession(serial.deviceID, None);
      return Done;
    }

    method DeleteDevice(id: DeviceID) returns (r: Outcome)
      modifies this
      ensures (State(), r) == old(State()).Delete(id)
    {
      r := Get(id);
      if r != Done && r != DeviceRevoked {
        return;
      }
      var _ := CloseSession(id, None);
      devices := devices - {id};
      return Done;
    }

    method RevokeDevice(id: DeviceID, reason: string) returns (r: Outcome)
      modifies this
      ensures (State(), r) == old(State()).Revoke(id, reason)
    {
      if id !in devices {
        return DeviceNotFound;
      }
      devices := devices[id := devices[id].(revoked := true, revokedReason := reason)];
      var _ := CloseSession(id, None);
      return Done;
    }

    /** Visits every handshake in progress and drops the expired ones. */
    method PrunePendingHandshakes(now: int)
      modifies this`pendingHandshake
      ensures State() == old(State()).Prune(cfg, now)
    {
      var ids := pendingHandshake.Keys;
      while ids != {}
        invariant ids <= old(pendingHandshake).Keys
        invariant forall d :: d in pendingHandshake <==>
                    d in old(pendingHandshake)
                    && (d in ids || !(now - old(pendingHandshake)[d].issuedAt > cfg.handshakeTimeout))
        invariant forall d :: d in pendingHandshake ==> pendingHandshake[d] == old(pendingHandshake)[d]
        decreases |ids|
      {
        var id :| id in ids;
        if now - pendingHandshake[id].issuedAt > cfg.handshakeTimeout {
          pendingHandshake := pendingHandshake - {id};
        }
        ids := ids - {id};
      }
      assert pendingHandshake == old(State()).Prune(cfg, now).pendingHandshake;
    }

    method HandleMsg1Tracked(msg1: HandshakeMsg1, secret: nat, msg2: HandshakeMsg2, now: int) returns (r: Outcome)
      modifies this, replayGuard
      ensures (State(), r) == old(State()).HandleMsg1(cfg, msg1, secret, msg2, now)
    {
      var admitted := replayGuard.CheckAndRemember(msg1.deviceID, msg1.nonce, now);
      if !admitted {
        return ReplayDetected;
      }
      r := Get(msg1.deviceID);
      if r != Done {
        return;
      }
      PrunePendingHandshakes(now);
      nextPendingID := nextPendingID + 1;
      var id := nextPendingID;
      pendingHandshake := pendingHandshake[msg1.deviceID := Pending(id, msg1, msg2, secret, now)];
      return Answered(id);
    }

    method HandleMsg3(id: DeviceID, attempt: nat, signature: Signature, now: int) returns (r: Outcome)
      modifies this
      ensures (State(), r) == old(State()).HandleMsg3(cfg, id, attempt, signature, now)
    {
      if id in pendingHandshake && attempt != 0 && pendingHandshake[id].id != attempt {
        return Superseded;
      }
      if id !in pendingHandshake {
        return NoPendingHandshake;
      }
      var p := pendingHandshake[id];
      pendingHandshake := pendingHandshake - {id};
      if now - p.issuedAt > cfg.handshakeTimeout {
        return HandshakeExpired;
      }
      r := Get(id);
      if r != Done {
        return;
      }
      var k0 := InitialKey(p.secret, p.msg1, p.msg2);
      if !Verify(devices[id].identity, Confirm(k0), signature) {
        return ConfirmationFailed;
      }
      sessions := sessions[id := LiveSession(made, k0, devices[id].identity, p.id)];
      made := made + 1;
      return Established(p.id, k0);
    }

    method CloseSession(id: DeviceID, want: Option<nat>) returns (r: Outcome)
      modifies this`sessions
      ensures (State(), r) == old(State()).CloseSession(id, want)
      ensures want == None ==> sessions == old(sessions) - {id}
    {
      if id !in sessions {
        return Closed(false);
      }
      if want.Some? && sessions[id].serial != want.value {
        return Closed(false);
      }
      sessions := sessions - {id};
      return Closed(true);
    }

    method IssueFirmwareChallenge(id: DeviceID, challenge: Bytes, now: int) returns (r: Outcome)
      modifies this
      ensures (State(), r) == old(State()).IssueChallenge(cfg, id, challenge, now)
    {
      r := Get(id);
      if r != Done {
        return;
      }
      if id in pendingFirmware && now - pendingFirmware[id].issuedAt < cfg.challengeTimeout {
        return ChallengePending;
      }
      pendingFirmware := pendingFirmware[id := FirmwareCheck(challenge, now)];
      return ChallengeIssued;
    }

    method VerifyFirmwareCheck(id: DeviceID, answer: FirmwareAnswer, now: int) returns (r: Outcome)
      modifies this
      ensures (State(), r) == old(State()).VerifyFirmware(cfg, id, answer, now)
    {
      if id !in pendingFirmware {
        return NoPendingChallenge;
      }
      var c := pendingFirmware[id];
      pendingFirmware := pendingFirmware - {id};
      if now - c.issuedAt > cfg.responseValidity {
        return ChallengeExpired;
      }
      r := Get(id);
      if r != Done {
        return;
      }
      var rec := devices[id];
      var signed := Verify(rec.identity, Attest(c.challenge, answer.firmwareHash), answer.signature);
      var matches := answer.firmwareHash == rec.firmwareHash;
      if !(signed && matches) {
        var reason := "signature not verified";
        if signed {
          reason := "firmware hash mismatch";
        }
        var _ := RevokeDevice(id, reason);
      }
      return Checked(c.challenge, signed, matches);
    }

    /** Closes the sessions one by one and clears everything in progress. */
    method Shutdown() returns (closed: nat)
      modifies this
      ensures State() == old(State()).Shutdown() && closed == |old(sessions)|
    {
      closed := 0;
      while sessions != map[]
        invariant closed + |sessions| == |old(sessions)|
        invariant State() == old(State()).(sessions := sessions)
        decreases |sessions|
      {
        var id :| id in sessions;
        assert |sessions - {id}| == |sessions| - 1 by {
          assert (sessions - {id}).Keys == sessions.Keys - {id};
        }
        sessions := sessions - {id};
        closed := closed + 1;
      }
      pendingHandshake, pendingFirmware := map[], map[];
    }
  }
}
