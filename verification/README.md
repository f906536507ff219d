# LACERT: a Dafny model and its proofs

LACERT connects devices (a Go emulator and C firmware for the ESP32) to a gateway over TCP: a KEM
handshake gives each connection a session key, data packets are sealed under it, and either side
can rotate the key with an acknowledged message. The gateway keeps a device registry, firmware
challenges, a scheduler that cuts and finally revokes devices whose rotations fail, in-memory
journals and a limiter of wrong admin tokens.

This project models that logic and proves what it keeps. Objects that the source updates in place
are classes whose methods are proved to do exactly what a function on their state says; the laws
are lemmas about those functions, over every run. `dafny verify dfyconfig.toml` checks it all.

## The parts

| files | what they model |
|---|---|
| `Options.dfy`, `Bytes.dfy`, `Bits.dfy`, `Buffers.dfy` | options, big-endian numbers, bitwise operations, copies into fixed buffers |
| `Terms.dfy`, `Sessions.dfy`, `SessionHistory.dfy` | cryptography as free terms; the session with its current and pending key and its nonce window, and exactly what any sequence of calls makes of it |
| `Protocol.dfy`, `Endpoints.dfy` | device, gateway and network as a state machine; one side's receive loop as a class |
| `Agreement.dfy`, `Runs.dfy` | the invariant between the two ends of a handshake and what it gives in every run that does not retry in a rolled-back session |
| `Divergence.dfy`, `Rollback.dfy`, `Retries.dfy` | what an abort destroys, what a handshake restores, and exactly when a rollback or a rotation begun after any number of them does harm |
| `ControlRaces.dfy` | control frames in the gateway's two calls, with sessions replaced in between |
| `DataChannel.dfy` | delivery of data packets over whole runs |
| `ReplayGuard.dfy` | the two-generation guard of handshake nonces between two ideal guards |
| `Wire.dfy`, `Codecs.dfy`, `Preimages.dfy`, `Frames.dfy` | codecs, round trips, hash inputs, frames over partial reads and writes |
| `FirmwareTag.dfy`, `FirmwareWire.dfy`, `GoRotation.dfy` | the C code over buffers, against the Go codecs; rotation on bytes against the protocol |
| `Gateway.dfy`, `GatewayRuns.dfy`, `GatewayHistory.dfy`, `GatewayRaces.dfy` | the gateway's tables, every sequence of calls to it, exactly which calls succeed after which history, and Msg3 in its two lock sections |
| `Server.dfy`, `ServerRuns.dfy`, `ServerEntries.dfy` | accept loop, connection handlers and shutdown, interleaved at their lock sections; which connection is on record for a device |
| `Scheduler.dfy`, `SchedulerRuns.dfy`, `ScheduledRuns.dfy`, `ScheduledRates.dfy` | the scheduler over sessions, what its books say about the history, its calls interleaved with the protocol, and how often it rotates |
| `AuthLimiter.dfy`, `AuthRuns.dfy` | the token limiter and every interleaving of requests |
| `Journal.dfy`, `JournalRuns.dfy` | the journals and every sequence of appends and deletions |

## How the model reads the source

- Cryptography is symbolic. Keys, secrets and tags are equal only if built the same way; the KEM opens for
  its owner and otherwise gives an unknown secret (section 6.3 of FIPS 203); a packet opens under the
  sealing key and nonce only (section 2.8 of RFC 8439). `Preimages.dfy` gives the byte-level side: the
  hash inputs are unambiguous. Where bytes matter the hash is an arbitrary function.
- The network keeps every control frame and data packet ever sent and delivers any of them to either side,
  any number of times, in any order or never. It also makes frames of its own, with any tag not computed
  under a session key it cannot know, and may run handshakes with a ciphertext of its own making.
- The discipline of rollbacks is the scheduler's: abort, then cut, then a new handshake. Abort and cut are
  separate steps, with anything in between; only a new initiation in the rolled-back session is against it.
- The device's sessions that a reconnection leaves behind stay in the model, so late frames of old
  connections are covered.
- Each dispatch of a frame and each call of a `Gateway` method is one step; `GatewayRaces.dfy` splits Msg3 at its
  lock sections and `ControlRaces.dfy` control frames, the server is modelled at the grain of its own, and `ScheduledRuns.dfy` takes each call the
  scheduler makes as a step. Random values and clock readings are parameters; a call takes one clock value, a
  turn of the scheduler one in its class, a request to the limiter two.
- Rotation iterations, attempt ids and times are unbounded integers in the state machines; the byte-level
  parts bound iterations by 64 bits. Packet numbers stay below 2^32 in the protocol runs; the methods that
  send truncate or wrap them as the source does.
- Wiping a key is assigning `Zero`.

## Where the code and its words differ

- The protocol document, in its section on rotation, has the gateway alone initiate rotations. The code
  lets either side do so, and so does the model; both may cross.
- `internal/crypto/rotation_atomic.go:128-152` calls a retry after an abort safe. `Rollback.RetryInSessionBreaks`
  shows it is not; `Rollback.RetryBreaksExactly` and `Rollback.RollbackLosesExactly` say exactly when a retry and a
  rollback do harm. What makes the protocol safe is that a
  rolled-back session is gone before the next rotation (`Runs.AckCommitsInstalledKey`); `Retries.BeginBreaksExactly`
  has the exact condition after any number of rollbacks.
- `internal/scheduler/scheduler.go:157-188` cuts the connection and relies on a new handshake. That keeps the rule
  exactly as long as the rolled-back session is gone before the device's next rotation is begun
  (`ScheduledRuns.PlayIsDisciplined`, `ScheduledRuns.NextTurnRetriesExactly`). It need not be: the cut only closes
  the connection on record, whose handler may end late, or may not be the one that made the session
  (`ServerRuns.CutCanMissSession`). When that does harm is said by `ScheduledRuns.ScheduledAcksAreSafe`, and that it can
  by `ScheduledRuns.RetryCanBreak`.
- `internal/transport/tcpserver/server.go:475-493` reads the key ahead of the rotation so that it serves both tags. The
  two calls look the session up anew, and a handshake that finishes in between has the frame applied to a session
  that never had the key (`ControlRaces.StrayTakeExactly`, `ControlRaces.StrayTakeCanSplit`); otherwise the split does no
  harm (`ControlRaces.SplitCallsAgree`).
- `internal/gateway/gateway.go:576-598` installs a session some time after it has read the registry, so a
  revocation in between leaves a revoked device with a session (`GatewayRaces.RevokedWithSession`); nothing else
  does (`GatewayRaces.SplitSessionsMatchExactly`).
- `internal/crypto/replay.go:122-124` says that no key is in both generations. `ReplayGuards.GenerationsCanOverlap` has a run where
  one is, and `ReplayGuards.WhenGenerationsOverlap` the exact condition.
- `internal/transport/tcpserver/server.go:253-260` says that `Shutdown` waits for all handlers. It does not after the accept loop has
  ended on an error other than its closed listener (`ServerRuns.AcceptErrorAbandonsHandlers`), and does in every
  other run (`ServerRuns.ShutdownLeavesNothing`); after such an error it does exactly if no handler was running then
  (`ServerRuns.ShutdownAfterErrorExactly`).
- `internal/transport/tcpserver/server.go:365-384` says that a handler closes strictly its own session. The capture
  of that session is a step of its own, and takes another's exactly if another handshake of the device has
  finished in between and is still in the table (`ServerRuns.CapturesForeignExactly`, `ServerRuns.CanCloseAnothers`);
  it never takes an earlier one or another device's (`ServerRuns.ClosesOwnOrLater`).
- `internal/api/api.go:202-205` speaks of ten failures per window. The window is fixed, not sliding: almost
  twice as many fit into one minute (`AuthRuns.BoundIsReached`), and never more (`AuthRuns.WrongTokensBounded`).

## Model

| member | source | states |
|---|---|---|
| `Runs.AgreementInEveryRun` | internal/crypto/rotation_atomic.go:72-261 | After every run in which a gateway rollback is followed by the cut before any new initiation, and no cut is owed at the end, either side initiating, the network dropping, duplicating, reordering and reflecting frames: keys and iterations of one handshake are equal, or the responder is exactly one iteration ahead and the initiator holds its key and iteration as pending |
| `Runs.AckCommitsInstalledKey` | internal/scheduler/scheduler.go:176-188 | Under the rule abort, then cut, then fresh handshake, with any steps and frames in between, the late acknowledgement included, no acknowledgement makes the gateway commit a key the device has not itself installed |
| `Runs.RunKeeps` | internal/crypto/rotation_atomic.go:72-261 | Every disciplined run keeps the invariant: all linked, or, while a cut is owed, all but the gateway's session, which then waits for nothing |
| `Runs.NoAbortsIsDisciplined` | internal/crypto/rotation_atomic.go:144-170 | A run without rollbacks is disciplined and owes nothing |
| `Runs.AckHeals` | internal/transport/tcpclient/client.go:184-217 | Whenever one side is ahead, the acknowledgement that brings the initiator up is deliverable, and its arrival puts both in step on the responder's key |
| `Runs.RotationReachesPeer` | internal/transport/tcpserver/server.go:467-515 | From sides in step with nothing pending, one rotation frame puts the receiver exactly one ahead and leaves the initiator on its old key |
| `Runs.CrossingRotationsWait` | internal/crypto/rotation_atomic.go:72-92 | While both sides hold a rotation of their own pending, no frame that can arrive changes anything |
| `Runs.EventKeeps` | internal/transport/tcpclient/client.go:159-217 | Every event that obeys the rule keeps the invariant over all live and archived sessions and all frames ever sent |
| `Runs.StepKeepsInv` | internal/transport/tcpclient/client.go:159-217 | Every single step other than an abort keeps the full invariant |
| `Runs.LooseKept` | internal/gateway/gateway.go:552-600 | However often the gateway rolls back and retries, everything but its live session stays linked, and a handshake that installs a new one restores the full invariant |
| `Divergence.RollbackAfterApplyIsFinal` | internal/scheduler/scheduler.go:156-176 | If the gateway rolls back a rotation the device has applied, then in every continuation without a new handshake every frame and packet of either side, sent at any moment, is refused by the other at every moment |
| `Divergence.HandshakeRestores` | internal/crypto/handshake.go:103-153 | After any run without a rollback at the device, with gateway aborts and retries at will, every handshake that installs a session, whatever came in between its messages, leaves both sides in step on the same fresh key at iteration 0, and agreement holds in every disciplined run from there |
| `Divergence.HandshakeCompletes` | internal/crypto/handshake.go:103-153 | From every reachable state an undisturbed handshake does complete, with equal keys at iteration 0 and nothing pending |
| `Rollback.RetryInSessionBreaks` | internal/crypto/rotation_atomic.go:144-170 | Contrary to the comment, retrying in the same session after an abort is not safe: wherever the device has applied the rotation, abort, retry and the late acknowledgement make the gateway commit a key the device never had |
| `Rollback.RetryBreaksExactly` | internal/crypto/rotation_atomic.go:144-170 | After any disciplined run with a rotation of the gateway pending, applied or still in flight, abort and retry can end in a key the device never had exactly unless both sides are in step and the device waits for a rotation of its own |
| `Rollback.RollbackLosesExactly` | internal/crypto/rotation_atomic.go:128-142 | A rollback at the gateway can cost the agreement, with no further rollback, exactly if a rotation was pending |
| `Rollback.AheadIsReachable` | internal/crypto/rotation_atomic.go:196-261 | From the start and without rollbacks, either side can come to wait for a rotation the other has applied |
| `Divergence.RollbackInFlightDiverges` | internal/crypto/rotation_atomic.go:144-170 | Aborting before the device has applied the rotation is no safer: from every state in step, initiate, abort and the late message leave two sides that refuse everything of each other |
| `Divergence.SeedsKept` | internal/crypto/rotation_atomic.go:196-211 | Every key in use was built from secrets already drawn, so a fresh secret gives a fresh key |
| `Divergence.SplitKept` | internal/scheduler/scheduler.go:157-188 | No step within the session brings the two keys back together once they have split |
| `Agreement.ReceiveKeepsLink` | internal/transport/tcpserver/server.go:467-515 | Dispatch of any frame the network can produce keeps the link between the two ends of a handshake |
| `Agreement.InitiateKeepsLink` | internal/crypto/rotation_atomic.go:196-211 | Initiating keeps the link, with the new frame added to the network |
| `Agreement.RespondKeepsLink` | internal/crypto/rotation_atomic.go:214-239 | Responding under a genuine tag keeps the link and puts the responder ahead |
| `Agreement.RotationComesFromPeer` | internal/crypto/rotation_atomic.go:214-239 | A rotation that can be applied comes from the peer, which is in step and waits for exactly the key that results |
| `Agreement.AckComesFromPeer` | internal/crypto/rotation_atomic.go:250-261 | An acknowledgement tagged under the current key proves that the peer is ahead with the pending key, and applies |
| `Agreement.NoAckWhileInStep` | internal/crypto/rotation_atomic.go:250-261 | While the sides are in step there is no acknowledgement under their key |
| `Agreement.AckKeepsLink` | internal/crypto/rotation_atomic.go:250-261 | Applying an acknowledgement keeps the link and puts the sides in step |
| `Agreement.ReceiveKeepsSound` | internal/crypto/rotation_atomic.go:72-126 | Whatever arrives, the iteration stays the number of rotations since the handshake and the pending key its successor |
| `Agreement.CrossedRetryKeepsLink` | internal/crypto/rotation_atomic.go:144-170 | While both sides hold a rotation of their own pending, giving one up for another at once keeps the link |
| `Sessions.Session.constructor` | internal/crypto/session.go:76-86 | A new session starts at iteration 0 with nothing pending and an empty window |
| `Sessions.Session.CurrentKey` | internal/crypto/session.go:88-95 | The current key, refused after closing |
| `Sessions.Session.NeedsRotation` | internal/crypto/session.go:99-106 | Due at the packet limit or after the interval, never when closed |
| `Sessions.Session.RecordPacket` | internal/crypto/session.go:110-114 | Counts one packet and changes nothing else |
| `Sessions.Session.Close` | internal/crypto/session.go:118-127 | Wipes both keys and the window for good |
| `Sessions.Session.BeginRotate` | internal/crypto/rotation_atomic.go:72-92 | Derives the pending key without touching the current one; refuses when closed, pending or out of order |
| `Sessions.Session.CommitRotate` | internal/crypto/rotation_atomic.go:100-127 | Switches to the pending key and iteration, resets the packet count and the nonce window, and dates the key by the commit |
| `Sessions.Session.AbortRotate` | internal/crypto/rotation_atomic.go:133-142 | Forgets the pending key and leaves the current one |
| `Sessions.Session.AbortIfStale` | internal/crypto/rotation_atomic.go:153-170 | Aborts exactly when a rotation has waited for the timeout; a timeout of zero or less means the default |
| `Sessions.Session.InitiateRotationAtomic` | internal/crypto/rotation_atomic.go:196-211 | Begins the next iteration with a fresh secret for the peer; no state change on failure |
| `Sessions.Session.RespondToRotationAtomic` | internal/crypto/rotation_atomic.go:214-239 | Applies exactly the next iteration at once; an old number is a replay, a later one out of order |
| `Sessions.Session.ApplyRotationAck` | internal/crypto/rotation_atomic.go:250-261 | Commits when the acknowledged iteration is the pending one |
| `Sessions.Session.CheckDataNonce` | internal/crypto/replay_data.go:50-82 | Admits a nonce that is not in the window, evicting the oldest in place; map and slice change together |
| `Sessions.Session.ResetSeenNonces` | internal/crypto/replay_data.go:87-90 | Empties the window |
| `Sessions.WindowStaysValid` | internal/crypto/replay_data.go:50-82 | Map and slice hold the same nonces without duplicates, and are always the last 4096 admitted |
| `Sessions.EvictionAgrees` | internal/crypto/replay_data.go:72-79 | Deleting the oldest nonces from the map leaves exactly the rest of the slice |
| `SessionHistory.StateFollows` | internal/crypto/rotation_atomic.go:72-170 | After any calls in any order the whole state is what they made of it: iteration and rotation count are the commits, the key has been in force since the last, the packets are those since, what is pending is the last beginning not ended, and the window is the last nonces admitted since |
| `SessionHistory.CallsSucceedExactly` | internal/crypto/rotation_atomic.go:72-170 | A rotation begins exactly if the session is open, nothing is pending and the number is the next; commits exactly if one is pending; is stale exactly if it has waited its time; a nonce is admitted exactly if it is not among the last 4096 under the key |
| `SessionHistory.AnswersExactly` | internal/crypto/rotation_atomic.go:214-261 | The peer's rotation is applied exactly if the session is open, waits for none and has the number before, an acknowledgement exactly if it waits for that number; refusals name replay or order; the key is due exactly by its packets or its age |
| `SessionHistory.ClosedIsSilent` | internal/crypto/session.go:88-127 | A closed session is wiped and answers nothing, whatever is called or arrives afterwards |
| `Endpoints.Side.Establish` | internal/device/device.go:89-107 | A finished handshake installs a fresh session |
| `Endpoints.Side.CloseSession` | internal/device/device.go:243-247 | Closes the session, if there is one |
| `Endpoints.Side.Dispatch` | internal/transport/tcpclient/client.go:167-217 | One incoming control frame takes exactly the protocol's receive step: key first, tag checked under it, the answer tagged under the same key although the rotation is applied |
| `Endpoints.Side.Listen` | internal/transport/tcpclient/client.go:159-217 | The receive loop over any frames comes to the fold of those steps and writes exactly their answers |
| `Endpoints.ListeningIsDelivering` | internal/transport/tcpclient/client.go:159-217 | Listening is a run of the protocol model: same final session, every answer on the network |
| `Endpoints.Side.InitiateRotation` | internal/transport/tcpclient/client.go:104-128 | Begins a rotation and tags its message under the key still in force |
| `Endpoints.Side.SendData` | internal/device/device.go:128-144 | Seals under the current key, numbered by the packet count in 32 bits, then counts the packet |
| `Endpoints.Side.HandleData` | internal/gateway/gateway.go:807-831 | Opens first, then checks the nonce, then counts; a refused packet changes nothing |
| `DataChannel.NothingDeliveredTwice` | internal/crypto/replay_data.go:50-82 | In every run, also with aborts and reconnections, all delivered packets were sent by the device, and under every key that carried no more than 4096 none was delivered twice |
| `DataChannel.WindowRefusesExactlyRecent` | internal/crypto/replay_data.go:50-90 | A genuine packet is refused exactly if its nonce is among the last 4096 delivered under the current key; a first arrival is never refused |
| `DataChannel.DataKept` | internal/gateway/gateway.go:807-831 | Every step keeps: the window is the last 4096 deliveries since the last key change, and sequence numbers never repeat under one key |
| `DataChannel.NonceCarriesSeq` | internal/crypto/replay_data.go:102-107 | The sequence number is read back from the nonce that carries it |
| `ReplayGuards.ReplayGuard.constructor` | internal/crypto/replay.go:61-73 | A guard starts empty; a ttl of zero or less means five minutes |
| `ReplayGuards.ReplayGuard.CheckAndRemember` | internal/crypto/replay.go:83-103 | One check against both generations, recorded in the current one |
| `ReplayGuards.ReplayGuard.RotateIfDue` | internal/crypto/replay.go:110-117 | The generations move on after half a TTL |
| `ReplayGuards.BetweenIdealGuards` | internal/crypto/replay.go:75-120 | For every sequence of checks under a monotone clock: whatever was admitted less than half a TTL ago is refused, and only what was admitted less than a TTL ago is refused |
| `ReplayGuards.AdmissionsApart` | internal/crypto/replay.go:83-103 | Two admissions of one pair are at least half a TTL apart |
| `ReplayGuards.AdmissionsCanBeClose` | internal/crypto/replay.go:83-121 | And they can come as close as half a TTL and one tick |
| `ReplayGuards.WhenGenerationsOverlap` | internal/crypto/replay.go:122-130 | The generations stay disjoint through a check exactly unless it admits a nonce that expired in the older generation |
| `ReplayGuards.GenerationsCanOverlap` | internal/crypto/replay.go:122-130 | A concrete run after which one key is in both generations, against the comment |
| `Codecs.Msg1RoundTrip` | internal/wire/wire.go:136-161 | Decoding an encoded Msg1, whatever follows it, gives it back |
| `Codecs.Msg1Canonical` | internal/wire/wire.go:144-161 | What decodes as Msg1 begins with the encoding of the result |
| `Codecs.Msg2RoundTrip` | internal/wire/wire.go:164-183 | The same round trip for Msg2 |
| `Codecs.Msg2Canonical` | internal/wire/wire.go:171-183 | The same prefix property for Msg2 |
| `Codecs.Msg3RoundTrip` | internal/wire/wire.go:186-196 | The same round trip for Msg3 |
| `Codecs.Msg3Canonical` | internal/wire/wire.go:190-196 | The same prefix property for Msg3 |
| `Codecs.DataRoundTrip` | internal/wire/wire.go:275-292 | Nonce and ciphertext of a data payload come back |
| `Codecs.DataCanonical` | internal/wire/wire.go:282-292 | A decoded data payload begins with its re-encoding |
| `Codecs.FirmwareResponseRoundTrip` | internal/wire/wire.go:305-330 | Hash and signature of a firmware response come back |
| `Codecs.FirmwareResponseCanonical` | internal/wire/wire.go:312-330 | A decoded firmware response begins with its re-encoding |
| `Codecs.FirmwareChallengeRoundTrip` | internal/wire/wire.go:296-302 | A challenge comes back |
| `Codecs.FirmwareChallengeCanonical` | internal/wire/wire.go:300-302 | A decoded challenge begins with its re-encoding |
| `Codecs.RotationRoundTrip` | internal/wire/wire.go:208-250 | A rotation message comes back under the key that tagged it |
| `Codecs.RotationCanonical` | internal/wire/wire.go:227-250 | A payload that decodes carries the tag of its own body under the session key |
| `Codecs.FirmwareResponseLayout` | internal/wire/wire.go:305-311 | The hash comes first, unframed, then the framed signature |
| `Codecs.AckRoundTrip` | internal/wire/wire.go:254-272 | An acknowledgement comes back under the key that tagged it |
| `Codecs.AckCanonical` | internal/wire/wire.go:261-272 | A decoded acknowledgement carries its own tag |
| `Codecs.SameFraming` | internal/crypto/handshake.go:175-186 | The framing of the transcript and that of the wire write the same bytes |
| `Codecs.TranscriptIsWire` | internal/crypto/handshake.go:44-63 | The transcript bytes of Msg1 and Msg2 are their wire encodings |
| `Wire.TakeAfterPut` | internal/wire/wire.go:93-129 | A framed field is read back with what follows it |
| `Wire.PutAfterTake` | internal/wire/wire.go:109-129 | What reads as a framed field is one |
| `Preimages.InputsUnambiguous` | internal/crypto/handshake.go:155-171 | No two hash inputs of the protocol (transcript, handshake key, confirmation, next key, control tag), of the same or different kinds, are the same bytes |
| `Preimages.TranscriptInjective` | internal/crypto/handshake.go:155-161 | The transcript decodes uniquely into Msg1 and Msg2 |
| `Preimages.NextKeyInjective` | internal/crypto/rotation_atomic.go:55-66 | The input of the next key determines key, secret and iteration |
| `Preimages.ControlTagInjective` | internal/crypto/controltag.go:63-79 | The input of the control tag determines key, frame type, iteration and body, for bodies of any length |
| `Preimages.SeparatorsApart` | internal/crypto/controltag.go:46-79 | The separators keep the tag apart from both keys at every body length |
| `Preimages.ControlTypesApart` | internal/crypto/controltag.go:46-79 | A rotation and an acknowledgement are never tagged over the same bytes |
| `Preimages.FixedLengths` | internal/crypto/session.go:145-152 | At protocol sizes the inputs of different kinds differ in length |
| `FirmwareTag.PutU64` | firmware/main/lacert_wire.c:12-14 | Eight bytes, highest first, are the big-endian encoding |
| `FirmwareTag.GetU64` | firmware/main/lacert_wire.c:19-22 | Eight bytes read back as their big-endian value |
| `FirmwareTag.ControlTag` | firmware/main/lacert_tag.c:26-49 | The buffer the firmware hashes is the gateway's tag input |
| `FirmwareTag.VerifyTag` | firmware/main/lacert_tag.c:51-69 | The accumulated difference is zero exactly when the gateway's check would accept |
| `Bits.AccumulateZero` | firmware/main/lacert_tag.c:63-68 | The accumulated exclusive or is zero exactly if all before and the two bytes agree |
| `FirmwareWire.PutFramed` | firmware/main/lacert_wire.c:72-80 | Writes the gateway's field encoding in place, or returns 0 and leaves the buffer alone when it does not fit |
| `FirmwareWire.TakeFramed` | firmware/main/lacert_wire.c:82-92 | Accepts and splits exactly what the gateway's field decoder does, never out of bounds |
| `FirmwareWire.BuildMsg1` | firmware/main/lacert_client.c:14-23 | The bytes are the gateway's Msg1 encoding; 0 exactly if they do not fit |
| `FirmwareWire.BuildMsg2` | firmware/main/lacert_client.c:25-31 | The bytes are the gateway's Msg2 encoding; 0 exactly if they do not fit |
| `FirmwareWire.BuildData` | firmware/main/lacert_client.c:129-158 | The payload is the gateway's data encoding |
| `FirmwareWire.ReadRotation` | firmware/main/lacert_client.c:160-184 | Accepts exactly what the gateway's rotation decoder does under the session key |
| `FirmwareWire.DeriveNextKey` | firmware/main/lacert_client.c:192-208 | The firmware hashes the same next-key input |
| `FirmwareWire.BuildAck` | firmware/main/lacert_client.c:209-216 | The acknowledgement is the gateway's encoding under the old key |
| `FirmwareWire.Client.HandleRotationV2` | firmware/main/lacert_client.c:160-224 | Takes the step of the Go device on the same bytes; the sequence number runs on |
| `FirmwareWire.Client.FinishHandshake` | firmware/main/lacert_client.c:91-126 | The new key is in place before the confirmation is signed and sent; counters and flag follow only if both work |
| `GoRotation.GoTakesTheStep` | internal/transport/tcpclient/client.go:167-194 | Read as bytes in any faithful way, the rotation of the Go device is the receive step of the protocol: same acceptance, new key and acknowledgement |
| `FirmwareWire.Client.SendData` | firmware/main/lacert_client.c:129-158 | Seals under the running counter, which moves on whenever a nonce was used |
| `Frames.PrefixParses` | internal/wire/wire.go:45-81 | Any prefix of a stream of frames parses to exactly the frames it holds whole, the full stream to all |
| `Frames.Socket.ReadAll` | firmware/main/lacert_wire.c:33-41 | Collects the bytes asked for over any partial reads, or fails with the stream ended |
| `Frames.Socket.WriteAll` | firmware/main/lacert_wire.c:24-31 | Sends all bytes over any partial writes, or a prefix of them and fails |
| `Frames.Socket.WriteFrame` | firmware/main/lacert_wire.c:43-53 | Writes one frame; oversized payloads are refused unsent |
| `Frames.Socket.ReadFrame` | firmware/main/lacert_wire.c:55-70 | Reads the first frame of the stream, or fails |
| `Frames.Socket.WriteFrames` | internal/wire/wire.go:45-62 | Writes the stream of all frames, or a prefix of it |
| `Frames.Socket.ReadFrames` | internal/wire/wire.go:66-81 | Reads a prefix of what the stream parses to, all of it if the transport makes progress |
| `Frames.Transfer` | firmware/main/lacert_wire.c:24-70 | For all frames and every way the transport splits and cuts the stream, the receiver gets a prefix of the list, and the whole list if nothing is cut |
| `Frames.FirstOfEncoded` | internal/wire/wire.go:66-81 | The first frame of a stream is read back with the rest untouched |
| `Frames.FirstIsEncoded` | internal/wire/wire.go:66-81 | What is read as a first frame is one that a sender may have sent, never over 64 KiB, and every such is read |
| `Frames.FrameLayout` | internal/wire/wire.go:45-62 | Four bytes of length, highest first, one of type, then the payload |
| `Gateways.Gateway.constructor` | internal/gateway/gateway.go:143-169 | A gateway starts with nothing in progress |
| `Gateways.Gateway.RegisterDevice` | internal/gateway/gateway.go:416-458 | Registers a valid new device; a known one is refused |
| `Gateways.Gateway.ReregisterDevice` | internal/gateway/gateway.go:352-399 | Replaces the keys of a known device, refuses a revoked one, and closes its session |
| `Gateways.Gateway.DeleteDevice` | internal/gateway/gateway.go:405-412 | Removes the record and the session |
| `Gateways.Gateway.RevokeDevice` | internal/gateway/gateway.go:211-227 | Marks the device revoked and closes its session |
| `Gateways.Gateway.PrunePendingHandshakes` | internal/gateway/gateway.go:524-532 | Drops exactly the expired attempts |
| `Gateways.Gateway.HandleMsg1Tracked` | internal/gateway/gateway.go:474-520 | Refuses replays and unknown or revoked devices, otherwise answers under a new attempt id |
| `Gateways.Gateway.HandleMsg3` | internal/gateway/gateway.go:552-600 | A foreign attempt changes nothing; its own is consumed, and completes under the registered identity within the timeout |
| `Gateways.Gateway.CloseSession` | internal/gateway/gateway.go:275-288 | Closes the session, if wanted only that very one |
| `Gateways.Gateway.IssueFirmwareChallenge` | internal/gateway/gateway.go:856-882 | Refuses while an earlier challenge is recent, otherwise replaces it |
| `Gateways.Gateway.VerifyFirmwareCheck` | internal/gateway/gateway.go:890-942 | Consumes the challenge; a failed check revokes the device and closes its session |
| `Gateways.Gateway.Shutdown` | internal/gateway/gateway.go:185-205 | Closes all sessions and forgets everything in progress |
| `GatewayRuns.SessionsMatchRegistry` | internal/gateway/gateway.go:552-600 | After any calls every live session belongs to a registered, non-revoked device and was authenticated under the identity now in the registry |
| `GatewayRaces.SplitSessionsMatchExactly` | internal/gateway/gateway.go:569-600 | At the grain of the lock sections, sessions match the registry throughout a run exactly if no handshake is installed after its device was revoked, deleted or given another identity since the check |
| `GatewayRaces.RevokedWithSession` | internal/gateway/gateway.go:569-600 | A run from the start in which a revocation between check and installation leaves a revoked device with a live session |
| `GatewayRaces.PartsMakeMsg3` | internal/gateway/gateway.go:552-600 | Undisturbed, the two parts are the whole call |
| `GatewayRuns.RevokedStaysOut` | internal/gateway/gateway.go:211-227 | A revoked device has no session after any calls that do not delete its record |
| `GatewayRuns.OtherAttemptUntouched` | internal/gateway/gateway.go:552-575 | A tracked Msg3 for another attempt changes nothing at all |
| `GatewayRuns.NewestCompletable` | internal/gateway/gateway.go:474-600 | Once answered, an attempt completes with the key of its own messages after any calls, until its own Msg3, a newer Msg1 or expiry |
| `GatewayRuns.AttemptSurvives` | internal/gateway/gateway.go:516-532 | No other call disturbs a pending attempt |
| `GatewayRuns.AttemptCompletes` | internal/gateway/gateway.go:552-600 | The right signature in time completes it and touches no other device |
| `GatewayRuns.SessionHasOrigin` | internal/gateway/gateway.go:552-600 | Every session comes from one answered Msg1 of its device, in time, keyed from exactly that call's messages and secret, and its Msg3 carried the signature over that key under the identity then registered |
| `GatewayRuns.AttemptsUsedOnce` | internal/gateway/gateway.go:474-520 | No attempt yields two sessions and ids only grow |
| `GatewayRuns.PrunedWasLost` | internal/gateway/gateway.go:524-532 | What pruning drops, no Msg3 could have completed any more |
| `GatewayRuns.RecordedMsg1Refused` | internal/gateway/gateway.go:474-486 | A recorded Msg1 is not answered again within half the nonce TTL, whatever else is called |
| `GatewayRuns.NoAnswerableChallengeLost` | internal/gateway/gateway.go:66-91 | No overwritten challenge could still have been answered, exactly if the re-issue timeout exceeds the response validity |
| `GatewayRuns.AnswerMeetsLatestChallenge` | internal/gateway/gateway.go:890-912 | Every judged answer is judged against the latest challenge of its device, within its validity, and a challenge is consumed at most once |
| `GatewayRuns.FailedCheckRevokes` | internal/gateway/gateway.go:913-942 | A check passes exactly if the registered key signed the challenge with the registered hash; otherwise the device ends revoked and without a session |
| `GatewayRuns.EstablishedIsSigned` | internal/gateway/gateway.go:576-600 | No session without the device's signature over the key of the very handshake, under the identity in the registry |
| `GatewayRuns.AnswerIsJudged` | internal/gateway/gateway.go:890-942 | Every answer to an open challenge of an active device within its validity is judged against it, and revokes the device unless it is the reference hash properly signed |
| `GatewayHistory.RecordsHold` | internal/gateway/gateway.go:211-458 | After any calls a device is registered exactly if a registration was not followed by a deletion, with the keys of the last accepted serial output, and revoked exactly if a revocation or a failed check came since, for that reason |
| `GatewayHistory.RegistryChangesExactly` | internal/gateway/gateway.go:211-458 | A registration goes through exactly if the serial output passes every check and the device is not registered, a new one exactly if it is active, deletion and revocation exactly if it is registered |
| `GatewayHistory.SerialRefusals` | internal/gateway/gateway.go:352-372 | A refused serial output is told the first check it fails |
| `GatewayHistory.AnsweredExactly` | internal/gateway/gateway.go:474-520 | A Msg1 is answered exactly if its device is active and the replay guard, after all Msg1 before, admits its nonce; refusals name the reason |
| `GatewayHistory.AttemptsFollow` | internal/gateway/gateway.go:474-575 | The open handshake of a device is that of its last answered Msg1, unless its Msg3, its expiry at somebody's Msg1 or a shutdown came since |
| `GatewayHistory.EstablishedExactly` | internal/gateway/gateway.go:552-600 | By the history alone: a Msg3 makes a session exactly if a handshake of its device is open, the caller's own and not expired, and the active device signed its key with the identity it was last given; every refusal names its reason |
| `GatewayHistory.ChallengedExactly` | internal/gateway/gateway.go:856-882 | A challenge goes out exactly if the device is active and has no recent one open |
| `GatewayHistory.JudgedExactly` | internal/gateway/gateway.go:890-942 | By the history alone: an answer is judged exactly if a challenge is open, within its validity, and the device active; it passes exactly if it is the reference hash signed with that challenge, and otherwise leaves the device revoked and without a session |
| `GatewayHistory.SessionsExactly` | internal/gateway/gateway.go:275-288 | A session is there exactly from the Msg3 that made it to the first call that ends it; closing by object closes that very one or nothing |
| `Servers.Server.Admit` | internal/transport/tcpserver/server.go:211-228 | Refused once closing, over the limit, or counted and recorded |
| `Servers.Server.Release` | internal/transport/tcpserver/server.go:236-241 | Uncounts and forgets the connection |
| `Servers.Server.RegisterConn` | internal/transport/tcpserver/server.go:394-403 | The new connection replaces the old one, which is handed back to be closed |
| `Servers.Server.UnregisterConn` | internal/transport/tcpserver/server.go:411-417 | Removes only its own entry |
| `Servers.Server.BeginShutdown` | internal/transport/tcpserver/server.go:261-277 | Sets closing and hands back every accepted connection |
| `ServerEntries.EntryStays` | internal/transport/tcpserver/server.go:394-417 | An entry is left alone by every step but its own handler's departure and the registration of another handler of the device |
| `ServerEntries.EntriesExactly` | internal/transport/tcpserver/server.go:394-417 | Over all interleavings, commands to a device reach the connection last registered for it, exactly as long as that one's own handler has not taken it off |
| `ServerEntries.ServingIsOnRecord` | internal/transport/tcpserver/server.go:394-417 | A handler that serves is the one commands reach, unless a later one of its device has registered |
| `ServerRuns.AdmittedExactly` | internal/transport/tcpserver/server.go:207-241 | A connection is turned away exactly once a shutdown has begun, is over the limit exactly if as many as allowed are accepted and not released, and is accepted otherwise |
| `ServerRuns.SessionsHaveHandlers` | internal/transport/tcpserver/server.go:359-384 | Over all interleavings every session in the table was created by a handshake whose handler is still running |
| `ServerRuns.ConnectionsCounted` | internal/transport/tcpserver/server.go:211-241 | The active count is the number of accepted connections, never over the limit, and every registered connection is an accepted one serving that device |
| `ServerRuns.ClosingAddsNothing` | internal/transport/tcpserver/server.go:261-277 | Once closing has begun no connection is accepted any more |
| `ServerRuns.ShutdownLeavesNothing` | internal/transport/tcpserver/server.go:261-296 | A successful shutdown leaves no handler, connection or session, provided the accept loop did not end on another error than its closed listener |
| `ServerRuns.AcceptErrorAbandonsHandlers` | internal/transport/tcpserver/server.go:198-206 | That proviso is needed: from every accepting run, such an error makes a later shutdown succeed with every handler and session still there |
| `ServerRuns.ShutdownAfterErrorExactly` | internal/transport/tcpserver/server.go:198-296 | After such an error every successful shutdown leaves nothing exactly if no handler was running at the error |
| `ServerRuns.CutCanMissSession` | internal/transport/tcpserver/server.go:353-384 | From the start, the connection on record is cut and its handler returns, and the session is still that of another handler of the device |
| `ServerRuns.ClosesOnlyItsOwn` | internal/transport/tcpserver/server.go:365-384 | If no handshake of a device finishes while another handler of it has its session still to capture, a handler closes the session it created or none, whatever other connections do |
| `ServerRuns.CapturesForeignExactly` | internal/transport/tcpserver/server.go:359-367 | Over all interleavings a handler captures a foreign session exactly if another handshake of its device finished after its own and that one's session is still in the table |
| `ServerRuns.ClosesOwnOrLater` | internal/transport/tcpserver/server.go:365-384 | Over all interleavings a handler closes the session it created, a later one of the same device, or none |
| `ServerRuns.CanCloseAnothers` | internal/transport/tcpserver/server.go:359-384 | A run from the start, with room for two connections, in which the first handler of a device closes the session of the second |
| `ServerRuns.InvKept` | internal/transport/tcpserver/server.go:182-296 | Every step of loop, handlers and shutdown keeps the accounting invariants |
| `Schedulers.Scheduler.constructor` | internal/scheduler/scheduler.go:70-86 | Starts with empty books |
| `Schedulers.Scheduler.MaybeRotate` | internal/scheduler/scheduler.go:156-234 | On the session itself: undo a rotation that has waited too long, count it, cut, and at the limit revoke and reset; leave a pending one alone; otherwise note progress and initiate if due |
| `Schedulers.Scheduler.CheckRotationProgress` | internal/scheduler/scheduler.go:242-248 | Resets the count when the iteration has grown |
| `Schedulers.Scheduler.NoteRotationSuccess` | internal/scheduler/scheduler.go:273-278 | Removes the record of failures |
| `Schedulers.Scheduler.ForgetStaleFailures` | internal/scheduler/scheduler.go:259-267 | Removes exactly the records older than an hour |
| `Schedulers.Scheduler.MaybeCheckFirmware` | internal/scheduler/scheduler.go:280-291 | Challenges if the last one is an interval old, and remembers it if it went out |
| `Schedulers.Scheduler.PruneState` | internal/scheduler/scheduler.go:118-154 | Forgets iterations and checks of absent devices, but not their failures |
| `Schedulers.Scheduler.ServeEach` | internal/scheduler/scheduler.go:103-108 | The turns of all connected devices in order, each on its own session |
| `Schedulers.Scheduler.Tick` | internal/scheduler/scheduler.go:103-110 | Those turns and then the sweep; books, log and every session as the functions say |
| `SchedulerRuns.FailuresCountTimeouts` | internal/scheduler/scheduler.go:156-278 | After any ticks the failure count of each device is its timeouts since the last reset, as read off the history |
| `SchedulerRuns.CountedSinceReset` | internal/scheduler/scheduler.go:173-278 | That is the number of timeouts since the last observed growth, revocation or quiet hour |
| `SchedulerRuns.BelowLimit` | internal/scheduler/scheduler.go:181-218 | The count stays below the limit between turns exactly if the limit is positive |
| `SchedulerRuns.TurnActions` | internal/scheduler/scheduler.go:156-234 | A turn cuts exactly if the session has waited for the timeout, revokes exactly if that timeout reaches the limit in the history, and initiates exactly if a rotation is due and none pending, so that it is never refused |
| `SchedulerRuns.TurnOnSession` | internal/scheduler/scheduler.go:156-235 | A turn undoes a stale rotation, closes the session at the limit, begins a due rotation over a connection, and changes nothing else |
| `ScheduledRates.RotatedIsNotDue` | internal/crypto/rotation_atomic.go:118-126 | A key that a frame has just rotated, as responder or by the acknowledgement, is not due until the interval has passed or packets use it up |
| `ScheduledRates.DueExactly` | internal/crypto/session.go:99-106 | After any run the gateway's key is due exactly if it has carried its packets or has been in force for the interval since the last commit or handshake |
| `ScheduledRates.BeginsExactlyWhenUsedUp` | internal/scheduler/scheduler.go:220-235 | Over all interleavings the scheduler decides to begin a rotation exactly if the key it finds is used up |
| `ScheduledRuns.NeverBeginsWhilePending` | internal/scheduler/scheduler.go:220-235 | Over all interleavings of the scheduler's calls with everything else, it never begins a rotation while one is pending, although it looks in one call and begins in another |
| `ScheduledRuns.PlayIsDisciplined` | internal/scheduler/scheduler.go:156-235 | Over all interleavings, the scheduler together with everything else obeys abort, cut, handshake exactly if no rotation is begun in a session that was rolled back at an earlier turn and that nothing has removed or replaced since |
| `ScheduledRuns.ScheduledAcksAreSafe` | internal/scheduler/scheduler.go:156-235 | In every such run the network can at some point make the gateway commit a key the device never had, exactly if a rotation is begun when the device has gone on from the gateway's key, or can still act at that key and an earlier rotation from it was given up |
| `ScheduledRuns.OnlyRetriesBreak` | internal/scheduler/scheduler.go:156-188 | And that never happens where every rolled-back session is gone before the next rotation is begun |
| `ScheduledRuns.RetryFreeAcksAreSafe` | internal/scheduler/scheduler.go:156-188 | Where every rolled-back session is gone before the next rotation is begun, no acknowledgement makes the gateway commit a key the device never had |
| `ScheduledRuns.NextTurnRetriesExactly` | internal/scheduler/scheduler.go:176-235 | After a rollback and its cut, whatever happens before the next turn, that turn begins a rotation exactly if one is due then, and begins it in the rolled-back session exactly if nothing has removed or replaced that |
| `ScheduledRuns.NextTurnBreaks` | internal/scheduler/scheduler.go:176-235 | Where the device had applied the rotation and the session stays in place, the late acknowledgement commits a key the device never had |
| `ScheduledRuns.RetryCanBreak` | internal/scheduler/scheduler.go:157-235 | So from the very start and under any settings, with one handshake, one rotation and a session that stays in place, the gateway can come to commit a key the device never had |
| `ScheduledRuns.UndisturbedTurn` | internal/scheduler/scheduler.go:157-235 | A turn with nothing in between leaves the session that the turn of the scheduler's object leaves, and none after a revocation |
| `Retries.BeginBreaksExactly` | internal/crypto/rotation_atomic.go:196-211 | After any run without a rollback at the device, with any rollbacks and retries of the gateway, a rotation it begins can end in a key the device never had exactly if the device has gone on from the gateway's key, or can still act at it and an earlier rotation from it was given up; the arrival of frames is then enough |
| `Retries.RolledBackIsRipe` | internal/crypto/rotation_atomic.go:144-170 | Right after the first rollback that condition is the one of a retry: all but both sides in step with the device waiting |
| `Retries.TrailedKept` | internal/crypto/rotation_atomic.go:72-261 | However often the gateway rolls back, every rotation on its way the device has made, waits for, has left behind, or cannot make; and every rotation on either way was acknowledged |
| `Retries.SafeKept` | internal/crypto/rotation_atomic.go:72-261 | No step but a rollback leads out of the safe states: both ends linked, or the gateway waiting for what nobody can send |
| `ControlRaces.SplitCallsAgree` | internal/transport/tcpserver/server.go:467-515 | With the two calls for a frame and for a message of the gateway taken apart, over all interleavings of any number of handlers, the ends agree as long as no session is replaced between the two calls |
| `ControlRaces.StrayTakeExactly` | internal/transport/tcpserver/server.go:467-515 | A frame checked in a replaced session and applied to the new one leaves the ends agreed exactly if it is refused, or is an acknowledgement and the device has applied the new session's own rotation |
| `ControlRaces.StraySendExactly` | internal/transport/tcpserver/server.go:546-564 | A message begun in a replaced session and sent under the new one's key splits the ends on arrival exactly if they are in step, the device waits for nothing and the message carries the next iteration |
| `ControlRaces.StrayTakeCanSplit` | internal/transport/tcpserver/server.go:467-515 | It happens from the start: a rotation is checked, the device connects anew, and it is applied to the new session |
| `ControlRaces.TakeIsDeliver` | internal/transport/tcpserver/server.go:475-493 | At the key of its check, the second call comes to the arrival of the frame just then |
| `ControlRaces.UndisturbedFrame` | internal/transport/tcpserver/server.go:467-515 | With nothing in between, the two calls for a frame are its arrival |
| `ControlRaces.UndisturbedMessage` | internal/transport/tcpserver/server.go:546-564 | And those for a message are its beginning |
| `ControlRaces.OtherKeyRefuses` | internal/transport/tcpserver/server.go:475-493 | In the same session, a frame whose key has been left is refused by its iteration |
| `SchedulerRuns.AbsenceKeepsCount` | internal/scheduler/scheduler.go:135-149 | Disconnection does not clear the count; only an hour without a timeout does |
| `SchedulerRuns.ChallengeDueExactly` | internal/scheduler/scheduler.go:280-291 | A firmware challenge is held back exactly when one went out less than the interval ago and the device has not been away since |
| `SchedulerRuns.ChallengeGoesExactly` | internal/scheduler/scheduler.go:280-291 | A challenge goes out, and is remembered as of now, exactly if it can be sent and none went out within the interval to a device connected since |
| `SchedulerRuns.TickIsSteps` | internal/scheduler/scheduler.go:103-110 | A tick is its turns followed by its sweep, and logs exactly what the turns did |
| `AuthLimiters.AuthLimiter.Blocked` | internal/api/api.go:224-239 | Forgets an expired record; blocks at the limit with the time left |
| `AuthLimiters.AuthLimiter.Fail` | internal/api/api.go:243-257 | Counts the failure in its window; afterwards only unexpired records remain |
| `AuthLimiters.AuthLimiter.AdminAuth` | internal/api/api.go:170-192 | Blocked addresses get a retry time in whole seconds, more than the wait by at most one; otherwise a wrong token is counted |
| `AuthRuns.WrongTokensBounded` | internal/api/api.go:202-257 | In any half-open interval of one window at most 2*(limit+k)-3 wrong tokens of an address are evaluated with at most k of its requests in flight: 2*limit-1 one at a time |
| `AuthRuns.BoundIsReached` | internal/api/api.go:202-205 | That bound is met for every limit and every number in flight, so ten failures per minute is not what the limiter enforces |
| `AuthRuns.WaitUnblocksExactly` | internal/api/api.go:224-239 | A blocked address stays blocked until the reported time and no longer, whatever requests come in between |
| `AuthRuns.CloseFailuresAreFew` | internal/api/api.go:243-257 | Failures less than a window apart lie in at most two neighbouring windows |
| `Journals.MemStore.LogEvent` | internal/store/memstore.go:161-174 | Appends with the next id and trims |
| `Journals.MemStore.RecordTelemetry` | internal/store/memstore.go:220-231 | Appends with the next id and the time of receipt, and trims |
| `Journals.MemStore.LogRotation` | internal/store/memstore.go:292-303 | Appends with the next id and trims |
| `Journals.MemStore.Delete` | internal/store/memstore.go:119-149 | Keeps exactly the entries of other devices, in order |
| `Journals.MemStore.QueryTelemetry` | internal/store/memstore.go:233-265 | The last matching readings up to the limit, oldest first |
| `Journals.MemStore.EventsByType` | internal/store/memstore.go:176-201 | The last matching events up to the limit, newest first |
| `Journals.MemStore.RecentEvents` | internal/store/memstore.go:203-216 | The last events of the device up to the limit, newest first |
| `Journals.MemStore.LatestTelemetry` | internal/store/memstore.go:280-290 | The latest reading of the device |
| `Journals.MemStore.LatestTelemetryAll` | internal/store/memstore.go:268-278 | The latest reading of every device |
| `Journals.SwappedAround` | internal/store/memstore.go:260-264 | The swaps from both ends reverse the answer |
| `Journals.Trimmed` | internal/store/memstore.go:43-52 | A suffix, never longer than limit and slack, and either everything or exactly the limit |
| `JournalRuns.JournalIsSuffix` | internal/store/memstore.go:43-52 | After any appends and deletions the journal is a suffix of all surviving appends |
| `JournalRuns.SurvivingAreUndeleted` | internal/store/memstore.go:119-149 | What survives is what was not deleted after its append, in the order of the appends |
| `JournalRuns.DeletedIsGone` | internal/store/memstore.go:119-149 | After its deletion nothing of a device is left |
| `JournalRuns.ReadingsSelected` | internal/store/memstore.go:233-265 | A query of readings selects exactly those of the device and the times asked for, both ends included |
| `JournalRuns.EventsSelected` | internal/store/memstore.go:176-201 | A query of events selects exactly those of the types and the device asked for; none means any |
| `JournalRuns.RecentAreKept` | internal/store/memstore.go:43-52 | Of the last limit appends nothing is lost but what was deleted |
| `JournalRuns.AnswersAreRecent` | internal/store/memstore.go:233-265 | A query answers a suffix of what it would answer over everything, and all of it once it finds the limit |
| `JournalRuns.DeletionIsLocal` | internal/store/memstore.go:119-149 | Deleting a device changes no answer about others |
| `JournalRuns.LatestLookupsAgree` | internal/store/memstore.go:268-290 | The two lookups of latest readings agree for every device |
| `JournalRuns.LatestIsLastMatch` | internal/store/memstore.go:280-290 | The latest reading is the last of the device's own |
| `JournalRuns.LatestUnchangedByDeletion` | internal/store/memstore.go:119-149 | Deleting another device does not change the latest reading of this one |
| `JournalRuns.TrimmingIsAmortised` | internal/store/memstore.go:36-52 | The entries copied by trimming, times slack + 1, are at most limit times the appends, whatever deletions happen in between |
| `JournalRuns.TrimsArePaid` | internal/store/memstore.go:36-52 | Every trim uses up slack + 1 appends of its own |

## Left out

- Real cryptographic primitives (ML-KEM, BLAKE3, ECDSA, SLH-DSA, ChaCha20-Poly1305): library code, symbolic here.
- Failures inside those primitives (a hash or decapsulation that returns an error) and of memory allocation: the
  source only passes them on.
- Constant-time comparison and wiping as protection against side channels: not functional properties.
- PostgreSQL store, MQTT broker and bridge, HTTP routing and DTOs, dashboard, metrics, logging, reading
  settings from the environment: plumbing over libraries. The settings themselves are parameters.
- `regtool` string parsing: mostly regular expressions; its verdicts are flags of a registration request.
- Wi-Fi, NVS, LED and boot code of the firmware, its firmware-challenge answer, emulator profiles, stress and
  benchmark programs: I/O or measurement.
- Data sent from the gateway to the device (`Device.ReceiveData`): it has no replay window and nothing calls it.
- The non-atomic rotation of frame type 4: refused by the server unread.
- The advice to rotate every 300 packets: not enforced by the code; only the window of 4096 bounds replay memory.
- Panics inside a connection handler and the recovery from them.
- Interleavings inside `Gateway` methods other than Msg3: each call is one step; a check-then-set split over two
  lock sections, as in issuing a firmware challenge, is not taken apart.
- Rollbacks between the two calls for one frame or message: `ControlRaces.dfy` has none, and where there are
  rollbacks a frame is one step.
- Revocation by the scheduler is taken to succeed; it fails only for a device whose record is gone, which has no
  session either.
- `RotationHistory`: the same scan as `EventsByType` without types.
- Growth of Go slices: the amortised bound counts the copies of `trimOldest` only.
- Sessions.Session.CheckDataNonce: the source's map keys are 12-byte arrays; here any bytes of length 12.
- Endpoints.Side.SendData: reads key and packet count in one step, the source in two calls.
- AuthLimiters.AuthLimiter.AdminAuth: the retry time is computed in integers, the source goes through floating
  seconds, which are exact enough below one minute.
- Journals.MemStore.RecordTelemetry: the parsed fields of a reading (floating point) are left out.
