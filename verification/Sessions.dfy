/** One side of a secure channel: the current key Ki, the key Ki+1 that waits for an
    acknowledgement, and the window of data nonces already accepted under Ki.

    SessionState and its functions say what every operation does to the state; the class
    Session updates its fields in place and is proved to do just that. */
module Sessions {
  import opened Bytes
  import opened Terms

  datatype Error =
    | SessionClosed
    | RotationInProgress
    | IterationOutOfOrder
    | NothingToCommit
    | RotationReplay
    | RotationOutOfOrder
    | NoPendingRotation
    | BadNonceSize
    | DataReplay

  datatype Result<+T> = Ok(value: T) | Err(error: Error)

  /** The settings of the process: how long a rotation may wait for its acknowledgement, and after how
      many packets or how long the next one is due. Times are in nanoseconds. */
  datatype Limits = Limits(ackTimeout: int, packets: int, interval: int)

  const MAX_SEEN_NONCES := 4096

  /** The zero time of an unset timestamp. */
  const UNSET := 0

  function Elements(s: seq<Bytes>): set<Bytes> {
    set x | x in s
  }

  ghost predicate Distinct(s: seq<Bytes>) {
    forall i, j :: 0 <= i < j < |s| ==> s[i] != s[j]
  }

  datatype Window = Window(nonces: set<Bytes>, order: seq<Bytes>) {
    /** The map and the arrival order hold the same nonces, none of them twice. */
    ghost predicate Valid() {
      && |order| <= MAX_SEEN_NONCES
      && Distinct(order)
      && nonces == Elements(order)
    }
  }

  const EMPTY_WINDOW := Window({}, [])

  function Last<T>(s: seq<T>, n: nat): seq<T> {
    if |s| <= n then s else s[|s| - n..]
  }

  datatype SessionState = SessionState(
    key: Key,
    packetCount: nat,
    lastRotatedAt: int,
    rotationCount: nat,
    closed: bool,
    iteration: nat,
    pendingKey: Key,
    pendingActive: bool,
    pendingIteration: nat,
    pendingStartedAt: int,
    window: Window)
  {
    function BeginRotate(mi: Secret, next: nat, now: int): Result<SessionState> {
      if closed then Err(SessionClosed)
      else if pendingActive then Err(RotationInProgress)
      else if next != iteration + 1 then Err(IterationOutOfOrder)
      else Ok(this.(pendingKey := Next(key, mi, next), pendingActive := true,
                    pendingIteration := next, pendingStartedAt := now))
    }

    function CommitRotate(now: int): Result<SessionState> {
      if closed then Err(SessionClosed)
      else if !pendingActive then Err(NothingToCommit)
      else Ok(this.(key := pendingKey, pendingKey := Zero, pendingActive := false,
                    iteration := pendingIteration, packetCount := 0, lastRotatedAt := now,
                    rotationCount := rotationCount + 1, window := EMPTY_WINDOW))
    }

    function AbortRotate(): SessionState {
      this.(pendingKey := Zero, pendingActive := false, pendingIteration := 0, pendingStartedAt := UNSET)
    }

    /** A timeout that is not positive stands for the setting. */
    predicate Stale(timeout: int, limits: Limits, now: int) {
      && pendingActive
      && now - pendingStartedAt >= if timeout <= 0 then limits.ackTimeout else timeout
    }

    predicate NeedsRotation(limits: Limits, now: int) {
      !closed && (packetCount >= limits.packets || now - lastRotatedAt >= limits.interval)
    }

    function AbortIfStale(timeout: int, limits: Limits, now: int): SessionState {
      if Stale(timeout, limits, now) then AbortRotate() else this
    }

    /** The initiator encapsulates the fresh secret number seed for its peer. */
    function Initiate(peer: Party, seed: nat, now: int): Result<(SessionState, Body)> {
      match BeginRotate(Shared(seed), iteration + 1, now)
      case Ok(s) => Ok((s, RotationV2(iteration + 1, Encapsulated(peer, seed))))
      case Err(e) => Err(e)
    }

    /** The responder applies the rotation at once and acknowledges it. */
    function Respond(me: Party, msg: Body, now: int): Result<(SessionState, Body)>
      requires msg.RotationV2?
    {
      if msg.iteration != iteration + 1 then
        Err(if msg.iteration <= iteration then RotationReplay else RotationOutOfOrder)
      else match BeginRotate(Decapsulate(me, msg.ct), msg.iteration, now)
        case Err(e) => Err(e)
        case Ok(s) =>
          match s.CommitRotate(now)
          case Err(e) => Err(e)
          case Ok(t) => Ok((t, RotationAck(msg.iteration)))
    }

    function ApplyAck(acked: nat, now: int): Result<SessionState> {
      if !pendingActive then Err(NoPendingRotation)
      else if acked != pendingIteration then Err(RotationOutOfOrder)
      else CommitRotate(now)
    }

    /** Admission of one data nonce; the oldest nonces leave when the window is full. */
    function CheckDataNonce(nonce: Bytes): Result<SessionState> {
      if |nonce| != NONCE_SIZE then Err(BadNonceSize)
      else if closed then Err(SessionClosed)
      else if nonce in window.nonces then Err(DataReplay)
      else
        var kept := Last(window.order, MAX_SEEN_NONCES - 1);
        var evicted := window.order[..|window.order| - |kept|];
        Ok(this.(window := Window(window.nonces - Elements(evicted) + {nonce}, kept + [nonce])))
    }

    function RecordPacket(): SessionState {
      this.(packetCount := packetCount + 1)
    }

    function Close(): SessionState {
      this.(key := Zero, pendingKey := Zero, pendingActive := false, closed := true, window := EMPTY_WINDOW)
    }
  }

  function Fresh(k0: Key, now: int): SessionState {
    SessionState(k0, 0, now, 0, false, 0, Zero, false, 0, UNSET, EMPTY_WINDOW)
  }

  class Session {
    var key: Key
    var packetCount: nat
    var lastRotatedAt: int
    var rotationCount: nat
    var closed: bool
    var iteration: nat
    var pendingKey: Key
    var pendingActive: bool
    var pendingIteration: nat
    var pendingStartedAt: int
    var seenNonces: set<Bytes>
    var seenOrder: seq<Bytes>

    function State(): SessionState
      reads this
    {
      SessionState(key, packetCount, lastRotatedAt, rotationCount, closed, iteration, pendingKey,
                   pendingActive, pendingIteration, pendingStartedAt, Window(seenNonces, seenOrder))
    }

    constructor (k0: Key, now: int)
      ensures State() == Fresh(k0, now)
    {
      key, packetCount, lastRotatedAt, rotationCount, closed := k0, 0, now, 0, false;
      iteration, pendingKey, pendingActive, pendingIteration := 0, Zero, false, 0;
      pendingStartedAt, seenNonces, seenOrder := UNSET, {}, [];
    }

    method CurrentKey() returns (r: Result<Key>)
      ensures r == if State().closed then Err(SessionClosed) else Ok(State().key)
    {
      if closed {
        return Err(SessionClosed);
      }
      return Ok(key);
    }

    /** Rotation is due by packet count or by time, whichever comes first; never when closed. */
    method NeedsRotation(limits: Limits, now: int) returns (due: bool)
      ensures due <==> !closed && (packetCount >= limits.packets || now - lastRotatedAt >= limits.interval)
      ensures due == State().NeedsRotation(limits, now)
    {
      if closed {
        return false;
      }
      return packetCount >= limits.packets || now - lastRotatedAt >= limits.interval;
    }

    method RecordPacket()
      modifies this`packetCount
      ensures State() == old(State()).RecordPacket()
    {
      packetCount := packetCount + 1;
    }

    method Close()
      modifies this
      ensures State() == old(State()).Close()
    {
      key, pendingKey := Zero, Zero;
      pendingActive := false;
      closed := true;
      ResetSeenNonces();
    }

    method ResetSeenNonces()
      modifies this`seenNonces, this`seenOrder
      ensures State() == old(State()).(window := EMPTY_WINDOW)
    {
      seenNonces, seenOrder := {}, [];
    }

    method BeginRotate(mi: Secret, next: nat, now: int) returns (r: Result<()>)
      modifies this
      ensures match old(State()).BeginRotate(mi, next, now)
              case Ok(s) => r == Ok(()) && State() == s
              case Err(e) => r == Err(e) && State() == old(State())
    {
      if closed {
        return Err(SessionClosed);
      }
      if pendingActive {
        return Err(RotationInProgress);
      }
      if next != iteration + 1 {
        return Err(IterationOutOfOrder);
      }
      pendingKey := Next(key, mi, next);
      pendingActive := true;
      pendingIteration := next;
      pendingStartedAt := now;
      return Ok(());
    }

    method CommitRotate(now: int) returns (r: Result<()>)
      modifies this
      ensures match old(State()).CommitRotate(now)
              case Ok(s) => r == Ok(()) && State() == s
              case Err(e) => r == Err(e) && State() == old(State())
    {
      if closed {
        return Err(SessionClosed);
      }
      if !pendingActive {
        return Err(NothingToCommit);
      }
      key := Zero;
      key := pendingKey;
      pendingKey := Zero;
      pendingActive := false;
      iteration := pendingIteration;
      packetCount := 0;
      lastRotatedAt := now;
      rotationCount := rotationCount + 1;
      ResetSeenNonces();
      return Ok(());
    }

    method AbortRotate()
      modifies this
      ensures State() == old(State()).AbortRotate()
    {
      pendingKey := Zero;
      pendingActive := false;
      pendingIteration := 0;
      pendingStartedAt := UNSET;
    }

    method AbortIfStale(timeout: int, limits: Limits, now: int) returns (aborted: bool)
      modifies this
      ensures aborted == old(State()).Stale(timeout, limits, now)
      ensures State() == old(State()).AbortIfStale(timeout, limits, now)
    {
      var limit := timeout;
      if limit <= 0 {
        limit := limits.ackTimeout;
      }
      if !pendingActive {
        return false;
      }
      if now - pendingStartedAt < limit {
        return false;
      }
      pendingKey := Zero;
      pendingActive := false;
      pendingIteration := 0;
      pendingStartedAt := UNSET;
      return true;
    }

    method InitiateRotationAtomic(peer: Party, seed: nat, now: int) returns (r: Result<Body>)
      modifies this
      ensures match old(State()).Initiate(peer, seed, now)
              case Ok((s, msg)) => r == Ok(msg) && State() == s
              case Err(e) => r == Err(e) && State() == old(State())
    {
      var ct, mi := Encapsulated(peer, seed), Shared(seed);
      var next := iteration + 1;
      var begun := BeginRotate(mi, next, now);
      match begun
      case Err(e) => return Err(e);
      case Ok(_) => return Ok(RotationV2(next, ct));
    }

    method RespondToRotationAtomic(me: Party, msg: Body, now: int) returns (r: Result<Body>)
      requires msg.RotationV2?
      modifies this
      ensures match old(State()).Respond(me, msg, now)
              case Ok((s, ack)) => r == Ok(ack) && State() == s
              case Err(e) => r == Err(e) && State() == old(State())
    {
      if msg.iteration != iteration + 1 {
        if msg.iteration <= iteration {
          return Err(RotationReplay);
        }
        return Err(RotationOutOfOrder);
      }
      var mi := Decapsulate(me, msg.ct);
      var begun := BeginRotate(mi, msg.iteration, now);
      match begun
      case Err(e) => return Err(e);
      case Ok(_) =>
        var committed := CommitRotate(now);
        match committed
        case Err(e) => return Err(e);
        case Ok(_) => return Ok(RotationAck(msg.iteration));
    }

    method ApplyRotationAck(ack: nat, now: int) returns (r: Result<()>)
      modifies this
      ensures match old(State()).ApplyAck(ack, now)
              case Ok(s) => r == Ok(()) && State() == s
              case Err(e) => r == Err(e) && State() == old(State())
    {
      if !pendingActive {
        return Err(NoPendingRotation);
      }
      if ack != pendingIteration {
        return Err(RotationOutOfOrder);
      }
      r := CommitRotate(now);
    }

    /** Eviction deletes the oldest nonces from the map one by one, then shifts the slice. */
    method CheckDataNonce(nonce: Bytes) returns (r: Result<()>)
      modifies this`seenNonces, this`seenOrder
      ensures match old(State()).CheckDataNonce(nonce)
              case Ok(s) => r == Ok(()) && State() == s
              case Err(e) => r == Err(e) && State() == old(State())
    {
      if |nonce| != NONCE_SIZE {
        return Err(BadNonceSize);
      }
      if closed {
        return Err(SessionClosed);
      }
      if nonce in seenNonces {
        return Err(DataReplay);
      }
      if |seenOrder| >= MAX_SEEN_NONCES {
        var drop := |seenOrder| - MAX_SEEN_NONCES + 1;
        for i := 0 to drop
          invariant seenOrder == old(seenOrder)
          invariant seenNonces == old(seenNonces) - Elements(old(seenOrder)[..i])
        {
          seenNonces := seenNonces - {seenOrder[i]};
        }
        seenOrder := seenOrder[drop..];
      }
      seenNonces := seenNonces + {nonce};
      seenOrder := seenOrder + [nonce];
      return Ok(());
    }
  }

  /** Deleting the first cut nonces from the map leaves exactly the rest of the slice. */
  lemma EvictionAgrees(order: seq<Bytes>, cut: nat)
    requires Distinct(order) && cut <= |order|
    ensures Elements(order) - Elements(order[..cut]) == Elements(order[cut..])
  {
    forall x
      ensures x in order && x !in order[..cut] <==> x in order[cut..]
    {
      if x in order[cut..] {
        var j :| 0 <= j < |order| - cut && order[cut..][j] == x;
        assert order[cut + j] == x;
      }
      if x in order && x !in order[..cut] {
        var i :| 0 <= i < |order| && order[i] == x;
        assert order[..cut] + order[cut..] == order;
      }
    }
  }

  /** The window invariant: the map and the slice agree whatever nonces arrive, and together
      they are the last 4096 of the nonces admitted. */
  lemma WindowStaysValid(s: SessionState, nonce: Bytes)
    requires s.window.Valid() && s.CheckDataNonce(nonce).Ok?
    ensures s.CheckDataNonce(nonce).value.window.Valid()
    ensures s.CheckDataNonce(nonce).value.window.order == Last(s.window.order + [nonce], MAX_SEEN_NONCES)
  {
    var order := s.window.order;
    var kept := Last(order, MAX_SEEN_NONCES - 1);
    var cut := |order| - |kept|;
    assert kept == order[cut..];
    EvictionAgrees(order, cut);
    assert Elements(kept + [nonce]) == Elements(kept) + {nonce};
    assert nonce !in order;
    assert forall i :: 0 <= i < |kept| ==> kept[i] in order;
    assert (order + [nonce])[cut..] == kept + [nonce];
  }
}
