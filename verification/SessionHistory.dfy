/** A session as the calls made on it determine it, in any order and from anywhere: which rotation is
    pending, since when the key is in force, which nonces are remembered; and exactly which calls
    succeed. */
module SessionHistory {
  import opened Bytes
  import opened Options
  import opened Terms
  import opened Sessions
  import Protocol

  datatype Op =
    | Begin(mi: Secret, next: nat)
    | Commit
    | Abort
    | AbortIfStale(timeout: int)
    | CheckNonce(nonce: Bytes)
    | Record
    | Close

  datatype Call = Call(op: Op, now: int)

  /** What a call leaves, and whether it has succeeded. */
  function Does(s: SessionState, limits: Limits, c: Call): (SessionState, bool) {
    match c.op
    case Begin(mi, next) => (match s.BeginRotate(mi, next, c.now) case Ok(t) => (t, true) case Err(_) => (s, false))
    case Commit => (match s.CommitRotate(c.now) case Ok(t) => (t, true) case Err(_) => (s, false))
    case Abort => (s.AbortRotate(), true)
    case AbortIfStale(timeout) => (s.AbortIfStale(timeout, limits, c.now), s.Stale(timeout, limits, c.now))
    case CheckNonce(nonce) => (match s.CheckDataNonce(nonce) case Ok(t) => (t, true) case Err(_) => (s, false))
    case Record => (s.RecordPacket(), true)
    case Close => (s.Close(), true)
  }

  /** The session made with key k0 at time t0, after the calls. */
  function After(k0: Key, t0: int, limits: Limits, calls: seq<Call>): SessionState {
    if calls == [] then Fresh(k0, t0) else
      var n := |calls| - 1;
      Does(After(k0, t0, limits, calls[..n]), limits, calls[n]).0
  }

  predicate Succeeds(k0: Key, t0: int, limits: Limits, calls: seq<Call>, i: nat)
    requires i < |calls|
  {
    Does(After(k0, t0, limits, calls[..i]), limits, calls[i]).1
  }

  predicate Closed(calls: seq<Call>) {
    exists i | 0 <= i < |calls| :: calls[i].op.Close?
  }

  /** How many rotations were committed. */
  function Commits(k0: Key, t0: int, limits: Limits, calls: seq<Call>): nat {
    if calls == [] then 0 else
      var n := |calls| - 1;
      Commits(k0, t0, limits, calls[..n])
      + if calls[n].op.Commit? && Succeeds(k0, t0, limits, calls, n) then 1 else 0
  }

  /** The beginning of the rotation that is pending, until it is committed or given up. */
  function Pending(k0: Key, t0: int, limits: Limits, calls: seq<Call>): (c: Option<Call>)
    ensures c.Some? ==> c.value.op.Begin?
  {
    if calls == [] then None else
      var n := |calls| - 1;
      if !Succeeds(k0, t0, limits, calls, n) then Pending(k0, t0, limits, calls[..n])
      else match calls[n].op
        case Begin(_, _) => Some(calls[n])
        case Commit => None
        case Abort => None
        case AbortIfStale(_) => None
        case Close => None
        case _ => Pending(k0, t0, limits, calls[..n])
  }

  /** Since when the key is in force. */
  function Since(k0: Key, t0: int, limits: Limits, calls: seq<Call>): int {
    if calls == [] then t0 else
      var n := |calls| - 1;
      if calls[n].op.Commit? && Succeeds(k0, t0, limits, calls, n) then calls[n].now
      else Since(k0, t0, limits, calls[..n])
  }

  /** The packets counted under the key. */
  function Recorded(k0: Key, t0: int, limits: Limits, calls: seq<Call>): nat {
    if calls == [] then 0 else
      var n := |calls| - 1;
      if calls[n].op.Commit? && Succeeds(k0, t0, limits, calls, n) then 0
      else Recorded(k0, t0, limits, calls[..n]) + if calls[n].op.Record? then 1 else 0
  }

  /** The nonces admitted under the key, oldest first. */
  function Admitted(k0: Key, t0: int, limits: Limits, calls: seq<Call>): seq<Bytes> {
    if calls == [] then [] else
      var n := |calls| - 1;
      if !Succeeds(k0, t0, limits, calls, n) then Admitted(k0, t0, limits, calls[..n])
      else match calls[n].op
        case Commit => []
        case CheckNonce(nonce) => Admitted(k0, t0, limits, calls[..n]) + [nonce]
        case _ => Admitted(k0, t0, limits, calls[..n])
  }

  ghost predicate Follows(k0: Key, t0: int, limits: Limits, calls: seq<Call>) {
    KeysFollow(k0, t0, limits, calls) && WindowFollows(k0, t0, limits, calls)
  }

  ghost predicate KeysFollow(k0: Key, t0: int, limits: Limits, calls: seq<Call>) {
    var s := After(k0, t0, limits, calls);
    var pending := Pending(k0, t0, limits, calls);
    && s.closed == Closed(calls)
    && s.iteration == s.rotationCount == Commits(k0, t0, limits, calls)
    && s.lastRotatedAt == Since(k0, t0, limits, calls)
    && s.packetCount == Recorded(k0, t0, limits, calls)
    && s.pendingActive == pending.Some?
    && (if pending.Some? then
          && s.pendingIteration == s.iteration + 1 && s.pendingStartedAt == pending.value.now
          && s.pendingKey == Next(s.key, pending.value.op.mi, s.iteration + 1)
        else s.pendingKey == Zero)
    && (s.closed ==> s.key == Zero && s.pendingKey == Zero)
    && (!s.closed ==> Depth(s.key) == s.iteration + Depth(k0) && Extends(s.key, k0))
  }

  ghost predicate WindowFollows(k0: Key, t0: int, limits: Limits, calls: seq<Call>) {
    var s := After(k0, t0, limits, calls);
    s.closed == Closed(calls) && WindowIs(s, Admitted(k0, t0, limits, calls))
  }

  /** What any call leaves alone, and what it does if it succeeds. */
  lemma CallOnKeys(s: SessionState, limits: Limits, c: Call)
    ensures var (t, ok) := Does(s, limits, c);
            && (!ok ==> t == s)
            && (t.closed <==> s.closed || c.op.Close?)
            && (c.op.Commit? && ok ==>
                  && !s.closed && s.pendingActive && !t.pendingActive && t.pendingKey == Zero
                  && t.key == s.pendingKey && t.iteration == s.pendingIteration
                  && t.rotationCount == s.rotationCount + 1 && t.lastRotatedAt == c.now && t.packetCount == 0)
            && (!(c.op.Commit? && ok) ==>
                  && t.iteration == s.iteration && t.rotationCount == s.rotationCount
                  && t.lastRotatedAt == s.lastRotatedAt
                  && t.packetCount == s.packetCount + (if c.op.Record? then 1 else 0)
                  && t.key == if c.op.Close? then Zero else s.key)
            && (c.op.Begin? && ok ==>
                  && !s.closed && !s.pendingActive && c.op.next == s.iteration + 1 && t.pendingActive
                  && t.pendingIteration == c.op.next && t.pendingStartedAt == c.now
                  && t.pendingKey == Next(s.key, c.op.mi, c.op.next))
            && (c.op.Abort? || c.op.Close? || (c.op.AbortIfStale? && ok) ==> !t.pendingActive && t.pendingKey == Zero)
            && (c.op.CheckNonce? || c.op.Record? ==>
                  && t.pendingActive == s.pendingActive && t.pendingKey == s.pendingKey
                  && t.pendingIteration == s.pendingIteration && t.pendingStartedAt == s.pendingStartedAt)
  {
  }

  /** What any call does to the window. */
  lemma CallOnWindow(s: SessionState, limits: Limits, c: Call)
    requires s.window.Valid()
    ensures var (t, ok) := Does(s, limits, c);
            && t.window.Valid()
            && t.window.order
               == if (c.op.Commit? && ok) || c.op.Close? then []
                  else if c.op.CheckNonce? && ok then Last(s.window.order + [c.op.nonce], MAX_SEEN_NONCES)
                  else s.window.order
  {
    if c.op.CheckNonce? && s.CheckDataNonce(c.op.nonce).Ok? {
      WindowStaysValid(s, c.op.nonce);
    }
  }

  lemma LastOfLast(s: seq<Bytes>, x: Bytes, n: nat)
    requires n > 0
    ensures Last(Last(s, n) + [x], n) == Last(s + [x], n)
  {
  }

  lemma ClosedBefore(calls: seq<Call>)
    requires calls != []
    ensures Closed(calls) <==> Closed(calls[..|calls| - 1]) || calls[|calls| - 1].op.Close?
  {
    assert forall i | 0 <= i < |calls| - 1 :: calls[..|calls| - 1][i] == calls[i];
  }

  lemma KeysStep(k0: Key, t0: int, limits: Limits, calls: seq<Call>)
    requires calls != [] && KeysFollow(k0, t0, limits, calls[..|calls| - 1])
    ensures KeysFollow(k0, t0, limits, calls)
  {
    var n := |calls| - 1;
    ClosedBefore(calls);
    CallOnKeys(After(k0, t0, limits, calls[..n]), limits, calls[n]);
  }

  ghost predicate WindowIs(s: SessionState, admitted: seq<Bytes>) {
    s.window.Valid() && if s.closed then s.window == EMPTY_WINDOW else s.window.order == Last(admitted, MAX_SEEN_NONCES)
  }

  lemma WindowMoves(s: SessionState, limits: Limits, c: Call, admitted: seq<Bytes>)
    requires WindowIs(s, admitted)
    ensures var (t, ok) := Does(s, limits, c);
            WindowIs(t, if c.op.Commit? && ok then []
                        else if c.op.CheckNonce? && ok then admitted + [c.op.nonce]
                        else admitted)
  {
    CallOnWindow(s, limits, c);
    if c.op.CheckNonce? && !s.closed {
      LastOfLast(admitted, c.op.nonce, MAX_SEEN_NONCES);
    }
  }

  lemma WindowStep(k0: Key, t0: int, limits: Limits, calls: seq<Call>)
    requires calls != [] && WindowFollows(k0, t0, limits, calls[..|calls| - 1])
    ensures WindowFollows(k0, t0, limits, calls)
  {
    var n := |calls| - 1;
    var s := After(k0, t0, limits, calls[..n]);
    ClosedBefore(calls);
    assert s.closed || calls[n].op.Close? <==> After(k0, t0, limits, calls).closed by {
      CallOnKeys(s, limits, calls[n]);
    }
    WindowMoves(s, limits, calls[n], Admitted(k0, t0, limits, calls[..n]));
  }

  /** Main result: the whole state of a session is what its calls have made of it. */
  lemma {:induction false} StateFollows(k0: Key, t0: int, limits: Limits, calls: seq<Call>)
    ensures Follows(k0, t0, limits, calls)
  {
    if calls != [] {
      StateFollows(k0, t0, limits, calls[..|calls| - 1]);
      KeysStep(k0, t0, limits, calls);
      WindowStep(k0, t0, limits, calls);
    }
  }

  /** Main result: after any calls, a rotation begins exactly if the session is open, none is pending and
      the number is the next; commits exactly if one is pending; is given up as stale exactly if it has
      waited its time; and a nonce is admitted exactly if it is not among the last 4096 under the key. */
  lemma CallsSucceedExactly(k0: Key, t0: int, limits: Limits, calls: seq<Call>, i: nat)
    requires i < |calls|
    ensures var past, now := calls[..i], calls[i].now;
            var pending := Pending(k0, t0, limits, past);
            Succeeds(k0, t0, limits, calls, i) <==>
              match calls[i].op
              case Begin(_, next) => !Closed(past) && pending.None? && next == Commits(k0, t0, limits, past) + 1
              case Commit => !Closed(past) && pending.Some?
              case AbortIfStale(timeout) =>
                pending.Some? && now - pending.value.now >= if timeout <= 0 then limits.ackTimeout else timeout
              case CheckNonce(nonce) =>
                && !Closed(past) && |nonce| == NONCE_SIZE
                && nonce !in Last(Admitted(k0, t0, limits, past), 4096)
              case _ => true
  {
    StateFollows(k0, t0, limits, calls[..i]);
  }

  /** Main result: a rotation from the peer is applied exactly if the session is open, waits for none of
      its own and has the number before; an acknowledgement exactly if it waits for that number; the
      key is due exactly by its packets or its age. */
  lemma AnswersExactly(
    k0: Key, t0: int, limits: Limits, calls: seq<Call>, me: Party, i: nat, ct: Ciphertext, now: int)
    ensures var s, n := After(k0, t0, limits, calls), Commits(k0, t0, limits, calls);
            var pending := Pending(k0, t0, limits, calls);
            var applied, acked := s.Respond(me, RotationV2(i, ct), now), s.ApplyAck(i, now);
            && (applied.Ok? <==> !Closed(calls) && pending.None? && i == n + 1)
            && (applied.Ok? ==> applied.value.0.key == Next(s.key, Decapsulate(me, ct), i)
                                && applied.value.0.iteration == i && applied.value.1 == RotationAck(i))
            && (applied == Err(RotationReplay) <==> i <= n) && (applied == Err(RotationOutOfOrder) <==> i > n + 1)
            && (acked.Ok? <==> !Closed(calls) && pending.Some? && i == n + 1)
            && (acked.Ok? ==> acked.value.key == Next(s.key, pending.value.op.mi, i) && acked.value.iteration == i)
            && (s.NeedsRotation(limits, now) <==>
                  !Closed(calls) && (Recorded(k0, t0, limits, calls) >= limits.packets
                                     || now - Since(k0, t0, limits, calls) >= limits.interval))
  {
    StateFollows(k0, t0, limits, calls);
  }

  /** A closed session is wiped and answers nothing any more, whatever is called or arrives. */
  lemma ClosedIsSilent(
    k0: Key, t0: int, limits: Limits, calls: seq<Call>, me: Party, frame: Frame, nonce: Bytes, packet: Packet,
    seed: nat, now: int)
    requires Closed(calls)
    ensures var s := After(k0, t0, limits, calls);
            && s.key == Zero && s.pendingKey == Zero && s.window == EMPTY_WINDOW && !s.pendingActive
            && Protocol.Receive(s, me, frame, now) == (s, None)
            && Protocol.ReceiveData(s, nonce, packet) == None
            && s.Initiate(me, seed, now) == Err(SessionClosed)
            && !s.NeedsRotation(limits, now)
  {
    StateFollows(k0, t0, limits, calls);
    ClosedHasNoPending(k0, t0, limits, calls);
  }

  lemma {:induction false} ClosedHasNoPending(k0: Key, t0: int, limits: Limits, calls: seq<Call>)
    requires Closed(calls)
    ensures Pending(k0, t0, limits, calls).None?
  {
    var n := |calls| - 1;
    ClosedBefore(calls);
    StateFollows(k0, t0, limits, calls[..n]);
    if !calls[n].op.Close? {
      ClosedHasNoPending(k0, t0, limits, calls[..n]);
    }
  }
}
