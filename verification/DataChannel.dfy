/** Delivery of data packets over whole runs: every accepted packet is one the device sent, none
    is delivered twice while the replay window lasts, and no honest packet is taken for a replay. */
module DataChannel {
  import opened Bytes
  import opened Options
  import opened Terms
  import opened Sessions
  import opened Protocol
  import opened Agreement
  import opened Runs

  /** The packet number in the low four bytes of a nonce. */
  function SeqFromNonce(nonce: Bytes): Option<nat> {
    if |nonce| != NONCE_SIZE then None else Some(GetBE(nonce[8..]))
  }

  lemma NonceCarriesSeq(salt: Bytes, seqNum: nat)
    requires |salt| == NONCE_SIZE - 4 && seqNum < 0x1_0000_0000
    ensures SeqFromNonce(salt + PutBE(seqNum, 4)) == Some(seqNum)
  {
    PowValues();
    GetAfterPut(seqNum, 4);
    assert (salt + PutBE(seqNum, 4))[8..] == PutBE(seqNum, 4);
  }

  /** The nonces of the packets that were delivered under the key, oldest first. */
  function NoncesUnder(delivered: seq<Packet>, key: Key): seq<Bytes> {
    if delivered == [] then [] else
      var rest := NoncesUnder(delivered[..|delivered| - 1], key);
      var last := delivered[|delivered| - 1];
      if last.key == key then rest + [last.nonce] else rest
  }

  function CounterOf(flavour: Flavour, d: Endpoint): nat {
    if flavour == Firmware then d.seqNum else d.session.packetCount
  }

  /** A packet the device sent: its key belongs to the device's past or present, and its number is
      below the counter that the present key has reached. */
  ghost predicate SentOk(s: System, p: Packet) {
    && Root(p.key) in s.archive
    && var d := s.archive[Root(p.key)];
    && Depth(p.key) <= d.session.iteration
    && SeqFromNonce(p.nonce).Some?
    && (p.key == d.session.key ==> SeqFromNonce(p.nonce).value < CounterOf(s.flavour, d))
  }

  ghost predicate NumbersUnique(packets: set<Packet>) {
    forall p, q | p in packets && q in packets ::
      p.key == q.key && SeqFromNonce(p.nonce) == SeqFromNonce(q.nonce) ==> p == q
  }

  /** The window is the last 4096 nonces delivered under the current key. */
  ghost predicate WindowOk(s: System) {
    s.gateway.Some? ==>
      && s.gateway.value.window.Valid()
      && s.gateway.value.window.order == Last(NoncesUnder(s.delivered, s.gateway.value.key), MAX_SEEN_NONCES)
  }

  /** What was delivered was sent, under keys that the gateway has not got ahead of it. */
  ghost predicate DeliveredOk(s: System) {
    forall p | p in s.delivered ::
      && p in s.packets
      && (s.gateway.Some? && Root(p.key) == Root(s.gateway.value.key) ==> Depth(p.key) <= s.gateway.value.iteration)
      && (s.attempt.Some? ==> Root(p.key) != AttemptKey(s.attempt.value))
  }

  ghost predicate DataInv(s: System) {
    && (forall p | p in s.packets :: SentOk(s, p))
    && NumbersUnique(s.packets)
    && WindowOk(s)
    && DeliveredOk(s)
  }

  lemma {:induction false} NoneUnder(delivered: seq<Packet>, key: Key)
    requires forall p | p in delivered :: p.key != key
    ensures NoncesUnder(delivered, key) == []
  {
    if delivered != [] {
      NoneUnder(delivered[..|delivered| - 1], key);
    }
  }

  lemma {:induction false} UnderHas(delivered: seq<Packet>, p: Packet)
    requires p in delivered
    ensures p.nonce in NoncesUnder(delivered, p.key)
  {
    var last := delivered[|delivered| - 1];
    if last != p {
      UnderHas(delivered[..|delivered| - 1], p);
    }
  }

  lemma {:induction false} UnderComesFrom(delivered: seq<Packet>, key: Key, nonce: Bytes) returns (p: Packet)
    requires nonce in NoncesUnder(delivered, key)
    ensures p in delivered && p.key == key && p.nonce == nonce
  {
    var last := delivered[|delivered| - 1];
    if last.key == key && last.nonce == nonce {
      p := last;
    } else {
      p := UnderComesFrom(delivered[..|delivered| - 1], key, nonce);
    }
  }

  lemma NewKeyWindow(s: System, g: SessionState)
    requires g.window == EMPTY_WINDOW
    requires forall p | p in s.delivered :: p.key != g.key
    ensures g.window.Valid() && g.window.order == Last(NoncesUnder(s.delivered, g.key), MAX_SEEN_NONCES)
  {
    NoneUnder(s.delivered, g.key);
  }

  lemma ReceivedSession(s: SessionState, me: Party, frame: Frame, now: int)
    requires Sound(s)
    ensures var t := Receive(s, me, frame, now).0;
            t == s || (Depth(t.key) == t.iteration == s.iteration + 1 && t.window == EMPTY_WINDOW && t.packetCount == 0)
  {
  }

  lemma HandshakeKeepsData(s: System, step: Step, now: int)
    requires Base(s) && DataInv(s) && Enabled(s, step)
    requires step.StartHandshake? || step.AnswerHello? || step.CompleteHandshake? || step.FinalizeHandshake?
             || step.Drop?
    ensures DataInv(Apply(s, step, now))
  {
    var t := Apply(s, step, now);
    forall p | p in t.packets
      ensures SentOk(t, p)
    {
      assert SentOk(s, p) && EntryOk(s, Root(p.key), s.archive[Root(p.key)].session);
    }
    forall p | p in s.delivered
      ensures t.attempt.Some? ==> Root(p.key) != AttemptKey(t.attempt.value)
    {
      assert SentOk(s, p) && EntryOk(s, Root(p.key), s.archive[Root(p.key)].session);
    }
    if t.gateway.Some? && t.gateway != s.gateway {
      NewKeyWindow(s, t.gateway.value);
    }
  }

  lemma DeliverKeepsData(s: System, to: Party, frame: Frame, now: int)
    requires Base(s) && DataInv(s) && Enabled(s, Deliver(to, frame))
    ensures DataInv(Apply(s, Deliver(to, frame), now))
  {
    var t := Apply(s, Deliver(to, frame), now);
    ReceivedSession(s.Session(to), to, frame, now);
    if to == Gateway && t.gateway != s.gateway {
      ReceiveKeepsSound(s.gateway.value, Gateway, frame, now);
      NewKeyWindow(s, t.gateway.value);
    }
    forall p | p in t.packets
      ensures SentOk(t, p)
    {
      assert SentOk(s, p);
    }
  }

  lemma RotationKeepsData(s: System, step: Step, now: int)
    requires Base(s) && DataInv(s) && Enabled(s, step)
    requires step.Initiate? || step.Deliver? || step.Abort?
    ensures DataInv(Apply(s, step, now))
  {
    if step.Deliver? {
      DeliverKeepsData(s, step.to, step.frame, now);
    } else {
      var t := Apply(s, step, now);
      forall p | p in t.packets
        ensures SentOk(t, p)
      {
        assert SentOk(s, p);
      }
    }
  }

  lemma SendKeepsData(s: System, salt: Bytes, plaintext: Bytes, now: int)
    requires Base(s) && DataInv(s) && Enabled(s, SendData(salt, plaintext))
    ensures DataInv(Apply(s, SendData(salt, plaintext), now))
  {
    var t := Apply(s, SendData(salt, plaintext), now);
    NonceCarriesSeq(salt, s.PacketCounter());
    assert EntryOk(s, s.current.value, s.archive[s.current.value].session);
    forall p | p in t.packets
      ensures SentOk(t, p)
    {
      assert p in s.packets ==> SentOk(s, p);
    }
    forall p, q | p in t.packets && q in t.packets && p.key == q.key && SeqFromNonce(p.nonce) == SeqFromNonce(q.nonce)
      ensures p == q
    {
      assert p in s.packets ==> SentOk(s, p);
      assert q in s.packets ==> SentOk(s, q);
    }
  }

  lemma AcceptKeepsWindow(s: System, nonce: Bytes, packet: Packet, now: int)
    requires WindowOk(s) && Enabled(s, DeliverData(nonce, packet))
    ensures WindowOk(Apply(s, DeliverData(nonce, packet), now))
  {
    var t := Apply(s, DeliverData(nonce, packet), now);
    var g := s.gateway.value;
    if t.delivered != s.delivered {
      WindowStaysValid(g, nonce);
      assert t.delivered[..|t.delivered| - 1] == s.delivered;
      var all := NoncesUnder(s.delivered, g.key);
      assert NoncesUnder(t.delivered, g.key) == all + [nonce];
      assert Last(Last(all, MAX_SEEN_NONCES) + [nonce], MAX_SEEN_NONCES) == Last(all + [nonce], MAX_SEEN_NONCES);
    }
  }

  lemma AcceptKeepsData(s: System, nonce: Bytes, packet: Packet, now: int)
    requires Base(s) && DataInv(s) && Enabled(s, DeliverData(nonce, packet))
    ensures DataInv(Apply(s, DeliverData(nonce, packet), now))
  {
    var t := Apply(s, DeliverData(nonce, packet), now);
    AcceptKeepsWindow(s, nonce, packet, now);
    if t.delivered != s.delivered {
      assert packet in s.packets;
    }
    forall p | p in t.packets
      ensures SentOk(t, p)
    {
      assert SentOk(s, p);
    }
  }

  lemma DataKept(s: System, step: Step, now: int)
    requires Base(s) && DataInv(s) && Enabled(s, step)
    ensures DataInv(Apply(s, step, now))
  {
    match step
    case Initiate(_) => RotationKeepsData(s, step, now);
    case Deliver(_, _) => RotationKeepsData(s, step, now);
    case Abort(_) => RotationKeepsData(s, step, now);
    case SendData(salt, plaintext) => SendKeepsData(s, salt, plaintext, now);
    case DeliverData(nonce, packet) => AcceptKeepsData(s, nonce, packet, now);
    case _ => HandshakeKeepsData(s, step, now);
  }

  /** As long as no more than 4096 packets were delivered under a key, their nonces all differ. */
  ghost predicate NoRepeats(delivered: seq<Packet>) {
    forall k: Key :: |NoncesUnder(delivered, k)| <= MAX_SEEN_NONCES ==> Distinct(NoncesUnder(delivered, k))
  }

  lemma NoRepeatsKept(s: System, step: Step, now: int)
    requires Base(s) && DataInv(s) && Enabled(s, step) && NoRepeats(s.delivered)
    ensures NoRepeats(Apply(s, step, now).delivered)
  {
    var t := Apply(s, step, now);
    if t.delivered != s.delivered {
      var g := s.gateway.value;
      assert t.delivered[..|t.delivered| - 1] == s.delivered;
      forall k: Key | |NoncesUnder(t.delivered, k)| <= MAX_SEEN_NONCES
        ensures Distinct(NoncesUnder(t.delivered, k))
      {
        assert Distinct(NoncesUnder(s.delivered, k));
        if k == g.key {
          assert step.nonce !in NoncesUnder(s.delivered, k);
        }
      }
    }
  }

  lemma {:induction false} RunKeepsData(s: System, run: seq<Event>)
    requires Base(s) && DataInv(s) && NoRepeats(s.delivered) && IsRun(s, run)
    ensures var t := After(s, run); Base(t) && DataInv(t) && NoRepeats(t.delivered)
    decreases |run|
  {
    if run != [] {
      BaseKept(s, run[0].step, run[0].now);
      DataKept(s, run[0].step, run[0].now);
      NoRepeatsKept(s, run[0].step, run[0].now);
      RunKeepsData(Apply(s, run[0].step, run[0].now), run[1..]);
    }
  }

  /** Equal packets at two places of the log would put one nonce twice under their key. */
  lemma {:induction false} DistinctNoncesDistinctPackets(delivered: seq<Packet>, i: nat, j: nat)
    requires i < j < |delivered| && Distinct(NoncesUnder(delivered, delivered[i].key))
    ensures delivered[i] != delivered[j]
  {
    var n := |delivered| - 1;
    var under := NoncesUnder(delivered, delivered[i].key);
    var rest := NoncesUnder(delivered[..n], delivered[i].key);
    assert Distinct(rest) by {
      assert forall a :: 0 <= a < |rest| ==> rest[a] == under[a];
    }
    if j == n {
      UnderHas(delivered[..n], delivered[i]);
      if delivered[n].key == delivered[i].key {
        assert under == rest + [delivered[n].nonce];
        var a :| 0 <= a < |rest| && rest[a] == delivered[i].nonce;
        assert under[a] != under[|rest|];
      }
    } else {
      DistinctNoncesDistinctPackets(delivered[..n], i, j);
    }
  }

  /** Main result: in every run, with or without discipline, whatever the network replays and
      reorders, all delivered packets are packets the device sent; and under every key that carried no
      more than 4096 of them, none was delivered twice. */
  lemma NothingDeliveredTwice(flavour: Flavour, run: seq<Event>)
    requires IsRun(Start(flavour), run)
    ensures var log := After(Start(flavour), run).delivered;
            && (forall p | p in log :: p in After(Start(flavour), run).packets)
            && forall i, j | 0 <= i < j < |log| && |NoncesUnder(log, log[i].key)| <= MAX_SEEN_NONCES :: log[i] != log[j]
  {
    StartOk(flavour);
    RunKeepsData(Start(flavour), run);
    var log := After(Start(flavour), run).delivered;
    forall i, j | 0 <= i < j < |log| && |NoncesUnder(log, log[i].key)| <= MAX_SEEN_NONCES
      ensures log[i] != log[j]
    {
      DistinctNoncesDistinctPackets(log, i, j);
    }
  }

  /** Main result: for a genuine packet under the gateway's current key, the replay window refuses
      it exactly when it is among the last 4096 delivered under that key. So a packet that arrives
      for the first time is never taken for a replay, and one that has left the window is accepted
      again. */
  lemma WindowRefusesExactlyRecent(flavour: Flavour, run: seq<Event>, packet: Packet)
    requires IsRun(Start(flavour), run)
    requires var s := After(Start(flavour), run);
             s.gateway.Some? && packet in s.packets && packet.key == s.gateway.value.key
    ensures var s := After(Start(flavour), run);
            var accepted := ReceiveData(s.gateway.value, packet.nonce, packet).Some?;
            && (!accepted <==> packet.nonce in Last(NoncesUnder(s.delivered, packet.key), MAX_SEEN_NONCES))
            && (packet !in s.delivered ==> accepted)
  {
    StartOk(flavour);
    RunKeepsData(Start(flavour), run);
    var s := After(Start(flavour), run);
    assert SentOk(s, packet);
    var all := NoncesUnder(s.delivered, packet.key);
    if packet !in s.delivered && packet.nonce in Last(all, MAX_SEEN_NONCES) {
      assert packet.nonce in all;
      var twin := UnderComesFrom(s.delivered, packet.key, packet.nonce);
      assert false;
    }
  }
}
