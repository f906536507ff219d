/** How often the gateway rotates: a key is due exactly by its own age and its own packets, over every
    run, so a completed rotation is not followed by another until one of the two is used up. */
module ScheduledRates {
  import Bytes
  import opened Options
  import opened Terms
  import opened Sessions
  import opened Protocol
  import opened Agreement
  import opened Runs
  import opened ScheduledRuns

  /** Whichever side a frame has rotated, as responder or by the acknowledgement, its new key is not due
      until the interval has passed or packets have used it up. */
  lemma RotatedIsNotDue(s: SessionState, me: Party, frame: Frame, now: int, limits: Limits, later: int)
    requires Receive(s, me, frame, now).0.key != s.key
    requires limits.packets > 0 && later - now < limits.interval
    ensures !Receive(s, me, frame, now).0.NeedsRotation(limits, later)
    ensures Receive(s, me, frame, now).0.NeedsRotation(limits, now + limits.interval)
  {
  }

  /** Since when the gateway has had its key, and how many packets it has accepted under it. */
  datatype Age = Age(since: int, packets: nat)

  ghost function Older(s: System, e: Event, age: Option<Age>): Option<Age>
    requires Enabled(s, e.step)
  {
    var t := Apply(s, e.step, e.now);
    if t.gateway.None? then None
    else if s.gateway.None? || t.gateway.value.key != s.gateway.value.key then Some(Age(e.now, 0))
    else if age.Some? && |t.delivered| > |s.delivered| then Some(age.value.(packets := age.value.packets + 1))
    else age
  }

  ghost function KeyAge(s: System, run: seq<Event>, age: Option<Age>): Option<Age>
    requires IsRun(s, run)
    decreases |run|
  {
    if run == [] then age
    else KeyAge(Apply(s, run[0].step, run[0].now), run[1..], Older(s, run[0], age))
  }

  ghost predicate AgeOk(s: System, age: Option<Age>) {
    match age
    case None => s.gateway.None?
    case Some(a) =>
      s.gateway.Some? && s.gateway.value.lastRotatedAt == a.since && s.gateway.value.packetCount == a.packets
  }

  lemma ReceivedAge(g: SessionState, frame: Frame, now: int)
    requires Sound(g)
    ensures var t := Receive(g, Gateway, frame, now).0;
            && t.lastRotatedAt == (if t.key != g.key then now else g.lastRotatedAt)
            && t.packetCount == if t.key != g.key then 0 else g.packetCount
  {
  }

  lemma DataAge(s: System, nonce: Bytes.Bytes, packet: Packet, now: int, age: Option<Age>)
    requires AgeOk(s, age) && Enabled(s, DeliverData(nonce, packet))
    ensures AgeOk(Apply(s, DeliverData(nonce, packet), now), Older(s, Event(DeliverData(nonce, packet), now), age))
  {
  }

  lemma FinalizeAge(s: System, signature: Key, now: int, age: Option<Age>)
    requires Base(s) && AgeOk(s, age)
    ensures AgeOk(Apply(s, FinalizeHandshake(signature), now), Older(s, Event(FinalizeHandshake(signature), now), age))
  {
  }

  lemma AgeKept(s: System, e: Event, age: Option<Age>)
    requires Base(s) && AgeOk(s, age) && Enabled(s, e.step)
    ensures AgeOk(Apply(s, e.step, e.now), Older(s, e, age))
  {
    match e.step
    case DeliverData(nonce, packet) => DataAge(s, nonce, packet, e.now, age);
    case FinalizeHandshake(signature) => FinalizeAge(s, signature, e.now, age);
    case Deliver(to, frame) =>
      if to == Gateway { ReceivedAge(s.gateway.value, frame, e.now); }
    case _ =>
  }

  lemma {:induction false} AgeHolds(s: System, run: seq<Event>, age: Option<Age>)
    requires Base(s) && AgeOk(s, age) && IsRun(s, run)
    ensures Base(After(s, run)) && AgeOk(After(s, run), KeyAge(s, run, age))
    decreases |run|
  {
    if run != [] {
      BaseKept(s, run[0].step, run[0].now);
      AgeKept(s, run[0], age);
      AgeHolds(Apply(s, run[0].step, run[0].now), run[1..], Older(s, run[0], age));
    }
  }

  ghost predicate UsedUp(age: Option<Age>, limits: Limits, now: int) {
    age.Some? && (age.value.packets >= limits.packets || now - age.value.since >= limits.interval)
  }

  /** Main result: after any run, rotations at either side, rollbacks and handshakes included, the gateway's
      key is due exactly if it has carried its packets or has been in force for the interval. */
  lemma DueExactly(flavour: Flavour, run: seq<Event>, limits: Limits, now: int)
    requires IsRun(Start(flavour), run)
    ensures DueIn(After(Start(flavour), run), limits, now) <==> UsedUp(KeyAge(Start(flavour), run, None), limits, now)
  {
    StartOk(flavour);
    AgeHolds(Start(flavour), run, None);
    var s := After(Start(flavour), run);
    assert s.gateway.Some? ==> Sound(s.gateway.value);
  }

  /** Main result: over all interleavings, the scheduler decides to begin a rotation exactly if the key it
      finds is used up; in particular never within the interval of the last commit or handshake, as
      long as fewer packets than the limit have come in since. */
  lemma BeginsExactlyWhenUsedUp(flavour: Flavour, limits: Limits, acts: seq<Act>, now: int)
    requires IsPlay(Opening(flavour), limits, acts)
    requires Possible(Ending(Opening(flavour), limits, acts), Decide(now))
    ensures IsRun(Start(flavour), Run(Opening(flavour), limits, acts))
    ensures ScheduledRuns.Next(Ending(Opening(flavour), limits, acts), limits, Decide(now)).point.Beginning?
            <==> UsedUp(KeyAge(Start(flavour), Run(Opening(flavour), limits, acts), None), limits, now)
  {
    PlayIsRun(Opening(flavour), limits, acts);
    DueExactly(flavour, Run(Opening(flavour), limits, acts), limits, now);
  }
}
