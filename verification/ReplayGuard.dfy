/** The handshake replay guard: two generations of remembered nonces, the older one thrown away
    whole every half TTL, measured against guards that remember for an exact time. */
module ReplayGuards {
  import opened Bytes

  datatype NonceKey = NonceKey(deviceID: Bytes, nonce: Bytes)

  /** Five minutes, in nanoseconds. */
  const DEFAULT_NONCE_TTL := 300_000_000_000

  datatype GuardState = GuardState(
    current: map<NonceKey, int>,
    previous: map<NonceKey, int>,
    rotated: int,
    ttl: int)
  {
    function RotateIfDue(now: int): GuardState {
      if now - rotated < ttl / 2 then this else GuardState(map[], current, now, ttl)
    }

    predicate Remembers(key: NonceKey, now: int) {
      || (key in current && now - current[key] < ttl)
      || (key in previous && now - previous[key] < ttl)
    }

    /** The state after a check and whether the nonce was admitted. */
    function Check(key: NonceKey, now: int): (GuardState, bool) {
      var g := RotateIfDue(now);
      if g.Remembers(key, now) then (g, false) else (g.(current := g.current[key := now]), true)
    }
  }

  function NewGuard(ttl: int, now: int): GuardState {
    GuardState(map[], map[], now, if ttl <= 0 then DEFAULT_NONCE_TTL else ttl)
  }

  class ReplayGuard {
    var current: map<NonceKey, int>
    var previous: map<NonceKey, int>
    var rotated: int
    const ttl: int

    function State(): GuardState
      reads this
    {
      GuardState(current, previous, rotated, ttl)
    }

    constructor (ttl: int, now: int)
      ensures State() == NewGuard(ttl, now)
    {
      this.ttl := if ttl <= 0 then DEFAULT_NONCE_TTL else ttl;
      current, previous, rotated := map[], map[], now;
    }

    method RotateIfDue(now: int)
      modifies this
      ensures State() == old(State()).RotateIfDue(now)
    {
      if now - rotated < ttl / 2 {
        return;
      }
      previous := current;
      current := map[];
      rotated := now;
    }

    method CheckAndRemember(deviceID: Bytes, nonce: Bytes, now: int) returns (admitted: bool)
      modifies this
      ensures (State(), admitted) == old(State()).Check(NonceKey(deviceID, nonce), now)
    {
      RotateIfDue(now);
      var key := NonceKey(deviceID, nonce);
      if key in current {
        var seenAt := current[key];
        if now - seenAt < ttl {
          return false;
        }
      }
      if key in previous {
        var seenAt := previous[key];
        if now - seenAt < ttl {
          return false;
        }
      }
      current := current[key := now];
      return true;
    }
  }

  datatype Call = Call(key: NonceKey, now: int)

  function After(g: GuardState, calls: seq<Call>): GuardState {
    if calls == [] then g else
      var n := |calls| - 1;
      After(g, calls[..n]).Check(calls[n].key, calls[n].now).0
  }

  predicate Admitted(g: GuardState, calls: seq<Call>, i: nat)
    requires i < |calls|
  {
    After(g, calls[..i]).Check(calls[i].key, calls[i].now).1
  }

  /** The clock does not run backwards. */
  ghost predicate Monotone(start: int, calls: seq<Call>) {
    && (forall i :: 0 <= i < |calls| ==> start <= calls[i].now)
    && (forall i, j :: 0 <= i < j < |calls| ==> calls[i].now <= calls[j].now)
  }

  /** Call j admitted the key of call i, less than span before it. */
  ghost predicate Recent(g: GuardState, calls: seq<Call>, j: nat, i: nat, span: int)
    requires j < i < |calls|
  {
    Admitted(g, calls, j) && calls[j].key == calls[i].key && calls[i].now - calls[j].now < span
  }

  /** An admission is still on record, at its own time or later, unless half a TTL has passed. */
  ghost predicate OnRecord(g: GuardState, key: NonceKey, at: int) {
    || (key in g.current && g.current[key] >= at)
    || (key in g.previous && g.previous[key] >= at)
    || g.rotated >= at + g.ttl / 2
  }

  /** What is on record is an admission that took place. */
  ghost predicate Genuine(start: GuardState, calls: seq<Call>, key: NonceKey, at: int) {
    exists j :: 0 <= j < |calls| && calls[j] == Call(key, at) && Admitted(start, calls, j)
  }

  ghost predicate RecordsOk(start: GuardState, calls: seq<Call>, g: GuardState, k: NonceKey) {
    && (k in g.current ==> Genuine(start, calls, k, g.current[k]))
    && (k in g.previous ==> Genuine(start, calls, k, g.previous[k]) && g.previous[k] <= g.rotated)
  }

  ghost predicate AdmissionsOk(start: GuardState, calls: seq<Call>, g: GuardState) {
    forall j {:trigger Admitted(start, calls, j)} | 0 <= j < |calls| && Admitted(start, calls, j) ::
      OnRecord(g, calls[j].key, calls[j].now)
  }

  ghost predicate RotationOk(start: GuardState, calls: seq<Call>, g: GuardState) {
    g.ttl == start.ttl && (g.rotated == start.rotated || exists j :: 0 <= j < |calls| && calls[j].now == g.rotated)
  }

  ghost predicate GuardInv(start: GuardState, calls: seq<Call>) {
    var g := After(start, calls);
    && RotationOk(start, calls, g)
    && (forall k: NonceKey :: RecordsOk(start, calls, g, k))
    && AdmissionsOk(start, calls, g)
  }

  lemma AdmittedPrefix(g: GuardState, calls: seq<Call>, n: nat, j: nat)
    requires j < n <= |calls|
    ensures Admitted(g, calls[..n], j) == Admitted(g, calls, j)
  {
    assert calls[..n][..j] == calls[..j];
  }

  lemma {:induction false} InvHolds(start: GuardState, calls: seq<Call>)
    requires start.current == map[] && start.previous == map[] && start.ttl > 0
    requires Monotone(start.rotated, calls)
    ensures GuardInv(start, calls)
  {
    if calls != [] {
      var n := |calls| - 1;
      InvHolds(start, calls[..n]);
      StepKeepsInv(start, calls, After(start, calls[..n]));
    }
  }

  lemma GenuineKept(start: GuardState, calls: seq<Call>, k: NonceKey, at: int)
    requires calls != [] && Genuine(start, calls[..|calls| - 1], k, at)
    ensures Genuine(start, calls, k, at)
    ensures Monotone(start.rotated, calls) ==> at <= calls[|calls| - 1].now
  {
    var n := |calls| - 1;
    var j :| 0 <= j < n && calls[..n][j] == Call(k, at) && Admitted(start, calls[..n], j);
    AdmittedPrefix(start, calls, n, j);
    assert calls[j] == Call(k, at);
  }

  /** Nothing on record is later than now. */
  ghost predicate InThePast(g: GuardState, now: int) {
    && g.rotated <= now
    && (forall k | k in g.current :: g.current[k] <= now)
    && (forall k | k in g.previous :: g.previous[k] <= g.rotated)
  }

  lemma OnRecordKept(g: GuardState, call: Call, key: NonceKey, at: int)
    requires g.ttl > 0 && OnRecord(g, key, at) && at <= call.now && InThePast(g, call.now)
    ensures OnRecord(g.Check(call.key, call.now).0, key, at)
  {
  }

  /** Where the records of a key come from in one check. */
  lemma CheckOnRecords(g: GuardState, call: Call, k: NonceKey)
    ensures var (t, admitted) := g.Check(call.key, call.now);
            && (k in t.current ==>
                  || (k in g.current && t.current[k] == g.current[k])
                  || (k == call.key && admitted && t.current[k] == call.now))
            && (k in t.previous ==>
                  || (k in g.previous && t.previous[k] == g.previous[k] && t.rotated == g.rotated)
                  || (k in g.current && t.previous[k] == g.current[k] && t.rotated == call.now))
  {
  }

  /** Every record, new or kept, is that of an admission. */
  lemma RecordsStayGenuine(start: GuardState, calls: seq<Call>, g: GuardState, k: NonceKey)
    requires Monotone(start.rotated, calls) && calls != [] && g == After(start, calls[..|calls| - 1])
    requires RecordsOk(start, calls[..|calls| - 1], g, k)
    ensures RecordsOk(start, calls, g.Check(calls[|calls| - 1].key, calls[|calls| - 1].now).0, k)
    ensures k in g.current ==> g.current[k] <= calls[|calls| - 1].now
  {
    var n := |calls| - 1;
    CheckOnRecords(g, calls[n], k);
    if k in g.current {
      GenuineKept(start, calls, k, g.current[k]);
    }
    if k in g.previous {
      GenuineKept(start, calls, k, g.previous[k]);
    }
    if k == calls[n].key && g.Check(k, calls[n].now).1 {
      LastIsGenuine(start, calls);
    }
  }

  lemma LastIsGenuine(start: GuardState, calls: seq<Call>)
    requires calls != [] && Admitted(start, calls, |calls| - 1)
    ensures Genuine(start, calls, calls[|calls| - 1].key, calls[|calls| - 1].now)
  {
    var n := |calls| - 1;
    assert calls[n] == Call(calls[n].key, calls[n].now);
  }

  lemma AdmittedNow(g: GuardState, call: Call)
    requires g.Check(call.key, call.now).1
    ensures OnRecord(g.Check(call.key, call.now).0, call.key, call.now)
  {
  }

  lemma RecordsInThePast(start: GuardState, calls: seq<Call>, g: GuardState)
    requires Monotone(start.rotated, calls) && calls != []
    requires g == After(start, calls[..|calls| - 1]) && GuardInv(start, calls[..|calls| - 1])
    ensures InThePast(g, calls[|calls| - 1].now)
  {
    forall k: NonceKey
      ensures k in g.current ==> g.current[k] <= calls[|calls| - 1].now
      ensures k in g.previous ==> g.previous[k] <= g.rotated
    {
      assert RecordsOk(start, calls[..|calls| - 1], g, k);
      RecordsStayGenuine(start, calls, g, k);
    }
  }

  ghost predicate NoneLater(calls: seq<Call>, now: int) {
    forall j | 0 <= j < |calls| :: calls[j].now <= now
  }

  lemma AdmissionStays(start: GuardState, before: seq<Call>, call: Call, g: GuardState, j: nat)
    requires g == After(start, before) && g.ttl > 0
    requires NoneLater(before, call.now) && InThePast(g, call.now)
    requires AdmissionsOk(start, before, g)
    requires j < |before| && Admitted(start, before, j)
    ensures OnRecord(g.Check(call.key, call.now).0, before[j].key, before[j].now)
  {
    assert OnRecord(g, before[j].key, before[j].now);
    OnRecordKept(g, call, before[j].key, before[j].now);
  }

  lemma AdmissionsKept(start: GuardState, before: seq<Call>, call: Call, g: GuardState)
    requires g == After(start, before) && g.ttl > 0
    requires NoneLater(before, call.now) && InThePast(g, call.now)
    requires AdmissionsOk(start, before, g)
    ensures AdmissionsOk(start, before + [call], g.Check(call.key, call.now).0)
  {
    var calls := before + [call];
    forall j | 0 <= j < |calls| && Admitted(start, calls, j)
      ensures OnRecord(g.Check(call.key, call.now).0, calls[j].key, calls[j].now)
    {
      if j < |before| {
        assert calls[..j] == before[..j];
        AdmissionStays(start, before, call, g, j);
      } else {
        assert calls[..j] == before;
        AdmittedNow(g, call);
      }
    }
  }

  lemma RotationKept(start: GuardState, calls: seq<Call>, g: GuardState)
    requires calls != [] && RotationOk(start, calls[..|calls| - 1], g)
    ensures RotationOk(start, calls, g.Check(calls[|calls| - 1].key, calls[|calls| - 1].now).0)
  {
    var n := |calls| - 1;
    var t := g.Check(calls[n].key, calls[n].now).0;
    if t.rotated == g.rotated && t.rotated != start.rotated {
      var j :| 0 <= j < n && calls[..n][j].now == g.rotated;
      assert calls[j].now == t.rotated;
    } else {
      assert t.rotated == g.rotated || calls[n].now == t.rotated;
    }
  }

  lemma StepKeepsInv(start: GuardState, calls: seq<Call>, g: GuardState)
    requires start.ttl > 0 && Monotone(start.rotated, calls)
    requires calls != [] && g == After(start, calls[..|calls| - 1]) && GuardInv(start, calls[..|calls| - 1])
    ensures GuardInv(start, calls)
  {
    var n := |calls| - 1;
    RotationKept(start, calls, g);
    RecordsInThePast(start, calls, g);
    assert calls == calls[..n] + [calls[n]];
    assert NoneLater(calls[..n], calls[n].now);
    AdmissionsKept(start, calls[..n], calls[n], g);
    forall k: NonceKey
      ensures RecordsOk(start, calls, g.Check(calls[n].key, calls[n].now).0, k)
    {
      assert RecordsOk(start, calls[..n], g, k);
      RecordsStayGenuine(start, calls, g, k);
    }
  }

  lemma AdmissionsApart(start: GuardState, calls: seq<Call>, j: nat, i: nat)
    requires start.current == map[] && start.previous == map[] && start.ttl > 0
    requires Monotone(start.rotated, calls) && j < i < |calls|
    requires calls[j].key == calls[i].key && Admitted(start, calls, j) && Admitted(start, calls, i)
    ensures calls[i].now - calls[j].now >= start.ttl / 2
  {
    InvHolds(start, calls[..i]);
    AdmittedPrefix(start, calls, i, j);
    assert Admitted(start, calls[..i], j);
    assert RecordsOk(start, calls[..i], After(start, calls[..i]), calls[i].key);
    assert OnRecord(After(start, calls[..i]), calls[..i][j].key, calls[..i][j].now);
  }

  /** They can come that close: remembered just before one change of the generations and forgotten at the
      next, a nonce is admitted again after half a TTL and one tick. */
  lemma AdmissionsCanBeClose(ttl: int, a: NonceKey, b: NonceKey)
    requires ttl >= 4 && a != b
    ensures var half := ttl / 2;
            var calls := [Call(a, half - 1), Call(b, half), Call(a, 2 * half)];
            && Admitted(NewGuard(ttl, 0), calls, 0) && Admitted(NewGuard(ttl, 0), calls, 2)
            && calls[2].now - calls[0].now == half + 1
  {
    var half := ttl / 2;
    var start := NewGuard(ttl, 0);
    var calls := [Call(a, half - 1), Call(b, half), Call(a, 2 * half)];
    assert calls[..0] == [];
    assert calls[..1] == [Call(a, half - 1)] && calls[..1][..0] == [];
    assert After(start, calls[..1]) == GuardState(map[a := half - 1], map[], 0, ttl);
    assert calls[..2][..1] == calls[..1] && calls[..2][1] == Call(b, half);
    assert After(start, calls[..2]) == GuardState(map[b := half], map[a := half - 1], half, ttl);
  }

  lemma RefusalJustified(start: GuardState, calls: seq<Call>, i: nat) returns (j: nat)
    requires start.current == map[] && start.previous == map[] && start.ttl > 0
    requires Monotone(start.rotated, calls) && i < |calls| && !Admitted(start, calls, i)
    ensures j < i && Recent(start, calls, j, i, start.ttl)
  {
    InvHolds(start, calls[..i]);
    var g := After(start, calls[..i]).RotateIfDue(calls[i].now);
    var key := calls[i].key;
    var at := if key in g.current && calls[i].now - g.current[key] < g.ttl then g.current[key] else g.previous[key];
    assert RecordsOk(start, calls[..i], After(start, calls[..i]), key);
    assert Genuine(start, calls[..i], key, at);
    j :| 0 <= j < i && calls[..i][j] == Call(key, at) && Admitted(start, calls[..i], j);
    AdmittedPrefix(start, calls, i, j);
  }

  /** Main result: the guard lies between two ideal ones. It refuses whatever was admitted less
      than half a TTL ago, and refuses nothing but what was admitted less than a TTL ago; so
      admissions of one pair are at least half a TTL apart. */
  lemma BetweenIdealGuards(ttl: int, began: int, calls: seq<Call>, i: nat)
    requires Monotone(began, calls) && i < |calls|
    ensures var start := NewGuard(ttl, began);
            && ((exists j :: 0 <= j < i && Recent(start, calls, j, i, start.ttl / 2)) ==> !Admitted(start, calls, i))
            && (!Admitted(start, calls, i) ==> exists j :: 0 <= j < i && Recent(start, calls, j, i, start.ttl))
  {
    var start := NewGuard(ttl, began);
    if Admitted(start, calls, i) {
      forall j | 0 <= j < i && Admitted(start, calls, j) && calls[j].key == calls[i].key
        ensures !Recent(start, calls, j, i, start.ttl / 2)
      {
        AdmissionsApart(start, calls, j, i);
      }
    } else {
      var j := RefusalJustified(start, calls, i);
    }
  }

  ghost predicate Disjoint(g: GuardState) {
    g.current.Keys !! g.previous.Keys
  }

  /** The two generations stay disjoint through a check exactly unless it admits a nonce that has
      expired in the older generation without having left it. */
  lemma WhenGenerationsOverlap(g: GuardState, key: NonceKey, now: int)
    requires Disjoint(g)
    ensures var r := g.RotateIfDue(now);
            Disjoint(g.Check(key, now).0) <==> !(key in r.previous && now - r.previous[key] >= r.ttl)
  {
    var r := g.RotateIfDue(now);
    if key in r.previous && now - r.previous[key] >= r.ttl {
      assert key in g.Check(key, now).0.current;
    }
  }

  /** It happens: a nonce of time 0, moved to the older generation at time 8, comes back at 10. */
  lemma GenerationsCanOverlap(a: NonceKey, b: NonceKey)
    requires a != b
    ensures !Disjoint(After(NewGuard(10, 0), [Call(a, 0), Call(b, 8), Call(a, 10)]))
  {
    var calls := [Call(a, 0), Call(b, 8), Call(a, 10)];
    assert calls[..2][..1] == [Call(a, 0)] && calls[..2] == [Call(a, 0), Call(b, 8)];
    assert [Call(a, 0)][..0] == [];
    var g := After(NewGuard(10, 0), calls[..2]);
    assert After(NewGuard(10, 0), [Call(a, 0)]).current == map[a := 0];
    assert g.previous == map[a := 0] && g.rotated == 8;
    assert a in After(NewGuard(10, 0), calls).current;
  }
}
