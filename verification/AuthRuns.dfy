/** How many wrong tokens the limiter lets through, for every interleaving of requests from any
    addresses, and how long it blocks. */
module AuthRuns {
  import opened Options
  import opened AuthLimiters

  /** A request first asks whether its address is blocked; if not, it stays in flight until its
      token is found right or wrong. */
  datatype Event =
    | Ask(ip: Address, now: int)
    | Right(ip: Address, now: int)
    | Wrong(ip: Address, now: int)

  datatype World = World(fails: Fails, inFlight: map<Address, nat>) {
    function Flying(ip: Address): nat {
      if ip in inFlight then inFlight[ip] else 0
    }
  }

  const START := World(map[], map[])

  predicate Enabled(w: World, e: Event) {
    e.Ask? || w.Flying(e.ip) > 0
  }

  function Next(cfg: Config, w: World, e: Event): World
    requires Enabled(w, e)
  {
    match e
    case Ask(ip, now) =>
      var (fails, wait) := Asked(cfg, w.fails, ip, now);
      World(fails, if wait.Some? then w.inFlight else w.inFlight[ip := w.Flying(ip) + 1])
    case Right(ip, _) => w.(inFlight := w.inFlight[ip := w.Flying(ip) - 1])
    case Wrong(ip, now) => World(Failed(cfg, w.fails, ip, now), w.inFlight[ip := w.Flying(ip) - 1])
  }

  /** None when the events cannot happen in this order. */
  function After(cfg: Config, run: seq<Event>): Option<World> {
    if run == [] then Some(START) else
      var w := After(cfg, run[..|run| - 1]);
      if w.Some? && Enabled(w.value, run[|run| - 1]) then Some(Next(cfg, w.value, run[|run| - 1])) else None
  }

  /** A run under a clock that does not run backwards, with at most k requests of the address in
      flight at any time. */
  ghost predicate IsRun(cfg: Config, run: seq<Event>, ip: Address, k: nat) {
    run != [] ==>
      var n := |run| - 1;
      && IsRun(cfg, run[..n], ip, k)
      && (n > 0 ==> run[n - 1].now <= run[n].now)
      && After(cfg, run).Some? && After(cfg, run).value.Flying(ip) <= k
  }

  /** The times at which wrong tokens of the address were counted. */
  function WrongTimes(run: seq<Event>, ip: Address): seq<int> {
    if run == [] then [] else
      var e := run[|run| - 1];
      WrongTimes(run[..|run| - 1], ip) + if e.Wrong? && e.ip == ip then [e.now] else []
  }

  /** How many of the times lie in the half-open interval. */
  function CountIn(times: seq<int>, from: int, to: int): nat {
    if times == [] then 0 else
      CountIn(times[..|times| - 1], from, to) + if from <= times[|times| - 1] < to then 1 else 0
  }

  function Max(a: int, b: int): int {
    if a < b then b else a
  }

  /** The times split into windows: starts holds the index of the first failure of each. */
  ghost predicate Windows(times: seq<int>, starts: seq<int>, window: int, most: int) {
    && (starts == [] <==> times == [])
    && (starts != [] ==> starts[0] == 0)
    && forall i | 0 <= i < |starts| :: WindowOk(times, starts, window, most, i)
  }

  function End(times: seq<int>, starts: seq<int>, i: int): int
    requires 0 <= i < |starts|
  {
    if i + 1 < |starts| then starts[i + 1] else |times|
  }

  /** A window lasts its time, holds at most so many failures and is over when the next begins. */
  ghost predicate WindowOk(times: seq<int>, starts: seq<int>, window: int, most: int, i: int)
    requires 0 <= i < |starts|
  {
    && 0 <= starts[i] < End(times, starts, i) <= |times|
    && End(times, starts, i) <= starts[i] + most
    && (forall j | starts[i] <= j < End(times, starts, i) :: times[j] < times[starts[i]] + window)
    && (i + 1 < |starts| && starts[i + 1] < |times| ==> times[starts[i + 1]] >= times[starts[i]] + window)
  }

  ghost predicate Sorted(times: seq<int>) {
    forall i, j | 0 <= i < j < |times| :: times[i] <= times[j]
  }

  /** The window that failure j belongs to. */
  lemma {:induction false} WindowOf(times: seq<int>, starts: seq<int>, window: int, most: int, j: nat, upTo: nat)
    returns (i: nat)
    requires Windows(times, starts, window, most) && j < |times|
    requires upTo < |starts| && j < End(times, starts, upTo)
    ensures i < |starts| && starts[i] <= j < End(times, starts, i)
  {
    if starts[upTo] <= j {
      i := upTo;
    } else {
      i := WindowOf(times, starts, window, most, j, upTo - 1);
    }
  }

  /** A failure less than a window after another falls in its window or the next one. */
  lemma NotTwoWindowsOn(times: seq<int>, starts: seq<int>, window: int, most: int, a: nat, b: nat, i: nat)
    requires Windows(times, starts, window, most) && Sorted(times)
    requires a <= b < |times| && times[b] < times[a] + window
    requires i + 1 < |starts| && starts[i] <= a < starts[i + 1]
    ensures b < End(times, starts, i + 1)
  {
    assert WindowOk(times, starts, window, most, i) && WindowOk(times, starts, window, most, i + 1);
    if i + 2 < |starts| {
      assert WindowOk(times, starts, window, most, i + 2);
      assert times[starts[i + 2]] > times[b];
    }
  }

  /** Two failures less than a window apart lie in the same window or in neighbouring ones, and
      then fewer than twice the most of one lie from the one to the other. */
  lemma CloseFailuresAreFew(times: seq<int>, starts: seq<int>, window: int, most: int, a: nat, b: nat)
    requires Windows(times, starts, window, most) && Sorted(times)
    requires a <= b < |times| && times[b] < times[a] + window
    ensures b - a + 1 <= 2 * most - 1
  {
    var i := WindowOf(times, starts, window, most, a, |starts| - 1);
    assert WindowOk(times, starts, window, most, i);
    if i + 1 < |starts| && starts[i + 1] <= b {
      assert WindowOk(times, starts, window, most, i + 1);
      assert times[starts[i + 1]] <= times[b];
      NotTwoWindowsOn(times, starts, window, most, a, b, i);
    }
  }

  /** Any times counted in an interval span two of them. */
  lemma {:induction false} CountedSpan(times: seq<int>, from: int, to: int) returns (a: int, b: int)
    ensures CountIn(times, from, to) > 0 ==>
              0 <= a <= b < |times| && from <= times[a] && times[b] < to
              && from <= times[b] && times[a] < to && b - a + 1 >= CountIn(times, from, to)
  {
    a, b := 0, 0;
    if times != [] {
      var n := |times| - 1;
      a, b := CountedSpan(times[..n], from, to);
      if from <= times[n] < to {
        b := n;
        if CountIn(times[..n], from, to) == 0 {
          a := n;
        }
      }
    }
  }

  /** The first failure of the latest window. */
  function Last(starts: seq<int>): int {
    if starts == [] then 0 else starts[|starts| - 1]
  }

  function Opened(times: seq<int>, starts: seq<int>): int {
    if 0 <= Last(starts) < |times| then times[Last(starts)] else 0
  }

  lemma WindowGrows(times: seq<int>, starts: seq<int>, window: int, most: int, t: int)
    requires Windows(times, starts, window, most) && starts != []
    requires t < Opened(times, starts) + window && |times| < Last(starts) + most
    ensures Windows(times + [t], starts, window, most)
  {
    forall i | 0 <= i < |starts|
      ensures WindowOk(times + [t], starts, window, most, i)
    {
      assert WindowOk(times, starts, window, most, i);
      assert i + 1 < |starts| ==> WindowOk(times, starts, window, most, i + 1);
    }
  }

  lemma WindowOpens(times: seq<int>, starts: seq<int>, window: int, most: int, t: int)
    requires Windows(times, starts, window, most) && window > 0 && most >= 1
    requires starts != [] ==> t >= Opened(times, starts) + window
    ensures Windows(times + [t], starts + [|times|], window, most)
  {
    forall i | 0 <= i < |starts| + 1
      ensures WindowOk(times + [t], starts + [|times|], window, most, i)
    {
      assert i < |starts| ==> WindowOk(times, starts, window, most, i);
      assert i + 1 < |starts| ==> WindowOk(times, starts, window, most, i + 1);
    }
  }

  predicate OnRecord(cfg: Config, fails: Fails, ip: Address, now: int) {
    ip in fails && !Expired(cfg, fails[ip], now)
  }

  ghost function Starts(cfg: Config, run: seq<Event>, ip: Address): seq<int> {
    if run == [] then [] else
      var n := |run| - 1;
      var before := Starts(cfg, run[..n], ip);
      var w := After(cfg, run[..n]);
      if run[n].Wrong? && run[n].ip == ip && w.Some? && !OnRecord(cfg, w.value.fails, ip, run[n].now)
      then before + [|WrongTimes(run[..n], ip)|] else before
  }

  /** How many failures one window can hold with k requests in flight. */
  function Most(cfg: Config, k: nat): int {
    Max(cfg.limit, 1) + k - 1
  }

  /** The record of the address is that of its current window, or that window is over. */
  ghost predicate RecordOk(cfg: Config, w: World, ip: Address, k: nat, times: seq<int>, starts: seq<int>, now: int) {
    if ip in w.fails then
      && starts != [] && w.fails[ip] == FailRecord(|times| - Last(starts), Opened(times, starts))
      && (w.fails[ip].count >= cfg.limit ==> w.fails[ip].count + w.Flying(ip) <= Most(cfg, k))
    else starts != [] ==> now >= Opened(times, starts) + cfg.window
  }

  ghost predicate Tracks(cfg: Config, w: World, ip: Address, k: nat, times: seq<int>, starts: seq<int>, now: int) {
    && Windows(times, starts, cfg.window, Most(cfg, k))
    && Sorted(times) && (forall i | 0 <= i < |times| :: times[i] <= now)
    && RecordOk(cfg, w, ip, k, times, starts, now)
  }

  /** An event that counts no failure of the address. */
  lemma QuietKeeps(cfg: Config, w: World, e: Event, ip: Address, k: nat, times: seq<int>, starts: seq<int>, now: int)
    requires Tracks(cfg, w, ip, k, times, starts, now) && now <= e.now
    requires Enabled(w, e) && !(e.Wrong? && e.ip == ip)
    ensures Tracks(cfg, Next(cfg, w, e), ip, k, times, starts, e.now)
  {
  }

  lemma FailureInWindowKeeps(
    cfg: Config, w: World, e: Event, ip: Address, k: nat, times: seq<int>, starts: seq<int>, now: int)
    requires Tracks(cfg, w, ip, k, times, starts, now) && now <= e.now
    requires Enabled(w, e) && e.Wrong? && e.ip == ip && w.Flying(ip) <= k
    requires OnRecord(cfg, w.fails, ip, e.now)
    ensures Tracks(cfg, Next(cfg, w, e), ip, k, times + [e.now], starts, e.now)
  {
    assert WindowOk(times, starts, cfg.window, Most(cfg, k), |starts| - 1);
    WindowGrows(times, starts, cfg.window, Most(cfg, k), e.now);
    assert Opened(times + [e.now], starts) == Opened(times, starts);
  }

  lemma FailureOpensWindow(
    cfg: Config, w: World, e: Event, ip: Address, k: nat, times: seq<int>, starts: seq<int>, now: int)
    requires Tracks(cfg, w, ip, k, times, starts, now) && now <= e.now && cfg.window > 0
    requires Enabled(w, e) && e.Wrong? && e.ip == ip && w.Flying(ip) <= k
    requires !OnRecord(cfg, w.fails, ip, e.now)
    ensures Tracks(cfg, Next(cfg, w, e), ip, k, times + [e.now], starts + [|times|], e.now)
  {
    WindowOpens(times, starts, cfg.window, Most(cfg, k), e.now);
  }

  lemma {:induction false} RunTracks(cfg: Config, run: seq<Event>, ip: Address, k: nat)
    requires IsRun(cfg, run, ip, k) && cfg.window > 0 && run != []
    ensures After(cfg, run).Some?
    ensures Tracks(cfg, After(cfg, run).value, ip, k, WrongTimes(run, ip), Starts(cfg, run, ip), run[|run| - 1].now)
  {
    var n := |run| - 1;
    var e, w := run[n], After(cfg, run[..n]).value;
    var times, starts := WrongTimes(run[..n], ip), Starts(cfg, run[..n], ip);
    var now := if n == 0 then e.now else run[n - 1].now;
    if n > 0 {
      assert run[..n][n - 1] == run[n - 1];
      RunTracks(cfg, run[..n], ip, k);
    }
    assert Tracks(cfg, w, ip, k, times, starts, now);
    if !(e.Wrong? && e.ip == ip) {
      assert WrongTimes(run, ip) == times;
      QuietKeeps(cfg, w, e, ip, k, times, starts, now);
    } else if OnRecord(cfg, w.fails, ip, e.now) {
      FailureInWindowKeeps(cfg, w, e, ip, k, times, starts, now);
    } else {
      FailureOpensWindow(cfg, w, e, ip, k, times, starts, now);
    }
  }

  /** In any half-open interval as long as the window, an address with at most k requests in flight
      gets at most 2 * (limit + k) - 3 wrong tokens evaluated: 2 * limit - 1 one at a time. */
  lemma WrongTokensBounded(cfg: Config, run: seq<Event>, ip: Address, k: nat, from: int)
    requires IsRun(cfg, run, ip, k) && k >= 1
    ensures CountIn(WrongTimes(run, ip), from, from + cfg.window) <= 2 * (Max(cfg.limit, 1) + k) - 3
  {
    var times := WrongTimes(run, ip);
    var a, b := CountedSpan(times, from, from + cfg.window);
    if CountIn(times, from, from + cfg.window) > 0 {
      RunTracks(cfg, run, ip, k);
      CloseFailuresAreFew(times, Starts(cfg, run, ip), cfg.window, Most(cfg, k), a, b);
    }
  }

  ghost predicate BlocksUntil(cfg: Config, fails: Fails, ip: Address, until: int) {
    ip in fails && fails[ip].count >= cfg.limit && fails[ip].since + cfg.window == until
  }

  lemma StaysBlocked(cfg: Config, w: World, e: Event, ip: Address, until: int)
    requires Enabled(w, e) && e.now < until && BlocksUntil(cfg, w.fails, ip, until)
    ensures BlocksUntil(cfg, Next(cfg, w, e).fails, ip, until)
  {
  }

  lemma {:induction false} StaysBlockedUntil(cfg: Config, run: seq<Event>, more: seq<Event>, ip: Address, until: int)
    requires After(cfg, run).Some? && After(cfg, run + more).Some?
    requires BlocksUntil(cfg, After(cfg, run).value.fails, ip, until)
    requires forall e | e in more :: e.now < until
    ensures BlocksUntil(cfg, After(cfg, run + more).value.fails, ip, until)
  {
    if more == [] {
      assert run + more == run;
    } else {
      var n := |more| - 1;
      assert (run + more)[..|run| + n] == run + more[..n];
      assert more[n] in more;
      StaysBlockedUntil(cfg, run, more[..n], ip, until);
      StaysBlocked(cfg, After(cfg, run + more[..n]).value, more[n], ip, until);
    }
  }

  /** A blocked address is refused until the reported time has passed and not longer, whatever
      requests of whatever addresses come in between. */
  lemma WaitUnblocksExactly(
    cfg: Config, run: seq<Event>, more: seq<Event>, ip: Address, now: int, wait: int, later: int)
    requires After(cfg, run).Some? && After(cfg, run + more).Some?
    requires Asked(cfg, After(cfg, run).value.fails, ip, now).1 == Some(wait)
    requires forall e | e in more :: e.now < now + wait
    ensures wait > 0
    ensures Asked(cfg, After(cfg, run + more).value.fails, ip, later).1
            == if later < now + wait then Some(now + wait - later) else None
  {
    StaysBlockedUntil(cfg, run, more, ip, now + wait);
  }

  /** The record that counts now, None if it has expired. */
  function LiveRecord(cfg: Config, fails: Fails, ip: Address, now: int): Option<FailRecord> {
    if OnRecord(cfg, fails, ip, now) then Some(fails[ip]) else None
  }

  /** The record after n more failures at one time. */
  function Counted(record: Option<FailRecord>, n: nat, now: int): Option<FailRecord> {
    if n == 0 then record
    else if record.None? then Some(FailRecord(n, now))
    else Some(record.value.(count := record.value.count + n))
  }

  function Repeat(times: seq<int>, n: nat, t: int): seq<int> {
    if n == 0 then times else Repeat(times, n - 1, t) + [t]
  }

  /** What an address has come to: the requests in flight, its record and its failures so far. */
  datatype Standing = Standing(flying: nat, record: Option<FailRecord>, times: seq<int>)

  /** The run, with at most k requests in flight, ends in this world and standing, not after now. */
  ghost predicate Reaches(cfg: Config, k: nat, run: seq<Event>, ip: Address, now: int, w: World, at: Standing) {
    && IsRun(cfg, run, ip, k) && After(cfg, run) == Some(w) && (run != [] ==> run[|run| - 1].now <= now)
    && at == Standing(w.Flying(ip), LiveRecord(cfg, w.fails, ip, now), WrongTimes(run, ip))
  }

  ghost predicate Reachable(cfg: Config, k: nat, ip: Address, now: int, at: Standing) {
    exists run, w :: Reaches(cfg, k, run, ip, now, w, at)
  }

  lemma RunExtends(cfg: Config, k: nat, run: seq<Event>, ip: Address, w: World, at: Standing, e: Event)
    requires Reaches(cfg, k, run, ip, e.now, w, at) && e.ip == ip && Enabled(w, e) && Next(cfg, w, e).Flying(ip) <= k
    ensures var v := Next(cfg, w, e);
            var times := at.times + if e.Wrong? then [e.now] else [];
            Reaches(cfg, k, run + [e], ip, e.now, v, Standing(v.Flying(ip), LiveRecord(cfg, v.fails, ip, e.now), times))
  {
    assert (run + [e])[..|run|] == run;
  }

  lemma AskOnce(cfg: Config, k: nat, ip: Address, now: int, at: Standing)
    requires Reachable(cfg, k, ip, now, at) && at.flying < k && cfg.window > 0
    requires at.record.Some? ==> at.record.value.count < cfg.limit
    ensures Reachable(cfg, k, ip, now, at.(flying := at.flying + 1))
  {
    var run, w :| Reaches(cfg, k, run, ip, now, w, at);
    RunExtends(cfg, k, run, ip, w, at, Ask(ip, now));
    assert at.times + [] == at.times;
    assert Reaches(cfg, k, run + [Ask(ip, now)], ip, now, Next(cfg, w, Ask(ip, now)), at.(flying := at.flying + 1));
  }

  lemma FailOnce(cfg: Config, k: nat, ip: Address, now: int, at: Standing)
    requires Reachable(cfg, k, ip, now, at) && at.flying > 0 && cfg.window > 0
    ensures Reachable(cfg, k, ip, now, Standing(at.flying - 1, Counted(at.record, 1, now), at.times + [now]))
  {
    var run, w :| Reaches(cfg, k, run, ip, now, w, at);
    RunExtends(cfg, k, run, ip, w, at, Wrong(ip, now));
    var after := Standing(at.flying - 1, Counted(at.record, 1, now), at.times + [now]);
    assert Reaches(cfg, k, run + [Wrong(ip, now)], ip, now, Next(cfg, w, Wrong(ip, now)), after);
  }

  lemma {:induction false} AskMany(cfg: Config, k: nat, ip: Address, now: int, at: Standing, n: nat)
    requires Reachable(cfg, k, ip, now, at) && at.flying + n <= k && cfg.window > 0
    requires at.record.Some? ==> at.record.value.count < cfg.limit
    ensures Reachable(cfg, k, ip, now, at.(flying := at.flying + n))
  {
    if n > 0 {
      AskMany(cfg, k, ip, now, at, n - 1);
      AskOnce(cfg, k, ip, now, at.(flying := at.flying + n - 1));
    }
  }

  lemma {:induction false} FailMany(cfg: Config, k: nat, ip: Address, now: int, at: Standing, n: nat)
    requires Reachable(cfg, k, ip, now, at) && at.flying >= n && cfg.window > 0
    ensures Reachable(cfg, k, ip, now, Standing(at.flying - n, Counted(at.record, n, now), Repeat(at.times, n, now)))
  {
    if n > 0 {
      FailMany(cfg, k, ip, now, at, n - 1);
      FailOnce(cfg, k, ip, now,
               Standing(at.flying - (n - 1), Counted(at.record, n - 1, now), Repeat(at.times, n - 1, now)));
    }
  }

  /** One request after the other, each answered before the next one comes. */
  lemma {:induction false} AttemptMany(cfg: Config, k: nat, ip: Address, now: int, at: Standing, n: nat)
    requires Reachable(cfg, k, ip, now, at) && at.flying < k && cfg.window > 0
    requires at.record.Some? && at.record.value.count + n <= cfg.limit
    ensures Reachable(cfg, k, ip, now, Standing(at.flying, Counted(at.record, n, now), Repeat(at.times, n, now)))
  {
    if n > 0 {
      AttemptMany(cfg, k, ip, now, at, n - 1);
      var before := Standing(at.flying, Counted(at.record, n - 1, now), Repeat(at.times, n - 1, now));
      AskOnce(cfg, k, ip, now, before);
      FailOnce(cfg, k, ip, now, before.(flying := before.flying + 1));
    }
  }

  /** As time goes by the record stays or expires. */
  lemma Later(cfg: Config, k: nat, ip: Address, now: int, at: Standing, later: int)
    requires Reachable(cfg, k, ip, now, at) && now <= later && at.record.Some?
    ensures Reachable(cfg, k, ip, later,
                      at.(record := if later - at.record.value.since < cfg.window then at.record else None))
  {
    var run, w :| Reaches(cfg, k, run, ip, now, w, at);
    assert Reaches(cfg, k, run, ip, later, w,
                   at.(record := if later - at.record.value.since < cfg.window then at.record else None));
  }

  /** The failures of a window that holds a + b + 1 of them, all but the first at its later time. */
  function Filled(times: seq<int>, begun: int, later: int, a: nat, b: nat): seq<int> {
    Repeat(Repeat(times + [begun], a, later), b, later)
  }

  lemma OpenWindow(cfg: Config, k: nat, ip: Address, begun: int, times: seq<int>)
    requires Reachable(cfg, k, ip, begun, Standing(0, None, times)) && k >= 1 && cfg.window > 0
    ensures Reachable(cfg, k, ip, begun, Standing(k - 1, Some(FailRecord(1, begun)), times + [begun]))
  {
    AskMany(cfg, k, ip, begun, Standing(0, None, times), k);
    FailOnce(cfg, k, ip, begun, Standing(k, None, times));
  }

  lemma FillWindow(cfg: Config, k: nat, ip: Address, begun: int, later: int, times: seq<int>)
    requires cfg.limit >= 1 && k >= 1 && cfg.window > 0
    requires Reachable(cfg, k, ip, later, Standing(k - 1, Some(FailRecord(1, begun)), times + [begun]))
    ensures Reachable(cfg, k, ip, later, Standing(0, Some(FailRecord(cfg.limit + k - 1, begun)),
                                                  Filled(times, begun, later, cfg.limit - 1, k - 1)))
  {
    var one := Standing(k - 1, Some(FailRecord(1, begun)), times + [begun]);
    AttemptMany(cfg, k, ip, later, one, cfg.limit - 1);
    assert Counted(one.record, cfg.limit - 1, later) == Some(FailRecord(cfg.limit, begun));
    var full := Standing(k - 1, Some(FailRecord(cfg.limit, begun)), Repeat(one.times, cfg.limit - 1, later));
    FailMany(cfg, k, ip, later, full, k - 1);
    assert Counted(full.record, k - 1, later) == Some(FailRecord(cfg.limit + k - 1, begun));
  }

  /** A window filled to the brim: k requests get past the check, one fails and opens the window; later
      in it, one after the other, as many more fail as the limit allows, and then the ones in flight. */
  lemma FullWindow(cfg: Config, k: nat, ip: Address, begun: int, later: int, times: seq<int>)
    requires Reachable(cfg, k, ip, begun, Standing(0, None, times))
    requires cfg.limit >= 1 && k >= 1 && begun <= later < begun + cfg.window
    ensures Reachable(cfg, k, ip, later, Standing(0, Some(FailRecord(cfg.limit + k - 1, begun)),
                                                  Filled(times, begun, later, cfg.limit - 1, k - 1)))
  {
    OpenWindow(cfg, k, ip, begun, times);
    Later(cfg, k, ip, begun, Standing(k - 1, Some(FailRecord(1, begun)), times + [begun]), later);
    FillWindow(cfg, k, ip, begun, later, times);
  }

  lemma CountOneMore(times: seq<int>, t: int, from: int, to: int)
    ensures CountIn(times + [t], from, to) == CountIn(times, from, to) + if from <= t < to then 1 else 0
  {
    assert (times + [t])[..|times|] == times;
  }

  lemma {:induction false} CountRepeated(times: seq<int>, n: nat, t: int, from: int, to: int)
    ensures CountIn(Repeat(times, n, t), from, to) == CountIn(times, from, to) + if from <= t < to then n else 0
  {
    if n > 0 {
      CountRepeated(times, n - 1, t, from, to);
      CountOneMore(Repeat(times, n - 1, t), t, from, to);
    }
  }

  /** How many of the failures of a full window lie in an interval with its later part. */
  lemma FullCount(times: seq<int>, begun: int, later: int, a: nat, b: nat, from: int, to: int)
    requires from <= later < to
    ensures CountIn(Filled(times, begun, later, a, b), from, to)
            == CountIn(times, from, to) + (if from <= begun < to then 1 else 0) + a + b
  {
    CountOneMore(times, begun, from, to);
    CountRepeated(times + [begun], a, later, from, to);
    CountRepeated(Repeat(times + [begun], a, later), b, later, from, to);
  }

  lemma NothingYet(cfg: Config, k: nat, ip: Address)
    ensures Reachable(cfg, k, ip, 0, Standing(0, None, []))
  {
    assert Reaches(cfg, k, [], ip, 0, START, Standing(0, None, []));
  }

  /** The failures of two full windows, the first one filled at its end, the second at its beginning. */
  function Busiest(limit: nat, k: nat, window: int): seq<int>
    requires limit >= 1 && k >= 1
  {
    Filled(Filled([], 0, window - 1, limit - 1, k - 1), window, window, limit - 1, k - 1)
  }

  lemma BusiestIsReachable(cfg: Config, ip: Address, k: nat)
    requires cfg.limit >= 1 && k >= 1 && cfg.window >= 2
    ensures Reachable(cfg, k, ip, cfg.window, Standing(0, Some(FailRecord(cfg.limit + k - 1, cfg.window)),
                                                       Busiest(cfg.limit, k, cfg.window)))
  {
    var w := cfg.window;
    NothingYet(cfg, k, ip);
    FullWindow(cfg, k, ip, 0, w - 1, []);
    var first := Filled([], 0, w - 1, cfg.limit - 1, k - 1);
    Later(cfg, k, ip, w - 1, Standing(0, Some(FailRecord(cfg.limit + k - 1, 0)), first), w);
    FullWindow(cfg, k, ip, w, w, first);
  }

  lemma BusiestCount(limit: nat, k: nat, window: int)
    requires limit >= 1 && k >= 1 && window >= 2
    ensures CountIn(Busiest(limit, k, window), window - 1, window - 1 + window) == 2 * (limit + k) - 3
  {
    FullCount([], 0, window - 1, limit - 1, k - 1, window - 1, window - 1 + window);
    var first := Filled([], 0, window - 1, limit - 1, k - 1);
    FullCount(first, window, window, limit - 1, k - 1, window - 1, window - 1 + window);
  }

  /** The bound is met, for every limit and any number of requests in flight: with one at a time, an
      interval of one window can see nearly twice the limit evaluated. */
  lemma BoundIsReached(cfg: Config, ip: Address, k: nat)
    requires cfg.limit >= 1 && k >= 1 && cfg.window >= 2
    ensures exists run :: IsRun(cfg, run, ip, k)
              && CountIn(WrongTimes(run, ip), cfg.window - 1, cfg.window - 1 + cfg.window) == 2 * (cfg.limit + k) - 3
  {
    BusiestIsReachable(cfg, ip, k);
    BusiestCount(cfg.limit, k, cfg.window);
    var at := Standing(0, Some(FailRecord(cfg.limit + k - 1, cfg.window)), Busiest(cfg.limit, k, cfg.window));
    var run, v :| Reaches(cfg, k, run, ip, cfg.window, v, at);
  }
}
