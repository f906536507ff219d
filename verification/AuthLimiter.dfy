/** The limiter of wrong admin tokens: a fixed window per client address. */
module AuthLimiters {
  import opened Options

  /** A client address, without the port. */
  type Address = string

  datatype FailRecord = FailRecord(count: int, since: int)

  type Fails = map<Address, FailRecord>

  datatype Config = Config(limit: int, window: int)

  const SECOND := 1_000_000_000

  predicate Expired(cfg: Config, r: FailRecord, now: int) {
    now - r.since >= cfg.window
  }

  /** The records after asking, and the wait if the address is blocked. */
  function Asked(cfg: Config, fails: Fails, ip: Address, now: int): (Fails, Option<int>) {
    if ip !in fails then (fails, None)
    else if Expired(cfg, fails[ip], now) then (fails - {ip}, None)
    else if fails[ip].count < cfg.limit then (fails, None)
    else (fails, Some(cfg.window - (now - fails[ip].since)))
  }

  function Live(cfg: Config, fails: Fails, now: int): Fails {
    map ip | ip in fails && !Expired(cfg, fails[ip], now) :: fails[ip]
  }

  function Failed(cfg: Config, fails: Fails, ip: Address, now: int): Fails {
    var live := Live(cfg, fails, now);
    live[ip := if ip in live then live[ip].(count := live[ip].count + 1) else FailRecord(1, now)]
  }

  datatype Response = TooMany(retryAfter: int) | Unauthorized | Served

  class AuthLimiter {
    const cfg: Config
    var fails: Fails

    constructor (cfg: Config)
      ensures this.cfg == cfg && fails == map[]
    {
      this.cfg := cfg;
      fails := map[];
    }

    method Blocked(ip: Address, now: int) returns (wait: int, blocked: bool)
      modifies this
      ensures (fails, if blocked then Some(wait) else None) == Asked(cfg, old(fails), ip, now)
    {
      if ip !in fails {
        return 0, false;
      }
      var rec := fails[ip];
      if now - rec.since >= cfg.window {
        fails := fails - {ip};
        return 0, false;
      }
      if rec.count < cfg.limit {
        return 0, false;
      }
      return cfg.window - (now - rec.since), true;
    }

    /** Counts a failure; afterwards only unexpired records remain. */
    method Fail(ip: Address, now: int)
      modifies this
      ensures fails == Failed(cfg, old(fails), ip, now)
      ensures cfg.window > 0 ==> forall a | a in fails :: !Expired(cfg, fails[a], now)
    {
      var todo := fails.Keys;
      while todo != {}
        invariant todo <= old(fails).Keys
        invariant forall a :: a in fails <==> a in old(fails) && (a in todo || !Expired(cfg, old(fails)[a], now))
        invariant forall a :: a in fails ==> fails[a] == old(fails)[a]
        decreases |todo|
      {
        var a :| a in todo;
        if now - fails[a].since >= cfg.window {
          fails := fails - {a};
        }
        todo := todo - {a};
      }
      assert fails == Live(cfg, old(fails), now);
      if ip !in fails {
        fails := fails[ip := FailRecord(1, now)];
        return;
      }
      fails := fails[ip := fails[ip].(count := fails[ip].count + 1)];
    }

    /** One request: the clock is read on asking and again on a wrong token. */
    method AdminAuth(ip: Address, tokenOk: bool, asked: int, failed: int) returns (r: Response)
      modifies this
      ensures var (left, wait) := Asked(cfg, old(fails), ip, asked);
              if wait.Some? then
                fails == left && r.TooMany? && wait.value < r.retryAfter * SECOND <= wait.value + SECOND
              else if tokenOk then fails == left && r == Served
              else fails == Failed(cfg, left, ip, failed) && r == Unauthorized
    {
      var wait, blocked := Blocked(ip, asked);
      if blocked {
        return TooMany(wait / SECOND + 1);
      }
      if !tokenOk {
        Fail(ip, failed);
        return Unauthorized;
      }
      return Served;
    }
  }
}
