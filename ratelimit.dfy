/**
  Per-domain admission control of the crawler.

  A `Limiter` is a continuous-refill token bucket; the `Controller` keeps one
  per domain (created lazily, replaced by `SetRate`), runs a sliding-window
  count over a sorted set in the shared store, records requests and throttles
  per domain, and periodically scales each limiter's rate by the observed
  throttle ratio.

  Time is an explicit `now` in seconds (a `real`, as `time.Now()` read as
  fractional seconds); the sliding window uses its whole-second part, as
  `time.Now().Unix()` does. Tokens and rates are `real`: the float64 rounding
  of the source is not modelled.
*/
module RateLimit {
  import opened Wrappers
  import Text

  /** The recognised options (pkg/ratelimit/config.go); `windowSeconds` is
      `WindowSize.Seconds()` truncated to an integer, as the controller uses it. */
  datatype Config = Config(
    keyPrefix: string,
    defaultRate: real,
    defaultBurst: int,
    windowSeconds: int,
    windowLimit: int,
    throttleThreshold: real,
    minRate: real,
    maxRate: real)

  function Min(a: real, b: real): (r: real)
    ensures r <= a && r <= b
    ensures r == a || r == b
  {
    if a < b then a else b
  }

  function Max(a: real, b: real): (r: real)
    ensures r >= a && r >= b
    ensures r == a || r == b
  {
    if a > b then a else b
  }

  // ---------------------------------------------------------------------
  // The token bucket
  // ---------------------------------------------------------------------

  /** One decision of the bucket: refill by `elapsed * rate` capped at `burst`,
      then take one token if at least one is there. Returns the decision and
      the new token count. */
  function Admit(tokens: real, elapsed: real, rate: real, burst: int): (bool, real)
  {
    var refilled := Min(burst as real, tokens + elapsed * rate);
    if refilled >= 1.0 then (true, refilled - 1.0) else (false, refilled)
  }

  /** The bucket admits exactly when the refilled amount, before capping, and
      the capacity both reach one token (the boundary `== 1` admits). */
  lemma AdmitIffOneToken(tokens: real, elapsed: real, rate: real, burst: int)
    ensures Admit(tokens, elapsed, rate, burst).0 <==> (tokens + elapsed * rate >= 1.0 && burst >= 1)
    ensures Admit(tokens, elapsed, rate, burst).0 ==>
              Admit(tokens, elapsed, rate, burst).1 == Min(burst as real, tokens + elapsed * rate) - 1.0
  {
  }

  /** The bucket invariant `0 <= tokens <= burst` is kept by every decision
      when the rate is non-negative and the clock does not go backwards. */
  lemma AdmitKeepsTokensInRange(tokens: real, elapsed: real, rate: real, burst: int)
    requires 0.0 <= tokens <= burst as real
    requires 0.0 <= elapsed && 0.0 <= rate
    ensures 0.0 <= Admit(tokens, elapsed, rate, burst).1 <= burst as real
  {
    assert 0.0 <= elapsed * rate;
  }

  /** A full bucket with rate 1/s and burst 3 admits three calls at one
      instant, rejects a fourth, and admits again one second later. */
  lemma BurstScenario()
    ensures var s1 := Admit(3.0, 0.0, 1.0, 3);
            var s2 := Admit(s1.1, 0.0, 1.0, 3);
            var s3 := Admit(s2.1, 0.0, 1.0, 3);
            var s4 := Admit(s3.1, 0.0, 1.0, 3);
            var s5 := Admit(s4.1, 1.0, 1.0, 3);
            s1.0 && s2.0 && s3.0 && !s4.0 && s5.0
  {
  }

  /** A token bucket whose fields `allow` updates in place. */
  class Limiter {
    var rate: real
    var burst: int
    var tokens: real
    var lastUpdate: real

    /** Tokens never exceed the capacity and never go negative. */
    ghost predicate Valid()
      reads this
    {
      0.0 <= tokens <= burst as real
    }

    /** A full bucket created at `now`. */
    constructor (rate: real, burst: int, now: real)
      ensures this.rate == rate && this.burst == burst
      ensures tokens == burst as real && lastUpdate == now
      ensures burst >= 0 ==> Valid()
    {
      this.rate := rate;
      this.burst := burst;
      tokens := burst as real;
      lastUpdate := now;
    }

    /** `Limiter.allow`: refill, stamp `now`, take a token if one is there. */
    method Allow(now: real) returns (ok: bool)
      modifies this
      ensures rate == old(rate) && burst == old(burst) && lastUpdate == now
      ensures ok == Admit(old(tokens), now - old(lastUpdate), rate, burst).0
      ensures tokens == Admit(old(tokens), now - old(lastUpdate), rate, burst).1
      ensures old(Valid()) && rate >= 0.0 && now >= old(lastUpdate) ==> Valid()
    {
      var elapsed := now - lastUpdate;
      if 0.0 <= tokens <= burst as real && 0.0 <= elapsed && 0.0 <= rate {
        AdmitKeepsTokensInRange(tokens, elapsed, rate, burst);
      }
      tokens := Min(burst as real, tokens + elapsed * rate);
      lastUpdate := now;
      if tokens >= 1.0 {
        tokens := tokens - 1.0;
        ok := true;
      } else {
        ok := false;
      }
    }
  }

  // ---------------------------------------------------------------------
  // The distributed sliding window
  // ---------------------------------------------------------------------

  /** Why `Allow` refused a request. */
  datatype LimitError =
    | Cancelled          // the caller's context was done before any store call
    | StoreError         // a sorted-set operation failed
    | WindowExceeded     // the distributed window holds more than `windowLimit` entries
    | Throttled          // the local bucket had no token

  /** Which store operation of the window check fails, if any. */
  datatype StoreFault = NoFault | FailRemove | FailAdd | FailCount

  /** What the window check leaves in the store and what it reports. */
  datatype WindowOutcome = WindowOutcome(window: map<string, int>, err: Option<LimitError>)

  /** `ZRemRangeByScore(key, 0, windowStart)`: drop members scored in `[0, windowStart]`. */
  function Trim(z: map<string, int>, windowStart: int): (r: map<string, int>)
    ensures forall m :: m in r <==> m in z && !(0 <= z[m] <= windowStart)
    ensures forall m :: m in r ==> r[m] == z[m]
  {
    map m | m in z && !(0 <= z[m] <= windowStart) :: z[m]
  }

  /** `ZCount(key, lo, hi)`: members scored in `[lo, hi]`. */
  function CountIn(z: map<string, int>, lo: int, hi: int): nat
  {
    |set m | m in z && lo <= z[m] <= hi|
  }

  /** The member a check at unix second `now` adds: `fmt.Sprintf("%d", now)`. */
  function MemberAt(now: int): string
  {
    Text.IntString(now)
  }

  /** `checkDistributedLimit` on the domain's sorted set `z` at unix second
      `now`: trim, add this second's member, count the window, compare. A
      failing store step stops the check with what the earlier steps did. */
  function WindowCheck(ctxDone: bool, z: map<string, int>, now: int, config: Config, fault: StoreFault): (r: WindowOutcome)
    ensures ctxDone ==> r.window == z && r.err == Some(Cancelled)
    ensures r.err.None? ==> MemberAt(now) in r.window && r.window[MemberAt(now)] == now
  {
    if ctxDone then WindowOutcome(z, Some(Cancelled))
    else
      var windowStart := now - config.windowSeconds;
      if fault.FailRemove? then WindowOutcome(z, Some(StoreError))
      else
        var trimmed := Trim(z, windowStart);
        if fault.FailAdd? then WindowOutcome(trimmed, Some(StoreError))
        else
          var added := trimmed[MemberAt(now) := now];
          if fault.FailCount? then WindowOutcome(added, Some(StoreError))
          else if CountIn(added, windowStart, now) > config.windowLimit then WindowOutcome(added, Some(WindowExceeded))
          else WindowOutcome(added, None)
  }

  /** What one window check does: a cancelled context touches nothing; a
      check that reaches the store keeps only members scored outside
      `[0, now - windowSeconds]`, adds this second's member scored `now`
      (even when it then rejects), and admits exactly when the window
      `[now - windowSeconds, now]` holds at most `windowLimit` members. */
  lemma WindowCheckSpec(ctxDone: bool, z: map<string, int>, now: int, config: Config, fault: StoreFault)
    ensures var r := WindowCheck(ctxDone, z, now, config, fault);
            && (ctxDone ==> r == WindowOutcome(z, Some(Cancelled)))
            && (!ctxDone && fault == NoFault ==>
                  && MemberAt(now) in r.window && r.window[MemberAt(now)] == now
                  && (forall m :: m in r.window && m != MemberAt(now) ==> m in z && r.window[m] == z[m])
                  && (forall m :: m in z && m != MemberAt(now) ==> (m in r.window <==> !(0 <= z[m] <= now - config.windowSeconds)))
                  && (r.err.None? <==> CountIn(r.window, now - config.windowSeconds, now) <= config.windowLimit))
            && (r.err.None? ==> !ctxDone && fault == NoFault)
  {
  }

  /** Two checks in the same second share one member: the second check finds
      the same window and leaves the store as the first left it, so the
      second request is counted only once. */
  lemma SameSecondSharesMember(z: map<string, int>, now: int, config: Config)
    ensures var first := WindowCheck(false, z, now, config, NoFault);
            var second := WindowCheck(false, first.window, now, config, NoFault);
            second == first
  {
    var windowStart := now - config.windowSeconds;
    var added := Trim(z, windowStart)[MemberAt(now) := now];
    var again := Trim(added, windowStart)[MemberAt(now) := now];
    assert forall m :: m in again <==> m in added;
    assert forall m :: m in again ==> again[m] == added[m];
    assert again == added;
  }

  // ---------------------------------------------------------------------
  // Per-domain statistics and the adaptive adjustment
  // ---------------------------------------------------------------------

  /** `DomainStat`: monotonic counters plus the derived average. */
  datatype DomainStat = DomainStat(requests: int, throttled: int, averageRate: real, lastUpdate: real)

  /** `recordRequest`'s effect on the per-domain map. */
  function WithRequest(stats: map<string, DomainStat>, domain: string, defaultRate: real, now: real): (r: map<string, DomainStat>)
    ensures r.Keys == stats.Keys + {domain}
    ensures forall d :: d in stats && d != domain ==> r[d] == stats[d]
    ensures domain in stats ==> r[domain].requests == stats[domain].requests + 1 && r[domain].throttled == stats[domain].throttled
    ensures domain !in stats ==> r[domain].requests == 1 && r[domain].throttled == 0
  {
    if domain in stats then stats[domain := stats[domain].(requests := stats[domain].requests + 1, lastUpdate := now)]
    else stats[domain := DomainStat(1, 0, defaultRate, now)]
  }

  /** `recordThrottle`'s effect on the per-domain map: it never creates an entry. */
  function WithThrottle(stats: map<string, DomainStat>, domain: string, now: real): (r: map<string, DomainStat>)
    ensures r.Keys == stats.Keys
    ensures forall d :: d in stats && d != domain ==> r[d] == stats[d]
    ensures domain in stats ==> r[domain].throttled == stats[domain].throttled + 1 && r[domain].requests == stats[domain].requests
  {
    if domain in stats then stats[domain := stats[domain].(throttled := stats[domain].throttled + 1, lastUpdate := now)]
    else stats
  }

  /** One adaptive step for one limiter: slow down by 20% (not below
      `minRate`) when the throttle ratio is above the threshold, speed up by
      20% (not above `maxRate`) when it is below half the threshold. */
  function AdjustedRate(rate: real, stat: DomainStat, config: Config): (r: real)
    requires stat.requests > 0
    ensures rate >= 0.0 && r < rate ==> r >= config.minRate || r == config.maxRate
    ensures rate >= 0.0 && r > rate ==> r <= config.maxRate || r == config.minRate
  {
    var ratio := stat.throttled as real / stat.requests as real;
    if ratio > config.throttleThreshold then Max(rate * 0.8, config.minRate)
    else if ratio < config.throttleThreshold / 2.0 then Min(rate * 1.2, config.maxRate)
    else rate
  }

  /** Direction of one adaptive step: a positive rate strictly decreases
      (bounded below by `minRate`) when throttling is high, strictly increases
      (bounded above by `maxRate`) when it is low, and stays put in between. */
  lemma AdjustmentDirection(rate: real, stat: DomainStat, config: Config)
    requires stat.requests > 0
    ensures var ratio := stat.throttled as real / stat.requests as real;
            var next := AdjustedRate(rate, stat, config);
            && (ratio > config.throttleThreshold ==> next >= config.minRate && (rate > 0.0 && rate > config.minRate ==> next < rate))
            && (ratio <= config.throttleThreshold && ratio < config.throttleThreshold / 2.0 ==>
                  next <= config.maxRate && (rate > 0.0 && rate < config.maxRate ==> next > rate))
            && (config.throttleThreshold / 2.0 <= ratio <= config.throttleThreshold ==> next == rate)
  {
    var ratio := stat.throttled as real / stat.requests as real;
    if ratio > config.throttleThreshold {
      assert rate > 0.0 ==> rate * 0.8 < rate;
    } else if ratio < config.throttleThreshold / 2.0 {
      assert rate > 0.0 ==> rate * 1.2 > rate;
    }
  }

  // ---------------------------------------------------------------------
  // The controller
  // ---------------------------------------------------------------------

  class Controller {
    const config: Config
    /** Domain -> its bucket; each domain owns its own `Limiter` object. */
    var limiters: map<string, Limiter>
    /** The shared store's sorted sets `"<prefix>:<domain>:requests"`, by domain. */
    var windows: map<string, map<string, int>>
    var totalRequests: int
    var throttledRequests: int
    var domainStats: map<string, DomainStat>

    /** No two domains share a limiter, and every stat entry has seen at least
        one admitted request (entries are only created by `recordRequest`). */
    ghost predicate Valid()
      reads this
    {
      && (forall d, e :: d in limiters && e in limiters && d != e ==> limiters[d] != limiters[e])
      && (forall d :: d in domainStats ==> domainStats[d].requests >= 1)
    }

    /** The domain's sorted set; a missing key reads as empty. */
    function WindowOf(domain: string): map<string, int>
      reads this`windows
    {
      if domain in windows then windows[domain] else map[]
    }

    /** `NewRateLimitController`: no limiters, no stats, an empty store. */
    constructor (config: Config)
      ensures Valid()
      ensures this.config == config && limiters == map[] && windows == map[]
      ensures totalRequests == 0 && throttledRequests == 0 && domainStats == map[]
    {
      this.config := config;
      limiters := map[];
      windows := map[];
      totalRequests := 0;
      throttledRequests := 0;
      domainStats := map[];
    }

    /** `getLimiter`: the existing limiter, or a new full default one. */
    method GetLimiter(domain: string, now: real) returns (l: Limiter)
      requires Valid()
      modifies this`limiters
      ensures Valid()
      ensures domain in limiters && l == limiters[domain]
      ensures domain in old(limiters) ==> limiters == old(limiters)
      ensures domain !in old(limiters) ==>
                && fresh(l) && limiters == old(limiters)[domain := l]
                && l.rate == config.defaultRate && l.burst == config.defaultBurst
                && l.tokens == config.defaultBurst as real && l.lastUpdate == now
    {
      if domain in limiters {
        l := limiters[domain];
      } else {
        l := new Limiter(config.defaultRate, config.defaultBurst, now);
        limiters := limiters[domain := l];
      }
    }

    /** `SetRate`: always installs a new full limiter for the domain. */
    method SetRate(domain: string, rate: real, burst: int, now: real)
      requires Valid()
      modifies this`limiters
      ensures Valid()
      ensures limiters.Keys == old(limiters.Keys) + {domain}
      ensures forall d :: d in old(limiters) && d != domain ==> limiters[d] == old(limiters[d])
      ensures var l := limiters[domain];
              fresh(l) && l.rate == rate && l.burst == burst && l.tokens == burst as real && l.lastUpdate == now
    {
      var l := new Limiter(rate, burst, now);
      limiters := limiters[domain := l];
    }

    /** `checkDistributedLimit` against the domain's sorted set at the unix
        second of `now`. */
    method CheckDistributedLimit(ctxDone: bool, domain: string, now: real, fault: StoreFault) returns (err: Option<LimitError>)
      modifies this`windows
      ensures var out := WindowCheck(ctxDone, old(WindowOf(domain)), now.Floor, config, fault);
              WindowOf(domain) == out.window && err == out.err
      ensures forall d :: d != domain ==> WindowOf(d) == old(WindowOf(d))
    {
      if ctxDone {
        return Some(Cancelled);
      }
      var out := WindowCheck(ctxDone, WindowOf(domain), now.Floor, config, fault);
      windows := windows[domain := out.window];
      err := out.err;
    }

    /** `recordRequest`. */
    method RecordRequest(domain: string, now: real)
      requires Valid()
      modifies this`totalRequests, this`domainStats
      ensures Valid()
      ensures totalRequests == old(totalRequests) + 1
      ensures domainStats == WithRequest(old(domainStats), domain, config.defaultRate, now)
    {
      totalRequests := totalRequests + 1;
      domainStats := WithRequest(domainStats, domain, config.defaultRate, now);
    }

    /** `recordThrottle`. */
    method RecordThrottle(domain: string, now: real)
      requires Valid()
      modifies this`throttledRequests, this`domainStats
      ensures Valid()
      ensures throttledRequests == old(throttledRequests) + 1
      ensures domainStats == WithThrottle(old(domainStats), domain, now)
    {
      throttledRequests := throttledRequests + 1;
      domainStats := WithThrottle(domainStats, domain, now);
    }

    /** `Allow`: get or create the limiter, run the distributed check, then
        the local bucket; every refusal is recorded as a throttle and only an
        admission as a request. */
    method Allow(ctxDone: bool, domain: string, now: real, fault: StoreFault) returns (err: Option<LimitError>)
      requires Valid()
      modifies this, limiters.Values
      ensures Valid()
      ensures limiters.Keys == old(limiters.Keys) + {domain}
      ensures forall d :: d in old(limiters) ==> limiters[d] == old(limiters[d])
      ensures forall d :: d in old(limiters) && d != domain ==> unchanged(limiters[d])
      ensures domain !in old(limiters) ==> fresh(limiters[domain])
      ensures forall d :: d != domain ==> WindowOf(d) == old(WindowOf(d))
      ensures var out := WindowCheck(ctxDone, old(WindowOf(domain)), now.Floor, config, fault);
              var l := limiters[domain];
              var known := domain in old(limiters);
              var t0 := if known then old(limiters[domain].tokens) else config.defaultBurst as real;
              var u0 := if known then old(limiters[domain].lastUpdate) else now;
              && WindowOf(domain) == out.window
              && l.rate == (if known then old(limiters[domain].rate) else config.defaultRate)
              && l.burst == (if known then old(limiters[domain].burst) else config.defaultBurst)
              && (out.err.Some? ==> err == out.err && l.tokens == t0 && l.lastUpdate == u0)
              && (out.err.None? ==>
                    var a := Admit(t0, now - u0, l.rate, l.burst);
                    l.tokens == a.1 && l.lastUpdate == now && (err.None? <==> a.0) && (err.Some? ==> err == Some(Throttled)))
      ensures err.None? ==>
                totalRequests == old(totalRequests) + 1 && throttledRequests == old(throttledRequests)
                && domainStats == WithRequest(old(domainStats), domain, config.defaultRate, now)
      ensures err.Some? ==>
                totalRequests == old(totalRequests) && throttledRequests == old(throttledRequests) + 1
                && domainStats == WithThrottle(old(domainStats), domain, now)
    {
      var l := GetLimiter(domain, now);
      err := CheckDistributedLimit(ctxDone, domain, now, fault);
      if err.Some? {
        RecordThrottle(domain, now);
        return;
      }
      var ok := l.Allow(now);
      if !ok {
        RecordThrottle(domain, now);
        err := Some(Throttled);
        return;
      }
      RecordRequest(domain, now);
    }

    /** One tick of `startAdaptiveAdjustment`: every limiter whose domain has
        stats gets `AdjustedRate`; nothing else changes. */
    method AdjustRates()
      requires Valid()
      modifies limiters.Values
      ensures Valid()
      ensures forall d :: d in limiters ==>
                limiters[d].rate == (if d in domainStats then AdjustedRate(old(limiters[d].rate), domainStats[d], config)
                                     else old(limiters[d].rate))
      ensures forall d :: d in limiters ==>
                && limiters[d].tokens == old(limiters[d].tokens)
                && limiters[d].burst == old(limiters[d].burst)
                && limiters[d].lastUpdate == old(limiters[d].lastUpdate)
    {
      var pending := limiters.Keys;
      while pending != {}
        invariant pending <= limiters.Keys
        invariant forall d :: d in limiters && d !in pending ==>
                    limiters[d].rate == (if d in domainStats then AdjustedRate(old(limiters[d].rate), domainStats[d], config)
                                         else old(limiters[d].rate))
        invariant forall d :: d in pending ==> limiters[d].rate == old(limiters[d].rate)
        invariant forall d :: d in limiters ==>
                    && limiters[d].tokens == old(limiters[d].tokens)
                    && limiters[d].burst == old(limiters[d].burst)
                    && limiters[d].lastUpdate == old(limiters[d].lastUpdate)
        decreases pending
      {
        var d :| d in pending;
        var l := limiters[d];
        if d in domainStats {
          l.rate := AdjustedRate(l.rate, domainStats[d], config);
        }
        pending := pending - {d};
      }
    }
  }
}
