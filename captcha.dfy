/**
  Captcha solving: solutions are cached by the captcha's payload, a miss is
  dispatched to the solver registered for the captcha type, and a failed
  automatic solve may fall back to manual solving. A periodic pass over the
  cache deletes entries whose companion `key + "_time"` holds a timestamp
  older than the cache TTL.

  The cache (a `sync.Map`) maps a payload to a value that is either a
  solution string or a timestamp; solver, manual and training results are
  parameters; durations and times are integer nanoseconds.
*/
module Captcha {
  import opened Wrappers
  import Averages

  /** pkg/captcha/config.go. */
  datatype Config = Config(database: string, allowManual: bool, manualTimeout: int, cacheCleanInterval: int, cacheTtl: int)

  /** A cached value: `Solve` stores solution strings; the clean pass reads
      timestamps. */
  datatype CacheValue = Solution(text: string) | Stamp(at: int)

  /** Opaque identity of a registered solver. */
  datatype Solver = Solver(ref: nat)

  /** How a `Solve` call ends: an answer, an error, or a panic of the
      `.(string)` assertion on a cached value that is not a string. */
  datatype SolveOutcome = Solved(solution: string) | SolveFailed(err: string) | SolvePanicked

  /** Every cached value is a solution string. */
  ghost predicate OnlySolutions(cache: map<string, CacheValue>)
  {
    forall k :: k in cache ==> cache[k].Solution?
  }

  /** The timestamp companion key of a cache key. */
  function TimeKey(k: string): string
  {
    k + "_time"
  }

  /** `k` has a companion holding a timestamp older than `ttl` at `now`. */
  predicate ExpiredCompanion(cache: map<string, CacheValue>, k: string, now: int, ttl: int)
  {
    TimeKey(k) in cache && cache[TimeKey(k)].Stamp? && now - cache[TimeKey(k)].at > ttl
  }

  /** `k` is a solution whose timestamp companion holds a solution too: the
      as-written pass's assertion `t.(time.Time)` panics on it. */
  predicate SolutionCompanion(cache: map<string, CacheValue>, k: string)
  {
    TimeKey(k) in cache && cache[TimeKey(k)].Solution?
  }

  class CaptchaController {
    const config: Config
    var solvers: map<string, Solver>
    var cache: map<string, CacheValue>
    var total: nat
    var success: int
    var failed: int
    var avgTime: int

    /** `Solve` is the only writer of the cache and stores strings only. */
    ghost predicate Valid()
      reads this
    {
      OnlySolutions(cache)
    }

    /** `NewCaptchaController` (the cleaning goroutine is not started here). */
    constructor (config: Config)
      ensures Valid()
      ensures this.config == config && solvers == map[] && cache == map[]
      ensures total == 0 && success == 0 && failed == 0 && avgTime == 0
    {
      this.config := config;
      solvers := map[];
      cache := map[];
      total := 0;
      success := 0;
      failed := 0;
      avgTime := 0;
    }

    /** `RegisterSolver`: a later registration for a type replaces the earlier one. */
    method RegisterSolver(typ: string, s: Solver)
      modifies this`solvers
      ensures solvers == old(solvers)[typ := s]
    {
      solvers := solvers[typ := s];
    }

    /** `updateMetrics`: count the call, then fold its duration in as written
        (with the count already incremented). */
    method UpdateMetrics(duration: nat)
      modifies this`total, this`avgTime
      ensures total == old(total) + 1
      ensures avgTime == Averages.AsWritten(old(avgTime), total, duration)
    {
      total := total + 1;
      avgTime := (avgTime * total + duration) / (total + 1);
    }

    /** `Solve`. A cached payload is answered from the cache without looking
        at the type; otherwise an unknown type is an error; a solver success
        is cached and returned; a solver failure goes to manual solving when
        allowed (whose answer is not cached) and is returned otherwise. Every
        call, whatever its outcome, is counted by the deferred metrics update. */
    method Solve(typ: string, data: string, solverResult: Result<string, string>, manualResult: Result<string, string>, duration: nat)
      returns (o: SolveOutcome)
      requires Valid()
      modifies this`cache, this`total, this`avgTime
      ensures Valid()
      ensures total == old(total) + 1
      ensures avgTime == Averages.AsWritten(old(avgTime), total, duration)
      ensures o != SolvePanicked
      ensures data in old(cache) ==> o == Solved(old(cache)[data].text) && cache == old(cache)
      ensures data !in old(cache) && typ !in solvers ==>
                o == SolveFailed("unsupported captcha type: " + typ) && cache == old(cache)
      ensures data !in old(cache) && typ in solvers && solverResult.Ok? ==>
                o == Solved(solverResult.value) && cache == old(cache)[data := Solution(solverResult.value)]
      ensures data !in old(cache) && typ in solvers && solverResult.Err? ==>
                && cache == old(cache)
                && (config.allowManual ==> o == (if manualResult.Ok? then Solved(manualResult.value) else SolveFailed(manualResult.error)))
                && (!config.allowManual ==> o == SolveFailed(solverResult.error))
    {
      o := SolveInner(typ, data, solverResult, manualResult);
      UpdateMetrics(duration);
    }

    /** The body of `Solve` before its deferred metrics update. */
    method SolveInner(typ: string, data: string, solverResult: Result<string, string>, manualResult: Result<string, string>)
      returns (o: SolveOutcome)
      requires Valid()
      modifies this`cache
      ensures Valid()
      ensures o != SolvePanicked
      ensures data in old(cache) ==> o == Solved(old(cache)[data].text) && cache == old(cache)
      ensures data !in old(cache) && typ !in solvers ==>
                o == SolveFailed("unsupported captcha type: " + typ) && cache == old(cache)
      ensures data !in old(cache) && typ in solvers && solverResult.Ok? ==>
                o == Solved(solverResult.value) && cache == old(cache)[data := Solution(solverResult.value)]
      ensures data !in old(cache) && typ in solvers && solverResult.Err? ==>
                && cache == old(cache)
                && (config.allowManual ==> o == (if manualResult.Ok? then Solved(manualResult.value) else SolveFailed(manualResult.error)))
                && (!config.allowManual ==> o == SolveFailed(solverResult.error))
    {
      if data in cache {
        match cache[data]
        case Solution(text) => return Solved(text);
        case Stamp(_) => return SolvePanicked;
      }
      if typ !in solvers {
        return SolveFailed("unsupported captcha type: " + typ);
      }
      match solverResult
      case Ok(solution) =>
        cache := cache[data := Solution(solution)];
        return Solved(solution);
      case Err(e) =>
        if config.allowManual {
          return match manualResult
            case Ok(solution) => Solved(solution)
            case Err(me) => SolveFailed(me);
        }
        return SolveFailed(e);
    }

    /** `Train`: an unknown type is an error; otherwise the solver's own
        training result. */
    method Train(typ: string, trainResult: Option<string>) returns (err: Option<string>)
      ensures typ !in solvers ==> err == Some("unsupported captcha type: " + typ)
      ensures typ in solvers ==> err == trainResult
    {
      if typ !in solvers {
        return Some("unsupported captcha type: " + typ);
      }
      return trainResult;
    }

    /** One pass of `cleanCache` as written: visit every key (in any order);
        when its companion exists, assert that the companion is a timestamp
        and delete both when it is older than the TTL. On a cache that holds
        only solutions it deletes nothing, and it panics exactly when some
        key's companion exists. */
    method CleanCachePassAsWritten(now: int) returns (panicked: bool)
      modifies this`cache
      ensures forall k :: k in cache ==> k in old(cache) && cache[k] == old(cache)[k]
      ensures OnlySolutions(old(cache)) ==>
                cache == old(cache) && (panicked <==> exists k :: k in old(cache) && SolutionCompanion(old(cache), k))
    {
      var pending := cache.Keys;
      while pending != {}
        invariant pending <= old(cache).Keys
        invariant forall k :: k in cache ==> k in old(cache) && cache[k] == old(cache)[k]
        invariant OnlySolutions(old(cache)) ==> cache == old(cache)
        invariant OnlySolutions(old(cache)) ==>
                    forall k :: k in old(cache) && k !in pending ==> !SolutionCompanion(old(cache), k)
        decreases |pending|
      {
        var k :| k in pending;
        pending := pending - {k};
        if TimeKey(k) in cache {
          match cache[TimeKey(k)]
          case Solution(_) =>
            return true;
          case Stamp(at) =>
            if now - at > config.cacheTtl {
              cache := cache - {k, TimeKey(k)};
            }
        }
      }
      return false;
    }

    /** One pass of `cleanCache` with the companion checked rather than
        asserted: it never panics, deletes only a key with an expired
        timestamp companion or such a companion itself, and leaves a cache
        of solutions, the only kind `Solve` builds, untouched. */
    method CleanCachePass(now: int)
      modifies this`cache
      ensures forall k :: k in cache ==> k in old(cache) && cache[k] == old(cache)[k]
      ensures forall k :: k in old(cache) && k !in cache ==>
                ExpiredCompanion(old(cache), k, now, config.cacheTtl)
                || (old(cache)[k].Stamp? && now - old(cache)[k].at > config.cacheTtl)
      ensures OnlySolutions(old(cache)) ==> cache == old(cache)
    {
      var pending := cache.Keys;
      while pending != {}
        invariant pending <= old(cache).Keys
        invariant forall k :: k in cache ==> k in old(cache) && cache[k] == old(cache)[k]
        invariant forall k :: k in old(cache) && k !in cache ==>
                    ExpiredCompanion(old(cache), k, now, config.cacheTtl)
                    || (old(cache)[k].Stamp? && now - old(cache)[k].at > config.cacheTtl)
        invariant OnlySolutions(old(cache)) ==> cache == old(cache)
        decreases |pending|
      {
        var k :| k in pending;
        pending := pending - {k};
        if TimeKey(k) in cache && cache[TimeKey(k)].Stamp? {
          if now - cache[TimeKey(k)].at > config.cacheTtl {
            cache := cache - {k, TimeKey(k)};
          }
        }
      }
    }
  }

  /** Solving the payloads "x" and "x_time" with a solver that succeeds
      caches both as solution strings; the next pass of the cleaner as
      written then finds "x_time" as the companion of "x" and panics. */
  method SolveThenCleanPanics(config: Config, now: int) returns (panicked: bool)
    ensures panicked
  {
    var c := new CaptchaController(config);
    c.RegisterSolver("image", Solver(0));
    var first := c.Solve("image", "x", Ok("a"), Err("no manual answer"), 1);
    assert TimeKey("x") == "x_time" && "x_time" != "x";
    var second := c.Solve("image", "x_time", Ok("b"), Err("no manual answer"), 1);
    assert "x" in c.cache && SolutionCompanion(c.cache, "x");
    panicked := c.CleanCachePassAsWritten(now);
  }
}
