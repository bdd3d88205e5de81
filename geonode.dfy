/**
  The proxy-list spider: it finds the last page of the proxy-list API by
  binary search, builds one URL per page, fetches each page with bounded
  retries, accumulates the proxies of every page fetched, and finally keeps
  the first valid proxy of every `IP:Port`.

  The network is abstracted: a page fetch is a `Response` value, a probe of
  the page count is a `Probe`, reachability through a proxy is a predicate,
  cancellation of the context is a flag per check, and the clock reading
  that picks a user agent is a parameter.
*/
module Geonode {
  import opened Wrappers
  import Text

  datatype ProxyInfo = ProxyInfo(
    ip: string,
    port: string,
    protocols: seq<string>,
    country: string,
    speed: real,
    uptime: real,
    lastCheck: string,
    anonymous: bool,
    workingPct: real)

  /** What fetching one page gives: no response at all (the request could
      not be built or sent), or a status with a body that could not be read,
      could not be decoded, or decoded to a `data` field that is absent
      (`None`) or present. */
  datatype Body = Unreadable | Malformed | Decoded(data: Option<seq<ProxyInfo>>)
  datatype Response = NoResponse | Response(status: int, body: Body)

  datatype ScrapeError =
    | ScrapeCancelled
    | RequestFailed
    | TooManyRequests
    | UnexpectedStatus(status: int)
    | ReadFailed
    | ParseFailed
    | NoData

  const UserAgent1 := "Mozilla/5.0 (Windows NT 10.0; Win64; x64) AppleWebKit/537.36 (KHTML, like Gecko) Chrome/91.0.4472.124 Safari/537.36"
  const UserAgent2 := "Mozilla/5.0 (Macintosh; Intel Mac OS X 10_15_7) AppleWebKit/537.36 (KHTML, like Gecko) Chrome/91.0.4472.124 Safari/537.36"
  const DefaultUserAgent := "Mozilla/5.0 (Windows NT 10.0; Win64; x64) Chrome/91.0.4472.124"
  const BaseUrl := "https://proxylist.geonode.com/api/proxy-list?limit=500&sort_by=lastChecked&sort_type=desc&page="
  const MaxTestPage := 20

  /** The URL of page `i`. */
  function PageUrl(i: nat): (u: string)
    ensures |u| > |BaseUrl| && u[..|BaseUrl|] == BaseUrl
  {
    BaseUrl + Text.NatString(i)
  }

  /** Different pages have different URLs. */
  lemma PageUrlInjective(i: nat, j: nat)
    requires PageUrl(i) == PageUrl(j)
    ensures i == j
  {
    assert PageUrl(i)[|BaseUrl|..] == Text.NatString(i);
    assert PageUrl(j)[|BaseUrl|..] == Text.NatString(j);
    Text.NatStringInjective(i, j);
  }

  /** `getRandomUserAgent`: the default when the list is empty, otherwise
      the agent the clock reading selects. Every agent of the list is
      selected by some reading. */
  function RandomUserAgent(agents: seq<string>, nanos: nat): (ua: string)
    ensures |agents| == 0 ==> ua == DefaultUserAgent
    ensures |agents| > 0 ==> ua in agents
    ensures nanos < |agents| ==> ua == agents[nanos]
    ensures |agents| > 0 ==> ua == agents[nanos % |agents|]
  {
    if |agents| == 0 then DefaultUserAgent else agents[nanos % |agents|]
  }

  /** The selection repeats with the length of the list: a reading one full
      round later picks the same agent. */
  lemma RandomUserAgentPeriodic(agents: seq<string>, nanos: nat)
    ensures RandomUserAgent(agents, nanos + |agents|) == RandomUserAgent(agents, nanos)
  {
    if |agents| > 0 {
      ModShift(nanos, |agents|);
    }
  }

  /** Adding the divisor does not change the remainder. */
  lemma ModShift(a: nat, n: nat)
    requires n > 0
    ensures (a + n) % n == a % n
  {
    var q, r := a / n, a % n;
    var q2, r2 := (a + n) / n, (a + n) % n;
    assert q * n + r + n == q2 * n + r2;
    assert (q + 1 - q2) * n == r2 - r;
    if q + 1 - q2 >= 1 {
      MulAtLeast(q + 1 - q2, n);
    } else if q + 1 - q2 <= -1 {
      MulAtLeast(q2 - q - 1, n);
    }
  }

  lemma MulAtLeast(k: int, n: nat)
    requires k >= 1
    ensures k * n >= n
  {
  }

  /** What `scrapeURL` makes of a context check and a page fetch: the page's
      proxies, or the first error met. */
  function Scrape(ctxDone: bool, resp: Response): (r: Result<seq<ProxyInfo>, ScrapeError>)
    ensures r.Ok? <==> !ctxDone && resp.Response? && resp.status == 200 && resp.body.Decoded? && resp.body.data.Some?
    ensures r.Ok? ==> r.value == resp.body.data.value
    ensures r == Err(TooManyRequests) <==> !ctxDone && resp.Response? && resp.status == 429
  {
    if ctxDone then Err(ScrapeCancelled)
    else match resp
      case NoResponse => Err(RequestFailed)
      case Response(status, body) =>
        if status == 429 then Err(TooManyRequests)
        else if status != 200 then Err(UnexpectedStatus(status))
        else match body
          case Unreadable => Err(ReadFailed)
          case Malformed => Err(ParseFailed)
          case Decoded(None) => Err(NoData)
          case Decoded(Some(data)) => Ok(data)
  }

  /** How `processURLWithRetry` ends: the page was scraped on attempt
      `attempt` (counted from 0), the context was found cancelled before
      attempt `attempt`, or all `attempts` attempts failed, the last with
      `last`. */
  datatype RetryOutcome =
    | Scraped(attempt: nat, data: seq<ProxyInfo>)
    | RetryCancelled(attempt: nat)
    | GaveUp(attempts: nat, last: Option<ScrapeError>)

  /** The outcome of the retry loop from attempt `k` on, given the last
      error so far; `loopDone(j)` is the loop's context check before attempt
      `j`, `scrapeDone(j)` that of `scrapeURL`, `responses(j)` the fetch. */
  function RetryFrom(k: nat, maxRetries: int, loopDone: nat -> bool, scrapeDone: nat -> bool,
                     responses: nat -> Response, last: Option<ScrapeError>): RetryOutcome
    decreases maxRetries - k
  {
    if k >= maxRetries then GaveUp(k, last)
    else if loopDone(k) then RetryCancelled(k)
    else match Scrape(scrapeDone(k), responses(k))
      case Ok(data) => Scraped(k, data)
      case Err(e) => RetryFrom(k + 1, maxRetries, loopDone, scrapeDone, responses, Some(e))
  }

  /** Attempt `j` was made and failed. */
  predicate FailedAttempt(j: nat, loopDone: nat -> bool, scrapeDone: nat -> bool, responses: nat -> Response)
  {
    !loopDone(j) && Scrape(scrapeDone(j), responses(j)).Err?
  }

  lemma {:induction false} RetryFromFacts(k: nat, maxRetries: int, loopDone: nat -> bool, scrapeDone: nat -> bool,
                                          responses: nat -> Response, last: Option<ScrapeError>)
    requires k == 0 ==> last.None?
    requires k > 0 ==> Scrape(scrapeDone(k - 1), responses(k - 1)).Err? && last == Some(Scrape(scrapeDone(k - 1), responses(k - 1)).error)
    ensures var o := RetryFrom(k, maxRetries, loopDone, scrapeDone, responses, last);
      && (o.Scraped? ==>
            && k <= o.attempt < maxRetries && !loopDone(o.attempt)
            && Scrape(scrapeDone(o.attempt), responses(o.attempt)) == Ok(o.data)
            && forall j :: k <= j < o.attempt ==> FailedAttempt(j, loopDone, scrapeDone, responses))
      && (o.RetryCancelled? ==>
            && k <= o.attempt < maxRetries && loopDone(o.attempt)
            && forall j :: k <= j < o.attempt ==> FailedAttempt(j, loopDone, scrapeDone, responses))
      && (o.GaveUp? ==>
            && o.attempts == (if maxRetries > k then maxRetries else k)
            && (o.attempts == 0 ==> o.last.None?)
            && (o.attempts > 0 ==>
                  && Scrape(scrapeDone(o.attempts - 1), responses(o.attempts - 1)).Err?
                  && o.last == Some(Scrape(scrapeDone(o.attempts - 1), responses(o.attempts - 1)).error))
            && forall j :: k <= j < maxRetries ==> FailedAttempt(j, loopDone, scrapeDone, responses))
    decreases maxRetries - k
  {
    if k < maxRetries && !loopDone(k) && Scrape(scrapeDone(k), responses(k)).Err? {
      RetryFromFacts(k + 1, maxRetries, loopDone, scrapeDone, responses, Some(Scrape(scrapeDone(k), responses(k)).error));
    }
  }

  /** The retry loop makes at most `maxRetries` attempts, one after another
      until the first success: a success on attempt `a` follows `a` failed
      attempts; giving up follows `maxRetries` failed attempts, and with
      `maxRetries <= 0` comes without any attempt and without an error. */
  lemma RetryBounds(maxRetries: int, loopDone: nat -> bool, scrapeDone: nat -> bool, responses: nat -> Response)
    ensures var o := RetryFrom(0, maxRetries, loopDone, scrapeDone, responses, None);
      && (o.Scraped? ==>
            && o.attempt < maxRetries
            && Scrape(scrapeDone(o.attempt), responses(o.attempt)) == Ok(o.data)
            && forall j :: 0 <= j < o.attempt ==> FailedAttempt(j, loopDone, scrapeDone, responses))
      && (o.RetryCancelled? ==> o.attempt < maxRetries && loopDone(o.attempt))
      && (o.GaveUp? ==>
            && o.attempts == (if maxRetries > 0 then maxRetries else 0)
            && (maxRetries <= 0 ==> o.last.None?)
            && forall j :: 0 <= j < maxRetries ==> FailedAttempt(j, loopDone, scrapeDone, responses))
  {
    RetryFromFacts(0, maxRetries, loopDone, scrapeDone, responses, None);
  }

  /** The key `validateAndDeduplicateResults` deduplicates on. */
  function Key(p: ProxyInfo): string
  {
    p.ip + ":" + p.port
  }

  /** `validateProxy`: a proxy without protocols is invalid without any
      request; otherwise it is valid when a request through it succeeds. */
  predicate IsValid(p: ProxyInfo, reachable: ProxyInfo -> bool)
  {
    |p.protocols| > 0 && reachable(p)
  }

  /** The keys of the proxies in `ps`. */
  function Keys(ps: seq<ProxyInfo>): set<string>
  {
    set i | 0 <= i < |ps| :: Key(ps[i])
  }

  /** The keys of the valid proxies in `ps`. */
  function ValidKeys(ps: seq<ProxyInfo>, reachable: ProxyInfo -> bool): set<string>
  {
    set i | 0 <= i < |ps| && IsValid(ps[i], reachable) :: Key(ps[i])
  }

  /** The result of the dedup loop over `ps`: a proxy is kept when it is
      valid and no proxy with its key was kept before it. */
  function Dedup(ps: seq<ProxyInfo>, reachable: ProxyInfo -> bool): (r: seq<ProxyInfo>)
    ensures forall a :: 0 <= a < |r| ==> IsValid(r[a], reachable)
    ensures forall a, b :: 0 <= a < b < |r| ==> Key(r[a]) != Key(r[b])
  {
    if |ps| == 0 then []
    else
      var kept := Dedup(ps[..|ps| - 1], reachable);
      var p := ps[|ps| - 1];
      if IsValid(p, reachable) && Key(p) !in Keys(kept) then kept + [p] else kept
  }

  /** Proxy `j` of `ps` is the first valid one with its key. */
  predicate FirstValid(ps: seq<ProxyInfo>, reachable: ProxyInfo -> bool, j: nat)
    requires j < |ps|
  {
    IsValid(ps[j], reachable) && forall i :: 0 <= i < j ==> !(IsValid(ps[i], reachable) && Key(ps[i]) == Key(ps[j]))
  }

  /** Reference definition: the proxies of `ps` that are the first valid
      occurrence of their key, in input order (a subsequence of `ps`). */
  function FirstValidOccurrences(ps: seq<ProxyInfo>, reachable: ProxyInfo -> bool): seq<ProxyInfo>
  {
    if |ps| == 0 then []
    else FirstValidOccurrences(ps[..|ps| - 1], reachable) + (if FirstValid(ps, reachable, |ps| - 1) then [ps[|ps| - 1]] else [])
  }

  lemma {:induction false} DedupKeys(ps: seq<ProxyInfo>, reachable: ProxyInfo -> bool)
    ensures Keys(Dedup(ps, reachable)) == ValidKeys(ps, reachable)
  {
    if |ps| > 0 {
      var init := ps[..|ps| - 1];
      var p := ps[|ps| - 1];
      var kept := Dedup(init, reachable);
      DedupKeys(init, reachable);
      assert ValidKeys(ps, reachable) == ValidKeys(init, reachable) + (if IsValid(p, reachable) then {Key(p)} else {}) by {
        forall k | k in ValidKeys(ps, reachable)
          ensures k in ValidKeys(init, reachable) + (if IsValid(p, reachable) then {Key(p)} else {})
        {
          var i :| 0 <= i < |ps| && IsValid(ps[i], reachable) && Key(ps[i]) == k;
          if i < |init| {
            assert init[i] == ps[i];
          }
        }
        forall k | k in ValidKeys(init, reachable)
          ensures k in ValidKeys(ps, reachable)
        {
          var i :| 0 <= i < |init| && IsValid(init[i], reachable) && Key(init[i]) == k;
          assert ps[i] == init[i];
        }
      }
      if IsValid(p, reachable) && Key(p) !in Keys(kept) {
        KeysAppend(kept, p);
      }
    }
  }

  lemma KeysAppend(ps: seq<ProxyInfo>, p: ProxyInfo)
    ensures Keys(ps + [p]) == Keys(ps) + {Key(p)}
  {
    forall k | k in Keys(ps)
      ensures k in Keys(ps + [p])
    {
      var i :| 0 <= i < |ps| && Key(ps[i]) == k;
      assert (ps + [p])[i] == ps[i];
    }
    assert (ps + [p])[|ps|] == p;
  }

  /** The dedup loop keeps exactly the first valid occurrence of every key,
      in input order: a later valid duplicate is dropped, while an invalid
      occurrence does not hide a later valid one. */
  lemma {:induction false} DedupIsFirstValidOccurrences(ps: seq<ProxyInfo>, reachable: ProxyInfo -> bool)
    ensures Dedup(ps, reachable) == FirstValidOccurrences(ps, reachable)
  {
    if |ps| > 0 {
      var init := ps[..|ps| - 1];
      var p := ps[|ps| - 1];
      DedupIsFirstValidOccurrences(init, reachable);
      DedupKeys(init, reachable);
      if IsValid(p, reachable) {
        if Key(p) in ValidKeys(init, reachable) {
          var i :| 0 <= i < |init| && IsValid(init[i], reachable) && Key(init[i]) == Key(p);
          assert ps[i] == init[i];
          assert !FirstValid(ps, reachable, |ps| - 1);
        } else {
          forall i | 0 <= i < |ps| - 1
            ensures !(IsValid(ps[i], reachable) && Key(ps[i]) == Key(p))
          {
            assert ps[i] == init[i];
          }
        }
      }
    }
  }

  /** The outcome of probing one page while searching for the last one: the
      request failed (it could not be built, sent or read), the body did not
      decode, or it decoded to `items` proxies. */
  datatype Probe = ProbeFailed | Undecodable | Page(items: nat)

  /** A page counts as having data only when it decoded to some proxies. */
  predicate HasData(p: Probe)
  {
    p.Page? && p.items > 0
  }

  datatype PagesError = ProbeRequestFailed | NoValidPage

  /** The binary search of `getTotalPages` over `[left, right]`, where
      `last` is the last page found to have data (0 for none). */
  function Search(left: nat, right: int, last: nat, probe: nat -> Probe): (r: Result<nat, PagesError>)
    requires left >= 1
    ensures r.Ok? ==> (r.value == last && last > 0) || (left <= r.value <= right && HasData(probe(r.value)))
    ensures r == Err(ProbeRequestFailed) ==> exists p :: left <= p <= right && probe(p) == ProbeFailed
    decreases right - left + 1
  {
    if left > right then (if last == 0 then Err(NoValidPage) else Ok(last))
    else
      var mid := (left + right) / 2;
      match probe(mid)
      case ProbeFailed => Err(ProbeRequestFailed)
      case Undecodable => Search(left, mid - 1, last, probe)
      case Page(n) => if n > 0 then Search(mid + 1, right, mid, probe) else Search(left, mid - 1, last, probe)
  }

  /** `getTotalPages`: search pages 1 to 20. A page it answers has data, and
      a request error means one of the pages failed. */
  function TotalPages(probe: nat -> Probe): (r: Result<nat, PagesError>)
    ensures r.Ok? ==> 1 <= r.value <= MaxTestPage && HasData(probe(r.value))
    ensures r == Err(ProbeRequestFailed) ==> exists p :: 1 <= p <= MaxTestPage && probe(p) == ProbeFailed
  {
    Search(1, MaxTestPage, 0, probe)
  }

  /** Pages `1..k` have data and the later ones up to 20 do not. */
  predicate ExactlyFirstPages(probe: nat -> Probe, k: nat)
  {
    k <= MaxTestPage && forall p :: 1 <= p <= MaxTestPage ==> (HasData(probe(p)) <==> p <= k)
  }

  /** No probe of a page in `[1, 20]` fails. */
  predicate NoProbeFails(probe: nat -> Probe)
  {
    forall p :: 1 <= p <= MaxTestPage ==> probe(p) != ProbeFailed
  }

  lemma {:induction false} SearchFinds(left: nat, right: int, last: nat, probe: nat -> Probe, k: nat)
    requires 1 <= left && right <= MaxTestPage && left <= right + 1
    requires last == left - 1 && last <= k <= right
    requires ExactlyFirstPages(probe, k) && NoProbeFails(probe)
    ensures Search(left, right, last, probe) == if k == 0 then Err(NoValidPage) else Ok(k)
    decreases right - left + 1
  {
    if left <= right {
      var mid := (left + right) / 2;
      if mid <= k {
        SearchFinds(mid + 1, right, mid, probe, k);
      } else {
        SearchFinds(left, mid - 1, last, probe, k);
      }
    }
  }

  /** When exactly pages `1..k` have data and no request fails, the search
      answers `k`, and fails for `k = 0`; an undecodable page counts as one
      without data. */
  lemma TotalPagesFindsLastPage(probe: nat -> Probe, k: nat)
    requires ExactlyFirstPages(probe, k) && NoProbeFails(probe)
    ensures TotalPages(probe) == if k == 0 then Err(NoValidPage) else Ok(k)
  {
    SearchFinds(1, MaxTestPage, 0, probe, k);
  }

  class GeonodeSpider {
    const userAgents: seq<string>
    const maxRetries: int
    var startUrls: seq<string>
    var results: seq<ProxyInfo>

    /** `NewGeonodeSpider`: two user agents, three attempts per page, no
        URLs and no results. */
    constructor ()
      ensures userAgents == [UserAgent1, UserAgent2] && maxRetries == 3
      ensures startUrls == [] && results == []
    {
      userAgents := [UserAgent1, UserAgent2];
      maxRetries := 3;
      startUrls := [];
      results := [];
    }

    /** The page-URL loop of `Run`: one URL per page, pages 1 to
        `totalPages` in increasing order, appended to the start URLs. */
    method AddPageUrls(totalPages: int)
      modifies this`startUrls
      ensures |startUrls| == |old(startUrls)| + (if totalPages > 0 then totalPages else 0)
      ensures startUrls[..|old(startUrls)|] == old(startUrls)
      ensures forall i :: |old(startUrls)| <= i < |startUrls| ==> startUrls[i] == PageUrl(i - |old(startUrls)| + 1)
    {
      var i := 1;
      while i <= totalPages
        invariant 1 <= i <= (if totalPages > 0 then totalPages else 0) + 1
        invariant |startUrls| == |old(startUrls)| + i - 1
        invariant startUrls[..|old(startUrls)|] == old(startUrls)
        invariant forall j :: |old(startUrls)| <= j < |startUrls| ==> startUrls[j] == PageUrl(j - |old(startUrls)| + 1)
      {
        startUrls := startUrls + [PageUrl(i)];
        i := i + 1;
      }
    }

    /** `scrapeURL`: on a page scraped, its proxies are appended to the
        results; on any error the results are unchanged. */
    method ScrapeUrl(ctxDone: bool, resp: Response) returns (err: Option<ScrapeError>)
      modifies this`results
      ensures Scrape(ctxDone, resp).Ok? ==> err.None? && results == old(results) + Scrape(ctxDone, resp).value
      ensures Scrape(ctxDone, resp).Err? ==> err == Some(Scrape(ctxDone, resp).error) && results == old(results)
    {
      if ctxDone {
        return Some(ScrapeCancelled);
      }
      if resp.NoResponse? {
        return Some(RequestFailed);
      }
      if resp.status == 429 {
        return Some(TooManyRequests);
      }
      if resp.status != 200 {
        return Some(UnexpectedStatus(resp.status));
      }
      match resp.body {
        case Unreadable => return Some(ReadFailed);
        case Malformed => return Some(ParseFailed);
        case Decoded(data) =>
          if data.None? {
            return Some(NoData);
          }
          results := results + data.value;
          return None;
      }
    }

    /** `processURLWithRetry`: attempts until the first success, at most
        `maxRetries` of them (see `RetryBounds`); only the successful
        attempt adds proxies. */
    method ProcessUrlWithRetry(loopDone: nat -> bool, scrapeDone: nat -> bool, responses: nat -> Response)
      returns (o: RetryOutcome)
      modifies this`results
      ensures o == RetryFrom(0, maxRetries, loopDone, scrapeDone, responses, None)
      ensures results == old(results) + (if o.Scraped? then o.data else [])
    {
      var lastErr: Option<ScrapeError> := None;
      var retry: nat := 0;
      while retry < maxRetries
        invariant RetryFrom(retry, maxRetries, loopDone, scrapeDone, responses, lastErr)
                  == RetryFrom(0, maxRetries, loopDone, scrapeDone, responses, None)
        invariant results == old(results)
        decreases maxRetries - retry
      {
        if loopDone(retry) {
          return RetryCancelled(retry);
        }
        var err := ScrapeUrl(scrapeDone(retry), responses(retry));
        if err.None? {
          return Scraped(retry, Scrape(scrapeDone(retry), responses(retry)).value);
        }
        lastErr := err;
        retry := retry + 1;
      }
      return GaveUp(retry, lastErr);
    }

    /** `validateAndDeduplicateResults`: the results become the first valid
        occurrence of every key, in order. */
    method ValidateAndDeduplicate(reachable: ProxyInfo -> bool)
      modifies this`results
      ensures results == Dedup(old(results), reachable)
    {
      var seen: set<string> := {};
      var unique: seq<ProxyInfo> := [];
      for i := 0 to |results|
        invariant results == old(results)
        invariant unique == Dedup(results[..i], reachable)
        invariant seen == Keys(unique)
      {
        var proxy := results[i];
        assert results[..i + 1][..i] == results[..i];
        if Key(proxy) !in seen && IsValid(proxy, reachable) {
          KeysAppend(unique, proxy);
          seen := seen + {Key(proxy)};
          unique := unique + [proxy];
        }
      }
      assert results[..|results|] == results;
      results := unique;
    }

    /** `getTotalPages`, with the bounds moved as the loop moves them. */
    method GetTotalPages(probe: nat -> Probe) returns (r: Result<nat, PagesError>)
      ensures r == TotalPages(probe)
    {
      var left: nat, right: int := 1, MaxTestPage;
      var lastValidPage: nat := 0;
      while left <= right
        invariant left >= 1 && left <= right + 1
        invariant Search(left, right, lastValidPage, probe) == TotalPages(probe)
        decreases right - left + 1
      {
        var mid: nat := (left + right) / 2;
        var page := probe(mid);
        if page == ProbeFailed {
          return Err(ProbeRequestFailed);
        }
        if HasData(page) {
          lastValidPage := mid;
          left := mid + 1;
        } else {
          right := mid - 1;
        }
      }
      if lastValidPage == 0 {
        return Err(NoValidPage);
      }
      return Ok(lastValidPage);
    }

  }
}
