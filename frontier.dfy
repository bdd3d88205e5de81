/**
  The URL frontier: normalisation, the ordered admission checks (depth,
  filters, duplicate), per-priority FIFO buckets served from the highest
  priority down, and the read-modify-write of a URL's status.

  The store's `prefix:urls` set is `urls`, the lists `prefix:priority:<p>`
  are `buckets[p]` (a missing key is an empty list) and the string keys
  `prefix:url:<u>` are `records`, which nothing in the controller writes.
  `url.Parse` is the oracle `parse` fixed when the controller is built;
  filters are total predicates over the candidate item.
*/
module UrlFrontier {
  import opened Wrappers

  /** pkg/url/config.go. */
  datatype Config = Config(redisKeyPrefix: string, maxDepth: int, maxPriority: int, metricsInterval: int)

  /** A parsed URL (the fields of `net/url.URL` that matter here;
      `schemeSpecific` is its `Opaque` part, as in `mailto:x@y`). */
  datatype Url = Url(scheme: string, schemeSpecific: string, host: string, path: string, rawQuery: string, fragment: string)

  datatype UrlItem = UrlItem(url: string, depth: int, priority: int, status: string, createdAt: int, updatedAt: int)

  datatype UrlError =
    | ParseFailed(msg: string)
    | TooDeep(maxDepth: int)
    | Filtered(url: string)
    | Duplicate(url: string)
    | Cancelled
    | StoreFailed
    | NotFound
    | NoPendingUrl

  /** `normalizeURL`'s rewrite of the parsed URL: drop the fragment and make
      an empty path `/`; every other component is kept as parsed. */
  function Normalize(u: Url): (n: Url)
    ensures n.fragment == "" && n.path != ""
    ensures n.scheme == u.scheme && n.schemeSpecific == u.schemeSpecific && n.host == u.host && n.rawQuery == u.rawQuery
    ensures u.path != "" ==> n.path == u.path
  {
    u.(fragment := "", path := if u.path == "" then "/" else u.path)
  }

  /** The textual form of a URL, in the order `URL.String` writes it
      (without its escaping and user-info handling). */
  function Render(u: Url): string
  {
    (if u.scheme != "" then u.scheme + ":" else "")
    + (if u.schemeSpecific != "" then u.schemeSpecific
       else (if u.scheme != "" || u.host != "" then "//" + u.host else "") + u.path)
    + (if u.rawQuery != "" then "?" + u.rawQuery else "")
    + (if u.fragment != "" then "#" + u.fragment else "")
  }

  /** `normalizeURL`: parse, rewrite, render. */
  function NormalizeUrl(parse: string -> Result<Url, string>, raw: string): (r: Result<string, string>)
    ensures r.Ok? <==> parse(raw).Ok?
    ensures r.Err? ==> r.error == parse(raw).error
  {
    match parse(raw)
    case Err(e) => Err(e)
    case Ok(u) => Ok(Render(Normalize(u)))
  }

  /** Normalising twice is normalising once. */
  lemma NormalizeIdempotent(u: Url)
    ensures Normalize(Normalize(u)) == Normalize(u)
  {
  }

  /** When the parser reads back the normal form it rendered, re-normalising
      the output of `normalizeURL` changes nothing. */
  lemma {:induction false} NormalizeUrlIdempotent(parse: string -> Result<Url, string>, raw: string)
    requires parse(raw).Ok?
    requires parse(Render(Normalize(parse(raw).value))) == Ok(Normalize(parse(raw).value))
    ensures NormalizeUrl(parse, NormalizeUrl(parse, raw).value) == NormalizeUrl(parse, raw)
  {
    var n := Normalize(parse(raw).value);
    NormalizeIdempotent(parse(raw).value);
    assert Normalize(n) == n;
  }

  /** A parser that reads every string as a relative path meets the read-back
      condition above on every input: its normal form renders to the path
      itself (or `/`), which it reads back as that normal form. */
  lemma PathParserReadsBack(raw: string)
    ensures var parse: string -> Result<Url, string> := (s: string) => Ok(Url("", "", "", s, "", ""));
      parse(Render(Normalize(parse(raw).value))) == Ok(Normalize(parse(raw).value))
  {
    var n := Normalize(Url("", "", "", raw, "", ""));
    assert Render(n) == n.path;
    assert n == Url("", "", "", n.path, "", "");
  }

  /** Index of the first filter, in registration order, that refuses `item`. */
  function FirstRejecting(filters: seq<UrlItem -> bool>, item: UrlItem): (r: Option<nat>)
    ensures r.Some? ==> r.value < |filters| && !filters[r.value](item)
    ensures r.Some? ==> forall j :: 0 <= j < r.value ==> filters[j](item)
    ensures r.None? <==> forall j :: 0 <= j < |filters| ==> filters[j](item)
  {
    if |filters| == 0 then None
    else if !filters[0](item) then Some(0)
    else match FirstRejecting(filters[1..], item)
      case None => None
      case Some(k) => Some(k + 1)
  }

  /** The item `AddURL` builds for an admitted URL. */
  function Candidate(url: string, depth: int, priority: int, now: int): UrlItem
  {
    UrlItem(url, depth, priority, "pending", now, now)
  }

  /** `AddURL`'s checks, in the order the source makes them; `memberFails`
      says that the store's `SIsMember` of the duplicate check fails. */
  function Admission(parsed: Result<Url, string>, depth: int, priority: int, now: int,
                     maxDepth: int, filters: seq<UrlItem -> bool>, urls: set<string>, ctxDone: bool,
                     memberFails: bool): (r: Result<UrlItem, UrlError>)
    ensures r.Ok? ==> parsed.Ok? && depth <= maxDepth && !ctxDone && !memberFails && r.value.url !in urls
    ensures r.Ok? ==> forall j :: 0 <= j < |filters| ==> filters[j](r.value)
  {
    if parsed.Err? then Err(ParseFailed(parsed.error))
    else
      var u := Render(Normalize(parsed.value));
      if depth > maxDepth then Err(TooDeep(maxDepth))
      else if FirstRejecting(filters, Candidate(u, depth, priority, now)).Some? then Err(Filtered(u))
      else if ctxDone then Err(Cancelled)
      else if memberFails then Err(StoreFailed)
      else if u in urls then Err(Duplicate(u))
      else Ok(Candidate(u, depth, priority, now))
  }

  /** A URL is admitted exactly when it parses, is no deeper than the limit
      (so `depth == maxDepth` is accepted), passes every filter, the context
      is live, the duplicate check reaches the store and its normal form is
      new; each error names the first check that failed. */
  lemma AdmissionSpec(parsed: Result<Url, string>, depth: int, priority: int, now: int,
                      maxDepth: int, filters: seq<UrlItem -> bool>, urls: set<string>, ctxDone: bool,
                      memberFails: bool)
    ensures var r := Admission(parsed, depth, priority, now, maxDepth, filters, urls, ctxDone, memberFails);
      && (r.Ok? <==>
            && parsed.Ok? && depth <= maxDepth
            && (forall j :: 0 <= j < |filters| ==> filters[j](Candidate(Render(Normalize(parsed.value)), depth, priority, now)))
            && !ctxDone && !memberFails
            && Render(Normalize(parsed.value)) !in urls)
      && (r.Ok? ==> r.value.url == Render(Normalize(parsed.value)) && r.value.depth == depth
                    && r.value.priority == priority && r.value.status == "pending")
      && (parsed.Err? ==> r == Err(ParseFailed(parsed.error)))
      && (parsed.Ok? && depth > maxDepth ==> r == Err(TooDeep(maxDepth)))
      && (parsed.Ok? && depth <= maxDepth
            && FirstRejecting(filters, Candidate(Render(Normalize(parsed.value)), depth, priority, now)).Some? ==>
            r == Err(Filtered(Render(Normalize(parsed.value)))))
      && (r == Err(Cancelled) <==>
            && parsed.Ok? && depth <= maxDepth && ctxDone
            && FirstRejecting(filters, Candidate(Render(Normalize(parsed.value)), depth, priority, now)).None?)
      && (r.Err? && r.error.Duplicate? ==>
            && parsed.Ok? && depth <= maxDepth && !ctxDone && !memberFails
            && FirstRejecting(filters, Candidate(Render(Normalize(parsed.value)), depth, priority, now)).None?
            && r.error.url == Render(Normalize(parsed.value)) && r.error.url in urls)
      && (r == Err(StoreFailed) <==>
            && parsed.Ok? && depth <= maxDepth && !ctxDone && memberFails
            && (forall j :: 0 <= j < |filters| ==> filters[j](Candidate(Render(Normalize(parsed.value)), depth, priority, now))))
  {
  }

  /** Once admitted, the same input is refused as a duplicate against any
      later set that still holds its normal form, whatever was admitted or
      popped in between (nothing removes a URL from the set). */
  lemma {:induction false} ReAddIsDuplicate(parsed: Result<Url, string>, depth: int, priority: int, now: int, later: int,
                                            maxDepth: int, filters: seq<UrlItem -> bool>, urls: set<string>, laterUrls: set<string>)
    requires Admission(parsed, depth, priority, now, maxDepth, filters, urls, false, false).Ok?
    requires Admission(parsed, depth, priority, now, maxDepth, filters, urls, false, false).value.url in laterUrls
    requires FirstRejecting(filters, Candidate(Render(Normalize(parsed.value)), depth, priority, later)).None?
    ensures var u := Admission(parsed, depth, priority, now, maxDepth, filters, urls, false, false).value.url;
      Admission(parsed, depth, priority, later, maxDepth, filters, laterUrls, false, false) == Err(Duplicate(u))
  {
  }

  /** The list `prefix:priority:<p>`. */
  function Bucket(buckets: map<int, seq<string>>, p: int): seq<string>
  {
    if p in buckets then buckets[p] else []
  }

  /** `RPush` onto bucket `p`. */
  function Enqueue(buckets: map<int, seq<string>>, p: int, url: string): (b: map<int, seq<string>>)
    ensures Bucket(b, p) == Bucket(buckets, p) + [url]
    ensures forall q :: q != p ==> Bucket(b, q) == Bucket(buckets, q)
  {
    buckets[p := Bucket(buckets, p) + [url]]
  }

  /** `LPop` from a non-empty bucket `p`. */
  function Dequeue(buckets: map<int, seq<string>>, p: int): (b: map<int, seq<string>>)
    requires Bucket(buckets, p) != []
    ensures Bucket(b, p) == Bucket(buckets, p)[1..]
    ensures forall q :: q != p ==> Bucket(b, q) == Bucket(buckets, q)
  {
    buckets[p := Bucket(buckets, p)[1..]]
  }

  /** The bucket `GetNextURL` serves when it scans from `p` down to 0 and
      the `LPop` of each priority in `failing` errs: the highest non-empty
      one in `[0, p]` whose pop succeeds. */
  function TopBucket(buckets: map<int, seq<string>>, failing: set<int>, p: int): (r: Option<int>)
    decreases if p < 0 then 0 else p + 1
    ensures r.Some? ==> 0 <= r.value <= p && Bucket(buckets, r.value) != [] && r.value !in failing
    ensures r.Some? ==> forall q :: r.value < q <= p ==> Bucket(buckets, q) == [] || q in failing
    ensures r.None? <==> forall q :: 0 <= q <= p ==> Bucket(buckets, q) == [] || q in failing
  {
    if p < 0 then None
    else if Bucket(buckets, p) != [] && p !in failing then Some(p)
    else TopBucket(buckets, failing, p - 1)
  }

  /** The item `getURLByPriority` returns: the bucket's priority, status
      pending, and no depth (depth is not stored). */
  function Served(url: string, p: int): UrlItem
  {
    UrlItem(url, 0, p, "pending", 0, 0)
  }

  /** What `GetNextURL` yields from `buckets` when the pops of `failing`
      err: the served item and the buckets after. */
  function NextUrl(buckets: map<int, seq<string>>, failing: set<int>, maxPriority: int): Option<(UrlItem, map<int, seq<string>>)>
  {
    match TopBucket(buckets, failing, maxPriority)
    case None => None
    case Some(p) => Some((Served(Bucket(buckets, p)[0], p), Dequeue(buckets, p)))
  }

  /** A bucket outside `[0, maxPriority]` is never served: pushing onto it
      does not change what `GetNextURL` returns. */
  lemma {:induction false} OutOfRangeNeverServed(buckets: map<int, seq<string>>, failing: set<int>, p: int, url: string, maxPriority: int)
    requires p < 0 || p > maxPriority
    ensures TopBucket(Enqueue(buckets, p, url), failing, maxPriority) == TopBucket(buckets, failing, maxPriority)
    decreases if maxPriority < 0 then 0 else maxPriority + 1
  {
    if maxPriority >= 0 {
      assert Bucket(Enqueue(buckets, p, url), maxPriority) == Bucket(buckets, maxPriority);
      if Bucket(buckets, maxPriority) == [] || maxPriority in failing {
        OutOfRangeNeverServed(buckets, failing, p, url, maxPriority - 1);
      }
    }
  }

  /** Failing pops can only push `GetNextURL` down: it then serves a bucket
      no higher than the one it serves when every pop succeeds, and with no
      failing pop among the non-empty buckets it serves that same one. */
  lemma {:induction false} FailuresOnlyLowerServed(buckets: map<int, seq<string>>, failing: set<int>, p: int)
    ensures TopBucket(buckets, failing, p).Some? ==>
              TopBucket(buckets, {}, p).Some? && TopBucket(buckets, failing, p).value <= TopBucket(buckets, {}, p).value
    ensures TopBucket(buckets, {}, p).Some? && TopBucket(buckets, {}, p).value !in failing ==>
              TopBucket(buckets, failing, p) == TopBucket(buckets, {}, p)
    decreases if p < 0 then 0 else p + 1
  {
    if p >= 0 && (Bucket(buckets, p) == [] || p in failing) {
      FailuresOnlyLowerServed(buckets, failing, p - 1);
    }
  }

  /** URLs admitted at priorities 5, 1, 5, 3 come out as the first 5, the
      second 5, then 3, then 1; a fifth request finds nothing. */
  lemma PriorityOrderScenario()
    ensures var b := Enqueue(Enqueue(Enqueue(Enqueue(map[], 5, "a"), 1, "b"), 5, "c"), 3, "d");
      && NextUrl(b, {}, 5).Some? && NextUrl(b, {}, 5).value.0 == Served("a", 5)
      && var b1 := NextUrl(b, {}, 5).value.1;
      && NextUrl(b1, {}, 5).Some? && NextUrl(b1, {}, 5).value.0 == Served("c", 5)
      && var b2 := NextUrl(b1, {}, 5).value.1;
      && NextUrl(b2, {}, 5).Some? && NextUrl(b2, {}, 5).value.0 == Served("d", 3)
      && var b3 := NextUrl(b2, {}, 5).value.1;
      && NextUrl(b3, {}, 5).Some? && NextUrl(b3, {}, 5).value.0 == Served("b", 1)
      && NextUrl(NextUrl(b3, {}, 5).value.1, {}, 5).None?
  {
    var b := Enqueue(Enqueue(Enqueue(Enqueue(map[], 5, "a"), 1, "b"), 5, "c"), 3, "d");
    assert Bucket(b, 5) == ["a", "c"];
    assert Bucket(b, 3) == ["d"] && Bucket(b, 1) == ["b"];
    assert Bucket(b, 4) == [] && Bucket(b, 2) == [] && Bucket(b, 0) == [];
    assert TopBucket(b, {}, 5) == Some(5);
    var b1 := Dequeue(b, 5);
    assert Bucket(b1, 5) == ["c"];
    assert TopBucket(b1, {}, 5) == Some(5);
    var b2 := Dequeue(b1, 5);
    assert Bucket(b2, 5) == [] && Bucket(b2, 4) == [] && Bucket(b2, 3) == ["d"];
    assert TopBucket(b2, {}, 5) == Some(3);
    var b3 := Dequeue(b2, 3);
    assert Bucket(b3, 3) == [] && Bucket(b3, 2) == [] && Bucket(b3, 1) == ["b"];
    assert TopBucket(b3, {}, 5) == Some(1);
    var b4 := Dequeue(b3, 1);
    assert forall q :: 0 <= q <= 5 ==> Bucket(b4, q) == [];
  }

  class UrlController {
    const config: Config
    const parse: string -> Result<Url, string>
    /** The keys `prefix:url:<u>`: read by `UpdateStatus`, written by no
        operation of the controller. */
    const records: map<string, UrlItem>
    var filters: seq<UrlItem -> bool>
    var urls: set<string>
    var buckets: map<int, seq<string>>

    /** `NewURLController` (the metrics collector is not started here). */
    constructor (config: Config, parse: string -> Result<Url, string>, records: map<string, UrlItem>)
      ensures this.config == config && this.parse == parse && this.records == records
      ensures filters == [] && urls == {} && buckets == map[]
    {
      this.config := config;
      this.parse := parse;
      this.records := records;
      filters := [];
      urls := {};
      buckets := map[];
    }

    /** `AddFilter`: filters run in registration order. */
    method AddFilter(f: UrlItem -> bool)
      modifies this`filters
      ensures filters == old(filters) + [f]
    {
      filters := filters + [f];
    }

    /** `exists`: membership in the dedup set after the context check; a
        failing `SIsMember` is a store error. */
    method Exists(ctxDone: bool, url: string, memberFails: bool) returns (r: Result<bool, UrlError>)
      ensures ctxDone ==> r == Err(Cancelled)
      ensures !ctxDone && memberFails ==> r == Err(StoreFailed)
      ensures !ctxDone && !memberFails ==> r == Ok(url in urls)
    {
      if ctxDone {
        return Err(Cancelled);
      }
      if memberFails {
        return Err(StoreFailed);
      }
      return Ok(url in urls);
    }

    /** `saveURL`: add to the dedup set, then append to the priority bucket.
        A failing `SAdd` changes nothing; a failing append leaves the URL in
        the set but in no bucket. */
    method SaveUrl(ctxDone: bool, item: UrlItem, addFails: bool, pushFails: bool) returns (err: Option<UrlError>)
      modifies this`urls, this`buckets
      ensures ctxDone || addFails ==> urls == old(urls) && buckets == old(buckets)
      ensures ctxDone ==> err == Some(Cancelled)
      ensures !ctxDone && addFails ==> err == Some(StoreFailed)
      ensures !ctxDone && !addFails ==> urls == old(urls) + {item.url}
      ensures !ctxDone && !addFails && pushFails ==> err == Some(StoreFailed) && buckets == old(buckets)
      ensures !ctxDone && !addFails && !pushFails ==> err.None? && buckets == Enqueue(old(buckets), item.priority, item.url)
    {
      if ctxDone {
        return Some(Cancelled);
      }
      if addFails {
        return Some(StoreFailed);
      }
      urls := urls + {item.url};
      if pushFails {
        return Some(StoreFailed);
      }
      buckets := Enqueue(buckets, item.priority, item.url);
      return None;
    }

    /** `AddURL`: the checks of `Admission` in order, then `saveURL`. Every
        rejection, including a failing duplicate check, leaves the set and
        the buckets as they were. */
    method AddURL(ctxDone: bool, rawURL: string, depth: int, priority: int, now: int,
                  memberFails: bool, addFails: bool, pushFails: bool) returns (err: Option<UrlError>)
      modifies this`urls, this`buckets
      ensures var a := Admission(parse(rawURL), depth, priority, now, config.maxDepth, filters, old(urls), ctxDone, memberFails);
        && (a.Err? ==> err == Some(a.error) && urls == old(urls) && buckets == old(buckets))
        && (a.Ok? && addFails ==> err == Some(StoreFailed) && urls == old(urls) && buckets == old(buckets))
        && (a.Ok? && !addFails ==> urls == old(urls) + {a.value.url})
        && (a.Ok? && !addFails && pushFails ==> err == Some(StoreFailed) && buckets == old(buckets))
        && (a.Ok? && !addFails && !pushFails ==> err.None? && buckets == Enqueue(old(buckets), priority, a.value.url))
    {
      var parsed := parse(rawURL);
      if parsed.Err? {
        return Some(ParseFailed(parsed.error));
      }
      var u := Render(Normalize(parsed.value));
      if depth > config.maxDepth {
        return Some(TooDeep(config.maxDepth));
      }
      var item := Candidate(u, depth, priority, now);
      for i := 0 to |filters|
        invariant forall j :: 0 <= j < i ==> filters[j](item)
      {
        if !filters[i](item) {
          return Some(Filtered(u));
        }
      }
      var seen := Exists(ctxDone, u, memberFails);
      if seen.Err? {
        return Some(seen.error);
      }
      if seen.value {
        return Some(Duplicate(u));
      }
      err := SaveUrl(ctxDone, item, addFails, pushFails);
    }

    /** `getURLByPriority`: pop the head of bucket `p`; a failing `LPop` is
        a store error and an empty bucket yields nothing. */
    method GetUrlByPriority(ctxDone: bool, p: int, popFails: bool) returns (r: Result<UrlItem, UrlError>)
      modifies this`buckets
      ensures ctxDone ==> r == Err(Cancelled) && buckets == old(buckets)
      ensures !ctxDone && popFails ==> r == Err(StoreFailed) && buckets == old(buckets)
      ensures !ctxDone && !popFails && Bucket(old(buckets), p) == [] ==> r == Err(NoPendingUrl) && buckets == old(buckets)
      ensures !ctxDone && !popFails && Bucket(old(buckets), p) != [] ==>
                r == Ok(Served(Bucket(old(buckets), p)[0], p)) && buckets == Dequeue(old(buckets), p)
    {
      if ctxDone {
        return Err(Cancelled);
      }
      if popFails {
        return Err(StoreFailed);
      }
      var list := Bucket(buckets, p);
      if list == [] {
        return Err(NoPendingUrl);
      }
      buckets := Dequeue(buckets, p);
      return Ok(Served(list[0], p));
    }

    /** `GetNextURL`: try the buckets from `MaxPriority` down to 0 and serve
        the first that yields; a bucket whose pop errs (those in `failing`)
        is skipped, and with a done context every attempt fails. */
    method GetNextURL(ctxDone: bool, failing: set<int>) returns (r: Result<UrlItem, UrlError>)
      modifies this`buckets
      ensures ctxDone || NextUrl(old(buckets), failing, config.maxPriority).None? ==>
                r == Err(NoPendingUrl) && buckets == old(buckets)
      ensures !ctxDone && NextUrl(old(buckets), failing, config.maxPriority).Some? ==>
                && r == Ok(NextUrl(old(buckets), failing, config.maxPriority).value.0)
                && buckets == NextUrl(old(buckets), failing, config.maxPriority).value.1
    {
      var p := config.maxPriority;
      while p >= 0
        invariant buckets == old(buckets)
        invariant !ctxDone ==> TopBucket(buckets, failing, config.maxPriority) == TopBucket(buckets, failing, p)
        decreases p + 1
      {
        var got := GetUrlByPriority(ctxDone, p, p in failing);
        if got.Ok? {
          return got;
        }
        p := p - 1;
      }
      return Err(NoPendingUrl);
    }

    /** `getURLItem`: read the stored record of `url`. */
    method GetUrlItem(ctxDone: bool, url: string) returns (r: Result<UrlItem, UrlError>)
      ensures ctxDone ==> r == Err(Cancelled)
      ensures !ctxDone && url !in records ==> r == Err(NotFound)
      ensures !ctxDone && url in records ==> r == Ok(records[url])
    {
      if ctxDone {
        return Err(Cancelled);
      }
      if url !in records {
        return Err(NotFound);
      }
      return Ok(records[url]);
    }

    /** `UpdateStatus`: read the record, restamp it and `saveURL` it again,
        which appends its URL to its bucket once more. The updated record
        itself is not written back. */
    method UpdateStatus(ctxDone: bool, url: string, status: string, now: int, addFails: bool, pushFails: bool) returns (err: Option<UrlError>)
      modifies this`urls, this`buckets
      ensures ctxDone ==> err == Some(Cancelled) && urls == old(urls) && buckets == old(buckets)
      ensures !ctxDone && url !in records ==> err == Some(NotFound) && urls == old(urls) && buckets == old(buckets)
      ensures !ctxDone && url in records && addFails ==>
                err == Some(StoreFailed) && urls == old(urls) && buckets == old(buckets)
      ensures !ctxDone && url in records && !addFails ==>
                && urls == old(urls) + {records[url].url}
                && (pushFails ==> err == Some(StoreFailed) && buckets == old(buckets))
                && (!pushFails ==> err.None? && buckets == Enqueue(old(buckets), records[url].priority, records[url].url))
    {
      var got := GetUrlItem(ctxDone, url);
      if got.Err? {
        return Some(got.error);
      }
      var item := got.value.(status := status, updatedAt := now);
      err := SaveUrl(ctxDone, item, addFails, pushFails);
    }
  }
}
