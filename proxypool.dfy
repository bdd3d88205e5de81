/**
  The in-memory proxy list: proxies are appended after their URL parses,
  handed out first-available-first, and removed by URL (first match only).
  `url.Parse`'s verdict is a parameter of `AddProxy`.
*/
module ProxyPool {
  import opened Wrappers

  datatype Proxy = Proxy(url: string, protocol: string, available: bool)

  /** The pool configuration (`BatchSize` is not read by the list operations). */
  datatype Config = Config(batchSize: int, timeout: int)

  /** Index of the first available proxy. */
  function FirstAvailable(ps: seq<Proxy>): (r: Option<nat>)
    ensures r.Some? ==> r.value < |ps| && ps[r.value].available
    ensures r.Some? ==> forall j :: 0 <= j < r.value ==> !ps[j].available
    ensures r.None? <==> forall j :: 0 <= j < |ps| ==> !ps[j].available
  {
    if |ps| == 0 then None
    else if ps[0].available then Some(0)
    else match FirstAvailable(ps[1..])
      case None => None
      case Some(k) => Some(k + 1)
  }

  /** The list without its first proxy whose URL is `url`. */
  function RemoveFirst(ps: seq<Proxy>, url: string): (r: seq<Proxy>)
    ensures |r| == |ps| || |r| == |ps| - 1
  {
    if |ps| == 0 then []
    else if ps[0].url == url then ps[1..]
    else [ps[0]] + RemoveFirst(ps[1..], url)
  }

  /** With no proxy for `url`, removing it changes nothing. */
  lemma {:induction false} RemoveAbsent(ps: seq<Proxy>, url: string)
    requires forall j :: 0 <= j < |ps| ==> ps[j].url != url
    ensures RemoveFirst(ps, url) == ps
  {
    if |ps| > 0 {
      RemoveAbsent(ps[1..], url);
    }
  }

  /** When `i` is the first proxy for `url`, removing `url` splices out
      exactly index `i` and keeps the others in order. */
  lemma {:induction false} RemoveFirstMatch(ps: seq<Proxy>, url: string, i: nat)
    requires i < |ps| && ps[i].url == url
    requires forall j :: 0 <= j < i ==> ps[j].url != url
    ensures RemoveFirst(ps, url) == ps[..i] + ps[i + 1..]
  {
    if i > 0 {
      RemoveFirstMatch(ps[1..], url, i - 1);
      assert ps[1..][..i - 1] == ps[1..i];
      assert [ps[0]] + ps[1..i] == ps[..i];
      assert ps[1..][i..] == ps[i + 1..];
    }
  }

  /** Adding a proxy whose URL is new and then removing that URL gives the
      list back; from an empty pool, the pool is empty again. */
  lemma {:induction false} AddThenRemove(ps: seq<Proxy>, p: Proxy)
    requires forall j :: 0 <= j < |ps| ==> ps[j].url != p.url
    ensures RemoveFirst(ps + [p], p.url) == ps
  {
    RemoveFirstMatch(ps + [p], p.url, |ps|);
    assert (ps + [p])[..|ps|] == ps;
  }

  class ProxyPool {
    var proxies: seq<Proxy>
    var timeout: int

    /** `NewProxyPool`: an empty list. */
    constructor (config: Config)
      ensures proxies == [] && timeout == config.timeout
    {
      proxies := [];
      timeout := config.timeout;
    }

    /** `AddProxy`: append one available proxy when the URL parses. */
    method AddProxy(proxyUrl: string, protocol: string, parses: bool) returns (err: Option<string>)
      modifies this`proxies
      ensures !parses ==> err.Some? && proxies == old(proxies)
      ensures parses ==> err.None? && proxies == old(proxies) + [Proxy(proxyUrl, protocol, true)]
    {
      if !parses {
        return Some("invalid proxy url");
      }
      proxies := proxies + [Proxy(proxyUrl, protocol, true)];
      return None;
    }

    /** `GetProxy`: the first available proxy in list order, if any. */
    method GetProxy() returns (r: Option<Proxy>)
      ensures r.None? <==> forall j :: 0 <= j < |proxies| ==> !proxies[j].available
      ensures r.Some? ==> exists i :: 0 <= i < |proxies| && r.value == proxies[i]
                                     && forall j :: 0 <= j < i ==> !proxies[j].available
      ensures r.Some? ==> r.value.available
      ensures r == (match FirstAvailable(proxies) case Some(i) => Some(proxies[i]) case None => None)
    {
      for i := 0 to |proxies|
        invariant forall j :: 0 <= j < i ==> !proxies[j].available
      {
        if proxies[i].available {
          return Some(proxies[i]);
        }
      }
      return None;
    }

    /** `RemoveProxy`: splice out the first proxy with this URL. */
    method RemoveProxy(proxyUrl: string)
      modifies this`proxies
      ensures proxies == RemoveFirst(old(proxies), proxyUrl)
    {
      for i := 0 to |proxies|
        invariant proxies == old(proxies)
        invariant forall j :: 0 <= j < i ==> proxies[j].url != proxyUrl
      {
        if proxies[i].url == proxyUrl {
          RemoveFirstMatch(proxies, proxyUrl, i);
          proxies := proxies[..i] + proxies[i + 1..];
          return;
        }
      }
      RemoveAbsent(proxies, proxyUrl);
    }
  }
}
