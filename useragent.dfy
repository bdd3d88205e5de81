/**
  User-agent selection: agents are cached by device type, and a request for
  a type draws one of its agents with probability proportional to its
  weight (uniformly when all weights sum to zero), falling back to the
  configured default when the type has no agents.

  `rand.Intn` is the parameter `intn`, which answers in `[0, n)` for every
  positive `n`; the Mongo rule collection is the field `savedRules`.
*/
module UserAgents {
  import opened Wrappers

  /** The configuration fields the controller reads. */
  datatype Config = Config(defaultUA: string, database: string, collection: string, updateInterval: int)

  datatype UserAgent = UserAgent(
    value: string,
    deviceType: string,
    browser: string,
    os: string,
    version: string,
    updateTime: int,
    weight: int)

  datatype Rule = Rule(pattern: string, types: seq<string>, replacement: string, weight: int)

  /** What `GetRandomUA` does: answer an agent string, or panic because
      `rand.Intn` was asked for a non-positive bound. */
  datatype Pick = Picked(ua: string) | Panicked

  /** Sum of the weights of the first `k` agents. */
  function PrefixWeight(uas: seq<UserAgent>, k: nat): int
    requires k <= |uas|
  {
    if k == 0 then 0 else PrefixWeight(uas, k - 1) + uas[k - 1].weight
  }

  /** The first index at or after `k` whose running weight sum exceeds `r`,
      when none of the first `k` running sums does. It exists because the
      total exceeds `r`. */
  function FirstAbove(uas: seq<UserAgent>, r: int, k: nat): (i: nat)
    requires 0 <= r < PrefixWeight(uas, |uas|) && k <= |uas|
    requires forall j :: 0 < j <= k ==> PrefixWeight(uas, j) <= r
    decreases |uas| - k
    ensures k <= i < |uas| && PrefixWeight(uas, i + 1) > r
    ensures forall j :: 0 < j <= i ==> PrefixWeight(uas, j) <= r
  {
    if k == |uas| then
      assert false; k
    else if PrefixWeight(uas, k + 1) > r then k
    else FirstAbove(uas, r, k + 1)
  }

  /** The index the weighted draw `r` selects. */
  function WeightedIndex(uas: seq<UserAgent>, r: int): (i: nat)
    requires 0 <= r < PrefixWeight(uas, |uas|)
    ensures i < |uas|
  {
    FirstAbove(uas, r, 0)
  }

  /** The draw `r` selects `i` exactly when `i` is the first agent whose
      running weight sum exceeds `r`, whatever the signs of the weights. */
  lemma WeightedIndexUnique(uas: seq<UserAgent>, r: int, i: nat)
    requires 0 <= r < PrefixWeight(uas, |uas|) && i < |uas|
    requires PrefixWeight(uas, i + 1) > r
    requires forall j :: 0 < j <= i ==> PrefixWeight(uas, j) <= r
    ensures WeightedIndex(uas, r) == i
  {
  }

  /** With non-negative weights the running sums never decrease. */
  lemma {:induction false} PrefixMonotone(uas: seq<UserAgent>, j: nat, k: nat)
    requires j <= k <= |uas|
    requires forall x :: 0 <= x < |uas| ==> uas[x].weight >= 0
    ensures PrefixWeight(uas, j) <= PrefixWeight(uas, k)
    decreases k - j
  {
    if j < k {
      PrefixMonotone(uas, j, k - 1);
    }
  }

  /** With non-negative weights, agent `i` is chosen exactly for the draws in
      `[PrefixWeight(i), PrefixWeight(i+1))`, an interval of `weight` draws
      out of the total: the choice is proportional to weight, and an agent of
      weight 0 is never chosen. */
  lemma {:induction false} WeightedIndexInterval(uas: seq<UserAgent>, r: int, i: nat)
    requires 0 <= r < PrefixWeight(uas, |uas|) && i < |uas|
    requires forall x :: 0 <= x < |uas| ==> uas[x].weight >= 0
    ensures WeightedIndex(uas, r) == i <==> PrefixWeight(uas, i) <= r < PrefixWeight(uas, i + 1)
  {
    var w := WeightedIndex(uas, r);
    if w == i {
      if i > 0 {
        assert PrefixWeight(uas, i) <= r;
      }
    } else if PrefixWeight(uas, i) <= r < PrefixWeight(uas, i + 1) {
      forall j | 0 < j <= i
        ensures PrefixWeight(uas, j) <= r
      {
        PrefixMonotone(uas, j, i);
      }
      WeightedIndexUnique(uas, r, i);
    }
  }

  /** The agents of type `t`, in input order. */
  function OfType(uas: seq<UserAgent>, t: string): (r: seq<UserAgent>)
    ensures |r| <= |uas|
    ensures forall i :: 0 <= i < |r| ==> r[i].deviceType == t
  {
    if |uas| == 0 then []
    else OfType(uas[..|uas| - 1], t) + (if uas[|uas| - 1].deviceType == t then [uas[|uas| - 1]] else [])
  }

  /** An agent of type `t` is kept by `OfType`, and only those are. */
  lemma {:induction false} OfTypeKeepsMembers(uas: seq<UserAgent>, t: string, x: UserAgent)
    ensures x in OfType(uas, t) <==> x in uas && x.deviceType == t
  {
    if |uas| > 0 {
      OfTypeKeepsMembers(uas[..|uas| - 1], t, x);
      assert uas == uas[..|uas| - 1] + [uas[|uas| - 1]];
    }
  }

  /** The device types present in `uas`. */
  function Types(uas: seq<UserAgent>): set<string>
  {
    set i | 0 <= i < |uas| :: uas[i].deviceType
  }

  /** Appending one agent adds its type and extends only its own group. */
  lemma GroupStep(s: seq<UserAgent>, x: UserAgent)
    ensures Types(s + [x]) == Types(s) + {x.deviceType}
    ensures forall t :: OfType(s + [x], t) == OfType(s, t) + (if x.deviceType == t then [x] else [])
  {
    assert (s + [x])[..|s|] == s;
    forall t | t in Types(s)
      ensures t in Types(s + [x])
    {
      var i :| 0 <= i < |s| && s[i].deviceType == t;
      assert (s + [x])[i] == s[i];
    }
    assert (s + [x])[|s|] == x;
  }

  class UserAgentController {
    const config: Config
    var uaCache: map<string, seq<UserAgent>>
    var customRules: seq<Rule>
    /** The `<collection>_rules` Mongo collection. */
    var savedRules: seq<Rule>

    /** `NewUserAgentController` up to its initial `loadUserAgents`, which is
        not run here: a successful load is `UpdateCache` of the loaded list. */
    constructor (config: Config)
      ensures this.config == config && uaCache == map[] && customRules == [] && savedRules == []
    {
      this.config := config;
      uaCache := map[];
      customRules := [];
      savedRules := [];
    }

    /** `GetUAsByType`: the cached list of the type, or nil. */
    function GetUAsByType(deviceType: string): (r: Option<seq<UserAgent>>)
      reads this`uaCache
      ensures r.Some? <==> deviceType in uaCache
      ensures r.Some? ==> r.value == uaCache[deviceType]
    {
      if deviceType in uaCache then Some(uaCache[deviceType]) else None
    }

    /** `GetRandomUA`. The default for an unknown or empty type; a uniform
        draw when the weights sum to 0; a panic when they sum below 0;
        otherwise the weighted draw, which always lands on an agent. */
    method GetRandomUA(deviceType: string, intn: nat -> int) returns (p: Pick)
      requires forall n: nat :: n > 0 ==> 0 <= intn(n) < n
      ensures deviceType !in uaCache || uaCache[deviceType] == [] ==> p == Picked(config.defaultUA)
      ensures deviceType in uaCache && uaCache[deviceType] != [] ==>
                var uas := uaCache[deviceType];
                var total := PrefixWeight(uas, |uas|);
                && (total == 0 ==> p == Picked(uas[intn(|uas|)].value))
                && (total < 0 ==> p == Panicked)
                && (total > 0 ==> p == Picked(uas[WeightedIndex(uas, intn(total))].value))
    {
      if deviceType !in uaCache || uaCache[deviceType] == [] {
        return Picked(config.defaultUA);
      }
      var uas := uaCache[deviceType];
      var total := 0;
      for i := 0 to |uas|
        invariant total == PrefixWeight(uas, i)
      {
        total := total + uas[i].weight;
      }
      if total == 0 {
        return Picked(uas[intn(|uas|)].value);
      }
      if total < 0 {
        return Panicked;
      }
      var r := intn(total);
      ghost var draw := r;
      for i := 0 to |uas|
        invariant r == draw - PrefixWeight(uas, i)
        invariant forall j :: 0 < j <= i ==> PrefixWeight(uas, j) <= draw
      {
        r := r - uas[i].weight;
        if r < 0 {
          WeightedIndexUnique(uas, draw, i);
          return Picked(uas[i].value);
        }
      }
      assert false;
      return Picked(config.defaultUA);
    }

    /** `updateCache`: regroup `uas` by type, keeping input order within a
        type; only the types present become keys. */
    method UpdateCache(uas: seq<UserAgent>)
      modifies this`uaCache
      ensures uaCache.Keys == Types(uas)
      ensures forall t :: t in uaCache ==> uaCache[t] == OfType(uas, t)
    {
      var grouped: map<string, seq<UserAgent>> := map[];
      for i := 0 to |uas|
        invariant grouped.Keys == Types(uas[..i])
        invariant forall t :: t in grouped ==> grouped[t] == OfType(uas[..i], t)
        invariant forall t :: t !in grouped ==> OfType(uas[..i], t) == []
      {
        var ua := uas[i];
        assert uas[..i + 1] == uas[..i] + [ua];
        GroupStep(uas[..i], ua);
        var group := if ua.deviceType in grouped then grouped[ua.deviceType] else [];
        grouped := grouped[ua.deviceType := group + [ua]];
      }
      assert uas[..|uas|] == uas;
      uaCache := grouped;
    }

    /** `AddCustomRule` with `saveCustomRules`: an empty pattern is refused
        and nothing changes; otherwise the rule is appended and stays
        appended even if saving fails. Saving drops the rule collection and
        inserts all rules; a failed insert leaves the collection empty. */
    method AddCustomRule(rule: Rule, dropFails: bool, insertFails: bool) returns (err: Option<string>)
      modifies this`customRules, this`savedRules
      ensures rule.pattern == "" ==> err.Some? && customRules == old(customRules) && savedRules == old(savedRules)
      ensures rule.pattern != "" ==> customRules == old(customRules) + [rule]
      ensures rule.pattern != "" && dropFails ==> err.Some? && savedRules == old(savedRules)
      ensures rule.pattern != "" && !dropFails && insertFails ==> err.Some? && savedRules == []
      ensures rule.pattern != "" && !dropFails && !insertFails ==> err.None? && savedRules == customRules
    {
      if rule.pattern == "" {
        return Some("empty rule pattern");
      }
      customRules := customRules + [rule];
      if dropFails {
        return Some("drop failed");
      }
      savedRules := [];
      if insertFails {
        return Some("insert failed");
      }
      savedRules := customRules;
      return None;
    }
  }
}
