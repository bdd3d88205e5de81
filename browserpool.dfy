/**
  The JavaScript renderer's browser pool and metrics: browser contexts are
  handed out round-robin, every rendering call is counted and timed, and a
  periodic collector derives the success count.

  A browser context is represented by the number of the slot it was created
  for; rendering itself is not modelled.
*/
module Rendering {
  import opened Wrappers
  import Averages

  /** pkg/js/config.go. */
  datatype Config = Config(poolSize: int, pageTimeout: int, metricsInterval: int)

  /** A browser context, created by `chromedp.NewContext` for one slot. */
  datatype BrowserContext = BrowserContext(slot: nat)

  /** The slot `acquire` moves to after `current`. */
  function NextSlot(current: nat, size: nat): (n: nat)
    requires current < size
    ensures n == if current + 1 == size then 0 else current + 1
  {
    ModSmall(current + 1, size);
    (current + 1) % size
  }

  lemma ModSmall(x: nat, size: nat)
    requires 0 < x <= size
    ensures x % size == if x == size then 0 else x
  {
  }

  /** The slot after `k` acquisitions starting from slot 0. */
  function SlotAfter(k: nat, size: nat): (s: nat)
    requires size > 0
    ensures s < size
  {
    if k == 0 then 0 else NextSlot(SlotAfter(k - 1, size), size)
  }

  /** During the first `size` acquisitions the slots are handed out in
      index order. */
  lemma {:induction false} FirstLap(k: nat, size: nat)
    requires k < size
    ensures SlotAfter(k, size) == k
  {
    if k > 0 {
      FirstLap(k - 1, size);
    }
  }

  /** After `size` acquisitions the pool is back where it started: the
      slot sequence repeats with period `size`. */
  lemma {:induction false} RoundRobin(k: nat, size: nat)
    requires size > 0
    ensures SlotAfter(k + size, size) == SlotAfter(k, size)
  {
    if k == 0 {
      FirstLap(size - 1, size);
      assert SlotAfter(size, size) == NextSlot(size - 1, size);
    } else {
      RoundRobin(k - 1, size);
      assert SlotAfter(k + size, size) == NextSlot(SlotAfter(k - 1 + size, size), size);
    }
  }

  class BrowserPool {
    const contexts: array<BrowserContext>
    var current: int
    const size: int

    ghost predicate Valid()
      reads this
    {
      && contexts.Length == size
      && (if size == 0 then current == 0 else 0 <= current < size)
    }

    constructor (size: nat)
      ensures Valid() && fresh(contexts)
      ensures this.size == size && current == 0
      ensures forall i :: 0 <= i < size ==> contexts[i] == BrowserContext(i)
    {
      this.size := size;
      current := 0;
      contexts := new BrowserContext[size](i => BrowserContext(i));
    }

    /** `acquire`: the context in the current slot, advancing the slot
        round-robin. An empty pool panics on the index (no context). */
    method Acquire() returns (r: Option<BrowserContext>)
      requires Valid()
      modifies this`current
      ensures Valid()
      ensures size == 0 ==> r.None? && current == old(current)
      ensures size > 0 ==> r == Some(contexts[old(current)]) && current == NextSlot(old(current), size)
    {
      if size == 0 {
        return None;
      }
      var ctx := contexts[current];
      current := (current + 1) % size;
      return Some(ctx);
    }
  }

  /** `newBrowserPool`: one fresh context per slot, the current slot 0; a
      negative size makes the slice allocation panic. */
  method NewBrowserPool(size: int) returns (r: Option<BrowserPool>)
    ensures size < 0 ==> r.None?
    ensures size >= 0 ==>
              && r.Some? && fresh(r.value) && r.value.Valid()
              && r.value.size == size && r.value.current == 0
              && forall i :: 0 <= i < size ==> r.value.contexts[i] == BrowserContext(i)
  {
    if size < 0 {
      return None;
    }
    var pool := new BrowserPool(size);
    return Some(pool);
  }

  /** The renderer's metrics. */
  class Metrics {
    var totalRequests: nat
    var successRequests: int
    var failedRequests: int
    var averageLoadTime: int

    /** Nothing in the renderer counts a failure. */
    ghost predicate Valid()
      reads this
    {
      failedRequests == 0
    }

    constructor ()
      ensures Valid()
      ensures totalRequests == 0 && successRequests == 0 && failedRequests == 0 && averageLoadTime == 0
    {
      totalRequests := 0;
      successRequests := 0;
      failedRequests := 0;
      averageLoadTime := 0;
    }

    /** `updateMetrics`: one more request; fold its duration in as written
        (with the count already incremented). */
    method UpdateMetrics(duration: nat)
      requires Valid()
      modifies this`totalRequests, this`averageLoadTime
      ensures Valid()
      ensures totalRequests == old(totalRequests) + 1
      ensures averageLoadTime == Averages.AsWritten(old(averageLoadTime), totalRequests, duration)
    {
      totalRequests := totalRequests + 1;
      averageLoadTime := (averageLoadTime * totalRequests + duration) / (totalRequests + 1);
    }

    /** One tick of the collector: with any requests counted, the success
        count becomes total minus failed, which is the total since nothing
        counts failures. */
    method CollectorTick()
      requires Valid()
      modifies this`successRequests
      ensures Valid()
      ensures totalRequests > 0 ==> successRequests == totalRequests - failedRequests == totalRequests
      ensures totalRequests == 0 ==> successRequests == old(successRequests)
    {
      if totalRequests > 0 {
        successRequests := totalRequests - failedRequests;
      }
    }
  }
}
