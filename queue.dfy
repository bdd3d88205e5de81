/**
  The durable work queue.

  Producers `Push` payloads onto the store list `prefix + "pending"`; a worker
  pops the head, marks the item `processing` (pushing a copy onto
  `prefix + "processing"`), dispatches it to the handler registered for the
  payload's `"type"` field, and archives it as completed or, on failure,
  either re-pushes its payload as a brand-new item or archives it as failed.

  The store lists are `seq`s keyed by status (the key is `prefix + <status>`),
  the two archive collections are `seq`s in insertion order. Item ids, clock
  readings, handler results and store failures are parameters.
*/
module WorkQueue {
  import opened Wrappers
  import Averages

  /** pkg/queue/config.go. */
  datatype Config = Config(
    workerCount: int,
    maxRetries: int,
    batchSize: int,
    redisKeyPrefix: string,
    mongoDatabase: string,
    mongoCollection: string)

  /** A decoded JSON payload (the source's `interface{}`). */
  datatype Value =
    | Str(s: string)
    | Num(n: int)
    | Bool(b: bool)
    | Obj(fields: map<string, Value>)
    | Arr(elems: seq<Value>)
    | Null

  /** The item's status string: "pending", "processing", "completed", "failed". */
  datatype Status = Pending | Processing | Completed | Failed

  datatype Item = Item(
    id: string,
    data: Value,
    status: Status,
    retries: int,
    createdAt: int,
    updatedAt: int,
    error: string)

  /** Opaque identity of a registered handler object. */
  datatype Handler = Handler(ref: nat)

  /** Why an operation reports an error. */
  datatype QueueError =
    | StoreFailed        // a store push/pop failed
    | EmptyList          // LPop on an empty list
    | NoHandler          // no handler is registered for the payload's type
    | HandlerFailed(msg: string)

  /** The item `Push` creates: a fresh id, status pending, no retries. */
  function NewItem(id: string, data: Value, now: int): (it: Item)
    ensures it.id == id && it.data == data
    ensures it.status == Pending && it.retries == 0
  {
    Item(id, data, Pending, 0, now, now, "")
  }

  /** The handler-registry key of a payload: its `"type"` field when the
      payload is an object whose `"type"` is a string. */
  function TypeOf(data: Value): (t: Option<string>)
    ensures t.Some? <==> data.Obj? && "type" in data.fields && data.fields["type"].Str?
    ensures t.Some? ==> t.value == data.fields["type"].s
  {
    match data
    case Obj(fields) =>
      if "type" in fields && fields["type"].Str? then Some(fields["type"].s) else None
    case _ => None
  }

  /** What `handleFailure` does with an item after `retries` was incremented:
      true re-pushes its payload, false archives it as failed. */
  function RetriesLeft(retriesAfterFailure: int, maxRetries: int): bool
  {
    retriesAfterFailure < maxRetries
  }

  /** The number of handler invocations an item whose handler always fails
      gets before it is archived as failed, starting from an item with
      `retries` retries and looking at most `fuel` invocations ahead (`None`:
      not archived within them). `carry` says whether the item that goes
      back to the pending list keeps its incremented count; `handleFailure`
      pushes the bare payload, which is `carry == false`. */
  function InvocationsUntilArchived(retries: int, maxRetries: int, carry: bool, fuel: nat): Option<nat>
    decreases fuel
  {
    if fuel == 0 then None
    else if !RetriesLeft(retries + 1, maxRetries) then Some(1)
    else match InvocationsUntilArchived(if carry then retries + 1 else 0, maxRetries, carry, fuel - 1)
      case None => None
      case Some(k) => Some(k + 1)
  }

  /** As written, with `MaxRetries >= 2` an always-failing payload is never
      archived, however many times it is processed: each re-pushed item
      starts again from `Retries = 0`, so every failure takes the same
      decision as the first. */
  lemma {:induction false} AlwaysFailingNeverArchived(maxRetries: int, fuel: nat)
    requires maxRetries >= 2
    ensures InvocationsUntilArchived(0, maxRetries, false, fuel).None?
  {
    if fuel > 0 {
      AlwaysFailingNeverArchived(maxRetries, fuel - 1);
    }
  }

  /** When the re-pushed item keeps its count, an always-failing item that
      has `retries` retries is archived after exactly `maxRetries - retries`
      more invocations. */
  lemma {:induction false} CarriedRetriesReachCeiling(retries: int, maxRetries: int, fuel: nat)
    requires retries < maxRetries && fuel >= maxRetries - retries
    ensures InvocationsUntilArchived(retries, maxRetries, true, fuel) == Some(maxRetries - retries)
    decreases maxRetries - retries
  {
    if RetriesLeft(retries + 1, maxRetries) {
      CarriedRetriesReachCeiling(retries + 1, maxRetries, fuel - 1);
    }
  }

  /** With the count carried but the comparison kept as written, a new item
      is archived after exactly `MaxRetries` invocations (one when
      `MaxRetries <= 1`): this minimal fix still stops one retry short of
      `MaxRetries` retries. */
  lemma RetryCeiling(maxRetries: int, fuel: nat)
    requires fuel >= maxRetries && fuel >= 1
    ensures InvocationsUntilArchived(0, maxRetries, true, fuel) == Some(if maxRetries >= 1 then maxRetries else 1)
  {
    if maxRetries >= 1 {
      CarriedRetriesReachCeiling(0, maxRetries, fuel);
    }
  }

  /** The comparison the retry ceiling calls for: an item that has now
      failed `retriesAfterFailure` times is retried while that number of
      retries does not exceed `maxRetries`. */
  function RetriesLeftIntended(retriesAfterFailure: int, maxRetries: int): bool
  {
    retriesAfterFailure <= maxRetries
  }

  /** The number of handler invocations of an always-failing item under the
      corrected policy: the count is carried and compared with
      `RetriesLeftIntended` (`None`: not archived within `fuel`). */
  function IntendedInvocations(retries: int, maxRetries: int, fuel: nat): Option<nat>
    decreases fuel
  {
    if fuel == 0 then None
    else if !RetriesLeftIntended(retries + 1, maxRetries) then Some(1)
    else match IntendedInvocations(retries + 1, maxRetries, fuel - 1)
      case None => None
      case Some(k) => Some(k + 1)
  }

  /** Under the corrected policy an item with `retries` retries is archived
      after exactly `maxRetries - retries + 1` more invocations. */
  lemma {:induction false} IntendedReachesCeiling(retries: int, maxRetries: int, fuel: nat)
    requires retries <= maxRetries && fuel >= maxRetries - retries + 1
    ensures IntendedInvocations(retries, maxRetries, fuel) == Some(maxRetries - retries + 1)
    decreases maxRetries - retries
  {
    if RetriesLeftIntended(retries + 1, maxRetries) {
      IntendedReachesCeiling(retries + 1, maxRetries, fuel - 1);
    }
  }

  /** Under the corrected policy a new always-failing item is retried exactly
      `MaxRetries` times: it is handled `MaxRetries + 1` times in all (three
      for `MaxRetries = 2`) and then archived; a negative ceiling archives it
      at its first failure. */
  lemma IntendedRetryCeiling(maxRetries: int, fuel: nat)
    requires fuel >= maxRetries + 1 && fuel >= 1
    ensures IntendedInvocations(0, maxRetries, fuel) == Some(if maxRetries >= 0 then maxRetries + 1 else 1)
  {
    if maxRetries >= 0 {
      IntendedReachesCeiling(0, maxRetries, fuel);
    }
  }

  /** `updateMetrics`' running average (integer nanoseconds): the first
      duration when nothing was processed yet, else the running mean over
      the processed count `p`, rounded towards zero. */
  function AverageAfter(avg: int, p: nat, duration: int): int
  {
    if p > 0 then Averages.RunningMean(avg, p, duration) else duration
  }

  /** The running average stays within any bounds that the previous average
      and the new duration both respect. */
  lemma AverageStaysBounded(avg: int, p: nat, duration: int, lo: int, hi: int)
    requires lo <= avg <= hi && lo <= duration <= hi
    ensures lo <= AverageAfter(avg, p, duration) <= hi
  {
    if p > 0 {
      Averages.RunningMeanStep(avg, p, duration, lo, hi);
    }
  }

  /** What one worker iteration did. */
  datatype StepResult =
    | Stopped                         // the worker's context was done
    | Idle(err: QueueError)           // the pop failed; the worker sleeps and polls again
    | Done(item: Item)                // the item was processed and archived as completed
    | Retried(item: Item)             // the item failed and its payload was pushed again
    | GaveUp(item: Item)              // the item failed and was archived as failed

  /** The oracles one worker iteration consults. */
  datatype StepInputs = StepInputs(
    now: int,                         // time.Now() for status stamps
    processingPushFails: bool,        // does RPush onto the processing list fail?
    handlerResult: Option<string>,    // None: the handler succeeds; Some(msg): it fails with msg
    retryId: string,                  // the fresh id a re-push would get
    retryPushFails: bool,             // does the re-push's RPush fail?
    duration: nat)                    // time.Since(start), in nanoseconds

  class QueueController {
    const config: Config
    /** The store lists `prefix + <status>`; a missing key is an empty list. */
    var lists: map<Status, seq<Item>>
    var handlers: map<string, Handler>
    /** The `_completed` and `_failed` archive collections. */
    var completedArchive: seq<Item>
    var failedArchive: seq<Item>
    var totalItems: nat
    var processedItems: nat
    var failedItems: nat
    var averageTime: int

    function ListOf(s: Status): seq<Item>
      reads this`lists
    {
      if s in lists then lists[s] else []
    }

    /** Only `Push` writes the pending list, so everything waiting there is a
        fresh pending item that has never been retried. */
    ghost predicate Valid()
      reads this`lists
    {
      forall i :: 0 <= i < |ListOf(Pending)| ==> ListOf(Pending)[i].status == Pending && ListOf(Pending)[i].retries == 0
    }

    /** `NewQueueController` (workers and the metrics collector are not started here). */
    constructor (config: Config)
      ensures Valid()
      ensures this.config == config && lists == map[] && handlers == map[]
      ensures completedArchive == [] && failedArchive == []
      ensures totalItems == 0 && processedItems == 0 && failedItems == 0 && averageTime == 0
    {
      this.config := config;
      lists := map[];
      handlers := map[];
      completedArchive := [];
      failedArchive := [];
      totalItems := 0;
      processedItems := 0;
      failedItems := 0;
      averageTime := 0;
    }

    /** `RPush(prefix + status, item)`; a failing store leaves the list as it was. */
    method PushTo(s: Status, item: Item, fails: bool) returns (err: Option<QueueError>)
      modifies this`lists
      ensures err == (if fails then Some(StoreFailed) else None)
      ensures fails ==> lists == old(lists)
      ensures !fails ==> ListOf(s) == old(ListOf(s)) + [item]
      ensures forall t :: t != s ==> ListOf(t) == old(ListOf(t))
    {
      if fails {
        return Some(StoreFailed);
      }
      lists := lists[s := ListOf(s) + [item]];
      return None;
    }

    /** `Push` (with `saveToRedis`): append one fresh pending item to the tail
        of the pending list. */
    method Push(data: Value, id: string, now: int, fails: bool) returns (err: Option<QueueError>)
      requires Valid()
      modifies this`lists
      ensures Valid()
      ensures err == (if fails then Some(StoreFailed) else None)
      ensures fails ==> lists == old(lists)
      ensures !fails ==> ListOf(Pending) == old(ListOf(Pending)) + [NewItem(id, data, now)]
      ensures forall t :: t != Pending ==> ListOf(t) == old(ListOf(t))
    {
      err := PushTo(Pending, NewItem(id, data, now), fails);
    }

    /** `RegisterHandler`: a later registration for a type replaces the earlier one. */
    method RegisterHandler(dataType: string, h: Handler)
      modifies this`handlers
      ensures handlers == old(handlers)[dataType := h]
    {
      handlers := handlers[dataType := h];
    }

    /** `getHandler`: the handler registered for the payload's `"type"`. */
    function GetHandler(item: Item): (h: Option<Handler>)
      reads this`handlers
      ensures h.Some? <==> TypeOf(item.data).Some? && TypeOf(item.data).value in handlers
      ensures h.Some? ==> h.value == handlers[TypeOf(item.data).value]
    {
      match TypeOf(item.data)
      case Some(t) => if t in handlers then Some(handlers[t]) else None
      case None => None
    }

    /** `getNextItem`: pop the head of the pending list (in `Push` order). */
    method GetNextItem() returns (r: Result<Item, QueueError>)
      requires Valid()
      modifies this`lists
      ensures Valid()
      ensures old(ListOf(Pending)) == [] ==> r == Err(EmptyList) && lists == old(lists)
      ensures old(ListOf(Pending)) != [] ==>
                r == Ok(old(ListOf(Pending))[0]) && ListOf(Pending) == old(ListOf(Pending))[1..]
      ensures forall t :: t != Pending ==> ListOf(t) == old(ListOf(t))
    {
      var pending := ListOf(Pending);
      if pending == [] {
        return Err(EmptyList);
      }
      lists := lists[Pending := pending[1..]];
      return Ok(pending[0]);
    }

    /** `processItem`: mark the item processing and push that copy onto the
        processing list before looking up the handler; a failed push means
        no handler runs. The handler's own result is the oracle `result`. */
    method ProcessItem(item: Item, now: int, pushFails: bool, result: Option<string>) returns (updated: Item, err: Option<QueueError>)
      modifies this`lists
      ensures updated == item.(status := Processing, updatedAt := now)
      ensures ListOf(Pending) == old(ListOf(Pending))
      ensures forall t :: t != Processing ==> ListOf(t) == old(ListOf(t))
      ensures pushFails ==> lists == old(lists) && err == Some(StoreFailed)
      ensures !pushFails ==> ListOf(Processing) == old(ListOf(Processing)) + [updated]
      ensures !pushFails && GetHandler(updated).None? ==> err == Some(NoHandler)
      ensures !pushFails && GetHandler(updated).Some? ==>
                err == (if result.Some? then Some(HandlerFailed(result.value)) else None)
    {
      updated := item.(status := Processing, updatedAt := now);
      err := PushTo(Processing, updated, pushFails);
      if err.Some? {
        return;
      }
      var h := GetHandler(updated);
      if h.None? {
        return updated, Some(NoHandler);
      }
      err := if result.Some? then Some(HandlerFailed(result.value)) else None;
    }

    /** `handleFailure`: count the retry and record the error; with retries
        left, push the PAYLOAD again as a new item (new id, `Retries = 0`),
        otherwise archive the item as failed. Either way one more failure is
        counted. The re-push's own store error is ignored, as in the source. */
    method HandleFailure(item: Item, msg: string, now: int, retryId: string, retryPushFails: bool) returns (updated: Item)
      requires Valid()
      modifies this`lists, this`failedArchive, this`failedItems
      ensures Valid()
      ensures updated.id == item.id && updated.data == item.data && updated.retries == item.retries + 1
      ensures updated.error == msg && updated.updatedAt == now
      ensures failedItems == old(failedItems) + 1
      ensures forall t :: t != Pending ==> ListOf(t) == old(ListOf(t))
      ensures RetriesLeft(item.retries + 1, config.maxRetries) ==>
                && updated.status == Pending
                && failedArchive == old(failedArchive)
                && ListOf(Pending) == old(ListOf(Pending)) + (if retryPushFails then [] else [NewItem(retryId, item.data, now)])
      ensures !RetriesLeft(item.retries + 1, config.maxRetries) ==>
                && updated.status == Failed
                && failedArchive == old(failedArchive) + [updated]
                && ListOf(Pending) == old(ListOf(Pending))
    {
      updated := item.(status := Failed, error := msg, retries := item.retries + 1, updatedAt := now);
      if updated.retries < config.maxRetries {
        updated := updated.(status := Pending);
        var _ := Push(updated.data, retryId, now, retryPushFails);
      } else {
        failedArchive := failedArchive + [updated];
      }
      failedItems := failedItems + 1;
    }

    /** `handleSuccess`: archive as completed and count one more processed item. */
    method HandleSuccess(item: Item, now: int) returns (updated: Item)
      modifies this`completedArchive, this`processedItems
      ensures updated == item.(status := Completed, updatedAt := now)
      ensures completedArchive == old(completedArchive) + [updated]
      ensures processedItems == old(processedItems) + 1
    {
      updated := item.(status := Completed, updatedAt := now);
      completedArchive := completedArchive + [updated];
      processedItems := processedItems + 1;
    }

    /** `updateMetrics`: one more item seen; fold the duration into the average. */
    method UpdateMetrics(duration: nat)
      modifies this`totalItems, this`averageTime
      ensures totalItems == old(totalItems) + 1
      ensures averageTime == AverageAfter(old(averageTime), processedItems, duration)
    {
      totalItems := totalItems + 1;
      averageTime := AverageAfter(averageTime, processedItems, duration);
    }

    /** One iteration of `worker`: stop on a done context, poll on an empty
        or failing pop, otherwise process the head item and route it to
        success or failure handling, then update the metrics. */
    method WorkerStep(ctxDone: bool, popFails: bool, inp: StepInputs) returns (r: StepResult)
      requires Valid()
      modifies this`lists, this`completedArchive, this`failedArchive
      modifies this`totalItems, this`processedItems, this`failedItems, this`averageTime
      ensures Valid()
      ensures ctxDone ==> r == Stopped && lists == old(lists)
      ensures !ctxDone && (popFails || old(ListOf(Pending)) == []) ==> r.Idle? && lists == old(lists)
      ensures r.Stopped? || r.Idle? ==>
                && completedArchive == old(completedArchive) && failedArchive == old(failedArchive)
                && totalItems == old(totalItems) && processedItems == old(processedItems)
                && failedItems == old(failedItems) && averageTime == old(averageTime)
      ensures !ctxDone && !popFails && old(ListOf(Pending)) != [] ==>
                && (r.Done? || r.Retried? || r.GaveUp?)
                && (r.Done? <==> !inp.processingPushFails && GetHandler(old(ListOf(Pending))[0]).Some? && inp.handlerResult.None?)
      ensures r.Done? || r.Retried? || r.GaveUp? ==>
                && !ctxDone && old(ListOf(Pending)) != []
                && r.item.id == old(ListOf(Pending))[0].id
                && r.item.data == old(ListOf(Pending))[0].data
                && totalItems == old(totalItems) + 1
                && averageTime == AverageAfter(old(averageTime), processedItems, inp.duration)
                && ListOf(Processing) == old(ListOf(Processing))
                     + (if inp.processingPushFails then [] else [old(ListOf(Pending))[0].(status := Processing, updatedAt := inp.now)])
                && (forall t :: t != Pending && t != Processing ==> ListOf(t) == old(ListOf(t)))
      ensures r.Done? ==>
                && ListOf(Pending) == old(ListOf(Pending))[1..]
                && r.item.status == Completed
                && completedArchive == old(completedArchive) + [r.item]
                && failedArchive == old(failedArchive)
                && processedItems == old(processedItems) + 1 && failedItems == old(failedItems)
      ensures r.Retried? ==>
                && r.item.retries == 1 && config.maxRetries >= 2
                && completedArchive == old(completedArchive) && failedArchive == old(failedArchive)
                && processedItems == old(processedItems) && failedItems == old(failedItems) + 1
                && ListOf(Pending) == old(ListOf(Pending))[1..] + (if inp.retryPushFails then [] else [NewItem(inp.retryId, r.item.data, inp.now)])
      ensures r.GaveUp? ==>
                && r.item.retries == 1 && config.maxRetries <= 1
                && completedArchive == old(completedArchive) && failedArchive == old(failedArchive) + [r.item]
                && processedItems == old(processedItems) && failedItems == old(failedItems) + 1
                && ListOf(Pending) == old(ListOf(Pending))[1..]
    {
      if ctxDone {
        return Stopped;
      }
      if popFails {
        return Idle(StoreFailed);
      }
      var next := GetNextItem();
      if next.Err? {
        return Idle(next.error);
      }
      var item := next.value;
      var processed, err := ProcessItem(item, inp.now, inp.processingPushFails, inp.handlerResult);
      if err.Some? {
        var msg := match err.value
          case HandlerFailed(m) => m
          case NoHandler => "handler not found"
          case _ => "store error";
        var failed := HandleFailure(processed, msg, inp.now, inp.retryId, inp.retryPushFails);
        r := if failed.status == Pending then Retried(failed) else GaveUp(failed);
      } else {
        var done := HandleSuccess(processed, inp.now);
        r := Done(done);
      }
      UpdateMetrics(inp.duration);
    }
  }
}
