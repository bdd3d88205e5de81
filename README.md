# JapanBigdata crawler core, modelled in Dafny

This project models the state-handling core of the JapanBigdata crawler.
That crawler is a set of Go services that fetch pages under rate limits,
queue work items and keep proxies, user agents, cookies and captcha
solutions. Each Go component is a Dafny module with one file:

- `ratelimit.dfy` (`RateLimit`): a token bucket per domain, the sliding
  window over a sorted set, request and throttle accounting, and one tick of
  the adaptive rate adjustment.
- `queue.dfy` (`WorkQueue`): the pending/processing lists, handler dispatch
  on the payload's `"type"`, failure and success handling, the running
  average and one iteration of a worker.
- `frontier.dfy` (`UrlFrontier`): URL normalisation, the ordered admission
  checks, per-priority FIFO buckets served from the highest priority down,
  and `UpdateStatus`.
- `proxypool.dfy`, `tasks.dfy`, `nodes.dfy`, `logging.dfy`: the in-memory
  proxy list, task admission, the node registry and log-level filtering.
- `useragent.dfy` (`UserAgents`): the weighted user-agent draw, per-type
  grouping and custom rules.
- `cookie.dfy` (`Cookies`): the session cache in front of the store and the
  filter for unexpired cookies.
- `captcha.dfy` (`Captcha`): solve dispatch, the solution cache and one
  pass of the cache cleaner.
- `browserpool.dfy` (`Rendering`): the round-robin browser pool and the
  renderer's metrics.
- `geonode.dfy` (`Geonode`): the proxy-list spider. It covers page-URL
  generation, the retry loop, scraping one page, dedup with validation, and
  the binary search for the last page.
- `mongo.dfy` (`MongoStore`): batched insertion with bounded retries, and
  the extraction of `proxy` fields.
- `averages.dfy`, `text.dfy`, `wrappers.dfy`: the running averages of two
  controllers, decimal rendering (`%d`), and `Option`/`Result`.

State that the source updates in place becomes classes with `modifies`
frames, so Redis lists are `seq` fields, sets are `set`, the sorted set is
`map<member, score>` and Mongo collections are maps or sequences.
Everything outside the process is a parameter of the method that consults
it. That covers store failures, HTTP responses, context cancellation, the
clock, random draws and solver results. Each such method is proved against
a pure function, and the properties are lemmas about that function.

Three places where the code does not do what its own names and comments
say are recorded under Findings and modelled as written:

- `handleFailure` compares the `Retries` counter with the `MaxRetries`
  field, but re-queues only the payload, as a fresh item with zero retries.
  With `MaxRetries >= 2` an always-failing item therefore never reaches the
  `failed` archive.
- The captcha and renderer `updateMetrics` compute integer running means
  that divide by one more than the number of samples.
- The captcha cache cleaner asserts that every `key + "_time"` entry holds
  a timestamp, but `Solve` caches only solution strings, so solving the
  payloads "x" and "x_time" makes the next cleaning pass panic.

## Model

| member | source | states |
|---|---|---|
| RateLimit.Min | pkg/ratelimit/ratelimit_controller.go:246-251 | the result is at most both arguments and is one of them |
| RateLimit.Max | pkg/ratelimit/ratelimit_controller.go:254-259 | the result is at least both arguments and is one of them |
| RateLimit.AdmitIffOneToken | pkg/ratelimit/ratelimit_controller.go:126-140 | the bucket admits iff the refilled amount and the burst both reach one token (boundary inclusive); an admission leaves exactly one token less than the capped refill |
| RateLimit.AdmitKeepsTokensInRange | pkg/ratelimit/ratelimit_controller.go:126-140 | with a non-negative rate and elapsed time, `0 <= tokens <= burst` is preserved by every decision |
| RateLimit.BurstScenario | pkg/ratelimit/ratelimit_controller.go:110-140 | a full bucket with rate 1/s and burst 3 admits three calls at one instant, rejects a fourth, and admits one a second later |
| RateLimit.Limiter.constructor | pkg/ratelimit/ratelimit_controller.go:110-115 | a new limiter is full (tokens = burst) and stamped now |
| RateLimit.Limiter.Allow | pkg/ratelimit/ratelimit_controller.go:126-140 | the decision and new token count are those of `Admit` on the old state; rate and burst are unchanged, `lastUpdate` becomes now, and the token invariant is kept |
| RateLimit.Trim | pkg/ratelimit/ratelimit_controller.go:151-158 | the defining set operation of `ZRemRangeByScore(0, windowStart)`: exactly the members scored outside `[0, windowStart]` survive, with their scores; its use is specified by `WindowCheckSpec` |
| RateLimit.WindowCheckSpec | pkg/ratelimit/ratelimit_controller.go:143-179 | a cancelled context touches nothing; otherwise old members in `[0, now-window]` are dropped, member "now" is added even on rejection, and the check admits iff the window holds at most `WindowLimit` members |
| RateLimit.SameSecondSharesMember | pkg/ratelimit/ratelimit_controller.go:151-170 | a second check in the same second leaves the store and the verdict exactly as the first did |
| RateLimit.WithRequest | pkg/ratelimit/ratelimit_controller.go:209-224 | creates the domain's entry with one request or adds one request; other domains and the throttle count are unchanged |
| RateLimit.WithThrottle | pkg/ratelimit/ratelimit_controller.go:227-236 | adds one throttle only to an existing entry and never creates one |
| RateLimit.WindowCheck | pkg/ratelimit/ratelimit_controller.go:143-179 | a cancelled context leaves the window as it was and reports cancellation; an admission always leaves this second's member in the window, scored now |
| RateLimit.AdjustedRate | pkg/ratelimit/ratelimit_controller.go:186-205 | for a non-negative rate, a step down never goes below `MinRate` and a step up never goes above `MaxRate`, unless the other bound is what caused the move |
| RateLimit.AdjustmentDirection | pkg/ratelimit/ratelimit_controller.go:186-205 | a ratio above the threshold lowers a positive rate, but not below `MinRate`; a ratio below half the threshold raises it, but not above `MaxRate`; otherwise the rate is unchanged |
| RateLimit.Controller.constructor | pkg/ratelimit/ratelimit_controller.go:47-63 | no limiters, no stats, zero counters |
| RateLimit.Controller.GetLimiter | pkg/ratelimit/ratelimit_controller.go:102-123 | returns the existing limiter unchanged, or inserts a fresh full default one only when the domain is absent |
| RateLimit.Controller.SetRate | pkg/ratelimit/ratelimit_controller.go:88-99 | always installs a fresh full limiter for the domain; other domains keep theirs |
| RateLimit.Controller.CheckDistributedLimit | pkg/ratelimit/ratelimit_controller.go:143-179 | the domain's window and the verdict are those of `WindowCheck` at the current unix second; other domains' windows are unchanged |
| RateLimit.Controller.RecordRequest | pkg/ratelimit/ratelimit_controller.go:209-224 | one more total request, and stats per `WithRequest` |
| RateLimit.Controller.RecordThrottle | pkg/ratelimit/ratelimit_controller.go:227-236 | one more throttled request, and stats per `WithThrottle` |
| RateLimit.Controller.Allow | pkg/ratelimit/ratelimit_controller.go:66-85 | gets or creates the limiter, then the window check, then the bucket; a window refusal leaves the bucket untouched; any refusal is recorded as a throttle and only an admission as a request |
| RateLimit.Controller.AdjustRates | pkg/ratelimit/ratelimit_controller.go:182-206 | one tick sets each limiter with stats to `AdjustedRate` and leaves every other field and limiter unchanged |
| WorkQueue.NewItem | pkg/queue/queue_controller.go:81-93 | the defining constructor of a pushed item: the given payload, status pending and zero retries; its use is specified by `Push` |
| WorkQueue.TypeOf | pkg/queue/queue_controller.go:302-314 | the defining lookup of the payload's `"type"`: present iff the payload is an object whose `"type"` field is a string, and then that string; its use is specified by `ProcessItem` |
| WorkQueue.AlwaysFailingNeverArchived | pkg/queue/queue_controller.go:161-180 | as written, with `MaxRetries >= 2` an always-failing payload is never archived, however many times it is processed |
| WorkQueue.CarriedRetriesReachCeiling | pkg/queue/queue_controller.go:164-176 | if the re-queued item kept its count but the comparison stayed `Retries < MaxRetries`, an item with `r` retries would be archived after exactly `MaxRetries - r` more invocations |
| WorkQueue.RetryCeiling | pkg/queue/queue_controller.go:164-176 | with only the count carried, a new always-failing item would be archived after `MaxRetries` invocations, one retry short of `MaxRetries` retries |
| WorkQueue.IntendedReachesCeiling | pkg/queue/queue_controller.go:164-176 | with the count carried and compared by `Retries <= MaxRetries`, an item with `r` retries is archived after exactly `MaxRetries - r + 1` more invocations |
| WorkQueue.IntendedRetryCeiling | pkg/queue/queue_controller.go:164-176 | under that corrected policy a new always-failing item is retried exactly `MaxRetries` times, `MaxRetries + 1` invocations in all (3 for `MaxRetries = 2`), and then archived |
| WorkQueue.AverageStaysBounded | pkg/queue/queue_controller.go:275-281 | the running average stays between any bounds that the previous average and the new duration respect |
| WorkQueue.QueueController.constructor | pkg/queue/queue_controller.go:58-78 | empty lists, registry and archives, zero metrics |
| WorkQueue.QueueController.PushTo | pkg/queue/queue_controller.go:231-238 | a successful push appends exactly the item to the tail of that list; a failing one changes nothing; other lists are unchanged |
| WorkQueue.QueueController.Push | pkg/queue/queue_controller.go:81-99 | appends exactly one fresh pending item with zero retries to the pending list, or reports the store error and changes nothing; pending items all have zero retries |
| WorkQueue.QueueController.RegisterHandler | pkg/queue/queue_controller.go:102-106 | a later registration for a type replaces the earlier one |
| WorkQueue.QueueController.GetHandler | pkg/queue/queue_controller.go:302-314 | the defining lookup of the registry: a handler is found iff the payload has a registered type, and it is the one registered for it; its use is specified by `ProcessItem` |
| WorkQueue.QueueController.GetNextItem | pkg/queue/queue_controller.go:253-266 | pops and returns the head of the pending list, so items come out in push order; an empty list is an error |
| WorkQueue.QueueController.ProcessItem | pkg/queue/queue_controller.go:142-158 | marks the item processing and appends it to the processing list first; if that push fails no handler runs; an unknown type is an error; otherwise the handler's result |
| WorkQueue.QueueController.HandleFailure | pkg/queue/queue_controller.go:161-180 | counts the retry and records the error; with retries left the payload is pushed as a new item with zero retries, otherwise the item is archived as failed; one more failure is counted either way |
| WorkQueue.QueueController.HandleSuccess | pkg/queue/queue_controller.go:183-193 | marks the item completed, archives it, and counts one more processed item |
| WorkQueue.QueueController.UpdateMetrics | pkg/queue/queue_controller.go:269-282 | one more item, and the average per `AverageAfter` |
| WorkQueue.QueueController.WorkerStep | pkg/queue/queue_controller.go:116-139 | stops on a done context and idles on an empty or failing pop, changing nothing; otherwise it pops the head item, pushes its processing copy unless that push fails, and completes it iff that push succeeded and its handler exists and succeeds. Each path states the archives, the pending and processing lists, the counters and the new average, which is `AverageAfter` over the processed count |
| UrlFrontier.Normalize | pkg/url/url_controller.go:141-156 | the fragment is cleared, an empty path becomes `/`, and every other component is kept |
| UrlFrontier.NormalizeIdempotent | pkg/url/url_controller.go:141-156 | normalising twice is normalising once |
| UrlFrontier.NormalizeUrl | pkg/url/url_controller.go:141-156 | succeeds iff the raw URL parses, and otherwise returns the parser's error |
| UrlFrontier.NormalizeUrlIdempotent | pkg/url/url_controller.go:141-156 | when the parser reads the rendered normal form back as that normal form, re-normalising the output of `normalizeURL` changes nothing |
| UrlFrontier.PathParserReadsBack | pkg/url/url_controller.go:141-156 | the read-back condition of `NormalizeUrlIdempotent` is met on every input by a parser that reads strings as relative paths, so the condition can be met |
| UrlFrontier.FirstRejecting | pkg/url/url_controller.go:90-94 | finds the first filter, in registration order, that refuses the item; none is found iff every filter allows it |
| UrlFrontier.Admission | pkg/url/url_controller.go:67-104 | an admitted item comes from a parsed URL no deeper than `MaxDepth`, under a live context and a duplicate check that reached the store, is new to the set and is allowed by every filter |
| UrlFrontier.AdmissionSpec | pkg/url/url_controller.go:67-104 | a URL is admitted iff it parses, `depth <= MaxDepth`, every filter allows it, the context is live, `SIsMember` succeeds and its normal form is new; each error names the first check that failed: a parse error, then `TooDeep`, then `Filtered` for the first refusing filter, then `Cancelled` exactly when the context is done after those pass, then a store error exactly when `SIsMember` fails, and `Duplicate` only when every earlier check passed |
| UrlFrontier.ReAddIsDuplicate | pkg/url/url_controller.go:97-103 | an admitted URL is refused as a duplicate when added again against any later set that still holds its normal form, so later admissions and pops do not matter |
| UrlFrontier.Enqueue | pkg/url/url_controller.go:182-183 | appends the URL to the tail of one bucket and leaves the others |
| UrlFrontier.Dequeue | pkg/url/url_controller.go:193-194 | removes the head of one bucket and leaves the others |
| UrlFrontier.TopBucket | pkg/url/url_controller.go:110-119 | the highest non-empty bucket in `[0, p]` whose pop does not fail; none exists iff each of them is empty or failing |
| UrlFrontier.OutOfRangeNeverServed | pkg/url/url_controller.go:110-119 | a URL with a priority outside `[0, MaxPriority]` never changes what `GetNextURL` serves |
| UrlFrontier.FailuresOnlyLowerServed | pkg/url/url_controller.go:110-119 | failing pops only move `GetNextURL` to a lower bucket than it serves when every pop succeeds, and leave its choice alone when the top non-empty bucket's pop succeeds |
| UrlFrontier.PriorityOrderScenario | pkg/url/url_controller.go:110-119 | URLs admitted at priorities 5, 1, 5, 3 come out as the first 5, the second 5, then 3, then 1 |
| UrlFrontier.UrlController.constructor | pkg/url/url_controller.go:49-64 | no filters, an empty set and empty buckets |
| UrlFrontier.UrlController.AddFilter | pkg/url/url_controller.go:122-126 | the filter is appended after the existing ones |
| UrlFrontier.UrlController.Exists | pkg/url/url_controller.go:159-167 | an error on a done context or a failing `SIsMember`; otherwise membership in the dedup set |
| UrlFrontier.UrlController.SaveUrl | pkg/url/url_controller.go:170-185 | a done context or a failing `SAdd` changes nothing; otherwise the URL joins the set and is appended to its bucket, and a failing append leaves it in the set only |
| UrlFrontier.UrlController.AddURL | pkg/url/url_controller.go:67-107 | follows `Admission`, including a failing duplicate check; every rejection and a failing `SAdd` leave the set and buckets unchanged, and an admission stores the normalised URL |
| UrlFrontier.UrlController.GetUrlByPriority | pkg/url/url_controller.go:188-204 | pops the bucket's head as a pending item with that priority and depth 0; a failing `LPop` is a store error and an empty bucket yields nothing, both with the buckets unchanged |
| UrlFrontier.UrlController.GetNextURL | pkg/url/url_controller.go:110-119 | serves the head of the highest non-empty bucket in `[0, MaxPriority]` whose pop does not fail, skipping the failing ones; with none left it is an error and nothing changes |
| UrlFrontier.UrlController.GetUrlItem | pkg/url/url_controller.go:207-223 | the stored record of the URL, or not-found |
| UrlFrontier.UrlController.UpdateStatus | pkg/url/url_controller.go:129-138 | fails for a URL without a record; otherwise it saves the record again, which changes nothing when `SAdd` fails and otherwise appends its URL to its bucket a second time |
| ProxyPool.FirstAvailable | pkg/proxy/pool.go:99-111 | the index of the first available proxy; none exists iff no proxy is available |
| ProxyPool.RemoveFirst | pkg/proxy/pool.go:116-128 | removes at most one proxy |
| ProxyPool.RemoveAbsent | pkg/proxy/pool.go:116-128 | removing a URL that is not in the list changes nothing |
| ProxyPool.RemoveFirstMatch | pkg/proxy/pool.go:116-128 | exactly the first proxy with the URL is spliced out, and the others keep their order |
| ProxyPool.AddThenRemove | pkg/proxy/pool_test.go:163-182 | adding a new URL and removing it gives the list back, so an empty pool becomes empty again |
| ProxyPool.ProxyPool.constructor | pkg/proxy/pool.go:62-67 | a new pool has no proxies |
| ProxyPool.ProxyPool.AddProxy | pkg/proxy/pool.go:76-96 | on a parse error nothing changes; otherwise exactly one available proxy is appended |
| ProxyPool.ProxyPool.GetProxy | pkg/proxy/pool.go:99-111 | returns the proxy at `FirstAvailable`'s index, i.e. the first available proxy in list order, or none iff none is available |
| ProxyPool.ProxyPool.RemoveProxy | pkg/proxy/pool.go:116-128 | the list becomes `RemoveFirst` of the old list |
| Tasks.Admits | controllers/task_manager.go:39-41 | admission leaves room for one more task |
| Tasks.AdmissionKeepsBound | controllers/task_manager.go:39-46 | starting only when admitted never takes the count above the limit, and refusal happens exactly at the limit |
| Tasks.TaskManager.constructor | controllers/task_manager.go:24-29 | no tasks and no active count |
| Tasks.TaskManager.StartTask | controllers/task_manager.go:34-55 | at the limit it fails and changes nothing; otherwise it keeps a new cancel handle under the id (overwriting one still running) and counts one more |
| Tasks.TaskManager.CancelTask | controllers/task_manager.go:59-71 | an unknown id is an error; a known one is forgotten, but the active count is unchanged |
| Tasks.TaskManager.CompleteTask | controllers/task_manager.go:75-80 | forgets the id (if still kept) and counts exactly one task fewer |
| Tasks.TaskManager.RemoveTask | controllers/task_manager.go:84-86 | deletes the id from the task map |
| Nodes.NodeManager.constructor | controllers/node_manager.go:27-31 | an empty registry |
| Nodes.NodeManager.AddNode | controllers/node_manager.go:37-53 | an existing id is left alone; otherwise the node is inserted |
| Nodes.NodeManager.RemoveNode | controllers/node_manager.go:57-68 | the id is deleted if present |
| Nodes.NodeManager.UpdateNodeStatus | controllers/node_manager.go:73-85 | only that node's status changes, and an unknown id changes nothing |
| Nodes.NodeManager.GetNodeStatus | controllers/node_manager.go:90-100 | returns `(status, true)` iff the id is present, and `("", false)` otherwise |
| Nodes.NodeManager.ListNodes | controllers/node_manager.go:103-113 | one copy of each stored node, each once; the length equals the registry size |
| Logging.ShouldLog | controllers/logger.go:75-84 | a message at the current level and an ERROR message are always written; a DEBUG message is written only under DEBUG or an unknown level |
| Logging.Rank | controllers/logger.go:75-84 | ranks lie in 0..4, and 0 is exactly the unknown names |
| Logging.LevelOrder | controllers/logger.go:75-84 | DEBUG < INFO < WARN < ERROR, and ERROR messages pass under every current level |
| Logging.UnknownLevels | controllers/logger.go:76-83 | an unknown message level is suppressed under a known current level; an unknown current level lets everything through |
| Logging.InitialLevelFilters | controllers/logger.go:21-26 | at INFO, DEBUG is suppressed and INFO, WARN and ERROR are written |
| Logging.LoggerManager.constructor | controllers/logger.go:21-26 | a new manager starts at INFO |
| Logging.LoggerManager.SetLogLevel | controllers/logger.go:51-57 | later calls filter against the new level, with a matching prefix |
| Logging.LoggerManager.Log | controllers/logger.go:62-70 | the message is written iff `shouldLog` lets its level through |
| UserAgents.FirstAbove | pkg/useragent/useragent_controller.go:88-95 | finds the first index whose running weight sum exceeds the draw |
| UserAgents.WeightedIndex | pkg/useragent/useragent_controller.go:88-95 | the weighted draw lands on an agent of the list |
| UserAgents.WeightedIndexUnique | pkg/useragent/useragent_controller.go:88-95 | the draw selects `i` whenever `i` is the first agent whose running sum exceeds it |
| UserAgents.PrefixMonotone | pkg/useragent/useragent_controller.go:78-81 | with non-negative weights the running sums never decrease |
| UserAgents.WeightedIndexInterval | pkg/useragent/useragent_controller.go:78-95 | with non-negative weights, agent `i` is chosen exactly for the draws in an interval of its weight's length, so the choice is proportional to weight |
| UserAgents.OfType | pkg/useragent/useragent_controller.go:168-178 | the group of a type holds only agents of that type |
| UserAgents.OfTypeKeepsMembers | pkg/useragent/useragent_controller.go:168-178 | an agent is in its type's group iff it is in the input |
| UserAgents.GroupStep | pkg/useragent/useragent_controller.go:170-174 | appending one agent adds its type and extends only its own group |
| UserAgents.UserAgentController.constructor | pkg/useragent/useragent_controller.go:46-63 | an empty cache and no rules; the initial `loadUserAgents` is not run here, and a successful load is `UpdateCache` of the loaded list |
| UserAgents.UserAgentController.GetUAsByType | pkg/useragent/useragent_controller.go:216-224 | the defining lookup of the cache: the cached list of the type, or nil iff the type is absent; its use is specified by `GetRandomUA` |
| UserAgents.UserAgentController.GetRandomUA | pkg/useragent/useragent_controller.go:66-98 | returns the default for a missing or empty type, the uniform draw when the weights sum to 0 and the weighted draw when they are positive; a negative total panics |
| UserAgents.UserAgentController.UpdateCache | pkg/useragent/useragent_controller.go:168-178 | each key is a type present in the input and holds that type's agents in input order; no other keys exist |
| UserAgents.UserAgentController.AddCustomRule | pkg/useragent/useragent_controller.go:101-115 | an empty pattern is refused and nothing changes; otherwise the rule is appended and stays even if saving fails |
| Cookies.Unexpired | pkg/cookie/cookie_control.go:169-185 | keeps only cookies expiring strictly after now |
| Cookies.UnexpiredMembers | pkg/cookie/cookie_control.go:175-184 | a cookie is kept iff it is in the list and expires after now |
| Cookies.UnexpiredLater | pkg/cookie/cookie_control.go:175-184 | filtering at now and then at a later time is filtering at the later time |
| Cookies.CookieControl.constructor | pkg/cookie/cookie_control.go:49-63 | an empty session cache over the given store |
| Cookies.CookieControl.SaveSession | pkg/cookie/cookie_control.go:66-78 | stamps the session and upserts it under its id; a failed upsert leaves the store |
| Cookies.CookieControl.GetSession | pkg/cookie/cookie_control.go:81-103 | a cached session is returned without consulting the store; on a miss a found session is cached and returned, and a failure leaves the cache alone |
| Cookies.CookieControl.UpdateCookies | pkg/cookie/cookie_control.go:106-116 | replaces the session's cookies and saves it; a failed lookup saves nothing |
| Cookies.CookieControl.GetValidCookies | pkg/cookie/cookie_control.go:169-185 | the session's unexpired cookies in order, or an error for an unknown session; a cache hit leaves the cache unchanged and a store hit caches the stored session |
| Averages.AsWrittenFirstSample | pkg/captcha/captcha_controller.go:155-161 | as written, the recorded average after one sample `d` is `d / 2` |
| Averages.RunningMeanFirstSample | pkg/js/js_controller.go:203-211 | the corrected running mean of one sample is that sample |
| Averages.RunningMeanStep | pkg/queue/queue_controller.go:275-280 | one running-mean update stays within any bounds that the previous mean and the sample respect |
| Averages.FoldMeanBounded | pkg/captcha/captcha_controller.go:155-161 | the corrected running mean of any samples lies between their least and greatest value |
| Captcha.SolveThenCleanPanics | pkg/captcha/captcha_controller.go:164-178 | on a new controller with a succeeding solver, solving the payloads "x" and "x_time" and then running one pass of the cleaner as written panics |
| Captcha.CaptchaController.constructor | pkg/captcha/captcha_controller.go:45-54 | no solvers, an empty cache, zero metrics |
| Captcha.CaptchaController.RegisterSolver | pkg/captcha/captcha_controller.go:57-59 | a later registration for a type replaces the earlier one |
| Captcha.CaptchaController.UpdateMetrics | pkg/captcha/captcha_controller.go:155-161 | one more call, and the average updated as written |
| Captcha.CaptchaController.Solve | pkg/captcha/captcha_controller.go:62-92 | a cache hit is answered without checking the type; an unknown type is an error; a solver success is cached and returned; a failure goes to manual solving when allowed, with the cache unchanged; every call is counted and folded into `avgTime` by the as-written average |
| Captcha.CaptchaController.SolveInner | pkg/captcha/captcha_controller.go:67-91 | the same outcomes without the deferred count; the cache only ever holds solution strings |
| Captcha.CaptchaController.Train | pkg/captcha/captcha_controller.go:139-145 | an unknown type is an error; otherwise the solver's own result |
| Captcha.CaptchaController.CleanCachePassAsWritten | pkg/captcha/captcha_controller.go:164-178 | on a cache built by `Solve` the pass deletes nothing, and it panics iff some key's `_time` companion exists |
| Captcha.CaptchaController.CleanCachePass | pkg/captcha/captcha_controller.go:164-178 | checks the companion's type instead of asserting it, never panics, and deletes only expired entries and their companions; a cache built by `Solve` is untouched |
| Rendering.NextSlot | pkg/js/js_controller.go:177-178 | the next slot is one more, wrapping to 0 after the last |
| Rendering.SlotAfter | pkg/js/js_controller.go:173-180 | the slot after any number of acquisitions is within the pool |
| Rendering.FirstLap | pkg/js/js_controller.go:173-180 | the first `size` acquisitions hand out the contexts in index order |
| Rendering.RoundRobin | pkg/js/js_controller.go:173-180 | after `size` acquisitions the slot sequence repeats |
| Rendering.BrowserPool.constructor | pkg/js/js_controller.go:157-170 | one context per slot, current slot 0 |
| Rendering.NewBrowserPool | pkg/js/js_controller.go:157-170 | a negative size has no pool; otherwise a fresh pool with one context per slot |
| Rendering.BrowserPool.Acquire | pkg/js/js_controller.go:173-180 | returns the current context and advances round-robin, so `current` stays in range; an empty pool has no context |
| Rendering.Metrics.constructor | pkg/js/js_controller.go:44-48 | zero metrics |
| Rendering.Metrics.UpdateMetrics | pkg/js/js_controller.go:203-211 | exactly one more request, and the average updated as written |
| Rendering.Metrics.CollectorTick | pkg/js/js_controller.go:188-200 | with requests counted, success becomes total minus failed, which is the total; otherwise nothing changes |
| Geonode.PageUrl | cmd/proxy/geonode_main.go:104-107 | every page URL extends the base URL |
| Geonode.PageUrlInjective | cmd/proxy/geonode_main.go:104-107 | different pages have different URLs |
| Geonode.RandomUserAgent | cmd/proxy/geonode_main.go:364-369 | the default when the list is empty; otherwise the agent at the clock reading modulo the list's length, which is a member of the list |
| Geonode.RandomUserAgentPeriodic | cmd/proxy/geonode_main.go:364-369 | a reading one full round of the list later picks the same agent |
| Geonode.Scrape | cmd/proxy/geonode_main.go:196-267 | succeeds iff status is 200 and the body decodes with data, and then yields that data; 429 is a too-many-requests error |
| Geonode.RetryFromFacts | cmd/proxy/geonode_main.go:170-193 | from any attempt on, a success, cancellation or give-up is preceded by failed attempts only, and giving up reports the last error |
| Geonode.RetryBounds | cmd/proxy/geonode_main.go:172-192 | at most `MaxRetries` attempts, stopping at the first success; giving up follows `MaxRetries` failures, and with `MaxRetries <= 0` no attempt is made |
| Geonode.Dedup | cmd/proxy/geonode_main.go:270-298 | every kept proxy is valid and no two share `IP:Port` |
| Geonode.DedupKeys | cmd/proxy/geonode_main.go:275-296 | the kept keys are exactly the keys of the valid proxies |
| Geonode.DedupIsFirstValidOccurrences | cmd/proxy/geonode_main.go:275-296 | the result is exactly the first valid occurrence of each key, in input order; an invalid occurrence does not hide a later valid one |
| Geonode.Search | cmd/proxy/geonode_main.go:401-448 | an answer is a page with data (or the last one found); a request error means some probed page failed |
| Geonode.TotalPages | cmd/proxy/geonode_main.go:396-455 | an answer lies in 1..20 and has data; a request error means some page in 1..20 failed |
| Geonode.SearchFinds | cmd/proxy/geonode_main.go:401-448 | on any sub-range consistent with the pages seen so far, the search answers the last page with data |
| Geonode.TotalPagesFindsLastPage | cmd/proxy/geonode_main.go:396-455 | when exactly pages 1..k have data and no request fails, the answer is k, and an error for k = 0; an undecodable page counts as empty |
| Geonode.GeonodeSpider.constructor | cmd/proxy/geonode_main.go:66-86 | two user agents, three attempts, no URLs and no results |
| Geonode.GeonodeSpider.AddPageUrls | cmd/proxy/geonode_main.go:104-107 | appends exactly `totalPages` URLs, for pages 1..totalPages in increasing order |
| Geonode.GeonodeSpider.ScrapeUrl | cmd/proxy/geonode_main.go:196-267 | on success the page's proxies are appended to the results; on any error the results are unchanged |
| Geonode.GeonodeSpider.ProcessUrlWithRetry | cmd/proxy/geonode_main.go:170-193 | the outcome is `RetryFrom` from attempt 0, and only the successful attempt adds proxies |
| Geonode.GeonodeSpider.ValidateAndDeduplicate | cmd/proxy/geonode_main.go:270-298 | the results become `Dedup` of the old results |
| Geonode.GeonodeSpider.GetTotalPages | cmd/proxy/geonode_main.go:396-455 | the loop's answer is `TotalPages` |
| Text.NatString | cmd/proxy/geonode_main.go:106 | non-empty and all decimal digits |
| Text.NatStringInjective | cmd/proxy/geonode_main.go:106 | different numbers render differently |
| Text.IntString | pkg/ratelimit/ratelimit_controller.go:161 | a leading minus sign iff the number is negative |
| MongoStore.NumBatches | pkg/mongodb/client.go:115-122 | zero batches iff no documents; otherwise just enough batches of 1000 |
| MongoStore.Batch | pkg/mongodb/client.go:115-122 | each batch has between 1 and 1000 documents |
| MongoStore.ConcatIsPrefix | pkg/mongodb/client.go:115-122 | the first `k` batches are exactly the first `min(1000k, n)` documents |
| MongoStore.BatchesPartition | pkg/mongodb/client.go:115-122 | the batches partition the input in order |
| MongoStore.ProxyFields | pkg/mongodb/client.go:192-197 | at most one string per document |
| MongoStore.ProxyFieldsMembers | pkg/mongodb/client.go:192-197 | a string is extracted iff some document has it as its string `proxy` field |
| MongoStore.Limited | pkg/mongodb/client.go:172 | a limit of 0 returns everything, otherwise a prefix of at most `abs(limit)` documents |
| MongoStore.MongoClient.constructor | pkg/mongodb/client.go:49-86 | the client over the given collections |
| MongoStore.MongoClient.Collection | pkg/mongodb/client.go:101-142 | the defining lookup of a collection: a missing collection is empty; its use is specified by `SaveProxies` and `GetProxies` |
| MongoStore.MongoClient.InsertWithRetry | pkg/mongodb/client.go:127-137 | up to three attempts, stopping at the first success, which appends the batch; it succeeds iff some attempt does |
| MongoStore.MongoClient.SaveProxies | pkg/mongodb/client.go:101-142 | the batches are written in order until one fails three attempts; the error is reported iff some batch failed, later batches are never sent, and earlier ones stay written; an empty input writes nothing |
| MongoStore.MongoClient.GetProxies | pkg/mongodb/client.go:167-200 | find and decode errors are errors; otherwise the string `proxy` fields of the limited result, in order |

## Left out

- Goroutines, locks, tickers and sleeps are not modelled. This covers workers' poll loops, metrics collectors, `startAdaptiveAdjustment`'s loop, cleanup and update loops, `Close`, and the waits between retries and between pages. Each periodic body is modelled as one tick or iteration, and the races between them are out of scope.
- `GetMetrics` in every controller, and the rate limiter's metrics collector with its wall-clock division: they only read or expose counters.
- Floating point: rates and tokens are `real`, so float64 rounding is not captured.
- RateLimit.Limiter.Allow: the bucket invariant is promised only for a non-negative rate and a clock that does not go backwards, since the source does not enforce either.
- The Redis and Mongo clients are abstracted. Lists, sets and sorted sets have their standard semantics, and failures are flags.
- Integer width: counters, timestamps and durations are unbounded integers. The Go code uses `int`/`int64` in several places, and the model assumes none of them wraps around. These are `Total` and `AvgTime*Total` in the captcha `updateMetrics`, `AverageTime*(ProcessedItems-1)` in the queue's `updateMetrics`, the renderer's average product, the `totalWeight` sum of the user-agent draw, and every metrics counter.
- Clock readings: where the source reads `time.Now()` several times in one call, the model takes a single instant. This covers `getLimiter`, `limiter.allow` and `checkDistributedLimit` within one `Allow`, the `CreatedAt`/`UpdatedAt` pair of `Push` and of `AddURL`'s candidate item, and the stamps of `processItem` and `handleFailure` within one worker iteration.
- The queue's Mongo persistence (`persistToMongo`, `persistFailure`, `persistSuccess`, `persistMetrics`, `collectMetrics`) is fire-and-forget or has its errors ignored. Archiving is modelled as appending to an archive sequence.
- Queue items are values. An item popped from Redis is a decoded copy, but `Process` receives a pointer to it, and `handleFailure` then reads `Retries` and `Data` from that same struct. The model assumes handlers do not change the item, so a handler that rewrites its payload or retry count is not captured.
- URL filters are total predicates on a value. `Filter.Allow` receives a pointer to the candidate item, so a filter could change its `URL` or `Priority` before later filters run and before `saveURL` stores it. The model assumes filters do not change the item. The duplicate check is unaffected, because it uses the local normalised string.
- `updateItem`'s `RPush` onto the processing list is `PushTo`. JSON encoding is an identity round-trip.
- UrlFrontier.Render: this follows `URL.String` without its escaping, user-info handling or path-only special cases. Idempotence is proved for any parser that reads the rendered normal form back as that normal form.
- The URL, queue and rate-limit controllers' metrics collectors.
- `UpdateStatus`'s record keys are never written by the controller, so `records` is fixed at construction.
- Captcha `handleManual` polling: the manual result is a parameter.
- Renderer `RenderPage`, `ExecuteScript`, `SimulateEvent` and `NewJSController` are browser automation. `release` is a no-op in the source, and a context is represented by its slot number.
- `validateProxy`'s HTTP request through the proxy is the predicate `reachable`. Only its empty-protocol check is explicit.
- The spider's `Run` loop: its statistics counters, `saveResults` (file I/O), `printStats`, `main` and signal handling. Page-URL generation is `AddPageUrls` and each page is `ProcessUrlWithRetry`.
- Geonode.RandomUserAgent: the clock reading is a `nat`. A negative `UnixNano` would make Go's `%` negative and panic on the index, which is not modelled.
- MongoStore.MongoClient.InsertWithRetry: a failed `InsertMany` is modelled as writing nothing. An unordered insert that fails part-way can write part of the batch, and that is not modelled.
- The 30-second and 10-second timeout contexts of the Mongo calls are not modelled.
- The cookie cleanup loop, `DeleteExpiredSessions`, `ExportCookies` and `ImportCookies`: store-only or JSON copies.
- `UpdateUADatabase`, `loadUserAgents`, `ExportUAs` and the update loop: store I/O around `updateCache`, which is modelled.
- The proxy pool's Redis and Mongo helpers (`LoadProxiesFromMongo`, `GetNextValidProxy`, `RefreshProxyPool`) and the interface file.
- `SetLogFile` and `Close` of the logger: file I/O.
- WorkQueue.QueueController.WorkerStep: the payload's handler is abstract. The handler's result is a parameter rather than a call.

## Findings

| source | as written | input that shows it | evidently intended | confidence | as-written member | corrected member |
|---|---|---|---|---|---|---|
| pkg/captcha/captcha_controller.go:155-161 and pkg/js/js_controller.go:203-211 | the count is incremented first and the average is then `(avg*total + d) / (total + 1)`, dividing by one more than the number of samples | a single sample d = 100 records an average of 50 | a running mean `(avg*(total-1) + d) / total`, whose value after one sample is that sample | high, not executed | Averages.AsWrittenFirstSample | Averages.RunningMeanFirstSample |
| pkg/captcha/captcha_controller.go:168-175 | the cleaner asserts `t.(time.Time)` on any `key + "_time"` entry, but `Solve` stores only strings | solving payloads "x" and "x_time" and then running one cleaner pass panics | check the companion's type before using it, and never panic on a cache that `Solve` built | high, not executed | Captcha.CaptchaController.CleanCachePassAsWritten | Captcha.CaptchaController.CleanCachePass |
| pkg/queue/queue_controller.go:164-171 | a failed item with retries left is re-queued as `Push(item.Data)`, a fresh item with zero retries, so the count never builds up | an always-failing handler with `MaxRetries = 3` keeps its payload cycling forever | the re-queued item keeps its incremented count and is retried exactly `MaxRetries` times, so that it is archived as failed after `MaxRetries + 1` invocations (3 for `MaxRetries = 2`); carrying the count alone gives `MaxRetries` invocations, one retry short, so the comparison becomes `Retries <= MaxRetries` | high, not executed | WorkQueue.AlwaysFailingNeverArchived | WorkQueue.IntendedRetryCeiling |

The work-queue class itself keeps the code's behaviour, so that it models
what the system does. The captcha controller and the renderer fold their
averages in as written, and the corrected running mean is the one the work
queue's `AverageAfter` uses.
