# subscription_api — a Dafny model of quota metering, plan changes and rate limiting

The API meters a data endpoint per user. Three things sit in front of each data read:

- a per-minute rate limit of 100 calls, kept in a Redis-style counter store, which fails open when the store errs;
- a monthly quota (Free 1000 units, Pro 10000), enforced by one conditional database update;
- a plan change endpoint, which rewrites the user's subscription record.

A daily job sends reminders for Pro plans that end within five days. It downgrades Pro plans whose end date has come.

The model has five modules:

- `Models` (`models.dfy`) holds the subscription record, the plan constants and the record invariant.
  - The subscription table is a `map` from user id to record, one record per user.
  - The user table is a `map` from user id to e-mail.
- `Subscriptions` (`subscription_service.dfy`) has two layers.
  - Functions state what each operation does to the table: `Consume`, `ChangePlan`, `Reconcile`/`Reconciled` and `SweepEvents`.
  - The class `SubscriptionService` holds `users`, `subscriptions` and an append-only `notifications` log. Its methods update these fields in place and are proved against those functions.
  - `RunDailyJob` is a loop over the Pro records, taken in any order.
- `RateLimiting` (`rate_limit_service.dfy`) covers the limiter.
  - The function `Admit` is one limiter call: INCR, EXPIRE on the first hit, compare, fail open.
  - `HealthyBurst` and `AdmitAll` are sequences of calls.
  - The classes `CounterStore` (INCR and EXPIRE over a counter map and an expiry map) and `RateLimitService` are the imperative layer.
  - A `Fault` parameter says how the store behaves during a call.
- `Contention` (`contention.dfy`) covers competing requests for one quota.
  - First, requests are served one after another, each as one atomic conditional update.
  - Then a race model: each request makes non-atomic fast-path reads before its update, and the steps of all requests interleave in any order.
  - In both, at most the headroom is granted. Once every request has finished, exactly min(N, headroom) have been granted.
- `Controllers` (`subscription_controller.dfy`) covers the two API actions.
  - `HandleGetData` and `HandleUpgrade` state the decision order and the effect on both stores.
  - The class `SubscriptionController` sequences calls to the two services and is proved against them.
  - `HandleAll` is a sequence of data requests. It shows that each Ok answer consumes exactly one quota unit.

Time is a whole number of UTC seconds (`Instant`).

- A calendar day is `t / 86400`, the `.Date` truncation.
- A rate window is `t / 60`, the minute the `yyyyMMddHHmm` text names.
- The wall clock comes in as a parameter `now`.
- The end date of a Pro renewal, "now plus one month", comes in as a parameter `renewalEnd`.

Two behaviours of the code, as the model states them:

- A plan change for a user that has no subscription record changes nothing. The response is still Ok, with no quota in it (`Controllers.HandleUpgrade`).
- When INCR succeeds and EXPIRE fails on a window's first hit, the call is admitted. That key then never gets a time-to-live (`RateLimiting.Admit`, the `ExpireFailed` fault).
  - The verdict of later calls in the window is unaffected.

## Model

| member | source | states |
|---|---|---|
| Models.QuotaFor | Services/SubscriptionService.cs:51 | the quota is 10000 exactly for "Pro" and 1000 for every other plan string |
| Subscriptions.Headroom | Services/SubscriptionService.cs:38 | the units left are positive exactly when the record exists and its usage is below its quota |
| Subscriptions.Consume | Services/SubscriptionService.cs:37-41 | the conditional update grants iff the record exists with usage below quota; a refusal leaves the table unchanged; a grant adds exactly 1 to that user's usage and changes no other field, key or user; headroom drops by one; usage ≤ quota and the record invariant are preserved |
| Subscriptions.PlanRecord | Services/SubscriptionService.cs:50-53 | the rewritten record has the given plan and zero usage; Pro gets 10000 and the renewal end date, any other plan 1000 and no end date; the record is consistent iff the plan is Free or Pro |
| Subscriptions.ChangePlan | Services/SubscriptionService.cs:44-58 | a missing record leaves the table unchanged; otherwise only that user's record becomes the plan record; a valid plan keeps every record consistent |
| Subscriptions.Reconcile | Services/SubscriptionService.cs:72-98 | a Pro record whose end day has come becomes Free/1000/0/no end date; every other record is unchanged; the result is never expired; reminder-dueness and consistency are preserved |
| Subscriptions.Reconciled | Services/SubscriptionService.cs:66-102 | the sweep keeps the table's keys, downgrades exactly the expired Pro records, leaves the rest unchanged and preserves consistency |
| Subscriptions.SweepEvents | Services/SubscriptionService.cs:62-98 | a reminder is sent iff the record is Pro with an end date, today < end day ≤ today + 5 and the user exists; a downgrade event iff the Pro end day ≤ today; never both for one user |
| Subscriptions.SweepIdempotent | Services/SubscriptionService.cs:60-103 | a second sweep on the same day leaves the table as the first left it and emits exactly the first sweep's reminders and no downgrade |
| Subscriptions.ProUpgradeSurvivesSweep | Services/SubscriptionService.cs:53 | an upgrade to Pro whose end day is after today is not undone by that day's sweep |
| Subscriptions.AnyOf | Services/SubscriptionService.cs:70 | the loop takes some element of the records still to visit |
| Subscriptions.SubscriptionService.GetUser | Services/SubscriptionService.cs:16-19 | the lookup finds a user iff the id is in the user table, with that user's e-mail |
| Subscriptions.SubscriptionService.GetSubscription | Services/SubscriptionService.cs:21-24 | the lookup finds a record iff the user has one, and it is that record |
| Subscriptions.SubscriptionService.IncrementWhereBelowQuota | Services/SubscriptionService.cs:37-39 | the update affects one row iff the record has headroom, and leaves the table as Consume does |
| Subscriptions.SubscriptionService.IncrementUsage | Services/SubscriptionService.cs:26-42 | the fast-path rejection then the conditional update return exactly Consume's verdict and leave exactly Consume's table |
| Subscriptions.SubscriptionService.Upgrade | Services/SubscriptionService.cs:44-58 | the four field assignments leave the table exactly as ChangePlan states |
| Subscriptions.SubscriptionService.RunDailyJob | Services/SubscriptionService.cs:60-103 | in any visiting order the saved table is the reconciled table for today; the log only grows; the new events are one per user and are exactly SweepEvents |
| RateLimiting.Admit | Services/RateLimitService.cs:16-44 | INCR raises the key's count by 1 unless refused and leaves every other key unchanged; a store error yields not-limited; otherwise limited iff the new count exceeds 100; an expiry of 60 s is recorded only when the count becomes 1 and the call is healthy, and is otherwise untouched |
| RateLimiting.HealthyBurst | Services/RateLimitService.cs:27-37 | n calls on one key: call i is limited iff initial count + i + 1 > 100, so from a fresh key calls 1-100 pass and 101 onward are limited; the count rises by n; other keys are unchanged; the expiry is set once |
| RateLimiting.AllowancePerWindow | Services/RateLimitService.cs:16-44 | under any interleaving of keys and faults, a key's counter rises by one per call that reached it and at most 100 minus its starting count calls are admitted on it while the store works |
| RateLimiting.IndependentKeys | Services/RateLimitService.cs:20-22 | different users or different minutes give different keys, and a call on one leaves the other's count unchanged |
| RateLimiting.ExpiryCoversWindow | Services/RateLimitService.cs:31-34 | the 60 s time-to-live set on a window's first hit outlasts every later instant of that minute and ends before the minute after next |
| RateLimiting.BoundaryBurst | Services/RateLimitService.cs:20-37 | the fixed window admits 200 calls from one user in two seconds that straddle a minute boundary |
| RateLimiting.CounterStore.StringIncrement | Services/RateLimitService.cs:27 | INCR stores count + 1 unless refused and returns the new value unless the call raises |
| RateLimiting.CounterStore.KeyExpire | Services/RateLimitService.cs:33 | EXPIRE records the time-to-live unless it raises |
| RateLimiting.RateLimitService.IsRateLimited | Services/RateLimitService.cs:16-44 | the call returns Admit's verdict and leaves the counter store as Admit states |
| Contention.Serve | Services/SubscriptionService.cs:37-41 | requests served in order keep the table's keys, usage ≤ quota and the record invariant |
| Contention.ServeGrantsMin | Services/SubscriptionService.cs:37-41 | in any arrival order each user is granted exactly min(its requests, its headroom) and its usage rises by exactly that |
| Contention.RepeatedRequests | Services/SubscriptionService.cs:37-41 | N requests by one user with headroom k: request i is granted iff i < k, and usage rises by min(N, k) |
| Contention.BumpedStep | Services/SubscriptionService.cs:38-39 | a grant on top of g grants while g is below the headroom, and yields g + 1 |
| Contention.StepKeepsInvariant | Services/SubscriptionService.cs:30-41 | any fast-path read or conditional update of any request keeps the race invariant: the record shows exactly the grants, which never exceed the headroom, and a refusal only once the headroom is used up |
| Contention.RunKeepsInvariant | Services/SubscriptionService.cs:30-41 | every schedule of interleaved steps keeps the race invariant |
| Contention.RaceOutcome | Controllers/SubscriptionController.cs:38-49 | N racing requests with headroom k: usage never passes the quota, and once all finish exactly min(N, k) were granted and usage rose by that |
| Controllers.HandleGetData | Controllers/SubscriptionController.cs:21-52 | unknown user: NotFound and no store touched; otherwise the limiter runs first; limited gives RateLimited, no headroom gives QuotaExceeded, and Ok otherwise; only an Ok changes the table, by Consume; consistency is preserved |
| Controllers.HandleUpgrade | Controllers/SubscriptionController.cs:55-83 | unknown user gives NotFound and an invalid plan gives BadRequest, each with no mutation; otherwise the table becomes ChangePlan and the reply carries the plan, usedThisMonth 0 and the record's post-update quota |
| Controllers.HandleAll | Controllers/SubscriptionController.cs:21-52 | a sequence of data requests answers each one, keeps the table's keys and preserves consistency |
| Controllers.EveryOkConsumesOneUnit | Controllers/SubscriptionController.cs:45-51 | over any request sequence a user's usage rises by exactly its number of Ok answers, which never exceeds its starting headroom |
| Controllers.SubscriptionController.GetData | Controllers/SubscriptionController.cs:21-52 | the call sequence returns HandleGetData's response and leaves both stores as HandleGetData states |
| Controllers.SubscriptionController.Upgrade | Controllers/SubscriptionController.cs:55-83 | the call sequence returns HandleUpgrade's response and leaves the table as HandleUpgrade states |

## Left out

- Asynchrony and real threads are not modelled. The conditional UPDATE is one atomic step. `Contention` models interleaving explicitly, as a schedule of steps.
- EF Core change tracking, `SaveChangesAsync` failures and transactions are not modelled. `RunDailyJob` writes its rewritten records back in one assignment at the end, and a save that fails is not modelled.
- Subscription-store and user-store exceptions are not modelled. In the source they propagate uncaught; the model's map reads cannot fail.
- `DateTime.AddMonths(1)` is not computed. It is the parameter `renewalEnd`, and only `Subscriptions.ProUpgradeSurvivesSweep` assumes anything about it (that it falls after today).
- The wall clock (`DateTime.UtcNow`) is not modelled. It is the parameter `now` in every operation that reads it.
- Redis time-to-live is not enforced. Keys do not disappear as time passes; the expiry map only records the duration set on each key.
- The `"yyyyMMddHHmm"` window text and the `"ratelimit:{userId}:{window}"` key text are not built. Both are kept as the pair (user id, minute index).
- The counter store's 64-bit integer overflow is not modelled; counters are unbounded.
- The content of the console messages is not kept. The daily job appends `Reminder(uid)` or `Downgrade(uid)` events to a log instead.
- Subscriptions.SubscriptionService.RunDailyJob: fixes no particular visiting order. The query returns no fixed order, so the post-state is proved the same for every order.
- HTTP plumbing, routing attributes, DTO binding and status codes are not modelled. A result datatype stands in for them.
- Program.cs is wiring only; it is not part of this model. That covers DI registration, connection setup, the Hangfire schedule, Swagger and migrations.
- Data/AppDbContext.cs is EF mapping, and Services/ISubscriptionService.cs is an interface without behaviour. Only the unique key on user id carries over, as the map's domain.
- The User entity's other fields are not modelled; only the e-mail is kept.
