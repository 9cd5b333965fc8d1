/**
 * The two API actions: a metered data read that passes the user check, the
 * rate limiter and the monthly quota in that order; and a plan change that
 * validates the plan before touching the store.
 */
module Controllers {
  import opened Models
  import opened Subscriptions
  import opened RateLimiting

  /** The bodies of the successful responses. */
  datatype Body = Data | PlanChanged(plan: string, monthlyQuota: Option<int>, usedThisMonth: int)

  /** An action's result, in place of its HTTP status and message. */
  datatype Response = Ok(body: Body) | NotFound | RateLimited | QuotaExceeded | BadRequest

  /** The plans a caller may ask for. */
  predicate ValidPlan(plan: string) {
    plan == FreePlan || plan == ProPlan
  }

  datatype DataOutcome = DataOutcome(response: Response, subscriptions: Store, counts: Counts, expiry: Expiries)

  /** What a data request does to the two stores and what it answers. */
  function HandleGetData(users: map<UserId, Email>, subs: Store, counts: Counts, expiry: Expiries,
                         userId: UserId, now: Instant, fault: Fault): (r: DataOutcome)
    ensures r.response == NotFound <==> userId !in users
    ensures userId !in users ==> r.counts == counts && r.expiry == expiry && r.subscriptions == subs
    ensures userId in users ==>
      var a := Admit(counts, expiry, KeyFor(userId, now), fault);
      && r.counts == a.counts && r.expiry == a.expiry
      && (r.response == RateLimited <==> a.limited)
      && (r.response == QuotaExceeded <==> !a.limited && !HasHeadroom(subs, userId))
      && (r.response == Ok(Data) <==> !a.limited && HasHeadroom(subs, userId))
    ensures r.response.Ok? ==> r.response == Ok(Data) && r.subscriptions == Consume(subs, userId).store
    ensures !r.response.Ok? ==> r.subscriptions == subs
    ensures !r.response.BadRequest?
    ensures AllConsistent(subs) ==> AllConsistent(r.subscriptions)
  {
    if userId !in users then
      DataOutcome(NotFound, subs, counts, expiry)
    else
      var a := Admit(counts, expiry, KeyFor(userId, now), fault);
      if a.limited then
        DataOutcome(RateLimited, subs, a.counts, a.expiry)
      else if !HasHeadroom(subs, userId) then
        DataOutcome(QuotaExceeded, subs, a.counts, a.expiry)
      else
        var c := Consume(subs, userId);
        if !c.granted then DataOutcome(QuotaExceeded, c.store, a.counts, a.expiry)
        else DataOutcome(Ok(Data), c.store, a.counts, a.expiry)
  }

  datatype UpgradeOutcome = UpgradeOutcome(response: Response, subscriptions: Store)

  /** What a plan-change request does to the subscription table and what it answers. */
  function HandleUpgrade(users: map<UserId, Email>, subs: Store, userId: UserId, plan: string,
                         renewalEnd: Instant): (r: UpgradeOutcome)
    ensures r.response == NotFound <==> userId !in users
    ensures r.response == BadRequest <==> userId in users && !ValidPlan(plan)
    ensures r.response.Ok? <==> userId in users && ValidPlan(plan)
    ensures !r.response.Ok? ==> r.subscriptions == subs
    ensures r.response.Ok? ==>
      && r.subscriptions == ChangePlan(subs, userId, plan, renewalEnd)
      && r.response.body == PlanChanged(plan, if userId in subs then Some(QuotaFor(plan)) else None, 0)
    ensures r.response.Ok? && userId in subs ==>
      r.response.body.monthlyQuota == Some(r.subscriptions[userId].monthlyQuota)
    ensures AllConsistent(subs) ==> AllConsistent(r.subscriptions)
  {
    if userId !in users then
      UpgradeOutcome(NotFound, subs)
    else if plan != FreePlan && plan != ProPlan then
      UpgradeOutcome(BadRequest, subs)
    else
      var updated := ChangePlan(subs, userId, plan, renewalEnd);
      var quota := if userId in updated then Some(updated[userId].monthlyQuota) else None;
      UpgradeOutcome(Ok(PlanChanged(plan, quota, 0)), updated)
  }

  /** One data request as it arrives: who asks, when, and how the counter store behaves. */
  datatype Request = Request(userId: UserId, now: Instant, fault: Fault)

  datatype Trace = Trace(responses: seq<Response>, subscriptions: Store, counts: Counts, expiry: Expiries)

  /** Data requests handled one after another. */
  function HandleAll(users: map<UserId, Email>, subs: Store, counts: Counts, expiry: Expiries,
                     reqs: seq<Request>): (r: Trace)
    ensures |r.responses| == |reqs|
    ensures r.subscriptions.Keys == subs.Keys
    ensures AllConsistent(subs) ==> AllConsistent(r.subscriptions)
    decreases |reqs|
  {
    if reqs == [] then
      Trace([], subs, counts, expiry)
    else
      var out := HandleGetData(users, subs, counts, expiry, reqs[0].userId, reqs[0].now, reqs[0].fault);
      var rest := HandleAll(users, out.subscriptions, out.counts, out.expiry, reqs[1..]);
      Trace([out.response] + rest.responses, rest.subscriptions, rest.counts, rest.expiry)
  }

  /** How many of the user's requests were answered Ok. */
  function OkCount(reqs: seq<Request>, responses: seq<Response>, u: UserId): nat
    requires |responses| == |reqs|
  {
    if reqs == [] then 0
    else (if reqs[0].userId == u && responses[0].Ok? then 1 else 0) + OkCount(reqs[1..], responses[1..], u)
  }

  /**
   * Over any sequence of data requests, each Ok answer to a user stands for
   * exactly one unit of that user's quota: its usage rises by the number of
   * Ok answers, which never exceeds the headroom it started with.
   */
  lemma {:induction false} EveryOkConsumesOneUnit(users: map<UserId, Email>, subs: Store, counts: Counts,
                                                  expiry: Expiries, reqs: seq<Request>, u: UserId)
    ensures var r := HandleAll(users, subs, counts, expiry, reqs);
            var oks := OkCount(reqs, r.responses, u);
            && oks <= Headroom(subs, u)
            && (u in subs ==> r.subscriptions[u] == subs[u].(usedThisMonth := subs[u].usedThisMonth + oks))
    decreases |reqs|
  {
    if reqs != [] {
      var r := HandleAll(users, subs, counts, expiry, reqs);
      var q := reqs[0];
      var out := HandleGetData(users, subs, counts, expiry, q.userId, q.now, q.fault);
      var rest := HandleAll(users, out.subscriptions, out.counts, out.expiry, reqs[1..]);
      EveryOkConsumesOneUnit(users, out.subscriptions, out.counts, out.expiry, reqs[1..], u);
      assert r.responses[1..] == rest.responses;
      if q.userId == u && out.response.Ok? {
        assert Headroom(out.subscriptions, u) == Headroom(subs, u) - 1;
      } else if out.response.Ok? {
        assert Headroom(out.subscriptions, u) == Headroom(subs, u);
      } else {
        assert out.subscriptions == subs;
      }
    }
  }

  class SubscriptionController {
    const rateLimitService: RateLimitService
    const subscriptionService: SubscriptionService

    constructor (rateLimitService: RateLimitService, subscriptionService: SubscriptionService)
      ensures this.rateLimitService == rateLimitService
      ensures this.subscriptionService == subscriptionService
    {
      this.rateLimitService := rateLimitService;
      this.subscriptionService := subscriptionService;
    }

    method GetData(userId: UserId, now: Instant, fault: Fault) returns (r: Response)
      modifies subscriptionService`subscriptions, rateLimitService.database
      ensures var out := HandleGetData(subscriptionService.users, old(subscriptionService.subscriptions),
                                       old(rateLimitService.database.counts), old(rateLimitService.database.expiry),
                                       userId, now, fault);
              && r == out.response
              && subscriptionService.subscriptions == out.subscriptions
              && rateLimitService.database.counts == out.counts
              && rateLimitService.database.expiry == out.expiry
    {
      var user := subscriptionService.GetUser(userId);
      if user.None? {
        return NotFound;
      }
      var isRateLimited := rateLimitService.IsRateLimited(userId, now, fault);
      if isRateLimited {
        return RateLimited;
      }
      var subscription := subscriptionService.GetSubscription(userId);
      if subscription.None? || subscription.value.usedThisMonth >= subscription.value.monthlyQuota {
        return QuotaExceeded;
      }
      var success := subscriptionService.IncrementUsage(userId);
      if !success {
        return QuotaExceeded;
      }
      return Ok(Data);
    }

    method Upgrade(userId: UserId, plan: string, renewalEnd: Instant) returns (r: Response)
      modifies subscriptionService`subscriptions
      ensures var out := HandleUpgrade(subscriptionService.users, old(subscriptionService.subscriptions),
                                       userId, plan, renewalEnd);
              r == out.response && subscriptionService.subscriptions == out.subscriptions
    {
      var user := subscriptionService.GetUser(userId);
      if user.None? {
        return NotFound;
      }
      if plan != FreePlan && plan != ProPlan {
        return BadRequest;
      }
      subscriptionService.Upgrade(userId, plan, renewalEnd);
      var subscription := subscriptionService.GetSubscription(userId);
      var quota := if subscription.Some? then Some(subscription.value.monthlyQuota) else None;
      return Ok(PlanChanged(plan, quota, 0));
    }
  }
}
