/**
 * The records the core works on: users, subscriptions and the plan catalog.
 * The subscription table is a map keyed by user id, one record per user.
 */
module Models {

  datatype Option<+T> = None | Some(value: T)

  type UserId = int
  type Email = string

  /** A UTC instant, in whole seconds since the epoch. */
  type Instant = nat

  /** A calendar day number: the instant truncated to its UTC date. */
  type Day = int

  const SecondsPerDay: nat := 86400

  /** The `.Date` truncation: the day an instant falls on. */
  function DayOf(t: Instant): Day {
    t / SecondsPerDay
  }

  const FreePlan: string := "Free"
  const ProPlan: string := "Pro"
  const FreeQuota: int := 1000
  const ProQuota: int := 10000

  /** The quota a plan carries: Pro gets the larger one, every other plan name the Free one. */
  function QuotaFor(plan: string): (q: int)
    ensures q == ProQuota <==> plan == ProPlan
    ensures q == FreeQuota <==> plan != ProPlan
  {
    if plan == ProPlan then ProQuota else FreeQuota
  }

  /** One subscription record; the owning user id is its key in the store. */
  datatype Subscription = Subscription(
    plan: string,
    monthlyQuota: int,
    usedThisMonth: int,
    endDate: Option<Instant>)

  /** A record as its type initialises it: Free, with every number zero and no end date. */
  const NewSubscription: Subscription := Subscription(FreePlan, 0, 0, None)

  /** The subscription table: at most one record per user. */
  type Store = map<UserId, Subscription>

  /**
   * The record invariant of the data model: the plan is Free or Pro, the quota
   * is the plan's, usage stays within it, and only Pro carries an end date.
   */
  predicate Consistent(s: Subscription) {
    && (s.plan == FreePlan || s.plan == ProPlan)
    && s.monthlyQuota == QuotaFor(s.plan)
    && 0 <= s.usedThisMonth <= s.monthlyQuota
    && (s.endDate.Some? <==> s.plan == ProPlan)
  }

  predicate AllConsistent(subs: Store) {
    forall u :: u in subs ==> Consistent(subs[u])
  }

  /** The weaker invariant the quota enforcer itself promises to keep. */
  predicate WithinQuota(subs: Store) {
    forall u :: u in subs ==> subs[u].usedThisMonth <= subs[u].monthlyQuota
  }
}
