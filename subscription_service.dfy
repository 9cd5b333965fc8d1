/**
 * The subscription service: the quota enforcer, the plan manager and the
 * daily reconciler, first as functions over the subscription table and then
 * as the service class whose methods update the table in place.
 */
module Subscriptions {
  import opened Models

  // ---------------------------------------------------------------------
  // Quota enforcer

  /** The predicate of the conditional update: the record exists and has quota left. */
  predicate HasHeadroom(subs: Store, uid: UserId) {
    uid in subs && subs[uid].usedThisMonth < subs[uid].monthlyQuota
  }

  /** How many more units the user's record can grant (zero when it is missing or full). */
  function Headroom(subs: Store, uid: UserId): (k: nat)
    ensures k > 0 <==> HasHeadroom(subs, uid)
  {
    if HasHeadroom(subs, uid) then subs[uid].monthlyQuota - subs[uid].usedThisMonth else 0
  }

  datatype Consumption = Consumption(granted: bool, store: Store)

  /**
   * One atomic conditional update "increment usedThisMonth where it is below
   * monthlyQuota", judged by the rows it affected.
   */
  function Consume(subs: Store, uid: UserId): (r: Consumption)
    ensures r.granted <==> HasHeadroom(subs, uid)
    ensures !r.granted ==> r.store == subs
    ensures r.granted ==> r.store.Keys == subs.Keys
    ensures r.granted ==> r.store[uid] == subs[uid].(usedThisMonth := subs[uid].usedThisMonth + 1)
    ensures forall u :: u in subs && u != uid ==> u in r.store && r.store[u] == subs[u]
    ensures Headroom(r.store, uid) == if r.granted then Headroom(subs, uid) - 1 else 0
    ensures WithinQuota(subs) ==> WithinQuota(r.store)
    ensures AllConsistent(subs) ==> AllConsistent(r.store)
  {
    if HasHeadroom(subs, uid) then
      var s := subs[uid];
      Consumption(true, subs[uid := s.(usedThisMonth := s.usedThisMonth + 1)])
    else
      Consumption(false, subs)
  }

  // ---------------------------------------------------------------------
  // Plan manager

  /** The record a plan change writes: plan, derived quota, zero usage, end date for Pro only. */
  function PlanRecord(plan: string, renewalEnd: Instant): (s: Subscription)
    ensures s.plan == plan && s.usedThisMonth == 0
    ensures plan == ProPlan ==> s.monthlyQuota == ProQuota && s.endDate == Some(renewalEnd)
    ensures plan != ProPlan ==> s.monthlyQuota == FreeQuota && s.endDate == None
    ensures Consistent(s) <==> plan == FreePlan || plan == ProPlan
  {
    Subscription(plan, QuotaFor(plan), 0, if plan == ProPlan then Some(renewalEnd) else None)
  }

  /** A plan change on the table: the user's record is rewritten, or nothing happens if there is none. */
  function ChangePlan(subs: Store, uid: UserId, plan: string, renewalEnd: Instant): (r: Store)
    ensures uid !in subs ==> r == subs
    ensures uid in subs ==> r.Keys == subs.Keys && r[uid] == PlanRecord(plan, renewalEnd)
    ensures forall u :: u in subs && u != uid ==> u in r && r[u] == subs[u]
    ensures AllConsistent(subs) && (plan == FreePlan || plan == ProPlan) ==> AllConsistent(r)
  {
    if uid in subs then subs[uid := PlanRecord(plan, renewalEnd)] else subs
  }

  // ---------------------------------------------------------------------
  // Daily reconciler

  /** How many days ahead of the end date the reminder goes out. */
  const ReminderDays: int := 5

  /** What the sweep emits; the console lines become these events. */
  datatype Notification = Reminder(user: UserId) | Downgrade(user: UserId)

  predicate IsPro(s: Subscription) {
    s.plan == ProPlan
  }

  /** A Pro record whose end date falls after today and at most five days ahead. */
  predicate DueForReminder(s: Subscription, today: Day) {
    IsPro(s) && s.endDate.Some? && today < DayOf(s.endDate.value) <= today + ReminderDays
  }

  /** A Pro record whose end date has come. */
  predicate Expired(s: Subscription, today: Day) {
    IsPro(s) && s.endDate.Some? && DayOf(s.endDate.value) <= today
  }

  /** The record a downgrade writes. */
  const Downgraded: Subscription := Subscription(FreePlan, FreeQuota, 0, None)

  /** What the sweep does to one record. */
  function Reconcile(s: Subscription, today: Day): (r: Subscription)
    ensures Expired(s, today) ==> r == Downgraded
    ensures !Expired(s, today) ==> r == s
    ensures !Expired(r, today)
    ensures DueForReminder(r, today) <==> DueForReminder(s, today)
    ensures Consistent(s) ==> Consistent(r)
  {
    if Expired(s, today) then Downgraded else s
  }

  /** The table after a sweep on the given day. */
  function Reconciled(subs: Store, today: Day): (r: Store)
    ensures r.Keys == subs.Keys
    ensures forall u :: u in subs && !Expired(subs[u], today) ==> r[u] == subs[u]
    ensures forall u :: u in subs && Expired(subs[u], today) ==> r[u] == Downgraded
    ensures AllConsistent(subs) ==> AllConsistent(r)
  {
    map u | u in subs :: Reconcile(subs[u], today)
  }

  /** The events a sweep on the given day emits. */
  function SweepEvents(subs: Store, users: map<UserId, Email>, today: Day): (e: set<Notification>)
    ensures forall u :: Reminder(u) in e <==> u in subs && u in users && DueForReminder(subs[u], today)
    ensures forall u :: Downgrade(u) in e <==> u in subs && Expired(subs[u], today)
    ensures forall u :: !(Reminder(u) in e && Downgrade(u) in e)
  {
    (set u | u in subs && u in users && DueForReminder(subs[u], today) :: Reminder(u))
    + (set u | u in subs && Expired(subs[u], today) :: Downgrade(u))
  }

  /**
   * A second sweep on the same day leaves the table as the first left it, and
   * emits again exactly the first sweep's reminders and no downgrade.
   */
  lemma SweepIdempotent(subs: Store, users: map<UserId, Email>, today: Day)
    ensures Reconciled(Reconciled(subs, today), today) == Reconciled(subs, today)
    ensures SweepEvents(Reconciled(subs, today), users, today)
            == set e | e in SweepEvents(subs, users, today) && e.Reminder?
  {
  }

  /**
   * A plan change to Pro that ends after today survives the day's sweep: the
   * record is not downgraded.
   */
  lemma ProUpgradeSurvivesSweep(subs: Store, uid: UserId, renewalEnd: Instant, today: Day)
    requires uid in subs && today < DayOf(renewalEnd)
    ensures Reconciled(ChangePlan(subs, uid, ProPlan, renewalEnd), today)[uid] == PlanRecord(ProPlan, renewalEnd)
  {
  }

  /** Some element of a non-empty set: the next record the query result yields. */
  method AnyOf(s: set<UserId>) returns (x: UserId)
    requires s != {}
    ensures x in s
  {
    assert exists y :: y in s by {
      if forall y :: y !in s { assert false; }
    }
    x :| x in s;
  }

  /** No user appears in two events of the sequence. */
  predicate OnePerUser(s: seq<Notification>) {
    forall i, j :: 0 <= i < j < |s| ==> s[i].user != s[j].user
  }

  // ---------------------------------------------------------------------
  // The service over the database context

  class SubscriptionService {
    var users: map<UserId, Email>
    var subscriptions: Store
    /** Every notification emitted so far, oldest first. */
    var notifications: seq<Notification>

    constructor (users: map<UserId, Email>, subscriptions: Store)
      ensures this.users == users && this.subscriptions == subscriptions
      ensures notifications == []
    {
      this.users := users;
      this.subscriptions := subscriptions;
      notifications := [];
    }

    function GetUser(userId: UserId): (r: Option<Email>)
      reads this
      ensures r.Some? <==> userId in users
      ensures r.Some? ==> r.value == users[userId]
    {
      if userId in users then Some(users[userId]) else None
    }

    function GetSubscription(userId: UserId): (r: Option<Subscription>)
      reads this
      ensures r.Some? <==> userId in subscriptions
      ensures r.Some? ==> r.value == subscriptions[userId]
    {
      if userId in subscriptions then Some(subscriptions[userId]) else None
    }

    /**
     * The store's single conditional UPDATE statement on the rows with this
     * user id whose usage is below quota; it reports the rows it changed.
     */
    method IncrementWhereBelowQuota(userId: UserId) returns (updateCount: nat)
      modifies this`subscriptions
      ensures updateCount == if HasHeadroom(old(subscriptions), userId) then 1 else 0
      ensures subscriptions == Consume(old(subscriptions), userId).store
    {
      updateCount := 0;
      if userId in subscriptions {
        var row := subscriptions[userId];
        if row.usedThisMonth < row.monthlyQuota {
          subscriptions := subscriptions[userId := row.(usedThisMonth := row.usedThisMonth + 1)];
          updateCount := 1;
        }
      }
    }

    /** A non-atomic fast-path rejection, then the atomic conditional update. */
    method IncrementUsage(userId: UserId) returns (success: bool)
      modifies this`subscriptions
      ensures success == Consume(old(subscriptions), userId).granted
      ensures subscriptions == Consume(old(subscriptions), userId).store
    {
      var subscription := GetSubscription(userId);
      if subscription.None? || subscription.value.usedThisMonth >= subscription.value.monthlyQuota {
        return false;
      }
      var updateCount := IncrementWhereBelowQuota(userId);
      success := updateCount > 0;
    }

    /** Rewrites the four fields of the user's record in place, if the record exists. */
    method Upgrade(userId: UserId, plan: string, renewalEnd: Instant)
      modifies this`subscriptions
      ensures subscriptions == ChangePlan(old(subscriptions), userId, plan, renewalEnd)
    {
      var subscription := GetSubscription(userId);
      if subscription.Some? {
        var s := subscription.value;
        s := s.(plan := plan);
        s := s.(monthlyQuota := if plan == ProPlan then ProQuota else FreeQuota);
        s := s.(usedThisMonth := 0);
        s := s.(endDate := if plan == ProPlan then Some(renewalEnd) else None);
        subscriptions := subscriptions[userId := s];
      }
    }

    /**
     * The daily sweep over the Pro subscriptions, taken in whatever order the
     * query yields them. Notifications go out as each record is visited;
     * the rewritten records are saved together at the end.
     */
    method RunDailyJob(now: Instant)
      modifies this`subscriptions, this`notifications
      ensures subscriptions == Reconciled(old(subscriptions), DayOf(now))
      ensures |notifications| >= |old(notifications)|
      ensures notifications[..|old(notifications)|] == old(notifications)
      ensures OnePerUser(notifications[|old(notifications)|..])
      ensures forall e :: e in notifications[|old(notifications)|..]
                <==> e in SweepEvents(old(subscriptions), users, DayOf(now))
    {
      var today := DayOf(now);
      var reminderDate := today + ReminderDays;
      var subs := subscriptions;
      var proSubscriptions := set u | u in subs && subs[u].plan == ProPlan;
      var updated := subs;
      var pending := proSubscriptions;
      var sent: seq<Notification> := [];
      while pending != {}
        invariant updated.Keys == subs.Keys
        invariant forall u :: u in updated ==>
          updated[u] == if u in pending then subs[u] else Reconcile(subs[u], today)
        invariant notifications == old(notifications) + sent
        invariant OnePerUser(sent)
        invariant forall e :: e in sent <==>
          e in SweepEvents(subs, users, today) && e.user !in pending
        decreases pending
      {
        var uid := AnyOf(pending);
        var sub := updated[uid];
        if sub.endDate.Some? {
          var endDate := DayOf(sub.endDate.value);
          if endDate <= reminderDate && endDate > today {
            if uid in users {
              notifications := notifications + [Reminder(uid)];
              sent := sent + [Reminder(uid)];
            }
          }
          if endDate <= today {
            sub := sub.(plan := FreePlan);
            sub := sub.(monthlyQuota := FreeQuota);
            sub := sub.(usedThisMonth := 0);
            sub := sub.(endDate := None);
            notifications := notifications + [Downgrade(uid)];
            sent := sent + [Downgrade(uid)];
            updated := updated[uid := sub];
          }
        }
        pending := pending - {uid};
      }
      assert notifications[|old(notifications)|..] == sent;
      assert updated.Keys == Reconciled(subs, today).Keys;
      assert forall u :: u in updated ==> updated[u] == Reconciled(subs, today)[u];
      assert updated == Reconciled(subs, today);
      subscriptions := updated;
    }
  }
}
