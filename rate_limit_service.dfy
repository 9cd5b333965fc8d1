/**
 * The fixed-window rate limiter: at most MaxRequests calls per user per
 * wall-clock minute, counted in a shared counter store, failing open when
 * the store raises an error.
 */
module RateLimiting {
  import opened Models

  const MaxRequests: nat := 100
  /** The time-to-live set on a window's counter when it is created. */
  const WindowSeconds: nat := 60
  const SecondsPerMinute: nat := 60

  /** A window: the instant truncated to its UTC minute (the "yyyyMMddHHmm" text). */
  type Minute = int

  function MinuteOf(t: Instant): Minute {
    t / SecondsPerMinute
  }

  /** The counter key "ratelimit:{userId}:{window}", kept as its two parts. */
  datatype RateKey = RateKey(userId: UserId, window: Minute)

  function KeyFor(userId: UserId, now: Instant): RateKey {
    RateKey(userId, MinuteOf(now))
  }

  type Counts = map<RateKey, nat>
  /** The time-to-live, in seconds, recorded on each key that has one. */
  type Expiries = map<RateKey, nat>

  /** The counter's value; a key the store does not hold reads as zero, as INCR treats it. */
  function CountOf(counts: Counts, key: RateKey): nat {
    if key in counts then counts[key] else 0
  }

  /**
   * How the counter store behaves during one call: it works; it refuses the
   * INCR; it applies the INCR but the reply is lost; or it applies the INCR
   * and then fails the EXPIRE.
   */
  datatype Fault = Healthy | IncrRefused | IncrReplyLost | ExpireFailed

  /** Does the call see an exception from the store? EXPIRE is only issued on a window's first hit. */
  predicate Raised(counts: Counts, key: RateKey, fault: Fault) {
    fault == IncrRefused || fault == IncrReplyLost || (fault == ExpireFailed && CountOf(counts, key) == 0)
  }

  datatype Admission = Admission(limited: bool, counts: Counts, expiry: Expiries)

  /** One call of the limiter on the given key: INCR, EXPIRE on the first hit, compare, fail open. */
  function Admit(counts: Counts, expiry: Expiries, key: RateKey, fault: Fault): (r: Admission)
    ensures fault == IncrRefused ==> r.counts == counts
    ensures fault != IncrRefused ==> r.counts == counts[key := CountOf(counts, key) + 1]
    ensures forall k :: k != key ==> CountOf(r.counts, k) == CountOf(counts, k)
    ensures Raised(counts, key, fault) ==> !r.limited
    ensures !Raised(counts, key, fault) ==> (r.limited <==> CountOf(counts, key) + 1 > MaxRequests)
    ensures fault == Healthy && CountOf(counts, key) == 0 ==> r.expiry == expiry[key := WindowSeconds]
    ensures fault != Healthy || CountOf(counts, key) > 0 ==> r.expiry == expiry
  {
    if fault == IncrRefused then
      Admission(false, counts, expiry)
    else
      var count := CountOf(counts, key) + 1;
      var incremented := counts[key := count];
      if fault == IncrReplyLost then
        Admission(false, incremented, expiry)
      else if count == 1 then
        if fault == ExpireFailed then Admission(false, incremented, expiry)
        else assert fault == Healthy; Admission(count > MaxRequests, incremented, expiry[key := WindowSeconds])
      else
        Admission(count > MaxRequests, incremented, expiry)
  }

  datatype Burst = Burst(verdicts: seq<bool>, counts: Counts, expiry: Expiries)

  /** n calls on one key with a working store, in order; verdict i is the (i+1)-th call's. */
  function HealthyBurst(counts: Counts, expiry: Expiries, key: RateKey, n: nat): (r: Burst)
    ensures |r.verdicts| == n
    ensures forall i :: 0 <= i < n ==> (r.verdicts[i] <==> CountOf(counts, key) + i + 1 > MaxRequests)
    ensures CountOf(counts, key) == 0 ==> forall i :: 0 <= i < n ==> (r.verdicts[i] <==> i >= MaxRequests)
    ensures CountOf(r.counts, key) == CountOf(counts, key) + n
    ensures forall k :: k != key ==> CountOf(r.counts, k) == CountOf(counts, k)
    ensures r.expiry == if n > 0 && CountOf(counts, key) == 0 then expiry[key := WindowSeconds] else expiry
    decreases n
  {
    if n == 0 then
      Burst([], counts, expiry)
    else
      var a := Admit(counts, expiry, key, Healthy);
      var rest := HealthyBurst(a.counts, a.expiry, key, n - 1);
      Burst([a.limited] + rest.verdicts, rest.counts, rest.expiry)
  }

  /** One call as it reaches the limiter: its key, and how the store behaves during it. */
  datatype Call = Call(key: RateKey, fault: Fault)

  /** Calls on any keys, in order. */
  function AdmitAll(counts: Counts, expiry: Expiries, calls: seq<Call>): (r: Burst)
    ensures |r.verdicts| == |calls|
    decreases |calls|
  {
    if calls == [] then
      Burst([], counts, expiry)
    else
      var a := Admit(counts, expiry, calls[0].key, calls[0].fault);
      var rest := AdmitAll(a.counts, a.expiry, calls[1..]);
      Burst([a.limited] + rest.verdicts, rest.counts, rest.expiry)
  }

  /** How many calls on the key were admitted while the store worked. */
  function HealthyAdmits(calls: seq<Call>, verdicts: seq<bool>, key: RateKey): nat
    requires |verdicts| == |calls|
  {
    if calls == [] then 0
    else (if calls[0].key == key && calls[0].fault == Healthy && !verdicts[0] then 1 else 0)
         + HealthyAdmits(calls[1..], verdicts[1..], key)
  }

  /** How many calls on the key reached the counter (every fault but a refused INCR). */
  function Increments(calls: seq<Call>, key: RateKey): nat {
    if calls == [] then 0
    else (if calls[0].key == key && calls[0].fault != IncrRefused then 1 else 0) + Increments(calls[1..], key)
  }

  /** What is left of a window's allowance once its counter reads c. */
  function Allowance(c: nat): nat {
    if c >= MaxRequests then 0 else MaxRequests - c
  }

  /**
   * However calls on different keys interleave and whatever faults occur, the
   * counter of a key rises by one per call that reached it, and the calls the
   * working store admitted on it never exceed the window's allowance.
   */
  lemma {:induction false} AllowancePerWindow(counts: Counts, expiry: Expiries, calls: seq<Call>, key: RateKey)
    ensures var r := AdmitAll(counts, expiry, calls);
            && CountOf(r.counts, key) == CountOf(counts, key) + Increments(calls, key)
            && HealthyAdmits(calls, r.verdicts, key) <= Allowance(CountOf(counts, key))
    decreases |calls|
  {
    if calls != [] {
      var r := AdmitAll(counts, expiry, calls);
      var a := Admit(counts, expiry, calls[0].key, calls[0].fault);
      var rest := AdmitAll(a.counts, a.expiry, calls[1..]);
      AllowancePerWindow(a.counts, a.expiry, calls[1..], key);
      assert r.verdicts[1..] == rest.verdicts;
    }
  }

  /** Calls from different users, or in different minutes, never touch each other's counter. */
  lemma IndependentKeys(counts: Counts, expiry: Expiries, u1: UserId, t1: Instant, u2: UserId, t2: Instant, fault: Fault)
    requires u1 != u2 || MinuteOf(t1) != MinuteOf(t2)
    ensures KeyFor(u1, t1) != KeyFor(u2, t2)
    ensures CountOf(Admit(counts, expiry, KeyFor(u1, t1), fault).counts, KeyFor(u2, t2)) == CountOf(counts, KeyFor(u2, t2))
  {
  }

  /**
   * The time-to-live set on a window's first hit outlasts the window: every
   * later instant of the same minute comes before the key expires, and the
   * key is gone before the minute after next.
   */
  lemma ExpiryCoversWindow(first: Instant, later: Instant)
    requires first <= later && MinuteOf(later) == MinuteOf(first)
    ensures later < first + WindowSeconds
    ensures first + WindowSeconds < (MinuteOf(first) + 2) * SecondsPerMinute
  {
  }

  /**
   * The accepted weakness of fixed windows: from an empty store, a user can have
   * 2 * MaxRequests calls admitted within two consecutive seconds that straddle
   * a minute boundary.
   */
  lemma BoundaryBurst(userId: UserId, t: Instant)
    requires t % SecondsPerMinute == SecondsPerMinute - 1
    ensures var before := HealthyBurst(map[], map[], KeyFor(userId, t), MaxRequests);
            var after := HealthyBurst(before.counts, before.expiry, KeyFor(userId, t + 1), MaxRequests);
            (forall i :: 0 <= i < MaxRequests ==> !before.verdicts[i] && !after.verdicts[i])
  {
  }

  /** The shared counter store: atomic INCR and per-key EXPIRE. */
  class CounterStore {
    var counts: Counts
    var expiry: Expiries

    constructor ()
      ensures counts == map[] && expiry == map[]
    {
      counts := map[];
      expiry := map[];
    }

    /** INCR: the new value, or None when the call raises. */
    method StringIncrement(key: RateKey, fault: Fault) returns (r: Option<nat>)
      modifies this`counts
      ensures counts == if fault == IncrRefused then old(counts)
                        else old(counts)[key := CountOf(old(counts), key) + 1]
      ensures r == if fault == IncrRefused || fault == IncrReplyLost then None
                   else Some(CountOf(old(counts), key) + 1)
    {
      if fault == IncrRefused {
        return None;
      }
      var count := CountOf(counts, key) + 1;
      counts := counts[key := count];
      r := if fault == IncrReplyLost then None else Some(count);
    }

    /** EXPIRE: records the time-to-live; false when the call raises. */
    method KeyExpire(key: RateKey, seconds: nat, fault: Fault) returns (ok: bool)
      modifies this`expiry
      ensures ok <==> fault != ExpireFailed
      ensures expiry == if ok then old(expiry)[key := seconds] else old(expiry)
    {
      ok := fault != ExpireFailed;
      if ok {
        expiry := expiry[key := seconds];
      }
    }
  }

  class RateLimitService {
    const database: CounterStore

    constructor (redis: CounterStore)
      ensures database == redis
    {
      database := redis;
    }

    method IsRateLimited(userId: UserId, now: Instant, fault: Fault) returns (limited: bool)
      modifies database
      ensures var a := Admit(old(database.counts), old(database.expiry), KeyFor(userId, now), fault);
              limited == a.limited && database.counts == a.counts && database.expiry == a.expiry
    {
      var window := MinuteOf(now);
      var key := RateKey(userId, window);
      var count := database.StringIncrement(key, fault);
      if count.None? {
        return false;
      }
      if count.value == 1 {
        var expired := database.KeyExpire(key, WindowSeconds, fault);
        if !expired {
          return false;
        }
      }
      return count.value > MaxRequests;
    }
  }
}
