/**
 * Competing requests for quota. First, requests served one after another,
 * each as one atomic conditional update. Then a finer model of the race the
 * source guards against: each request makes one or more non-atomic
 * fast-path reads before its conditional update, and the steps of all
 * requests interleave in any order.
 */
module Contention {
  import opened Models
  import opened Subscriptions

  function Min(a: int, b: int): int {
    if a < b then a else b
  }

  /** The record after g more units were granted to it. */
  function Bumped(subs: Store, uid: UserId, g: nat): Store {
    if g == 0 || uid !in subs then subs
    else subs[uid := subs[uid].(usedThisMonth := subs[uid].usedThisMonth + g)]
  }

  /** One more unit granted on top of g, while the record still has headroom. */
  lemma BumpedStep(subs: Store, uid: UserId, g: nat)
    requires g < Headroom(subs, uid)
    ensures HasHeadroom(Bumped(subs, uid, g), uid)
    ensures Consume(Bumped(subs, uid, g), uid).store == Bumped(subs, uid, g + 1)
  {
  }

  /** Once g reaches the headroom, the record has none left. */
  lemma BumpedFull(subs: Store, uid: UserId, g: nat)
    requires g == Headroom(subs, uid)
    ensures !HasHeadroom(Bumped(subs, uid, g), uid)
  {
  }

  // ---------------------------------------------------------------------
  // Requests served in arrival order

  function Occurrences(reqs: seq<UserId>, u: UserId): nat {
    if reqs == [] then 0 else (if reqs[0] == u then 1 else 0) + Occurrences(reqs[1..], u)
  }

  datatype Served = Served(granted: seq<bool>, store: Store)

  /** Requests for usage, by user id, each answered by one conditional update. */
  function Serve(subs: Store, reqs: seq<UserId>): (r: Served)
    ensures |r.granted| == |reqs|
    ensures r.store.Keys == subs.Keys
    ensures WithinQuota(subs) ==> WithinQuota(r.store)
    ensures AllConsistent(subs) ==> AllConsistent(r.store)
    decreases |reqs|
  {
    if reqs == [] then
      Served([], subs)
    else
      var c := Consume(subs, reqs[0]);
      var rest := Serve(c.store, reqs[1..]);
      Served([c.granted] + rest.granted, rest.store)
  }

  /** How many of the user's requests were granted. */
  function GrantsFor(reqs: seq<UserId>, granted: seq<bool>, u: UserId): nat
    requires |granted| == |reqs|
  {
    if reqs == [] then 0
    else (if reqs[0] == u && granted[0] then 1 else 0) + GrantsFor(reqs[1..], granted[1..], u)
  }

  /**
   * Whatever the arrival order, each user is granted exactly the smaller of
   * the number of its requests and its headroom, and its usage rises by
   * exactly that much.
   */
  lemma {:induction false} ServeGrantsMin(subs: Store, reqs: seq<UserId>, u: UserId)
    ensures var r := Serve(subs, reqs);
            && GrantsFor(reqs, r.granted, u) == Min(Occurrences(reqs, u), Headroom(subs, u))
            && (u in subs ==> r.store[u] == subs[u].(usedThisMonth := subs[u].usedThisMonth + GrantsFor(reqs, r.granted, u)))
    decreases |reqs|
  {
    if reqs != [] {
      var r := Serve(subs, reqs);
      var c := Consume(subs, reqs[0]);
      var rest := Serve(c.store, reqs[1..]);
      ServeGrantsMin(c.store, reqs[1..], u);
      assert r.granted[1..] == rest.granted;
      if reqs[0] == u {
        if c.granted {
          BumpedStep(subs, u, 0);
          assert c.store == Bumped(subs, u, 1);
          assert Headroom(c.store, u) == Headroom(subs, u) - 1;
        } else {
          assert c.store == subs;
        }
      } else {
        assert Headroom(c.store, u) == Headroom(subs, u);
      }
    }
  }

  /** Granting one unit and then g more is granting g + 1. */
  lemma BumpedComposes(subs: Store, u: UserId, g: nat)
    requires HasHeadroom(subs, u)
    ensures Bumped(Bumped(subs, u, 1), u, g) == Bumped(subs, u, g + 1)
  {
  }

  function Repeat(u: UserId, n: nat): (s: seq<UserId>)
    ensures |s| == n && forall i :: 0 <= i < n ==> s[i] == u
  {
    if n == 0 then [] else [u] + Repeat(u, n - 1)
  }

  /**
   * N requests by one user with k units of headroom: the first min(N, k) are
   * granted, every later one is refused, and usage rises by min(N, k).
   */
  lemma {:induction false} RepeatedRequests(subs: Store, u: UserId, n: nat)
    ensures var r := Serve(subs, Repeat(u, n));
            && (forall i :: 0 <= i < n ==> (r.granted[i] <==> i < Headroom(subs, u)))
            && r.store == Bumped(subs, u, Min(n, Headroom(subs, u)))
    decreases n
  {
    if n > 0 {
      var r := Serve(subs, Repeat(u, n));
      var c := Consume(subs, u);
      assert Repeat(u, n)[1..] == Repeat(u, n - 1);
      var rest := Serve(c.store, Repeat(u, n - 1));
      RepeatedRequests(c.store, u, n - 1);
      assert r.granted == [c.granted] + rest.granted;
      if c.granted {
        BumpedStep(subs, u, 0);
        assert c.store == Bumped(subs, u, 1);
        BumpedComposes(subs, u, Min(n - 1, Headroom(subs, u) - 1));
      } else {
        assert Headroom(subs, u) == 0;
      }
    }
  }

  // ---------------------------------------------------------------------
  // Interleaved requests with non-atomic fast-path reads

  /**
   * Where one request for the user's quota stands: `checks` fast-path reads
   * still to make before its conditional update (the controller's check and
   * the service's check make two), or finished with its answer.
   */
  datatype Phase = Pending(checks: nat) | Finished(granted: bool)

  datatype RaceState = RaceState(store: Store, phases: seq<Phase>)

  /**
   * Request i takes its next step against the record of `uid`: a fast-path
   * read refuses when the record shows no headroom; the conditional update
   * grants exactly when it still has some. A finished request, or an index
   * with no request, does nothing.
   */
  function Step(st: RaceState, uid: UserId, i: nat): RaceState {
    if i >= |st.phases| then st
    else match st.phases[i]
      case Finished(_) => st
      case Pending(checks) =>
        if checks > 0 then
          if !HasHeadroom(st.store, uid) then st.(phases := st.phases[i := Finished(false)])
          else st.(phases := st.phases[i := Pending(checks - 1)])
        else
          var c := Consume(st.store, uid);
          RaceState(c.store, st.phases[i := Finished(c.granted)])
  }

  /** The steps of a schedule, in order. */
  function Run(st: RaceState, uid: UserId, schedule: seq<nat>): RaceState
    decreases |schedule|
  {
    if schedule == [] then st else Run(Step(st, uid, schedule[0]), uid, schedule[1..])
  }

  function Count(ps: seq<Phase>, p: Phase): nat {
    if ps == [] then 0 else (if ps[0] == p then 1 else 0) + Count(ps[1..], p)
  }

  lemma {:induction false} CountUpdate(ps: seq<Phase>, i: nat, x: Phase, p: Phase)
    requires i < |ps|
    ensures Count(ps[i := x], p) + (if ps[i] == p then 1 else 0) == Count(ps, p) + (if x == p then 1 else 0)
  {
    if i == 0 {
      assert ps[i := x][1..] == ps[1..];
    } else {
      assert ps[i := x][1..] == ps[1..][i - 1 := x];
      CountUpdate(ps[1..], i - 1, x, p);
    }
  }

  predicate AllFinished(ps: seq<Phase>) {
    forall j :: 0 <= j < |ps| ==> ps[j].Finished?
  }

  lemma {:induction false} FinishedCount(ps: seq<Phase>)
    requires AllFinished(ps)
    ensures Count(ps, Finished(true)) + Count(ps, Finished(false)) == |ps|
  {
    if ps != [] {
      assert AllFinished(ps[1..]) by {
        forall j | 0 <= j < |ps[1..]| ensures ps[1..][j].Finished? {
          assert ps[1..][j] == ps[j + 1];
        }
      }
      FinishedCount(ps[1..]);
    }
  }

  lemma {:induction false} NoneFinishedCount(ps: seq<Phase>)
    requires forall j :: 0 <= j < |ps| ==> ps[j].Pending?
    ensures Count(ps, Finished(true)) == 0 && Count(ps, Finished(false)) == 0
  {
    if ps != [] {
      assert forall j :: 0 <= j < |ps[1..]| ==> ps[1..][j] == ps[j + 1];
      NoneFinishedCount(ps[1..]);
    }
  }

  /**
   * What holds at every point of the race: the record shows exactly the
   * granted units, no more than the headroom was granted, and a refusal
   * only ever happens once the headroom is used up.
   */
  predicate RaceInvariant(subs: Store, uid: UserId, st: RaceState) {
    var g := Count(st.phases, Finished(true));
    && g <= Headroom(subs, uid)
    && st.store == Bumped(subs, uid, g)
    && (Count(st.phases, Finished(false)) > 0 ==> g == Headroom(subs, uid))
  }

  lemma StepKeepsInvariant(subs: Store, uid: UserId, st: RaceState, i: nat)
    requires RaceInvariant(subs, uid, st)
    ensures RaceInvariant(subs, uid, Step(st, uid, i))
    ensures |Step(st, uid, i).phases| == |st.phases|
  {
    var g := Count(st.phases, Finished(true));
    var k := Headroom(subs, uid);
    if g < k {
      BumpedStep(subs, uid, g);
    } else {
      BumpedFull(subs, uid, g);
    }
    if i < |st.phases| && st.phases[i].Pending? {
      var checks := st.phases[i].checks;
      var next := Step(st, uid, i);
      if checks > 0 {
        CountUpdate(st.phases, i, next.phases[i], Finished(true));
        CountUpdate(st.phases, i, next.phases[i], Finished(false));
      } else {
        CountUpdate(st.phases, i, next.phases[i], Finished(true));
        CountUpdate(st.phases, i, next.phases[i], Finished(false));
      }
    }
  }

  lemma {:induction false} RunKeepsInvariant(subs: Store, uid: UserId, st: RaceState, schedule: seq<nat>)
    requires RaceInvariant(subs, uid, st)
    ensures RaceInvariant(subs, uid, Run(st, uid, schedule))
    ensures |Run(st, uid, schedule).phases| == |st.phases|
    decreases |schedule|
  {
    if schedule != [] {
      StepKeepsInvariant(subs, uid, st, schedule[0]);
      RunKeepsInvariant(subs, uid, Step(st, uid, schedule[0]), schedule[1..]);
    }
  }

  /**
   * N requests for one user, k units of headroom, any interleaving of their
   * reads and updates: the record never passes its quota, and once every
   * request has finished exactly min(N, k) of them were granted and usage
   * rose by exactly that much.
   */
  lemma RaceOutcome(subs: Store, uid: UserId, phases: seq<Phase>, schedule: seq<nat>)
    requires forall j :: 0 <= j < |phases| ==> phases[j].Pending?
    ensures var final := Run(RaceState(subs, phases), uid, schedule);
            var g := Count(final.phases, Finished(true));
            && final.store == Bumped(subs, uid, g)
            && g <= Headroom(subs, uid)
            && (WithinQuota(subs) ==> WithinQuota(final.store))
            && (AllFinished(final.phases) ==> g == Min(|phases|, Headroom(subs, uid)))
  {
    var start := RaceState(subs, phases);
    NoneFinishedCount(phases);
    assert RaceInvariant(subs, uid, start);
    RunKeepsInvariant(subs, uid, start, schedule);
    var final := Run(start, uid, schedule);
    if AllFinished(final.phases) {
      FinishedCount(final.phases);
    }
  }
}
