/**
 The in-memory sliding-window rate limiter of api/ratelimit.py. Monotonic clock readings
 are reals, wall-clock readings whole seconds.
*/
module RateLimit {
  import opened Common

  const MAX_KEYS := 10000

  type Key = string
  type Store = map<Key, seq<real>>

  /** The hits that are still inside a window whose older edge is cutoff. */
  function Recent(hits: seq<real>, cutoff: real): seq<real>
    decreases |hits|
  {
    if hits == [] then [] else
    var last := |hits| - 1;
    Recent(hits[..last], cutoff) + if hits[last] > cutoff then [hits[last]] else []
  }

  /** max(hits), or 0 when there is none. */
  function Latest(hits: seq<real>): real
    decreases |hits|
  {
    if hits == [] then 0.0
    else if |hits| == 1 then hits[0]
    else
      var rest := Latest(hits[..|hits| - 1]);
      if hits[|hits| - 1] >= rest then hits[|hits| - 1] else rest
  }

  function Get(store: Store, key: Key): seq<real> {
    if key in store then store[key] else []
  }

  datatype Limits = Limits(requests: int, window: int)

  ghost predicate Sane(l: Limits) {
    l.requests >= 1 && l.window >= 1
  }

  function Cutoff(l: Limits, now: real): real {
    now - l.window as real
  }

  predicate Admits(l: Limits, hits: seq<real>, now: real) {
    |Recent(hits, Cutoff(l, now))| < l.requests
  }

  /** Whole seconds, rounded up past the moment the oldest recent hit leaves the window. */
  function RetryAfter(l: Limits, hits: seq<real>, now: real): int
    requires Recent(hits, Cutoff(l, now)) != []
  {
    (Recent(hits, Cutoff(l, now))[0] - Cutoff(l, now)).Floor + 1
  }

  function AfterCheck(l: Limits, enforce: bool, store: Store, key: Key, now: real): Store {
    if enforce && !Admits(l, Get(store, key), now) then store
    else store[key := Recent(Get(store, key), Cutoff(l, now)) + [now]]
  }

  predicate Idle(l: Limits, hits: seq<real>, now: real) {
    forall i :: 0 <= i < |hits| ==> hits[i] <= Cutoff(l, now)
  }

  function AfterCleanup(l: Limits, store: Store, now: real): Store {
    map key | key in store && !Idle(l, store[key], now) :: store[key]
  }

  /** Eviction keeps MAX_KEYS rows, and none of those it removes was hit later than one it keeps. */
  ghost predicate Evicted(before: Store, after: Store) {
    && |after| == MAX_KEYS
    && (forall key :: key in after ==> key in before && after[key] == before[key])
    && (forall gone, kept :: gone in before && gone !in after && kept in after ==>
          Latest(before[gone]) <= Latest(before[kept]))
  }

  datatype Info = Info(limit: int, remaining: int, reset: int)

  class InMemoryRateLimiter {
    const limits: Limits
    const enforce: bool
    var hits: Store

    constructor (requests: int, window: int, enforce: bool)
      ensures limits == Limits(requests, window) && this.enforce == enforce && hits == map[]
    {
      limits, this.enforce, hits := Limits(requests, window), enforce, map[];
    }

    /**
     Admits exactly if fewer than `requests` hits of the key are later than a window ago, or if it
     only warns. Err carries the Retry-After seconds of a 429.
    */
    method Check(key: Key, now: real, wallNow: int) returns (outcome: Result<Info, int>)
      requires Sane(limits)
      modifies this
      ensures outcome.Ok? <==> !enforce || Admits(limits, Get(old(hits), key), now)
      ensures outcome.Err? ==>
        && hits == old(hits)
        && Recent(Get(hits, key), Cutoff(limits, now)) != []
        && outcome.error == RetryAfter(limits, Get(hits, key), now)
      ensures outcome.Ok? ==>
        var after := AfterCheck(limits, enforce, old(hits), key, now);
        if |after| > MAX_KEYS then Evicted(after, hits) else hits == after
      ensures
        var known := if key in old(hits) then old(hits)[key] else [];
        var recent := Recent(known, now - limits.window as real);
        var after := old(hits)[key := recent + [now]];
        && (outcome.Ok? <==> !enforce || |recent| < limits.requests)
        && (outcome.Err? ==>
              && hits == old(hits) && recent != []
              && outcome.error == (recent[0] + limits.window as real - now).Floor + 1)
        && (outcome.Ok? && |after| <= 10000 ==> hits == after)
        && (outcome.Ok? && |after| > 10000 ==> |hits| == 10000 && Evicted(after, hits))
        && (outcome.Ok? ==>
              var oldest := if recent == [] then now else recent[0];
              outcome.value == Info(limits.requests, limits.requests - |recent| - 1,
                                    wallNow + (oldest + limits.window as real - now).Floor + 1))
    {
      var cutoff := Cutoff(limits, now);
      var recent := Recent(Get(hits, key), cutoff);
      if |recent| >= limits.requests && enforce {
        return Err((recent[0] - cutoff).Floor + 1);
      }
      recent := recent + [now];
      hits := hits[key := recent];
      outcome := Ok(Info(limits.requests, limits.requests - |recent|,
                         wallNow + (recent[0] + limits.window as real - now).Floor + 1));
      if |hits| > MAX_KEYS {
        EvictOldest();
      }
    }

    method EvictOldest()
      requires |hits| >= MAX_KEYS
      modifies this
      ensures Evicted(old(hits), hits) && |hits| == 10000
    {
      while |hits| > MAX_KEYS
        invariant |hits| >= MAX_KEYS
        invariant forall key :: key in hits ==> key in old(hits) && hits[key] == old(hits)[key]
        invariant forall gone, kept :: gone in old(hits) && gone !in hits && kept in hits ==>
                    Latest(old(hits)[gone]) <= Latest(old(hits)[kept])
        decreases |hits|
      {
        assert |hits.Keys| == |hits|;
        OldestExists(hits, hits.Keys);
        var victim :| victim in hits && forall key :: key in hits ==> Latest(hits[victim]) <= Latest(hits[key]);
        var rest := map key | key in hits && key != victim :: hits[key];
        assert rest.Keys == hits.Keys - {victim};
        assert |rest| == |rest.Keys|;
        hits := rest;
      }
    }

    method Cleanup(now: real)
      modifies this
      ensures hits == AfterCleanup(limits, old(hits), now)
      ensures forall key :: key in hits <==>
                key in old(hits)
                && exists i :: 0 <= i < |old(hits)[key]| && old(hits)[key][i] > now - limits.window as real
      ensures forall key :: key in hits ==> hits[key] == old(hits)[key]
    {
      hits := AfterCleanup(limits, hits, now);
    }
  }

  lemma {:induction false} OldestExists(store: Store, keys: set<Key>)
    requires keys != {} && keys <= store.Keys
    ensures exists key :: key in keys && forall other :: other in keys ==> Latest(store[key]) <= Latest(store[other])
    decreases |keys|
  {
    var some :| some in keys;
    var rest := keys - {some};
    assert keys == rest + {some};
    if rest != {} {
      OldestExists(store, rest);
      var key :| key in rest && forall other :: other in rest ==> Latest(store[key]) <= Latest(store[other]);
      var first := if Latest(store[key]) <= Latest(store[some]) then key else some;
      assert first in keys && forall other :: other in keys ==> Latest(store[first]) <= Latest(store[other]);
    }
  }

  /** The key that was just hit survives unless every key it displaced was hit at the same moment. */
  lemma EvictionKeepsNewest(before: Store, after: Store, key: Key)
    requires Evicted(before, after) && key in before
    requires forall other :: other in before && other != key ==> Latest(before[other]) < Latest(before[key])
    ensures key in after
  {
  }

  /** The latest hit of a key is one of its hits and not before any other. */
  lemma {:induction false} LatestMeaning(hits: seq<real>)
    ensures hits == [] ==> Latest(hits) == 0.0
    ensures hits != [] ==> Latest(hits) in hits && forall i :: 0 <= i < |hits| ==> hits[i] <= Latest(hits)
    decreases |hits|
  {
    if |hits| > 1 {
      LatestMeaning(hits[..|hits| - 1]);
      assert forall x :: x in hits[..|hits| - 1] ==> x in hits;
    }
  }

  /** The recent hits are those later than the cutoff, in order. */
  lemma RecentAppend(hits: seq<real>, now: real, cutoff: real)
    ensures Recent(hits + [now], cutoff) == Recent(hits, cutoff) + if now > cutoff then [now] else []
    ensures Recent([], cutoff) == []
  {
    assert (hits + [now])[..|hits|] == hits;
  }

  /** The places of the hits that are later than a moment. */
  function LaterThan(hits: seq<real>, moment: real): set<int> {
    set i | 0 <= i < |hits| && hits[i] > moment
  }

  lemma {:induction false} RecentCounts(hits: seq<real>, cutoff: real)
    ensures |Recent(hits, cutoff)| == |LaterThan(hits, cutoff)|
    decreases |hits|
  {
    if hits == [] {
      assert LaterThan(hits, cutoff) == {};
    } else {
      var last := |hits| - 1;
      var front := LaterThan(hits[..last], cutoff);
      RecentCounts(hits[..last], cutoff);
      assert LaterThan(hits, cutoff) == if hits[last] > cutoff then front + {last} else front;
    }
  }

  // ---- an ideal limiter -------------------------------------------------------

  datatype Event = CheckEvent(key: Key, now: real) | CleanupEvent(now: real)

  function StoreStep(l: Limits, store: Store, e: Event): Store {
    match e
    case CheckEvent(key, now) => AfterCheck(l, true, store, key, now)
    case CleanupEvent(now) => AfterCleanup(l, store, now)
  }

  /** Fewer than `requests` admissions lie less than a window back. */
  predicate IdealAdmits(l: Limits, history: seq<real>, now: real) {
    |LaterThan(history, now - l.window as real)| < l.requests
  }

  /** The ideal limiter keeps every admission for ever. */
  function IdealStep(l: Limits, history: Store, e: Event): Store {
    match e
    case CheckEvent(key, now) =>
      if IdealAdmits(l, Get(history, key), now) then history[key := Get(history, key) + [now]] else history
    case CleanupEvent(_) => history
  }

  function StoreRun(l: Limits, store: Store, es: seq<Event>): Store
    decreases |es|
  {
    if es == [] then store else StoreRun(l, StoreStep(l, store, es[0]), es[1..])
  }

  function IdealRun(l: Limits, history: Store, es: seq<Event>): Store
    decreases |es|
  {
    if es == [] then history else IdealRun(l, IdealStep(l, history, es[0]), es[1..])
  }

  /** The answers to the checks of a run, in order. */
  function StoreAnswers(l: Limits, store: Store, es: seq<Event>): seq<bool>
    decreases |es|
  {
    if es == [] then []
    else (if es[0].CheckEvent? then [Admits(l, Get(store, es[0].key), es[0].now)] else [])
         + StoreAnswers(l, StoreStep(l, store, es[0]), es[1..])
  }

  function IdealAnswers(l: Limits, history: Store, es: seq<Event>): seq<bool>
    decreases |es|
  {
    if es == [] then []
    else (if es[0].CheckEvent? then [IdealAdmits(l, Get(history, es[0].key), es[0].now)] else [])
         + IdealAnswers(l, IdealStep(l, history, es[0]), es[1..])
  }

  predicate Ordered(start: real, es: seq<Event>)
    decreases |es|
  {
    es == [] || (start <= es[0].now && Ordered(es[0].now, es[1..]))
  }

  function End(start: real, es: seq<Event>): real
    decreases |es|
  {
    if es == [] then start else End(es[0].now, es[1..])
  }

  // ---- refinement -------------------------------------------------------------

  lemma {:induction false} RecentTwice(hits: seq<real>, older: real, newer: real)
    requires older <= newer
    ensures Recent(Recent(hits, older), newer) == Recent(hits, newer)
    decreases |hits|
  {
    if hits != [] {
      var last := |hits| - 1;
      RecentTwice(hits[..last], older, newer);
      if hits[last] > older {
        RecentAppend(Recent(hits[..last], older), hits[last], newer);
      } else {
        assert Recent(hits[..last], older) + [] == Recent(hits[..last], older);
      }
    }
  }

  lemma {:induction false} IdleRecent(l: Limits, hits: seq<real>, now: real, cutoff: real)
    requires Idle(l, hits, now) && Cutoff(l, now) <= cutoff
    ensures Recent(hits, cutoff) == []
    decreases |hits|
  {
    if hits != [] {
      IdleRecent(l, hits[..|hits| - 1], now, cutoff);
    }
  }

  /** Store and history hold the same hits of every window that may still be asked about. */
  ghost predicate Agree(l: Limits, store: Store, history: Store, now: real) {
    forall key, cutoff :: cutoff >= Cutoff(l, now) ==>
      Recent(Get(store, key), cutoff) == Recent(Get(history, key), cutoff)
  }

  /** Store and history admit the same checks. */
  lemma AdmissionAgrees(l: Limits, store: Store, history: Store, clock: real, key: Key, now: real)
    requires Agree(l, store, history, clock) && clock <= now
    ensures Admits(l, Get(store, key), now) == IdealAdmits(l, Get(history, key), now)
  {
    assert Recent(Get(store, key), Cutoff(l, now)) == Recent(Get(history, key), Cutoff(l, now));
    RecentCounts(Get(history, key), Cutoff(l, now));
  }

  /** An admission is remembered alike by both. */
  lemma AdmittedAlike(l: Limits, hits: seq<real>, known: seq<real>, now: real, cutoff: real)
    requires Recent(hits, cutoff) == Recent(known, cutoff) && Cutoff(l, now) <= cutoff
    ensures Recent(Recent(hits, Cutoff(l, now)) + [now], cutoff) == Recent(known + [now], cutoff)
  {
    RecentTwice(hits, Cutoff(l, now), cutoff);
    RecentAppend(Recent(hits, Cutoff(l, now)), now, cutoff);
    RecentAppend(known, now, cutoff);
  }

  lemma CheckAgrees(l: Limits, store: Store, history: Store, clock: real, hit: Key, now: real, key: Key, cutoff: real)
    requires Agree(l, store, history, clock) && clock <= now && cutoff >= Cutoff(l, now)
    ensures var e := CheckEvent(hit, now);
            Recent(Get(StoreStep(l, store, e), key), cutoff) == Recent(Get(IdealStep(l, history, e), key), cutoff)
  {
    AdmissionAgrees(l, store, history, clock, hit, now);
    assert Recent(Get(store, key), cutoff) == Recent(Get(history, key), cutoff);
    if key == hit && Admits(l, Get(store, hit), now) {
      AdmittedAlike(l, Get(store, key), Get(history, key), now, cutoff);
    }
  }

  lemma StepAgrees(l: Limits, store: Store, history: Store, clock: real, e: Event)
    requires Agree(l, store, history, clock) && clock <= e.now
    ensures Agree(l, StoreStep(l, store, e), IdealStep(l, history, e), e.now)
    ensures e.CheckEvent? ==> Admits(l, Get(store, e.key), e.now) == IdealAdmits(l, Get(history, e.key), e.now)
  {
    if e.CheckEvent? {
      AdmissionAgrees(l, store, history, clock, e.key, e.now);
    }
    forall key, cutoff | cutoff >= Cutoff(l, e.now)
      ensures Recent(Get(StoreStep(l, store, e), key), cutoff) == Recent(Get(IdealStep(l, history, e), key), cutoff)
    {
      match e
      case CleanupEvent(now) =>
        assert Recent(Get(store, key), cutoff) == Recent(Get(history, key), cutoff);
        if key in store && Idle(l, store[key], now) {
          IdleRecent(l, store[key], now, cutoff);
        }
      case CheckEvent(hit, now) => CheckAgrees(l, store, history, clock, hit, now, key, cutoff);
    }
  }

  lemma {:induction false} RunAgrees(l: Limits, store: Store, history: Store, clock: real, es: seq<Event>)
    requires Agree(l, store, history, clock) && Ordered(clock, es)
    ensures StoreAnswers(l, store, es) == IdealAnswers(l, history, es)
    ensures Agree(l, StoreRun(l, store, es), IdealRun(l, history, es), End(clock, es))
    decreases |es|
  {
    if es != [] {
      StepAgrees(l, store, history, clock, es[0]);
      RunAgrees(l, StoreStep(l, store, es[0]), IdealStep(l, history, es[0]), es[0].now, es[1..]);
    }
  }

  /**
   However checks and cleanups interleave, the pruned and cleaned store answers every check
   as the limiter that forgets nothing.
  */
  lemma PruningIsInvisible(l: Limits, start: real, es: seq<Event>)
    requires Ordered(start, es)
    ensures StoreAnswers(l, map[], es) == IdealAnswers(l, map[], es)
  {
    RunAgrees(l, map[], map[], start, es);
  }

  // ---- what the window promises -----------------------------------------------

  /** Admissions in order, any requests + 1 in a row spanning at least the window. */
  ghost predicate Spaced(l: Limits, hits: seq<real>) {
    && l.requests >= 1
    && (forall i, j :: 0 <= i < j < |hits| ==> hits[i] <= hits[j])
    && (forall i :: 0 <= i < |hits| - l.requests ==> hits[i] <= Cutoff(l, hits[i + l.requests]))
  }

  /** Of ordered hits, the recent ones are the last ones. */
  lemma {:induction false} RecentAreLast(hits: seq<real>, cutoff: real)
    requires forall i, j :: 0 <= i < j < |hits| ==> hits[i] <= hits[j]
    ensures |Recent(hits, cutoff)| <= |hits|
    ensures forall i :: 0 <= i < |hits| ==> (hits[i] > cutoff <==> i >= |hits| - |Recent(hits, cutoff)|)
    decreases |hits|
  {
    if hits != [] {
      var last := |hits| - 1;
      var front := hits[..last];
      RecentAreLast(front, cutoff);
      assert forall i :: 0 <= i < last ==> hits[i] == front[i];
    }
  }

  lemma {:induction false} RecentAbove(hits: seq<real>, cutoff: real)
    ensures forall i :: 0 <= i < |Recent(hits, cutoff)| ==> Recent(hits, cutoff)[i] > cutoff
    decreases |hits|
  {
    if hits != [] {
      RecentAbove(hits[..|hits| - 1], cutoff);
    }
  }

  lemma AdmissionKeepsSpaced(l: Limits, hits: seq<real>, now: real)
    requires Sane(l) && Spaced(l, hits) && Admits(l, hits, now)
    requires hits != [] ==> hits[|hits| - 1] <= now
    ensures Spaced(l, hits + [now])
  {
    RecentAreLast(hits, Cutoff(l, now));
  }

  /** The admissions inside (t - window, t]. */
  function InWindow(l: Limits, hits: seq<real>, t: real): seq<real>
    decreases |hits|
  {
    if hits == [] then [] else
    var last := |hits| - 1;
    InWindow(l, hits[..last], t) + if t - l.window as real < hits[last] <= t then [hits[last]] else []
  }

  lemma OutOfWindow(l: Limits, hits: seq<real>, t: real, i: nat)
    requires Spaced(l, hits) && i + l.requests < |hits| && hits[|hits| - 1] <= t
    ensures hits[i] <= Cutoff(l, t)
  {
    var next := i + l.requests;
    assert hits[i] <= Cutoff(l, hits[next]) && hits[next] <= hits[|hits| - 1];
  }

  lemma {:induction false} WindowBounded(l: Limits, hits: seq<real>, t: real)
    requires Sane(l) && Spaced(l, hits)
    ensures |InWindow(l, hits, t)| <= l.requests
    decreases |hits|
  {
    if hits != [] {
      var last := |hits| - 1;
      if hits[last] <= t {
        AllInWindow(l, hits, t);
        RecentAreLast(hits, Cutoff(l, t));
        var size := |Recent(hits, Cutoff(l, t))|;
        if size > l.requests {
          OutOfWindow(l, hits, t, |hits| - size);
        }
      } else {
        WindowBounded(l, hits[..last], t);
      }
    }
  }

  lemma {:induction false} AllInWindow(l: Limits, hits: seq<real>, t: real)
    requires forall i :: 0 <= i < |hits| ==> hits[i] <= t
    ensures InWindow(l, hits, t) == Recent(hits, Cutoff(l, t))
    decreases |hits|
  {
    if hits != [] {
      AllInWindow(l, hits[..|hits| - 1], t);
    }
  }

  /** Every key's admissions are spaced and not later than the clock. */
  ghost predicate HistoryInv(l: Limits, history: Store, clock: real) {
    forall key :: key in history ==>
      Spaced(l, history[key]) && (history[key] != [] ==> history[key][|history[key]| - 1] <= clock)
  }

  lemma HistoryStep(l: Limits, history: Store, clock: real, e: Event)
    requires Sane(l) && HistoryInv(l, history, clock) && clock <= e.now
    ensures HistoryInv(l, IdealStep(l, history, e), e.now)
  {
    if e.CheckEvent? && IdealAdmits(l, Get(history, e.key), e.now) {
      RecentCounts(Get(history, e.key), Cutoff(l, e.now));
      AdmissionKeepsSpaced(l, Get(history, e.key), e.now);
    }
  }

  lemma {:induction false} HistoryKept(l: Limits, history: Store, clock: real, es: seq<Event>)
    requires Sane(l) && HistoryInv(l, history, clock) && Ordered(clock, es)
    ensures HistoryInv(l, IdealRun(l, history, es), End(clock, es))
    decreases |es|
  {
    if es != [] {
      HistoryStep(l, history, clock, es[0]);
      HistoryKept(l, IdealStep(l, history, es[0]), es[0].now, es[1..]);
    }
  }

  /** No window (t - window, t], wherever it lies, holds more than `requests` admissions of a key. */
  lemma WindowLimit(l: Limits, start: real, es: seq<Event>, key: Key, t: real)
    requires Sane(l) && Ordered(start, es)
    ensures |InWindow(l, Get(IdealRun(l, map[], es), key), t)| <= l.requests
  {
    HistoryKept(l, map[], start, es);
    WindowBounded(l, Get(IdealRun(l, map[], es), key), t);
  }

  lemma {:induction false} FewerLater(hits: seq<real>, older: real, newer: real)
    requires older <= newer && Recent(hits, older) != [] && Recent(hits, older)[0] <= newer
    ensures |Recent(hits, newer)| < |Recent(hits, older)|
  {
    RecentTwice(hits, older, newer);
    HeadDropped(Recent(hits, older), newer);
  }

  lemma {:induction false} HeadDropped(hits: seq<real>, cutoff: real)
    requires hits != [] && hits[0] <= cutoff
    ensures |Recent(hits, cutoff)| < |hits|
    decreases |hits|
  {
    if |hits| > 1 {
      HeadDropped(hits[..|hits| - 1], cutoff);
    }
  }

  /**
   Retry-After is the least whole number of seconds after which the window has room for certain:
   it has room exactly from the moment the oldest recent hit is a window old, and Retry-After is
   that moment rounded up, or one second more when it is a whole number of seconds away.
  */
  lemma RetryAfterTight(l: Limits, hits: seq<real>, now: real, later: real)
    requires Sane(l) && Spaced(l, hits) && (hits != [] ==> hits[|hits| - 1] <= now)
    requires !Admits(l, hits, now) && now <= later
    ensures Recent(hits, now - l.window as real) != []
    ensures var room := Recent(hits, now - l.window as real)[0] + l.window as real;
            && (Admits(l, hits, later) <==> later >= room)
            && now + RetryAfter(l, hits, now) as real - 1.0 <= room < now + RetryAfter(l, hits, now) as real
  {
    var (older, newer) := (Cutoff(l, now), Cutoff(l, later));
    AllInWindow(l, hits, now);
    WindowBounded(l, hits, now);
    RecentAbove(hits, older);
    if newer >= Recent(hits, older)[0] {
      FewerLater(hits, older, newer);
    } else {
      RecentTwice(hits, older, newer);
      RecentOrdered(hits, older);
      RecentSame(Recent(hits, older), newer);
    }
  }

  lemma {:induction false} RecentOrdered(hits: seq<real>, cutoff: real)
    requires forall i, j :: 0 <= i < j < |hits| ==> hits[i] <= hits[j]
    ensures forall i, j :: 0 <= i < j < |Recent(hits, cutoff)| ==> Recent(hits, cutoff)[i] <= Recent(hits, cutoff)[j]
    ensures forall x :: x in Recent(hits, cutoff) ==> x in hits
    decreases |hits|
  {
    if hits != [] {
      var last := |hits| - 1;
      RecentOrdered(hits[..last], cutoff);
      assert forall x :: x in hits[..last] ==> x in hits;
      forall i | 0 <= i < |Recent(hits[..last], cutoff)|
        ensures Recent(hits[..last], cutoff)[i] <= hits[last]
      {
        assert Recent(hits[..last], cutoff)[i] in Recent(hits[..last], cutoff);
        var k :| 0 <= k < last && hits[..last][k] == Recent(hits[..last], cutoff)[i];
      }
    }
  }

  lemma {:induction false} RecentSame(hits: seq<real>, cutoff: real)
    requires forall i :: 0 <= i < |hits| ==> hits[i] > cutoff || (i > 0 && hits[0] > cutoff && hits[i] >= hits[0])
    ensures Recent(hits, cutoff) == hits
    decreases |hits|
  {
    if hits != [] {
      RecentSame(hits[..|hits| - 1], cutoff);
    }
  }

  /** A full window, once Retry-After seconds have passed without an admission, has room again. */
  lemma RetryAfterSuffices(l: Limits, hits: seq<real>, now: real, later: real)
    requires Sane(l) && Spaced(l, hits) && (hits != [] ==> hits[|hits| - 1] <= now)
    requires !Admits(l, hits, now)
    ensures Recent(hits, Cutoff(l, now)) != [] && RetryAfter(l, hits, now) >= 1
    ensures later >= now + RetryAfter(l, hits, now) as real ==> Admits(l, hits, later)
  {
    RetryAfterTight(l, hits, now, now);
    RecentAbove(hits, Cutoff(l, now));
    WholeSecond(Recent(hits, Cutoff(l, now))[0] - Cutoff(l, now), RetryAfter(l, hits, now));
    if later >= now + RetryAfter(l, hits, now) as real {
      RetryAfterTight(l, hits, now, later);
    }
  }

  lemma WholeSecond(wait: real, seconds: int)
    requires wait > 0.0 && seconds == wait.Floor + 1
    ensures seconds >= 1
  {
  }

  lemma OrderedLater(clock: real, now: real, es: seq<Event>)
    requires clock <= now && Ordered(now, es)
    ensures Ordered(clock, es) && End(clock, es) <= End(now, es)
  {
  }

  /** Both limiters see the same recent hits of a key at any time from the clock on. */
  lemma SameRecent(l: Limits, store: Store, history: Store, clock: real, key: Key, now: real)
    requires Agree(l, store, history, clock) && clock <= now
    ensures Recent(Get(store, key), Cutoff(l, now)) == Recent(Get(history, key), Cutoff(l, now))
  {
  }

  /** What a rejected caller was told is what the full history says. */
  lemma RejectedIdeally(l: Limits, start: real, es: seq<Event>, key: Key, now: real)
    requires Sane(l) && Ordered(start, es) && End(start, es) <= now
    ensures var (store, history) := (StoreRun(l, map[], es), IdealRun(l, map[], es));
            && Recent(Get(store, key), Cutoff(l, now)) == Recent(Get(history, key), Cutoff(l, now))
            && Spaced(l, Get(history, key))
            && (Get(history, key) != [] ==> Get(history, key)[|Get(history, key)| - 1] <= now)
            && Agree(l, store, history, End(start, es))
  {
    RunAgrees(l, map[], map[], start, es);
    HistoryKept(l, map[], start, es);
    SameRecent(l, StoreRun(l, map[], es), IdealRun(l, map[], es), End(start, es), key, now);
  }

  /**
   A caller rejected in any run, who waits the Retry-After seconds while nobody is admitted
   under that key, is admitted, whatever cleanups and other checks come between.
  */
  lemma WaitingPays(l: Limits, start: real, es: seq<Event>, key: Key, now: real, later: seq<Event>, retry: real)
    requires Sane(l) && Ordered(start, es) && End(start, es) <= now && Ordered(now, later) && End(now, later) <= retry
    requires var store := StoreRun(l, map[], es);
             && !Admits(l, Get(store, key), now)
             && Recent(Get(store, key), Cutoff(l, now)) != []
             && retry >= now + RetryAfter(l, Get(store, key), now) as real
    requires Get(IdealRun(l, IdealRun(l, map[], es), later), key) == Get(IdealRun(l, map[], es), key)
    ensures Admits(l, Get(StoreRun(l, StoreRun(l, map[], es), later), key), retry)
  {
    var (store, history, clock) := (StoreRun(l, map[], es), IdealRun(l, map[], es), End(start, es));
    RejectedIdeally(l, start, es, key, now);
    var hits := Get(history, key);
    assert RetryAfter(l, Get(store, key), now) == RetryAfter(l, hits, now);
    RetryAfterSuffices(l, hits, now, retry);
    OrderedLater(clock, now, later);
    var (store', history') := (StoreRun(l, store, later), IdealRun(l, history, later));
    AgreeLater(l, store, history, clock, later, store', history', key, retry);
  }

  lemma AgreeLater(l: Limits, store: Store, history: Store, clock: real, es: seq<Event>, store': Store,
                   history': Store, key: Key, now: real)
    requires Agree(l, store, history, clock) && Ordered(clock, es) && End(clock, es) <= now
    requires store' == StoreRun(l, store, es) && history' == IdealRun(l, history, es)
    ensures Recent(Get(store', key), Cutoff(l, now)) == Recent(Get(history', key), Cutoff(l, now))
  {
    RunAgrees(l, store, history, clock, es);
    SameRecent(l, store', history', End(clock, es), key, now);
  }
}
