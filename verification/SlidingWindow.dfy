/** The evicting per-IP sliding-window limiter of agent-mcp, against the unbounded log
    of the requests it has allowed. */
module SlidingWindow {
  import opened Prelude

  const MAX_IPS := 10_000
  const WINDOW := 60.0
  const STALE := 120.0

  predicate Sorted(ts: seq<real>) {
    forall i, j :: 0 <= i <= j < |ts| ==> ts[i] <= ts[j]
  }

  /** `[t for t in window if now - t < 60]` */
  function Within(ts: seq<real>, now: real): (r: seq<real>)
    ensures |r| <= |ts|
  {
    if ts == [] then []
    else (if now - ts[0] < WINDOW then [ts[0]] else []) + Within(ts[1..], now)
  }

  /** The times in the half-open interval of a minute that starts at `from`. */
  function InMinute(ts: seq<real>, from: real): seq<real> {
    if ts == [] then []
    else (if from <= ts[0] < from + 60.0 then [ts[0]] else []) + InMinute(ts[1..], from)
  }

  /** The i-th time, or nothing in particular. */
  function At(ts: seq<real>, i: int): real {
    if 0 <= i < |ts| then ts[i] else 0.0
  }

  ghost predicate Aged(ts: seq<real>, now: real) {
    forall i :: 0 <= i < |ts| ==> now - ts[i] >= WINDOW
  }

  /** Any `limit + 1` consecutive allowed requests span at least a minute. */
  ghost predicate Spaced(ts: seq<real>, limit: int) {
    limit >= 1 && forall i, j :: 0 <= i && j == i + limit && j < |ts| ==> ts[j] - ts[i] >= 60.0
  }

  /** How many of the times are less than a minute ago. */
  ghost function Recent(ts: seq<real>, now: real): nat {
    |set i | 0 <= i < |ts| && now - ts[i] < 60.0|
  }

  lemma {:induction false} WithinAppend(ts: seq<real>, t: real, now: real)
    ensures Within(ts + [t], now) == Within(ts, now) + (if now - t < WINDOW then [t] else [])
  {
    if ts == [] {
      assert ts + [t] == [t] && [t][1..] == [];
    } else {
      var first := if now - ts[0] < WINDOW then [ts[0]] else [];
      var last := if now - t < WINDOW then [t] else [];
      assert (ts + [t])[0] == ts[0] && (ts + [t])[1..] == ts[1..] + [t];
      WithinAppend(ts[1..], t, now);
      Associates(first, Within(ts[1..], now), last);
    }
  }

  lemma {:induction false} Associates(a: seq<real>, b: seq<real>, c: seq<real>)
    ensures a + (b + c) == (a + b) + c
  {
  }

  /** The filter keeps as many as are less than a minute ago, and only such. */
  lemma {:induction false} WithinIsRecent(ts: seq<real>, now: real)
    ensures |Within(ts, now)| == Recent(ts, now)
    ensures forall t :: t in Within(ts, now) ==> t in ts && now - t < 60.0
    decreases |ts|
  {
    if ts != [] {
      var n := |ts| - 1;
      var init, t := ts[..n], ts[n];
      WithinIsRecent(init, now);
      WithinAppend(init, t, now);
      assert ts == init + [t];
      var before := set i | 0 <= i < |init| && now - init[i] < 60.0;
      assert (set i | 0 <= i < |ts| && now - ts[i] < 60.0) == before + (if now - t < 60.0 then {n} else {});
    }
  }

  lemma {:induction false} WithinOfAged(aged: seq<real>, ts: seq<real>, now: real)
    requires Aged(aged, now)
    ensures Within(aged + ts, now) == Within(ts, now)
  {
    if aged == [] {
      assert aged + ts == ts;
    } else {
      assert (aged + ts)[1..] == aged[1..] + ts;
      WithinOfAged(aged[1..], ts, now);
    }
  }

  lemma {:induction false} RecentStaysRecent(ts: seq<real>, aged: seq<real>, now: real)
    requires Sorted(ts) && ts != [] && now - ts[0] < WINDOW
    requires Aged(aged, now) && aged <= ts[1..]
    ensures aged == []
  {
    assert |aged| > 0 ==> At(aged, 0) == At(ts, 1);
  }

  /** On sorted times the filter keeps a suffix. */
  lemma {:induction false} WithinIsSuffix(ts: seq<real>, now: real) returns (aged: seq<real>)
    requires Sorted(ts)
    ensures ts == aged + Within(ts, now) && Aged(aged, now)
    ensures forall t :: t in Within(ts, now) ==> now - t < WINDOW
  {
    if ts == [] {
      aged := [];
    } else {
      var rest := WithinIsSuffix(ts[1..], now);
      if now - ts[0] < WINDOW {
        RecentStaysRecent(ts, rest, now);
        aged := [];
      } else {
        aged := [ts[0]] + rest;
      }
    }
  }

  lemma {:induction false} MinuteCons(t: real, ts: seq<real>, from: real)
    ensures InMinute([t] + ts, from) == (if from <= t < from + WINDOW then [t] else []) + InMinute(ts, from)
  {
    assert ([t] + ts)[1..] == ts;
  }

  lemma {:induction false} SortedCons(t: real, ts: seq<real>)
    requires Sorted([t] + ts)
    ensures Sorted(ts) && forall i :: 0 <= i < |ts| ==> t <= ts[i]
  {
    var all := [t] + ts;
    assert forall i :: 0 <= i < |ts| ==> ts[i] == all[i + 1];
    assert forall i :: 0 <= i < |ts| ==> all[0] <= ts[i];
  }

  /** Nothing after the end of the minute is in it. */
  lemma {:induction false} MinuteOver(ts: seq<real>, from: real)
    requires forall i :: 0 <= i < |ts| ==> ts[i] >= from + WINDOW
    ensures InMinute(ts, from) == []
  {
    if ts != [] { MinuteOver(ts[1..], from); }
  }

  /** From its start on, a minute holds a prefix of the sorted times. */
  lemma {:induction false} MinuteIsPrefix(ts: seq<real>, from: real) returns (m: nat)
    requires Sorted(ts) && (ts != [] ==> ts[0] >= from)
    ensures m <= |ts| && |InMinute(ts, from)| == m
    ensures forall i :: 0 <= i < m ==> ts[i] < from + WINDOW
  {
    if ts == [] {
      m := 0;
    } else {
      var t, rest := ts[0], ts[1..];
      assert ts == [t] + rest;
      SortedCons(t, rest);
      MinuteCons(t, rest, from);
      if t < from + WINDOW {
        var k := MinuteIsPrefix(rest, from);
        m := k + 1;
      } else {
        MinuteOver(rest, from);
        m := 0;
      }
    }
  }

  lemma {:induction false} SpacedTail(ts: seq<real>, limit: int)
    requires ts != [] && Spaced(ts, limit)
    ensures Spaced(ts[1..], limit)
  {
    forall i, j | 0 <= i && j == i + limit && j < |ts[1..]| ensures ts[1..][j] - ts[1..][i] >= WINDOW {
      assert ts[j + 1] - ts[i + 1] >= WINDOW;
    }
  }

  lemma {:induction false} PrefixWithinMinute(ts: seq<real>, limit: int, from: real, m: nat)
    requires Spaced(ts, limit) && m <= |ts| && (ts != [] ==> ts[0] >= from)
    requires forall i :: 0 <= i < m ==> ts[i] < from + WINDOW
    ensures m <= limit
  {
    assert m > limit ==> At(ts, limit) - At(ts, 0) >= WINDOW;
  }

  /** The promise of the limiter: no half-open minute holds more than `limit` of them. */
  lemma {:induction false} EveryMinuteBounded(ts: seq<real>, limit: int, from: real)
    requires Sorted(ts) && Spaced(ts, limit)
    ensures |InMinute(ts, from)| <= limit
  {
    if ts == [] || ts[0] >= from {
      var m := MinuteIsPrefix(ts, from);
      PrefixWithinMinute(ts, limit, from, m);
    } else {
      assert ts == [ts[0]] + ts[1..];
      SortedCons(ts[0], ts[1..]);
      MinuteCons(ts[0], ts[1..], from);
      SpacedTail(ts, limit);
      EveryMinuteBounded(ts[1..], limit, from);
    }
  }

  /** Allowing a request only while fewer than `limit` are recent keeps the promise. */
  lemma {:induction false} SpacingKept(ts: seq<real>, limit: int, now: real)
    requires Sorted(ts) && Spaced(ts, limit) && |Within(ts, now)| < limit
    requires forall i :: 0 <= i < |ts| ==> ts[i] <= now
    ensures Sorted(ts + [now]) && Spaced(ts + [now], limit)
  {
    var aged := WithinIsSuffix(ts, now);
    var all := ts + [now];
    forall i, j | 0 <= i && j == i + limit && j < |all| ensures all[j] - all[i] >= WINDOW {
      if j < |ts| {
        assert ts[j] - ts[i] >= WINDOW;
      } else {
        assert i < |aged| && ts[i] == aged[i];
      }
    }
    AppendSorted(ts, now);
  }

  lemma {:induction false} AppendSorted(log: seq<real>, now: real)
    requires Sorted(log) && forall i :: 0 <= i < |log| ==> log[i] <= now
    ensures Sorted(log + [now]) && forall i :: 0 <= i < |log + [now]| ==> (log + [now])[i] <= now
  {
  }

  // ---- eviction ----

  type Store = map<string, seq<real>>

  function Newest(store: Store, ip: string): real
    requires ip in store && store[ip] != []
  {
    store[ip][|store[ip]| - 1]
  }

  predicate IsStale(ts: seq<real>, now: real) {
    ts == [] || now - ts[|ts| - 1] > STALE
  }

  /** Forced eviction: the store shrinks to the maximum, and nothing that is dropped is
      newer than anything that is kept (ties may go either way). */
  method EvictOldest(store: Store) returns (kept: Store)
    requires forall ip :: ip in store ==> store[ip] != []
    ensures kept.Keys <= store.Keys && forall ip :: ip in kept ==> kept[ip] == store[ip]
    ensures |kept| == if |store| > 10_000 then 10_000 else |store|
    ensures forall gone, ip :: gone in store && gone !in kept && ip in kept ==>
              Newest(store, gone) <= Newest(store, ip)
  {
    kept := store;
    while |kept| > MAX_IPS
      invariant kept.Keys <= store.Keys && forall ip :: ip in kept ==> kept[ip] == store[ip]
      invariant |store| > MAX_IPS ==> |kept| >= MAX_IPS
      invariant |store| <= MAX_IPS ==> kept == store
      invariant forall gone, ip :: gone in store && gone !in kept && ip in kept ==>
                  Newest(store, gone) <= Newest(store, ip)
      decreases |kept|
    {
      assert kept.Keys != {};
      ghost var age := map ip | ip in kept :: Newest(kept, ip);
      OldestExists(kept.Keys, age);
      assert forall ip :: ip in kept.Keys ==> age[ip] == Newest(kept, ip);
      var oldest :| oldest in kept.Keys && forall ip :: ip in kept.Keys ==> Newest(kept, oldest) <= Newest(kept, ip);
      var rest := kept - {oldest};
      assert rest.Keys == kept.Keys - {oldest};
      kept := rest;
    }
  }

  /** The last request is at most two minutes ago. */
  ghost predicate Lately(ts: seq<real>, now: real) {
    ts != [] && now - ts[|ts| - 1] <= 120.0
  }

  /** Nothing goes from a store of at most ten thousand addresses. From a larger one those
      go that have made no request lately, and of the others the oldest if they are still too
      many. */
  ghost predicate Evicted(before: Store, after: Store, forced: set<string>, now: real) {
    && |after| <= 10_000
    && (forall ip :: ip in after ==> ip in before && after[ip] == before[ip])
    && (|before| <= 10_000 ==> forced == {} && after == before)
    && (|before| > 10_000 ==>
          forall ip :: ip in before ==> (ip in after <==> Lately(before[ip], now) && ip !in forced))
    && (forced != {} ==> |after| == 10_000)
    && forall gone, ip :: gone in forced && ip in after ==>
         gone in before && Lately(before[gone], now) && before[ip] != [] && Newest(before, gone) <= Newest(before, ip)
  }

  lemma {:induction false} EvictedIs(before: Store, recent: Store, kept: Store, now: real)
    requires |before| > 10_000 && recent == map ip | ip in before && !IsStale(before[ip], now) :: before[ip]
    requires kept.Keys <= recent.Keys && forall ip :: ip in kept ==> kept[ip] == recent[ip]
    requires |kept| == if |recent| > 10_000 then 10_000 else |recent|
    requires forall gone, ip :: gone in recent && gone !in kept && ip in kept ==>
               Newest(recent, gone) <= Newest(recent, ip)
    ensures Evicted(before, kept, recent.Keys - kept.Keys, now)
  {
    if |kept| == |recent| { FullSubset(kept.Keys, recent.Keys); }
  }

  // ---- the limiter ----

  type Log = map<string, seq<real>>

  /** What the store must still know about a log: all of it that can matter. */
  ghost predicate Remembers(window: seq<real>, log: seq<real>, now: real) {
    exists aged :: log == aged + window && Aged(aged, now)
  }

  ghost predicate LogOk(log: seq<real>, limit: int, now: real) {
    && Sorted(log)
    && (forall i :: 0 <= i < |log| ==> log[i] <= now)
    && (limit >= 1 ==> Spaced(log, limit))
  }

  /** The store and the log agree on one IP: a missing window means that nothing recent
      was allowed. */
  ghost predicate Agrees(store: Store, log: Log, limit: int, now: real, ip: string) {
    && LogOk(Past(log, ip), limit, now)
    && Remembers(if ip in store then store[ip] else [], Past(log, ip), now)
  }

  ghost predicate AllAgree(store: Store, log: Log, limit: int, now: real) {
    forall ip :: Agrees(store, log, limit, now, ip)
  }

  function Past(log: Log, ip: string): seq<real> {
    if ip in log then log[ip] else []
  }

  class Limiter {
    var store: Store
    const limit: int

    /** The requests allowed to each IP since its last forced eviction, if any. */
    ghost var log: Log

    /** The time of the latest call; the clock is monotonic. */
    ghost var clock: real

    ghost predicate Valid()
      reads this
    {
      |store| <= MAX_IPS + 1 && AllAgree(store, log, limit, clock)
    }

    constructor (limit: int, now: real)
      ensures Valid() && this.limit == limit && store == map[] && log == map[] && clock == now
    {
      this.limit := limit;
      store, log, clock := map[], map[], now;
      NothingYet(limit, now);
    }

    /** Deletes stale entries, and the oldest ones if that is not enough. Only forced
        eviction makes the limiter forget anything: the log of such an IP starts again. */
    method Evict(now: real) returns (ghost forced: set<string>)
      requires Valid() && clock <= now
      modifies this
      ensures Valid() && clock == now
      ensures log == old(log) - forced && Evicted(old(store), store, forced, now)
    {
      Aging(store, log, limit, clock, now);
      clock, forced := now, {};
      if |store| > MAX_IPS {
        var recent := map ip | ip in store && !IsStale(store[ip], now) :: store[ip];
        DroppingStale(store, recent, log, limit, now);
        var kept := EvictOldest(recent);
        forced := recent.Keys - kept.Keys;
        EvictedIs(store, recent, kept, now);
        Forgetting(recent, kept, log, limit, now);
        store, log := kept, log - forced;
      }
      assert log - {} == log;
    }

    /** `_sliding_window_allow`. For a limit of at least 1 the decision is exactly the one
        that the log of everything allowed so far gives; for any other limit the first
        request of an unknown IP is let through and the rest are refused. */
    method Allow(ip: string, now: real) returns (allowed: bool, ghost forced: set<string>)
      requires Valid() && clock <= now
      modifies this
      ensures Valid() && clock == now
      ensures old(|store|) <= 10_000 ==> forced == {}
      ensures var past := Past(old(log) - forced, ip);
              && (limit >= 1 ==> (allowed <==> Recent(past, now) < limit))
              && (limit < 1 && old(|store|) <= 10_000 ==> (allowed <==> ip !in old(store)))
              && log == if allowed then (old(log) - forced)[ip := past + [now]] else old(log) - forced
    {
      forced := Evict(now);
      ghost var past := Past(log, ip);
      WithinIsRecent(past, now);
      assert Agrees(store, log, limit, now, ip);
      if ip !in store {
        UnknownIp(past, limit, now);
        Allowing(store, log, limit, now, ip, [now]);
        store, log := store[ip := [now]], log[ip := past + [now]];
        return true, forced;
      }
      WindowFiltered(store[ip], past, now);
      var window := Within(store[ip], now);
      if |window| >= limit {
        Refiltered(store, log, limit, now, ip, window);
        store := store[ip := window];
        return false, forced;
      }
      SpacingKept(past, limit, now);
      RemembersAppend(window, past, now);
      Allowing(store, log, limit, now, ip, window + [now]);
      store, log := store[ip := window + [now]], log[ip := past + [now]];
      allowed := true;
    }
  }

  lemma {:induction false} NothingYet(limit: int, now: real)
    ensures AllAgree(map[], map[], limit, now)
  {
    var none: seq<real> := [];
    assert none == none + none && Aged(none, now);
  }

  lemma {:induction false} RemembersAppend(window: seq<real>, log: seq<real>, now: real)
    requires Remembers(window, log, now)
    ensures Remembers(window + [now], log + [now], now)
  {
    var aged :| log == aged + window && Aged(aged, now);
    assert log + [now] == aged + (window + [now]);
  }

  /** Filtering the stored window gives what filtering the whole log would give. */
  lemma {:induction false} WindowFiltered(window: seq<real>, log: seq<real>, now: real)
    requires Remembers(window, log, now) && Sorted(log)
    ensures Within(window, now) == Within(log, now)
    ensures Remembers(Within(window, now), log, now)
  {
    var aged :| log == aged + window && Aged(aged, now);
    WithinOfAged(aged, window, now);
    var more := WithinIsSuffix(log, now);
  }

  /** An IP without a window has nothing recent in its log. */
  lemma {:induction false} UnknownIp(past: seq<real>, limit: int, now: real)
    requires LogOk(past, limit, now) && Remembers([], past, now)
    ensures Within(past, now) == []
    ensures limit >= 1 ==> Sorted(past + [now]) && Spaced(past + [now], limit)
    ensures Remembers([now], past + [now], now)
  {
    WindowFiltered([], past, now);
    if limit >= 1 {
      SpacingKept(past, limit, now);
    }
    RemembersAppend([], past, now);
    assert [] + [now] == [now];
  }

  lemma {:induction false} Allowing(store: Store, log: Log, limit: int, now: real, ip: string, window: seq<real>)
    requires AllAgree(store, log, limit, now)
    requires limit >= 1 ==> Spaced(Past(log, ip) + [now], limit)
    requires Remembers(window, Past(log, ip) + [now], now)
    ensures AllAgree(store[ip := window], log[ip := Past(log, ip) + [now]], limit, now)
  {
    var store', log' := store[ip := window], log[ip := Past(log, ip) + [now]];
    assert Agrees(store, log, limit, now, ip);
    AppendSorted(Past(log, ip), now);
    assert Past(log', ip) == Past(log, ip) + [now] && store'[ip] == window;
    assert Agrees(store', log', limit, now, ip);
    forall j | j != ip ensures Agrees(store', log', limit, now, j) {
      assert Agrees(store, log, limit, now, j);
      assert Past(log', j) == Past(log, j);
    }
  }

  lemma {:induction false} Refiltered(store: Store, log: Log, limit: int, now: real, ip: string, window: seq<real>)
    requires AllAgree(store, log, limit, now) && ip in store
    requires Remembers(window, Past(log, ip), now)
    ensures AllAgree(store[ip := window], log, limit, now)
  {
    var store' := store[ip := window];
    forall j ensures Agrees(store', log, limit, now, j) {
      assert Agrees(store, log, limit, now, j);
    }
  }

  lemma {:induction false} Aging(store: Store, log: Log, limit: int, clock: real, now: real)
    requires clock <= now && AllAgree(store, log, limit, clock)
    ensures AllAgree(store, log, limit, now)
  {
    forall ip ensures Agrees(store, log, limit, now, ip) {
      assert Agrees(store, log, limit, clock, ip);
      var window := if ip in store then store[ip] else [];
      var aged :| Past(log, ip) == aged + window && Aged(aged, clock);
      assert Aged(aged, now);
    }
  }

  lemma {:induction false} StaleIsAged(window: seq<real>, log: seq<real>, limit: int, now: real)
    requires Remembers(window, log, now) && LogOk(log, limit, now) && IsStale(window, now)
    ensures Remembers([], log, now)
  {
    var aged :| log == aged + window && Aged(aged, now);
    if window != [] {
      assert log[|log| - 1] == window[|window| - 1];
      assert Aged(log, now);
    }
    assert log == log + [];
    assert window == [] ==> log == aged;
  }

  lemma {:induction false} DroppingStale(store: Store, recent: Store, log: Log, limit: int, now: real)
    requires AllAgree(store, log, limit, now)
    requires recent == map ip | ip in store && !IsStale(store[ip], now) :: store[ip]
    ensures AllAgree(recent, log, limit, now)
  {
    forall ip ensures Agrees(recent, log, limit, now, ip) {
      assert Agrees(store, log, limit, now, ip);
      if ip in store && ip !in recent {
        StaleIsAged(store[ip], Past(log, ip), limit, now);
      }
    }
  }

  lemma {:induction false} Forgetting(store: Store, kept: Store, log: Log, limit: int, now: real)
    requires AllAgree(store, log, limit, now)
    requires kept.Keys <= store.Keys && forall ip :: ip in kept ==> kept[ip] == store[ip]
    ensures AllAgree(kept, log - (store.Keys - kept.Keys), limit, now)
  {
    var gone := store.Keys - kept.Keys;
    forall ip ensures Agrees(kept, log - gone, limit, now, ip) {
      assert Agrees(store, log, limit, now, ip);
      if ip in gone {
        var none: seq<real> := [];
    assert none == none + none && Aged(none, now);
      }
    }
  }

  /** Over any stretch of calls in which an IP is not force-evicted, no half-open minute
      contains more than `limit` requests allowed to it. */
  lemma {:induction false} LimiterKeepsPromise(store: Store, log: Log, limit: int, now: real, ip: string, from: real)
    requires AllAgree(store, log, limit, now) && limit >= 1
    ensures |InMinute(Past(log, ip), from)| <= limit
  {
    assert Agrees(store, log, limit, now, ip);
    EveryMinuteBounded(Past(log, ip), limit, from);
  }
}
