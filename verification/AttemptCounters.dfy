/** Redis INCR/EXPIRE counters: the per-token request limit, and the lockout after
    failed logins or 2FA codes, where checking and recording are separate steps. */
module AttemptCounters {
  import opened Prelude

  /** A counter key: every increment also pushes its expiry back. */
  datatype Counter = Counter(count: nat, deadline: int)

  function Live(c: Option<Counter>, now: int): nat {
    if c.Some? && c.value.deadline > now then c.value.count else 0
  }

  /** INCR and EXPIRE in one pipeline; an expired key starts again from zero. */
  function Incremented(c: Option<Counter>, now: int, window: int): Counter {
    Counter(Live(c, now) + 1, now + window)
  }

  // ---- requests per minute ----

  const MINUTE := 60

  predicate NonDecreasing(ts: seq<int>) {
    forall i, j :: 0 <= i <= j < |ts| ==> ts[i] <= ts[j]
  }

  /** The counter after requests at the given times. */
  function After(ts: seq<int>): Option<Counter> {
    if ts == [] then None
    else Some(Incremented(After(ts[..|ts| - 1]), ts[|ts| - 1], MINUTE))
  }

  /** The value the i-th request got back. */
  function CountAt(ts: seq<int>, i: nat): nat
    requires i < |ts|
  {
    After(ts[..i + 1]).value.count
  }

  /** The requests from `s` to `i` follow each other in less than a minute, and the one
      before `s`, if any, came at least a minute earlier. */
  ghost predicate Streak(ts: seq<int>, s: nat, i: nat) {
    && s <= i < |ts|
    && (s > 0 ==> ts[s] - ts[s - 1] >= 60)
    && forall j :: s < j <= i ==> ts[j] - ts[j - 1] < 60
  }

  lemma {:induction false} CountStep(ts: seq<int>, i: nat)
    requires i < |ts|
    ensures CountAt(ts, i) == if i > 0 && ts[i] - ts[i - 1] < MINUTE then CountAt(ts, i - 1) + 1 else 1
  {
    assert ts[..i + 1][..i] == ts[..i] && ts[..i + 1][i] == ts[i];
    if i > 0 { PrefixDeadline(ts, i); }
  }

  /** The counter counts the current streak, refused requests included: a client that
      never pauses for a minute stays refused. */
  lemma {:induction false} CountIsStreak(ts: seq<int>, s: nat, i: nat)
    requires Streak(ts, s, i)
    ensures CountAt(ts, i) == i - s + 1
    decreases i
  {
    CountStep(ts, i);
    if s < i { CountIsStreak(ts, s, i - 1); }
  }

  lemma {:induction false} PrefixDeadline(ts: seq<int>, i: nat)
    requires 0 < i <= |ts|
    ensures After(ts[..i]).Some? && After(ts[..i]).value.deadline == ts[i - 1] + MINUTE
  {
  }

  function CountWhere(ts: seq<int>, n: nat, from: int, limit: int, allowedOnly: bool): nat
    requires n <= |ts|
  {
    if n == 0 then 0
    else
      CountWhere(ts, n - 1, from, limit, allowedOnly)
      + (if from <= ts[n - 1] < from + 60 && (allowedOnly ==> CountAt(ts, n - 1) <= limit) then 1 else 0)
  }

  /** Requests of the minute starting at `from`: allowed ones, and all of them. */
  function AllowedIn(ts: seq<int>, from: int, limit: int): nat {
    CountWhere(ts, |ts|, from, limit, true)
  }

  lemma {:induction false} BeforeTheMinute(ts: seq<int>, n: nat, from: int, limit: int, allowedOnly: bool)
    requires n <= |ts| && NonDecreasing(ts) && (n > 0 ==> ts[n - 1] < from)
    ensures CountWhere(ts, n, from, limit, allowedOnly) == 0
  {
    if n > 0 { BeforeTheMinute(ts, n - 1, from, limit, allowedOnly); }
  }

  lemma {:induction false} MinuteCounts(ts: seq<int>, n: nat, from: int, limit: int)
    requires n <= |ts| && NonDecreasing(ts) && limit >= 0
    ensures var all, allowed := CountWhere(ts, n, from, limit, false), CountWhere(ts, n, from, limit, true);
            && allowed <= all && allowed <= limit
            && (n > 0 && from <= ts[n - 1] < from + MINUTE ==> CountAt(ts, n - 1) >= all)
  {
    if n > 0 {
      MinuteCounts(ts, n - 1, from, limit);
      var now := ts[n - 1];
      if from <= now < from + MINUTE {
        assert ts[..n][..n - 1] == ts[..n - 1];
        if n > 1 {
          PrefixDeadline(ts, n - 1);
          if ts[n - 2] < from {
            BeforeTheMinute(ts, n - 1, from, limit, false);
          } else {
            assert CountAt(ts, n - 1) == CountAt(ts, n - 2) + 1;
          }
        }
      }
    }
  }

  /** However requests are spread, at most `limit` are allowed in any half-open minute. */
  lemma {:induction false} RequestsPerMinute(ts: seq<int>, from: int, limit: int)
    requires NonDecreasing(ts) && limit >= 0
    ensures AllowedIn(ts, from, limit) <= limit
  {
    MinuteCounts(ts, |ts|, from, limit);
  }

  /** `check_rate_limit` of agent-mcp: the counters of all tokens. */
  class RequestLimiter {
    var counters: map<string, Counter>
    const defaultLimit: int

    /** All counted requests of each token prefix. */
    ghost var log: map<string, seq<int>>

    ghost predicate Valid()
      reads this
    {
      forall p :: After(Times(p)) == if p in counters then Some(counters[p]) else None
    }

    ghost function Times(prefix: string): seq<int>
      reads this
    {
      if prefix in log then log[prefix] else []
    }

    constructor (defaultLimit: int)
      ensures Valid() && this.defaultLimit == defaultLimit && log == map[]
    {
      this.defaultLimit := defaultLimit;
      counters, log := map[], map[];
    }

    /** Counts the request, then compares; when Redis fails the request is refused. */
    method Check(prefix: string, max: int, now: int, redisUp: bool) returns (allowed: bool)
      requires Valid()
      modifies this`counters, this`log
      ensures Valid()
      ensures !redisUp ==> !allowed && log == old(log)
      ensures redisUp ==>
                && log == old(log)[prefix := old(Times(prefix)) + [now]]
                && (allowed <==> CountAt(Times(prefix), |Times(prefix)| - 1)
                                 <= if max <= 0 then defaultLimit else max)
    {
      if !redisUp {
        return false;
      }
      var limit := if max <= 0 then defaultLimit else max;
      var c := Incremented(if prefix in counters then Some(counters[prefix]) else None, now, MINUTE);
      ghost var ts := Times(prefix) + [now];
      assert ts[..|ts| - 1] == Times(prefix) && ts[..|ts|] == ts;
      counters := counters[prefix := c];
      log := log[prefix := ts];
      allowed := c.count <= limit;
    }
  }

  // ---- lockout: check and record are separate ----

  /** Passwords and 2FA codes have counters of their own. */
  datatype Kind = Login | Code

  /** `_MAX_ATTEMPTS` and `_2FA_MAX_ATTEMPTS`. */
  const MAX := 5

  /** `_LOCKOUT_SECONDS` and `_2FA_LOCKOUT_SECONDS`. */
  function Window(x: Kind): nat {
    if x.Login? then 60 else 300
  }

  /** The attempts of one address: the two counters, and how many attempts have passed
      their check but not ended yet. */
  datatype Attempts = Attempts(now: int, counters: map<Kind, Counter>, inFlight: map<Kind, nat>)

  const START := Attempts(0, map[], map[])

  /** An attempt is checked, and then fails, succeeds, or is abandoned without a record, as
      after a bad pending token. */
  datatype Event = Check(x: Kind) | Fail(x: Kind) | Succeed(x: Kind) | Abandon(x: Kind) | Wait(dt: nat)

  function Flying(s: Attempts, x: Kind): nat {
    Get(s.inFlight, x, 0)
  }

  function Count(s: Attempts, x: Kind): nat {
    Live(if x in s.counters then Some(s.counters[x]) else None, s.now)
  }

  function Landed(s: Attempts, x: Kind): Attempts
    requires Flying(s, x) > 0
  {
    s.(inFlight := s.inFlight[x := Flying(s, x) - 1])
  }

  /** Any success, of a password or of a code, deletes both counters. */
  function Step(s: Attempts, e: Event): Attempts {
    match e
    case Check(x) => if Count(s, x) < MAX then s.(inFlight := s.inFlight[x := Flying(s, x) + 1]) else s
    case Fail(x) =>
      if Flying(s, x) == 0 then s
      else
        var c := if x in s.counters then Some(s.counters[x]) else None;
        Landed(s, x).(counters := s.counters[x := Incremented(c, s.now, Window(x))])
    case Succeed(x) => if Flying(s, x) == 0 then s else Landed(s, x).(counters := map[])
    case Abandon(x) => if Flying(s, x) == 0 then s else Landed(s, x)
    case Wait(dt) => s.(now := s.now + dt)
  }

  function Run(s: Attempts, es: seq<Event>): Attempts
    decreases |es|
  {
    if es == [] then s else Run(Step(s, es[0]), es[1..])
  }

  /** At most `k` attempts of the kind ever overlap. */
  predicate AtMostInFlight(s: Attempts, es: seq<Event>, x: Kind, k: nat)
    decreases |es|
  {
    Flying(s, x) <= k && (es == [] || AtMostInFlight(Step(s, es[0]), es[1..], x, k))
  }

  predicate Fails(s: Attempts, e: Event, x: Kind) {
    e == Fail(x) && Flying(s, x) > 0
  }

  predicate Clears(s: Attempts, e: Event) {
    e.Succeed? && Flying(s, e.x) > 0
  }

  /** The attempts of the kind that fail along a run. */
  function Failures(s: Attempts, es: seq<Event>, x: Kind): nat
    decreases |es|
  {
    if es == [] then 0 else (if Fails(s, es[0], x) then 1 else 0) + Failures(Step(s, es[0]), es[1..], x)
  }

  /** The time since the last failure of the kind, if there was one since the start. */
  function Since(s: Attempts, e: Event, x: Kind, since: Option<int>): Option<int> {
    if Fails(s, e, x) then Some(0)
    else if e.Wait? && since.Some? then Some(since.value + e.dt)
    else since
  }

  /** What starts the count of the kind anew: a success of either kind, or a failure that
      comes only when the lockout time since the last one is over. */
  predicate Resets(s: Attempts, e: Event, x: Kind, since: Option<int>) {
    Clears(s, e) || (Fails(s, e, x) && since.Some? && since.value >= (if x.Login? then 60 else 300))
  }

  function ResetCount(s: Attempts, es: seq<Event>, x: Kind, since: Option<int>): nat
    decreases |es|
  {
    if es == [] then 0
    else
      (if Resets(s, es[0], x, since) then 1 else 0)
      + ResetCount(Step(s, es[0]), es[1..], x, Since(s, es[0], x, since))
  }

  /** Whatever happened before, counter and attempts in flight stay within this bound. */
  ghost predicate WithinBudget(s: Attempts, x: Kind, k: nat) {
    Count(s, x) + Flying(s, x) <= MAX - 1 + k
  }

  lemma {:induction false} BudgetKept(s: Attempts, e: Event, x: Kind, k: nat)
    requires WithinBudget(s, x, k) && Flying(Step(s, e), x) <= k
    ensures WithinBudget(Step(s, e), x, k)
  {
  }

  lemma {:induction false} RunWithinBudget(s: Attempts, es: seq<Event>, x: Kind, k: nat)
    requires WithinBudget(s, x, k) && AtMostInFlight(s, es, x, k)
    ensures WithinBudget(Run(s, es), x, k) && Flying(Run(s, es), x) <= k
    decreases |es|
  {
    if es != [] {
      BudgetKept(s, es[0], x, k);
      RunWithinBudget(Step(s, es[0]), es[1..], x, k);
    }
  }

  /** `failed` failures have been counted since the count last started anew. */
  ghost predicate Counted(s: Attempts, x: Kind, since: Option<int>, failed: nat) {
    failed > 0 ==>
      && since.Some? && x in s.counters
      && s.counters[x].deadline == s.now - since.value + Window(x) && s.counters[x].count >= failed
  }

  function Next(s: Attempts, e: Event, x: Kind, since: Option<int>, failed: nat): nat {
    if Clears(s, e) then 0
    else if !Fails(s, e, x) then failed
    else if Resets(s, e, x, since) then 1
    else failed + 1
  }

  lemma {:induction false} CountedKept(s: Attempts, e: Event, x: Kind, since: Option<int>, failed: nat, k: nat)
    requires Counted(s, x, since, failed) && WithinBudget(s, x, k) && Flying(s, x) <= k && failed <= MAX - 1 + k
    ensures Counted(Step(s, e), x, Since(s, e, x, since), Next(s, e, x, since, failed))
    ensures Next(s, e, x, since, failed) <= MAX - 1 + k
  {
  }

  lemma {:induction false} OneMore(n: nat, b: nat)
    ensures (1 + (1 + n)) * b == b + (1 + n) * b
  {
  }

  lemma {:induction false} StretchesBound(s: Attempts, es: seq<Event>, x: Kind, k: nat, since: Option<int>, failed: nat)
    requires AtMostInFlight(s, es, x, k) && WithinBudget(s, x, k)
    requires Counted(s, x, since, failed) && failed <= MAX - 1 + k
    ensures failed + Failures(s, es, x) <= (1 + ResetCount(s, es, x, since)) * (MAX - 1 + k)
    decreases |es|
  {
    if es != [] {
      var t := Step(s, es[0]);
      BudgetKept(s, es[0], x, k);
      CountedKept(s, es[0], x, since, failed, k);
      StretchesBound(t, es[1..], x, k, Since(s, es[0], x, since), Next(s, es[0], x, since, failed));
      OneMore(ResetCount(t, es[1..], x, Since(s, es[0], x, since)), MAX - 1 + k);
    }
  }

  /** Lockout under concurrency: with at most `k` attempts of the kind overlapping, a run
      from any reachable state has at most `4 + k` failures for each stretch in which the
      count does not start anew. */
  lemma {:induction false} LockoutBound(before: seq<Event>, es: seq<Event>, x: Kind, k: nat)
    requires AtMostInFlight(START, before, x, k) && AtMostInFlight(Run(START, before), es, x, k)
    ensures var s := Run(START, before);
            Failures(s, es, x) <= (1 + ResetCount(s, es, x, None)) * (4 + k)
  {
    RunWithinBudget(START, before, x, k);
    StretchesBound(Run(START, before), es, x, k, None, 0);
  }

  /** Serial attempts: five failures of a kind per stretch without any success, be it of a
      password or of a code. */
  lemma {:induction false} SerialLockout(before: seq<Event>, es: seq<Event>, x: Kind)
    requires AtMostInFlight(START, before, x, 1) && AtMostInFlight(Run(START, before), es, x, 1)
    requires ResetCount(Run(START, before), es, x, None) == 0
    ensures Failures(Run(START, before), es, x) <= 5
  {
    LockoutBound(before, es, x, 1);
  }

  // ---- how long a lockout lasts ----

  function Waited(es: seq<Event>): nat {
    if es == [] then 0 else (if es[0].Wait? then es[0].dt else 0) + Waited(es[1..])
  }

  /** Nothing in the run counts the kind, or deletes a counter. */
  ghost predicate Uncounted(es: seq<Event>, x: Kind) {
    forall i :: 0 <= i < |es| ==> es[i] != Fail(x) && !es[i].Succeed?
  }

  lemma {:induction false} CounterKept(s: Attempts, es: seq<Event>, x: Kind)
    requires Uncounted(es, x) && x in s.counters
    ensures var t := Run(s, es); x in t.counters && t.counters[x] == s.counters[x] && t.now == s.now + Waited(es)
    decreases |es|
  {
    if es != [] { CounterKept(Step(s, es[0]), es[1..], x); }
  }

  /** After a failure the counter stays for a minute (five for codes), whatever else is
      attempted meanwhile, and then it is gone: an attempt passes its check exactly if fewer
      than five failures are counted, or the time is over. */
  lemma {:induction false} LockoutLasts(s: Attempts, x: Kind, es: seq<Event>)
    requires Flying(s, x) > 0 && Uncounted(es, x)
    ensures var t := Run(Step(s, Fail(x)), es);
            && Count(t, x) == (if Waited(es) < (if x.Login? then 60 else 300) then Count(s, x) + 1 else 0)
            && (Step(t, Check(x)) != t <==> Count(s, x) + 1 < 5 || Waited(es) >= (if x.Login? then 60 else 300))
  {
    CounterKept(Step(s, Fail(x)), es, x);
    var t := Run(Step(s, Fail(x)), es);
    assert Count(t, x) < MAX ==> Flying(Step(t, Check(x)), x) == Flying(t, x) + 1;
  }

  // ---- the bound is reached ----

  function Repeat(e: Event, n: nat): seq<Event> {
    if n == 0 then [] else [e] + Repeat(e, n - 1)
  }

  /** `n` attempts one after the other, all failing. */
  function Serial(x: Kind, n: nat): seq<Event> {
    if n == 0 then [] else [Check(x), Fail(x)] + Serial(x, n - 1)
  }

  /** Four failures in a row, then `k` attempts at once. */
  function Burst(x: Kind, k: nat): seq<Event> {
    Serial(x, MAX - 1) + (Repeat(Check(x), k) + Repeat(Fail(x), k))
  }

  /** What a piece of a run does, so that pieces can be put together. */
  ghost predicate Does(s: Attempts, es: seq<Event>, x: Kind, k: nat, failures: nat, since: Option<int>, resets: nat,
                       t: Attempts, since': Option<int>) {
    && Run(s, es) == t && Failures(s, es, x) == failures
    && AtMostInFlight(s, es, x, k)
    && ResetCount(s, es, x, since) == resets && SinceAfter(s, es, x, since) == since'
  }

  function SinceAfter(s: Attempts, es: seq<Event>, x: Kind, since: Option<int>): Option<int>
    decreases |es|
  {
    if es == [] then since else SinceAfter(Step(s, es[0]), es[1..], x, Since(s, es[0], x, since))
  }

  lemma {:induction false} DoesBoth(s: Attempts, a: seq<Event>, b: seq<Event>, x: Kind, k: nat, m: nat, n: nat,
                                    since: Option<int>, q: nat, r: nat, t: Attempts, since': Option<int>,
                                    u: Attempts, since'': Option<int>)
    requires Does(s, a, x, k, m, since, q, t, since') && Does(t, b, x, k, n, since', r, u, since'')
    ensures Does(s, a + b, x, k, m + n, since, q + r, u, since'')
    decreases |a|
  {
    if a == [] {
      assert a + b == b;
    } else {
      assert (a + b)[0] == a[0] && (a + b)[1..] == a[1..] + b;
      var s' := Step(s, a[0]);
      var f, c := (if Fails(s, a[0], x) then 1 else 0), (if Resets(s, a[0], x, since) then 1 else 0);
      DoesBoth(s', a[1..], b, x, k, m - f, n, Since(s, a[0], x, since), q - c, r, t, since', u, since'');
    }
  }

  /** A state at time 0 with the given count and attempts in flight of the kind. */
  ghost predicate Is(s: Attempts, x: Kind, count: nat, flying: nat) {
    && Flying(s, x) == flying && s.now == 0
    && if count == 0 then x !in s.counters else x in s.counters && s.counters[x] == Counter(count, Window(x))
  }

  /** The other kind is not concerned. */
  ghost predicate Aside(s: Attempts, t: Attempts, x: Kind) {
    forall y :: y != x ==> Flying(t, y) == Flying(s, y) && (y in t.counters <==> y in s.counters)
  }

  lemma {:induction false} OneDoes(s: Attempts, e: Event, x: Kind, k: nat, since: Option<int>)
    requires Flying(s, x) <= k && Flying(Step(s, e), x) <= k
    ensures Does(s, [e], x, k, if Fails(s, e, x) then 1 else 0, since, if Resets(s, e, x, since) then 1 else 0,
                 Step(s, e), Since(s, e, x, since))
  {
    assert [e][1..] == [];
  }

  lemma {:induction false} SerialDoes(s: Attempts, x: Kind, n: nat, count: nat, k: nat, since: Option<int>)
    returns (t: Attempts)
    requires Is(s, x, count, 0) && count + n <= MAX - 1 && k >= 1
    requires since == Some(0) || (count == 0 && since == None)
    ensures Is(t, x, count + n, 0) && Aside(s, t, x)
    ensures Does(s, Serial(x, n), x, k, n, since, 0, t, if n == 0 then since else Some(0))
    decreases n
  {
    if n == 0 {
      t := s;
    } else {
      var a, b := Step(s, Check(x)), Step(Step(s, Check(x)), Fail(x));
      assert Is(b, x, count + 1, 0);
      OneDoes(s, Check(x), x, k, since);
      OneDoes(a, Fail(x), x, k, since);
      DoesBoth(s, [Check(x)], [Fail(x)], x, k, 0, 1, since, 0, 0, a, since, b, Some(0));
      t := SerialDoes(b, x, n - 1, count + 1, k, Some(0));
      assert [Check(x)] + [Fail(x)] == [Check(x), Fail(x)];
      DoesBoth(s, [Check(x), Fail(x)], Serial(x, n - 1), x, k, 1, n - 1, since, 0, 0, b, Some(0), t, Some(0));
    }
  }

  lemma {:induction false} ChecksDo(s: Attempts, x: Kind, n: nat, flying: nat, k: nat) returns (t: Attempts)
    requires Is(s, x, MAX - 1, flying) && flying + n <= k
    ensures Is(t, x, MAX - 1, flying + n) && Aside(s, t, x)
    ensures Does(s, Repeat(Check(x), n), x, k, 0, Some(0), 0, t, Some(0))
    decreases n
  {
    if n == 0 {
      t := s;
    } else {
      var a := Step(s, Check(x));
      OneDoes(s, Check(x), x, k, Some(0));
      t := ChecksDo(a, x, n - 1, flying + 1, k);
      DoesBoth(s, [Check(x)], Repeat(Check(x), n - 1), x, k, 0, 0, Some(0), 0, 0, a, Some(0), t, Some(0));
    }
  }

  lemma {:induction false} FailsDo(s: Attempts, x: Kind, n: nat, count: nat, k: nat) returns (t: Attempts)
    requires Is(s, x, count, n) && n <= k && count > 0
    ensures Is(t, x, count + n, 0) && Aside(s, t, x)
    ensures Does(s, Repeat(Fail(x), n), x, k, n, Some(0), 0, t, Some(0))
    decreases n
  {
    if n == 0 {
      t := s;
    } else {
      var a := Step(s, Fail(x));
      OneDoes(s, Fail(x), x, k, Some(0));
      t := FailsDo(a, x, n - 1, count + 1, k);
      DoesBoth(s, [Fail(x)], Repeat(Fail(x), n - 1), x, k, 1, n - 1, Some(0), 0, 0, a, Some(0), t, Some(0));
    }
  }

  lemma {:induction false} BurstDoes(s: Attempts, x: Kind, k: nat, since: Option<int>) returns (t: Attempts)
    requires Is(s, x, 0, 0) && k >= 1 && (since == None || since == Some(0))
    ensures Is(t, x, MAX - 1 + k, 0) && Aside(s, t, x)
    ensures Does(s, Burst(x, k), x, k, MAX - 1 + k, since, 0, t, Some(0))
  {
    var a := SerialDoes(s, x, MAX - 1, 0, k, since);
    var b := ChecksDo(a, x, k, 0, k);
    t := FailsDo(b, x, k, MAX - 1, k);
    DoesBoth(b, [], Repeat(Fail(x), k), x, k, 0, k, Some(0), 0, 0, b, Some(0), t, Some(0));
    DoesBoth(a, Repeat(Check(x), k), Repeat(Fail(x), k), x, k, 0, k, Some(0), 0, 0, b, Some(0), t, Some(0));
    DoesBoth(s, Serial(x, MAX - 1), Repeat(Check(x), k) + Repeat(Fail(x), k), x, k, MAX - 1, k, since, 0, 0,
             a, Some(0), t, Some(0));
  }

  /** For passwords and for codes the bound is reached, from the start and in no time: a run
      without any reset, with at most `k` attempts overlapping, and `4 + k` failures. */
  lemma {:induction false} LockoutBoundIsTight(x: Kind, k: nat)
    requires k >= 1
    ensures AtMostInFlight(START, Burst(x, k), x, k) && ResetCount(START, Burst(x, k), x, None) == 0
    ensures Failures(START, Burst(x, k), x) == 4 + k
  {
    var t := BurstDoes(START, x, k, None);
  }

  /** Bad codes until the limit, then a login with the right password. */
  function Round(k: nat): seq<Event> {
    Burst(Code, k) + [Check(Login), Succeed(Login)]
  }

  function Rounds(n: nat, k: nat): seq<Event> {
    if n == 0 then [] else Round(k) + Rounds(n - 1, k)
  }

  /** Nothing is in flight and nothing counted. */
  ghost predicate Clean(s: Attempts) {
    Is(s, Code, 0, 0) && Flying(s, Login) == 0 && Login !in s.counters
  }

  lemma {:induction false} RoundDoes(s: Attempts, k: nat, since: Option<int>) returns (t: Attempts)
    requires Clean(s) && k >= 1 && (since == None || since == Some(0))
    ensures Clean(t) && Does(s, Round(k), Code, k, MAX - 1 + k, since, 1, t, Some(0))
  {
    var a := BurstDoes(s, Code, k, since);
    var b := Step(a, Check(Login));
    t := Step(b, Succeed(Login));
    OneDoes(a, Check(Login), Code, k, Some(0));
    OneDoes(b, Succeed(Login), Code, k, Some(0));
    assert [Check(Login)] + [Succeed(Login)] == [Check(Login), Succeed(Login)];
    DoesBoth(a, [Check(Login)], [Succeed(Login)], Code, k, 0, 0, Some(0), 0, 1, b, Some(0), t, Some(0));
    DoesBoth(s, Burst(Code, k), [Check(Login), Succeed(Login)], Code, k, MAX - 1 + k, 0, since, 0, 1,
             a, Some(0), t, Some(0));
  }

  lemma {:induction false} RoundsDo(s: Attempts, n: nat, k: nat, since: Option<int>) returns (t: Attempts)
    requires Clean(s) && k >= 1 && (since == None || since == Some(0))
    ensures Does(s, Rounds(n, k), Code, k, n * (MAX - 1 + k), since, n, t, if n == 0 then since else Some(0))
    decreases n
  {
    if n == 0 {
      t := s;
    } else {
      var a := RoundDoes(s, k, since);
      t := RoundsDo(a, n - 1, k, Some(0));
      assert (n - 1) * (MAX - 1 + k) + (MAX - 1 + k) == n * (MAX - 1 + k);
      DoesBoth(s, Round(k), Rounds(n - 1, k), Code, k, MAX - 1 + k, (n - 1) * (MAX - 1 + k), since, 1, n - 1,
               a, Some(0), t, Some(0));
    }
  }

  lemma {:induction false} NoCodeAccepted(n: nat, k: nat)
    ensures Succeed(Code) !in Rounds(n, k)
  {
    if n > 0 {
      NoCodeAccepted(n - 1, k);
      InSerial(Code, MAX - 1);
      InRepeat(Check(Code), k);
      InRepeat(Fail(Code), k);
    }
  }

  lemma {:induction false} InSerial(x: Kind, n: nat)
    ensures forall e :: e in Serial(x, n) ==> e == Check(x) || e == Fail(x)
  {
    if n > 0 { InSerial(x, n - 1); }
  }

  lemma {:induction false} InRepeat(e: Event, n: nat)
    ensures forall f :: f in Repeat(e, n) ==> f == e
  {
    if n > 0 { InRepeat(e, n - 1); }
  }

  /** The limit on codes does not hold across logins: a right password deletes the counter
      of the codes too, so whoever has it can try any number of codes in no time, serially,
      without one being accepted. The bound counts each such login as a reset. */
  lemma {:induction false} LoginsResetCodes(n: nat)
    ensures Failures(START, Rounds(n, 1), Code) == 5 * n && Succeed(Code) !in Rounds(n, 1)
    ensures AtMostInFlight(START, Rounds(n, 1), Code, 1) && ResetCount(START, Rounds(n, 1), Code, None) == n
  {
    var t := RoundsDo(START, n, 1, None);
    NoCodeAccepted(n, 1);
  }
}
