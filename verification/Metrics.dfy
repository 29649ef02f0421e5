/** The per-tool summary that a generated server computes from its daily counters. */
module Metrics {

  lemma {:induction false} Rounding(n: nat, d: nat, q: nat, rem: nat)
    requires d > 0 && q == n / d && rem == n % d
    ensures q * d == n - rem && (q + 1) * d == n - rem + d && 0 <= rem < d
  {
  }

  /** `round(n / d)` over exact rationals: to the nearest integer, ties to even. */
  function Round(n: nat, d: nat): (r: nat)
    requires d > 0
    ensures -(d as int) <= 2 * (r * d - n) <= d
    ensures 2 * (r * d - n) == d || 2 * (r * d - n) == -(d as int) ==> r % 2 == 0
  {
    var q, rem := n / d, n % d;
    Rounding(n, d, q, rem);
    if 2 * rem < d || (2 * rem == d && q % 2 == 0) then q else q + 1
  }

  lemma {:induction false} MulStep(x: int, y: int, c: int)
    requires x > y && c > 0
    ensures x * c >= y * c + c
  {
    var k := x - y - 1;
    assert x == y + 1 + k;
    assert (y + 1 + k) * c == y * c + c + k * c;
    assert k * c >= 0;
  }

  lemma {:induction false} Cancel(x: int, y: int, c: int)
    requires c > 0 && x * c <= y * c
    ensures x <= y
  {
    if x > y { MulStep(x, y, c); }
  }

  /** Rounding a share of at most `c` never exceeds `c`. */
  lemma {:induction false} RoundAtMost(n: nat, d: nat, c: nat)
    requires d > 0 && n <= c * d
    ensures Round(n, d) <= c
  {
    var r := Round(n, d);
    if r > c { MulStep(r, c, d); }
  }

  type Items = seq<(string, nat)>

  /** One day's hash: total calls and errors, and the calls of each tool. */
  datatype Day = Day(calls: nat, errors: nat, tools: Items)

  datatype Stats = Stats(calls1: nat, calls30: nat, calls90: nat, errors1: nat, errors30: nat, errors90: nat)

  const NO_STATS := Stats(0, 0, 0, 0, 0, 0)

  type Tools = map<string, Stats>

  function StatsOf(tools: Tools, name: string): Stats {
    if name in tools then tools[name] else NO_STATS
  }

  // ---- attributing a day's errors ----

  /** The errors attributed to a tool with `count` of the day's calls. */
  function Attributed(d: Day, count: nat): nat {
    if d.errors > 0 && d.calls > 0 then Round(d.errors * count, d.calls) else 0
  }

  function Total(items: Items): nat {
    if items == [] then 0 else items[0].1 + Total(items[1..])
  }

  function TotalAttributed(d: Day, items: Items): nat {
    if items == [] then 0 else Attributed(d, items[0].1) + TotalAttributed(d, items[1..])
  }

  lemma {:induction false} DriftStep(a: int, b: int, e: int, c: int, t: int, calls: int, k: int)
    requires -calls <= 2 * (a * calls - e * c) <= calls
    requires -(k * calls) <= 2 * (b * calls - e * t) <= k * calls
    ensures -((k + 1) * calls) <= 2 * ((a + b) * calls - e * (c + t)) <= (k + 1) * calls
  {
    assert (a + b) * calls == a * calls + b * calls;
    assert e * (c + t) == e * c + e * t;
    assert (k + 1) * calls == k * calls + calls;
  }

  lemma {:induction false} AttributionDrift(d: Day, items: Items)
    requires d.calls > 0 && d.errors > 0
    ensures var drift := 2 * (TotalAttributed(d, items) * d.calls - d.errors * Total(items));
            -(|items| * d.calls) <= drift <= |items| * d.calls
  {
    if items != [] {
      AttributionDrift(d, items[1..]);
      DriftStep(Attributed(d, items[0].1), TotalAttributed(d, items[1..]),
                d.errors, items[0].1, Total(items[1..]), d.calls, |items| - 1);
    }
  }

  /** A day whose `k` tool counts make up its calls: the rounded shares add up to the
      day's errors, give or take half a `k`. */
  lemma {:induction false} ErrorsAttributedWithinHalf(d: Day)
    requires d.calls > 0 && Total(d.tools) == d.calls
    ensures -|d.tools| <= 2 * (TotalAttributed(d, d.tools) - d.errors) <= |d.tools|
  {
    if d.errors > 0 {
      AttributionDrift(d, d.tools);
      WithinHalf(TotalAttributed(d, d.tools), d.errors, d.calls, |d.tools|);
    } else {
      NothingAttributed(d, d.tools);
    }
  }

  lemma {:induction false} WithinHalf(total: int, errors: int, calls: int, k: int)
    requires calls > 0
    requires -(k * calls) <= 2 * (total * calls - errors * calls) <= k * calls
    ensures -k <= 2 * (total - errors) <= k
  {
    var drift := 2 * (total - errors);
    assert drift * calls == 2 * (total * calls - errors * calls);
    Cancel(drift, k, calls);
    assert (-drift) * calls == -(drift * calls);
    Cancel(-drift, k, calls);
  }

  lemma {:induction false} NothingAttributed(d: Day, items: Items)
    requires d.errors == 0
    ensures TotalAttributed(d, items) == 0
  {
    if items != [] { NothingAttributed(d, items[1..]); }
  }

  /** No tool is given more errors than it had calls, when the day had none too many. */
  lemma {:induction false} NoMoreErrorsThanCalls(d: Day, count: nat)
    requires d.errors <= d.calls
    ensures Attributed(d, count) <= count
  {
    if d.errors > 0 {
      assert d.errors * count <= d.calls * count == count * d.calls;
      RoundAtMost(d.errors * count, d.calls, count);
    }
  }

  // ---- the summary ----

  function CallsIn(items: Items, name: string): nat {
    if items == [] then 0
    else CallsIn(items[..|items| - 1], name) + (if items[|items| - 1].0 == name then items[|items| - 1].1 else 0)
  }

  /** The error shares of a day, tool by tool. */
  function Shares(d: Day, items: Items): (r: Items)
    ensures |r| == |items|
    ensures forall i :: 0 <= i < |items| ==> r[i] == (items[i].0, Attributed(d, items[i].1))
  {
    if items == [] then [] else [(items[0].0, Attributed(d, items[0].1))] + Shares(d, items[1..])
  }

  /** What a day adds to each tool: calls, and error shares (none on a day without errors). */
  datatype Split = Split(calls: Items, errors: Items)

  function SplitOf(d: Day): Split {
    Split(d.tools, if d.errors > 0 then Shares(d, d.tools) else [])
  }

  function Splits(days: seq<Day>): (r: seq<Split>)
    ensures |r| == |days|
    ensures forall i :: 0 <= i < |days| ==> r[i] == SplitOf(days[i])
  {
    if days == [] then [] else [SplitOf(days[0])] + Splits(days[1..])
  }

  /** A tool's calls and errors on the days from 1 up to, not including, `n`. */
  function PastCalls(days: seq<Split>, n: nat, name: string): nat
    requires n <= |days|
  {
    if n <= 1 then 0 else PastCalls(days, n - 1, name) + CallsIn(days[n - 1].calls, name)
  }

  function PastErrors(days: seq<Split>, n: nat, name: string): nat
    requires n <= |days|
  {
    if n <= 1 then 0 else PastErrors(days, n - 1, name) + CallsIn(days[n - 1].errors, name)
  }

  function Limited(n: nat): nat {
    if n <= 30 then n else 30
  }

  /** The sum over all tools of the chosen window. */
  ghost function SumOver(tools: Tools, window: int): nat
    decreases |tools|
  {
    if tools == map[] then 0
    else
      var name :| name in tools;
      Calls(tools[name], window) + SumOver(tools - {name}, window)
  }

  function Calls(s: Stats, window: int): nat {
    if window == 1 then s.calls1 else if window == 30 then s.calls30 else s.calls90
  }

  lemma {:induction false} SumPick(tools: Tools, name: string, window: int)
    requires name in tools
    ensures SumOver(tools, window) == Calls(tools[name], window) + SumOver(tools - {name}, window)
    decreases |tools|
  {
    var first :|
      first in tools && SumOver(tools, window) == Calls(tools[first], window) + SumOver(tools - {first}, window);
    if first != name {
      SumPick(tools - {first}, name, window);
      SumPick(tools - {name}, first, window);
      assert tools - {first} - {name} == tools - {name} - {first};
    }
  }

  /** Changing one tool changes the sum by as much. */
  lemma {:induction false} SumUpdated(tools: Tools, name: string, s: Stats, window: int)
    ensures SumOver(tools[name := s], window) + Calls(StatsOf(tools, name), window)
         == SumOver(tools, window) + Calls(s, window)
  {
    var more := tools[name := s];
    SumPick(more, name, window);
    assert more - {name} == tools - {name};
    if name in tools {
      SumPick(tools, name, window);
    } else {
      assert tools - {name} == tools;
    }
  }

  /** Where the aggregation has got to: `t` items of today, the past days before `n`,
      and the first `k` calls and `e` error shares of day `n`. */
  datatype Progress = Progress(t: nat, n: nat, k: nat, e: nat)

  ghost predicate InRange(p: Progress, today: Items, days: seq<Split>) {
    && p.t <= |today| && 1 <= p.n <= |days|
    && (p.n == |days| ==> p.k == p.e == 0)
    && (p.n < |days| ==> p.k <= |days[p.n].calls| && p.e <= |days[p.n].errors|)
  }

  /** The calls and errors of a tool that the progress has covered. */
  ghost function Covered(p: Progress, today: Items, days: seq<Split>, name: string): Stats
    requires InRange(p, today, days)
  {
    var calls := if p.n < |days| then CallsIn(days[p.n].calls[..p.k], name) else 0;
    var errors := if p.n < |days| then CallsIn(days[p.n].errors[..p.e], name) else 0;
    var recent := p.n < 30;
    Stats(CallsIn(today[..p.t], name),
          CallsIn(today[..p.t], name) + PastCalls(days, Limited(p.n), name) + (if recent then calls else 0),
          CallsIn(today[..p.t], name) + PastCalls(days, p.n, name) + calls,
          0,
          PastErrors(days, Limited(p.n), name) + (if recent then errors else 0),
          PastErrors(days, p.n, name) + errors)
  }

  ghost predicate Exact(tools: Tools, p: Progress, today: Items, days: seq<Split>)
    requires InRange(p, today, days)
  {
    forall name :: StatsOf(tools, name) == Covered(p, today, days, name)
  }

  ghost predicate TotalsMatch(tools: Tools, total1: nat, total30: nat, total90: nat) {
    total1 == SumOver(tools, 1) && total30 == SumOver(tools, 30) && total90 == SumOver(tools, 90)
  }

  lemma {:induction false} TotalsUpdated(tools: Tools, name: string, s: Stats)
    ensures SumOver(tools[name := s], 1) + StatsOf(tools, name).calls1 == SumOver(tools, 1) + s.calls1
    ensures SumOver(tools[name := s], 30) + StatsOf(tools, name).calls30 == SumOver(tools, 30) + s.calls30
    ensures SumOver(tools[name := s], 90) + StatsOf(tools, name).calls90 == SumOver(tools, 90) + s.calls90
  {
    SumUpdated(tools, name, s, 1);
    SumUpdated(tools, name, s, 30);
    SumUpdated(tools, name, s, 90);
  }

  lemma {:induction false} CallsInNext(items: Items, k: nat, name: string)
    requires k < |items|
    ensures CallsIn(items[..k + 1], name) == CallsIn(items[..k], name) + (if items[k].0 == name then items[k].1 else 0)
  {
    assert items[..k + 1][..k] == items[..k];
  }

  function Plus(s: Stats, calls1: nat, calls30: nat, calls90: nat, errors30: nat, errors90: nat): Stats {
    Stats(s.calls1 + calls1, s.calls30 + calls30, s.calls90 + calls90,
          s.errors1, s.errors30 + errors30, s.errors90 + errors90)
  }

  function If(b: bool, n: nat): nat {
    if b then n else 0
  }

  lemma {:induction false} CoveredToday(p: Progress, today: Items, days: seq<Split>, name: string)
    requires InRange(p, today, days) && p.t < |today|
    ensures var c := If(today[p.t].0 == name, today[p.t].1);
            Covered(p.(t := p.t + 1), today, days, name) == Plus(Covered(p, today, days, name), c, c, c, 0, 0)
  {
    CallsInNext(today, p.t, name);
  }

  lemma {:induction false} CoveredCalls(p: Progress, today: Items, days: seq<Split>, name: string)
    requires InRange(p, today, days) && p.n < |days| && p.k < |days[p.n].calls|
    ensures var item := days[p.n].calls[p.k];
            var c := If(item.0 == name, item.1);
            Covered(p.(k := p.k + 1), today, days, name)
            == Plus(Covered(p, today, days, name), 0, If(p.n < 30, c), c, 0, 0)
  {
    CallsInNext(days[p.n].calls, p.k, name);
  }

  lemma {:induction false} CoveredErrors(p: Progress, today: Items, days: seq<Split>, name: string)
    requires InRange(p, today, days) && p.n < |days| && p.e < |days[p.n].errors|
    ensures var item := days[p.n].errors[p.e];
            var c := If(item.0 == name, item.1);
            Covered(p.(e := p.e + 1), today, days, name)
            == Plus(Covered(p, today, days, name), 0, 0, 0, If(p.n < 30, c), c)
  {
    CallsInNext(days[p.n].errors, p.e, name);
  }

  lemma {:induction false} CoveredNextDay(p: Progress, today: Items, days: seq<Split>, name: string)
    requires InRange(p, today, days) && p.n < |days|
    requires p.k == |days[p.n].calls| && p.e == |days[p.n].errors|
    ensures Covered(Progress(p.t, p.n + 1, 0, 0), today, days, name) == Covered(p, today, days, name)
  {
    var d := days[p.n];
    assert d.calls[..p.k] == d.calls && d.errors[..p.e] == d.errors;
  }

  lemma {:induction false} TodayStep(tools: Tools, p: Progress, today: Items, days: seq<Split>)
    requires InRange(p, today, days) && p.t < |today| && Exact(tools, p, today, days)
    ensures var (name, c) := today[p.t];
            Exact(tools[name := Plus(StatsOf(tools, name), c, c, c, 0, 0)], p.(t := p.t + 1), today, days)
  {
    var (name, c) := today[p.t];
    var more := tools[name := Plus(StatsOf(tools, name), c, c, c, 0, 0)];
    forall j ensures StatsOf(more, j) == Covered(p.(t := p.t + 1), today, days, j) {
      assert StatsOf(tools, j) == Covered(p, today, days, j);
      CoveredToday(p, today, days, j);
    }
  }

  lemma {:induction false} CallsStep(tools: Tools, p: Progress, today: Items, days: seq<Split>)
    requires InRange(p, today, days) && p.n < |days| && p.k < |days[p.n].calls| && Exact(tools, p, today, days)
    ensures var (name, c) := days[p.n].calls[p.k];
            Exact(tools[name := Plus(StatsOf(tools, name), 0, If(p.n < 30, c), c, 0, 0)], p.(k := p.k + 1), today, days)
  {
    var (name, c) := days[p.n].calls[p.k];
    var more := tools[name := Plus(StatsOf(tools, name), 0, If(p.n < 30, c), c, 0, 0)];
    forall j ensures StatsOf(more, j) == Covered(p.(k := p.k + 1), today, days, j) {
      assert StatsOf(tools, j) == Covered(p, today, days, j);
      CoveredCalls(p, today, days, j);
    }
  }

  lemma {:induction false} ErrorsStep(tools: Tools, p: Progress, today: Items, days: seq<Split>)
    requires InRange(p, today, days) && p.n < |days| && p.e < |days[p.n].errors| && Exact(tools, p, today, days)
    ensures var (name, c) := days[p.n].errors[p.e];
            Exact(tools[name := Plus(StatsOf(tools, name), 0, 0, 0, If(p.n < 30, c), c)], p.(e := p.e + 1), today, days)
  {
    var (name, c) := days[p.n].errors[p.e];
    var more := tools[name := Plus(StatsOf(tools, name), 0, 0, 0, If(p.n < 30, c), c)];
    forall j ensures StatsOf(more, j) == Covered(p.(e := p.e + 1), today, days, j) {
      assert StatsOf(tools, j) == Covered(p, today, days, j);
      CoveredErrors(p, today, days, j);
    }
  }

  lemma {:induction false} NextDay(tools: Tools, p: Progress, today: Items, days: seq<Split>)
    requires InRange(p, today, days) && p.n < |days|
    requires p.k == |days[p.n].calls| && p.e == |days[p.n].errors| && Exact(tools, p, today, days)
    ensures Exact(tools, Progress(p.t, p.n + 1, 0, 0), today, days)
  {
    forall j ensures StatsOf(tools, j) == Covered(Progress(p.t, p.n + 1, 0, 0), today, days, j) {
      CoveredNextDay(p, today, days, j);
    }
  }

  /** The tools of today count for all three windows. */
  method AddToday(today: Items, ghost days: seq<Split>) returns (tools: Tools, total: nat)
    requires |days| == 90
    ensures Exact(tools, Progress(|today|, 1, 0, 0), today, days)
    ensures TotalsMatch(tools, total, total, total)
  {
    tools, total := map[], 0;
    for t := 0 to |today|
      invariant Exact(tools, Progress(t, 1, 0, 0), today, days)
      invariant TotalsMatch(tools, total, total, total)
    {
      var (name, c) := today[t];
      var s := Plus(StatsOf(tools, name), c, c, c, 0, 0);
      TodayStep(tools, Progress(t, 1, 0, 0), today, days);
      TotalsUpdated(tools, name, s);
      tools, total := tools[name := s], total + c;
    }
  }

  /** The calls of past day `n`. */
  method AddCalls(before: Tools, n: nat, before30: nat, before90: nat, day: Day,
                  ghost total1: nat, ghost today: Items, ghost days: seq<Split>)
    returns (tools: Tools, total30: nat, total90: nat)
    requires 1 <= n < |days| == 90 && days[n] == SplitOf(day)
    requires Exact(before, Progress(|today|, n, 0, 0), today, days)
    requires TotalsMatch(before, total1, before30, before90)
    ensures Exact(tools, Progress(|today|, n, |day.tools|, 0), today, days)
    ensures TotalsMatch(tools, total1, total30, total90)
  {
    tools, total30, total90 := before, before30, before90;
    for k := 0 to |day.tools|
      invariant Exact(tools, Progress(|today|, n, k, 0), today, days)
      invariant TotalsMatch(tools, total1, total30, total90)
    {
      var (name, c) := day.tools[k];
      var s := Plus(StatsOf(tools, name), 0, If(n < 30, c), c, 0, 0);
      CallsStep(tools, Progress(|today|, n, k, 0), today, days);
      TotalsUpdated(tools, name, s);
      tools := tools[name := s];
      total90 := total90 + c;
      if n < 30 {
        total30 := total30 + c;
      }
    }
  }

  /** The error shares of past day `n`. */
  method AddErrors(before: Tools, n: nat, day: Day, ghost total1: nat, ghost total30: nat, ghost total90: nat,
                   ghost today: Items, ghost days: seq<Split>)
    returns (tools: Tools)
    requires 1 <= n < |days| == 90 && days[n] == SplitOf(day) && day.errors > 0
    requires Exact(before, Progress(|today|, n, |day.tools|, 0), today, days)
    requires TotalsMatch(before, total1, total30, total90)
    ensures Exact(tools, Progress(|today|, n, |day.tools|, |day.tools|), today, days)
    ensures TotalsMatch(tools, total1, total30, total90)
  {
    tools := before;
    for e := 0 to |day.tools|
      invariant Exact(tools, Progress(|today|, n, |day.tools|, e), today, days)
      invariant TotalsMatch(tools, total1, total30, total90)
    {
      var (name, c) := day.tools[e];
      var share := Attributed(day, c);
      assert days[n].errors[e] == (name, share);
      var s := Plus(StatsOf(tools, name), 0, 0, 0, If(n < 30, share), share);
      ErrorsStep(tools, Progress(|today|, n, |day.tools|, e), today, days);
      TotalsUpdated(tools, name, s);
      tools := tools[name := s];
    }
  }

  /** Every tool has its calls and error shares in the three windows. */
  ghost predicate Summary(tools: Tools, today: Items, days: seq<Day>)
    requires |days| == 90
  {
    Exact(tools, Progress(|today|, 90, 0, 0), today, Splits(days))
  }

  /** The aggregation of `metrics_entity_summary`: every tool gets the calls of today, of
      the last 30 days and of the last 90, and the rounded error shares of the past days;
      the totals are the sums over the tools. */
  method EntitySummary(today: Items, days: seq<Day>)
    returns (tools: Tools, total1: nat, total30: nat, total90: nat)
    requires |days| == 90
    ensures Summary(tools, today, days)
    ensures TotalsMatch(tools, total1, total30, total90)
  {
    ghost var splits := Splits(days);
    tools, total1 := AddToday(today, splits);
    total30, total90 := total1, total1;
    for n := 1 to 90
      invariant Exact(tools, Progress(|today|, n, 0, 0), today, splits)
      invariant TotalsMatch(tools, total1, total30, total90)
    {
      ghost var k := |days[n].tools|;
      tools, total30, total90 := AddCalls(tools, n, total30, total90, days[n], total1, today, splits);
      if days[n].errors > 0 {
        tools := AddErrors(tools, n, days[n], total1, total30, total90, today, splits);
        NextDay(tools, Progress(|today|, n, k, k), today, splits);
      } else {
        NextDay(tools, Progress(|today|, n, k, 0), today, splits);
      }
    }
  }

  lemma {:induction false} PastGrows(days: seq<Split>, m: nat, n: nat, name: string)
    requires m <= n <= |days|
    ensures PastCalls(days, m, name) <= PastCalls(days, n, name)
    ensures PastErrors(days, m, name) <= PastErrors(days, n, name)
    decreases n - m
  {
    if m < n { PastGrows(days, m, n - 1, name); }
  }

  /** The windows are nested: a day's calls are among the month's, and those among the
      quarter's; the errors of today are never attributed. */
  lemma {:induction false} WindowsNested(tools: Tools, today: Items, days: seq<Day>, name: string)
    requires |days| == 90 && Summary(tools, today, days)
    ensures var s := StatsOf(tools, name);
            s.calls1 <= s.calls30 <= s.calls90 && s.errors1 == 0 && s.errors30 <= s.errors90
  {
    var splits := Splits(days);
    assert StatsOf(tools, name) == Covered(Progress(|today|, 90, 0, 0), today, splits, name);
    PastGrows(splits, 30, 90, name);
  }

  /** The calls of a tool, and the errors attributed to it, on the days from `lo` on and
      before `hi`. */
  ghost function CallsBetween(days: seq<Day>, lo: nat, hi: nat, name: string): nat
    requires hi <= |days|
    decreases hi
  {
    if hi <= lo then 0 else CallsBetween(days, lo, hi - 1, name) + CallsIn(days[hi - 1].tools, name)
  }

  ghost function ErrorsBetween(days: seq<Day>, lo: nat, hi: nat, name: string): nat
    requires hi <= |days|
    decreases hi
  {
    if hi <= lo then 0
    else
      ErrorsBetween(days, lo, hi - 1, name)
      + (if days[hi - 1].errors > 0 then CallsIn(Shares(days[hi - 1], days[hi - 1].tools), name) else 0)
  }

  lemma {:induction false} PastIsBetween(days: seq<Day>, n: nat, name: string)
    requires n <= |days|
    ensures PastCalls(Splits(days), n, name) == CallsBetween(days, 1, n, name)
    ensures PastErrors(Splits(days), n, name) == ErrorsBetween(days, 1, n, name)
  {
    if n > 1 { PastIsBetween(days, n - 1, name); }
  }

  /** The windows are today, today and the 29 days before, and today and the 89 days before. */
  lemma {:induction false} WindowsExact(tools: Tools, today: Items, days: seq<Day>, name: string)
    requires |days| == 90 && Summary(tools, today, days)
    ensures var s, now := StatsOf(tools, name), CallsIn(today, name);
            && s.calls1 == now && s.errors1 == 0
            && s.calls30 == now + CallsBetween(days, 1, 30, name) && s.errors30 == ErrorsBetween(days, 1, 30, name)
            && s.calls90 == now + CallsBetween(days, 1, 90, name) && s.errors90 == ErrorsBetween(days, 1, 90, name)
  {
    assert StatsOf(tools, name) == Covered(Progress(|today|, 90, 0, 0), today, Splits(days), name);
    assert today[..|today|] == today;
    PastIsBetween(days, 30, name);
    PastIsBetween(days, 90, name);
  }

  lemma {:induction false} SharesAtMost(d: Day, items: Items, name: string)
    requires d.errors <= d.calls
    ensures CallsIn(Shares(d, items), name) <= CallsIn(items, name)
    decreases |items|
  {
    if items != [] {
      var n := |items| - 1;
      assert Shares(d, items)[..n] == Shares(d, items[..n]);
      SharesAtMost(d, items[..n], name);
      NoMoreErrorsThanCalls(d, items[n].1);
    }
  }

  lemma {:induction false} PastAtMost(days: seq<Day>, n: nat, name: string)
    requires n <= |days| && forall k :: 1 <= k < n ==> days[k].errors <= days[k].calls
    ensures PastErrors(Splits(days), n, name) <= PastCalls(Splits(days), n, name)
  {
    if n > 1 {
      PastAtMost(days, n - 1, name);
      SharesAtMost(days[n - 1], days[n - 1].tools, name);
    }
  }

  /** As long as no past day has more errors than calls, no tool of the summary has either,
      in none of the windows. */
  lemma {:induction false} ErrorsWithinCalls(tools: Tools, today: Items, days: seq<Day>, name: string)
    requires |days| == 90 && Summary(tools, today, days)
    requires forall k :: 1 <= k < 90 ==> days[k].errors <= days[k].calls
    ensures var s := StatsOf(tools, name); s.errors30 <= s.calls30 && s.errors90 <= s.calls90
  {
    assert StatsOf(tools, name) == Covered(Progress(|today|, 90, 0, 0), today, Splits(days), name);
    PastAtMost(days, 30, name);
    PastAtMost(days, 90, name);
  }
}
