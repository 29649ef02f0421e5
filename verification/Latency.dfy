/** The p95 latency bucket of the generated server's metrics endpoint. */
module Latency {
  import opened Prelude

  const BUCKETS: nat := 7
  const KEYS: seq<string> := ["b_0_10", "b_10_50", "b_50_100", "b_100_500", "b_500_1000", "b_1000_5000", "b_5000_inf"]
  const LABELS: seq<string> := ["<10ms", "10-50ms", "50-100ms", "100-500ms", "0.5-1s", "1-5s", ">5s"]

  /** The calls in the first `n` buckets. */
  function UpTo(hist: map<string, nat>, n: nat): nat
    requires n <= BUCKETS
  {
    if n == 0 then 0 else UpTo(hist, n - 1) + Get(hist, KEYS[n - 1], 0)
  }

  lemma {:induction false} UpToGrows(hist: map<string, nat>, m: nat, n: nat)
    requires m <= n <= BUCKETS
    ensures UpTo(hist, m) <= UpTo(hist, n)
  {
    if m < n { UpToGrows(hist, m, n - 1); }
  }

  /** At least 95 percent of `total`, over exact rationals. */
  predicate Reaches(running: nat, total: nat) {
    running * 20 >= total * 19
  }

  /** The first bucket up to which at least 95 percent lie, or the last one if none does. */
  ghost predicate IsP95(hist: map<string, nat>, total: nat, b: nat) {
    && b < BUCKETS
    && (forall k :: 1 <= k <= b ==> !Reaches(UpTo(hist, k), total))
    && (Reaches(UpTo(hist, b + 1), total) || b == BUCKETS - 1)
  }

  /** `_compute_p95` */
  method ComputeP95(hist: map<string, nat>, total: nat) returns (shown: string)
    ensures total == 0 ==> shown == "N/A"
    ensures total > 0 ==> exists b: nat :: IsP95(hist, total, b) && shown == LABELS[b]
  {
    if total == 0 {
      return "N/A";
    }
    var running := 0;
    for i := 0 to BUCKETS
      invariant running == UpTo(hist, i)
      invariant forall k :: 1 <= k <= i ==> !Reaches(UpTo(hist, k), total)
    {
      running := running + Get(hist, KEYS[i], 0);
      if Reaches(running, total) {
        assert IsP95(hist, total, i);
        return LABELS[i];
      }
    }
    assert IsP95(hist, total, BUCKETS - 1) && LABELS[BUCKETS - 1] == ">5s";
    return ">5s";
  }

  // ---- what the histogram stands for ----

  /** How many of the observed calls fell into a bucket below `n`. */
  function Below(observed: seq<nat>, n: nat): nat {
    if observed == [] then 0 else (if observed[0] < n then 1 else 0) + Below(observed[1..], n)
  }

  function InBucket(observed: seq<nat>, k: nat): nat {
    if observed == [] then 0 else (if observed[0] == k then 1 else 0) + InBucket(observed[1..], k)
  }

  /** The histogram that counts the observed calls. */
  ghost predicate Counts(hist: map<string, nat>, observed: seq<nat>) {
    && (forall i :: 0 <= i < |observed| ==> observed[i] < BUCKETS)
    && forall k :: 0 <= k < BUCKETS ==> Get(hist, KEYS[k], 0) == InBucket(observed, k)
  }

  lemma {:induction false} BelowStep(observed: seq<nat>, n: nat)
    ensures Below(observed, n + 1) == Below(observed, n) + InBucket(observed, n)
  {
    if observed != [] { BelowStep(observed[1..], n); }
  }

  lemma {:induction false} NoneBelowZero(observed: seq<nat>)
    ensures Below(observed, 0) == 0
  {
    if observed != [] { NoneBelowZero(observed[1..]); }
  }

  lemma {:induction false} AllBelow(observed: seq<nat>, n: nat)
    requires forall i :: 0 <= i < |observed| ==> observed[i] < n
    ensures Below(observed, n) == |observed|
  {
    if observed != [] { AllBelow(observed[1..], n); }
  }

  lemma {:induction false} UpToIsBelow(hist: map<string, nat>, observed: seq<nat>, n: nat)
    requires n <= BUCKETS && Counts(hist, observed)
    ensures UpTo(hist, n) == Below(observed, n)
  {
    if n == 0 {
      NoneBelowZero(observed);
    } else {
      UpToIsBelow(hist, observed, n - 1);
      BelowStep(observed, n - 1);
    }
  }

  lemma {:induction false} IsP95Between(hist: map<string, nat>, total: nat, b: nat)
    requires total > 0 && b < BUCKETS && UpTo(hist, BUCKETS) == total && UpTo(hist, 0) == 0
    ensures IsP95(hist, total, b) <==> Reaches(UpTo(hist, b + 1), total) && !Reaches(UpTo(hist, b), total)
  {
    forall k | 1 <= k <= b ensures UpTo(hist, k) <= UpTo(hist, b) {
      UpToGrows(hist, k, b);
    }
  }

  /** For a histogram that counts the calls, bucket `b` is the reported one exactly when
      at least 95 percent of the calls are in it or below, and fewer in those below it. */
  lemma {:induction false} P95IsPercentile(hist: map<string, nat>, observed: seq<nat>, b: nat)
    requires Counts(hist, observed) && observed != [] && b < BUCKETS
    ensures IsP95(hist, |observed|, b)
       <==> 100 * Below(observed, b + 1) >= 95 * |observed| && 100 * Below(observed, b) < 95 * |observed|
  {
    AllBelow(observed, BUCKETS);
    UpToIsBelow(hist, observed, BUCKETS);
    UpToIsBelow(hist, observed, b + 1);
    UpToIsBelow(hist, observed, b);
    IsP95Between(hist, |observed|, b);
  }
}
