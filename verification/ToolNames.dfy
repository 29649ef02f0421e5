/** Finding a free name for a duplicated tool. */
module ToolNames {
  import opened Prelude

  /** `X_copy`, `X_copy_2`, `X_copy_3`, … */
  function Candidate(base: string, counter: nat): string {
    if counter <= 1 then base else base + "_" + Dec(counter)
  }

  lemma {:induction false} CandidatesDiffer(base: string, i: nat, j: nat)
    requires 1 <= i && 1 <= j && Candidate(base, i) == Candidate(base, j)
    ensures i == j
  {
    if i > 1 && j > 1 {
      var p := base + "_";
      assert Dec(i) == Candidate(base, i)[|p|..];
      assert Dec(j) == Candidate(base, j)[|p|..];
      DecInjective(i, j);
    }
  }

  function Tried(base: string, n: nat): set<string> {
    set i | 1 <= i <= n :: Candidate(base, i)
  }

  /** No two candidates are the same name, so `n` of them are `n` names. */
  lemma {:induction false} TriedSize(base: string, n: nat)
    ensures |Tried(base, n)| == n
  {
    if n == 0 {
      assert Tried(base, 0) == {};
    } else {
      TriedSize(base, n - 1);
      assert Tried(base, n) == Tried(base, n - 1) + {Candidate(base, n)};
      if Candidate(base, n) in Tried(base, n - 1) {
        var i :| 1 <= i <= n - 1 && Candidate(base, i) == Candidate(base, n);
        CandidatesDiffer(base, i, n);
      }
    }
  }

  lemma {:induction false} SubsetSize(a: set<string>, b: set<string>)
    requires a <= b
    ensures |a| <= |b|
  {
    assert b == a + (b - a);
  }

  /** When the first `n` candidates are all taken there are at least `n` tools. */
  lemma {:induction false} Pigeonhole(base: string, n: nat, taken: set<string>)
    requires forall i :: 1 <= i <= n ==> Candidate(base, i) in taken
    ensures n <= |taken|
  {
    TriedSize(base, n);
    SubsetSize(Tried(base, n), taken);
  }

  /** The naming loop of `duplicate_tool`: it ends within one more lookup than there are
      tools, with the first free name of the sequence. */
  method FreshCopyName(original: string, taken: set<string>) returns (name: string, lookups: nat)
    ensures name !in taken
    ensures 1 <= lookups <= |taken| + 1
    ensures name == Candidate(original + "_copy", lookups)
    ensures lookups == 1 ==> name == original + "_copy"
    ensures lookups > 1 ==> exists d :: Numeral(d, lookups) && name == original + "_copy_" + d
    ensures forall i :: 1 <= i < lookups ==> Candidate(original + "_copy", i) in taken
  {
    var base := original + "_copy";
    var counter := 1;
    name := base;
    while name in taken
      invariant counter >= 1 && name == Candidate(base, counter)
      invariant forall i :: 1 <= i < counter ==> Candidate(base, i) in taken
      invariant counter - 1 <= |taken|
      decreases |taken| + 1 - counter
    {
      Pigeonhole(base, counter, taken);
      counter := counter + 1;
      name := base + "_" + Dec(counter);
    }
    lookups := counter;
    DecIsNumeral(counter);
    assert Numeral(Dec(counter), counter) && original + "_copy" + "_" == original + "_copy_";
  }
}
