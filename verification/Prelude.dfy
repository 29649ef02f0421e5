/** Small shared datatypes and the decimal rendering of naturals that generated
    names and placeholders use. */
module Prelude {

  datatype Option<+T> = None | Some(value: T)

  datatype Result<+T, +E> = Ok(value: T) | Err(error: E)

  predicate IsDigit(c: char) {
    '0' <= c <= '9'
  }

  predicate AllDigits(s: string) {
    forall i :: 0 <= i < |s| ==> IsDigit(s[i])
  }

  function DigitChar(d: nat): char
    requires d < 10
  {
    "0123456789"[d]
  }

  /** The decimal rendering of a natural number, most significant digit first. */
  function Dec(n: nat): (s: string)
    ensures |s| >= 1 && AllDigits(s)
  {
    if n < 10 then [DigitChar(n)] else Dec(n / 10) + [DigitChar(n % 10)]
  }

  function Parse(s: string): nat
    requires AllDigits(s)
  {
    if s == "" then 0
    else 10 * Parse(s[..|s| - 1]) + (s[|s| - 1] as int - '0' as int)
  }

  lemma {:induction false} ParseDec(n: nat)
    ensures Parse(Dec(n)) == n
  {
    if n < 10 {
      assert Dec(n)[..0] == "";
    } else {
      ParseDec(n / 10);
      var s := Dec(n);
      assert s[..|s| - 1] == Dec(n / 10);
    }
  }

  /** Distinct numbers never render alike. */
  lemma {:induction false} DecInjective(m: nat, n: nat)
    requires Dec(m) == Dec(n)
    ensures m == n
  {
    ParseDec(m);
    ParseDec(n);
  }

  /** `d` is the decimal number `n`, without leading zeros. */
  predicate Numeral(d: string, n: nat) {
    d != "" && AllDigits(d) && Parse(d) == n && (|d| > 1 ==> d[0] != '0')
  }

  lemma {:induction false} DecIsNumeral(n: nat)
    ensures Numeral(Dec(n), n)
  {
    ParseDec(n);
    if n >= 10 { DecIsNumeral(n / 10); }
    if 1 <= n < 10 { assert DigitChar(n) != '0'; }
    FirstDigit(n);
  }

  lemma {:induction false} FirstDigit(n: nat)
    ensures n > 0 ==> Dec(n)[0] != '0'
  {
    if n >= 10 { FirstDigit(n / 10); }
  }

  predicate Distinct<T(==)>(xs: seq<T>) {
    forall i, j :: 0 <= i < j < |xs| ==> xs[i] != xs[j]
  }

  lemma {:induction false} OldestExists<K>(ks: set<K>, age: map<K, real>)
    requires ks != {} && ks <= age.Keys
    ensures exists o :: o in ks && forall k :: k in ks ==> age[o] <= age[k]
    decreases |ks|
  {
    var a :| a in ks;
    if ks == {a} {
      assert forall k :: k in ks ==> age[a] <= age[k];
    } else {
      OldestExists(ks - {a}, age);
      var b :| b in ks - {a} && forall k :: k in ks - {a} ==> age[b] <= age[k];
      var o := if age[a] <= age[b] then a else b;
      assert forall k :: k in ks ==> k == a || k in ks - {a};
      assert forall k :: k in ks ==> age[o] <= age[k];
    }
  }

  lemma {:induction false} FullSubset<T>(a: set<T>, b: set<T>)
    requires a <= b && |a| == |b|
    ensures a == b
  {
    assert a + (b - a) == b && a !! (b - a);
    assert |b - a| == 0;
  }

  /** Each use comes less than `idle` after the one before. */
  predicate GapsBelow(last: int, times: seq<int>, idle: int)
    decreases |times|
  {
    times == [] || (times[0] - last < idle && GapsBelow(times[0], times[1..], idle))
  }

  /** The value stored under a key, or the given default. */
  function Get<K, V>(m: map<K, V>, k: K, default: V): V {
    if k in m then m[k] else default
  }
}
