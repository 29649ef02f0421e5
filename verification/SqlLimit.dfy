/** The row-limit stage in front of the placeholder compiler. */
module SqlLimit {
  import opened Prelude
  import opened SqlScan
  import opened SqlTop

  predicate UpperWord(word: string) {
    forall i :: 0 <= i < |word| ==> 'A' <= word[i] <= 'Z'
  }

  /** `word` stands at `i` as a whole word, in any case. */
  predicate WordAt(s: string, i: nat, word: string, u: set<char>)
    requires UpperWord(word)
  {
    && i + |word| <= |s|
    && (i > 0 ==> !IsWord(s[i - 1], u))
    && (i + |word| < |s| ==> !IsWord(s[i + |word|], u))
    && forall j :: 0 <= j < |word| ==> SameLetter(s[i + j], word[j])
  }

  predicate HasWord(s: string, word: string, u: set<char>)
    requires UpperWord(word)
  {
    exists i :: 0 <= i <= |s| && WordAt(s, i, word, u)
  }

  function StripSpaces(s: string, w: set<char>): (t: string)
    ensures t <= s && forall i :: |t| <= i < |s| ==> IsSpace(s[i], w)
  {
    if s != "" && IsSpace(s[|s| - 1], w) then StripSpaces(s[..|s| - 1], w) else s
  }

  function StripSemicolons(s: string): (t: string)
    ensures t <= s && forall i :: |t| <= i < |s| ==> s[i] == ';'
  {
    if s != "" && s[|s| - 1] == ';' then StripSemicolons(s[..|s| - 1]) else s
  }

  /** `sql.rstrip().rstrip(";")` */
  function Trimmed(s: string, w: set<char>): string {
    StripSemicolons(StripSpaces(s, w))
  }

  /** Where a leading `SELECT` ends, as a whole word after optional spaces. */
  function SelectEnd(s: string, u: set<char>, w: set<char>): (r: Option<nat>)
    ensures r.Some? ==> 6 <= r.value <= |s| && WordAt(s, r.value - 6, "SELECT", u)
                        && forall i :: 0 <= i < r.value - 6 ==> IsSpace(s[i], w)
  {
    var a := SpaceEnd(s, 0, w);
    if WordAt(s, a, "SELECT", u) then Some(a + 6) else None
  }

  /** `_ensure_limit` */
  function EnsureLimit(sql: string, limit: nat, mssql: bool, u: set<char>, w: set<char>): string {
    if mssql then
      if HasWord(sql, "TOP", u) then sql
      else
        var t := Trimmed(sql, w);
        match SelectEnd(t, u, w)
        case Some(e) => t[e - 6..e] + " TOP " + Dec(limit) + t[e..]
        case None => t
    else if HasWord(sql, "LIMIT", u) then sql
    else Trimmed(sql, w) + " LIMIT " + Dec(limit)
  }

  // ---- the text with its limit ----

  /** `t` is `sql` without the spaces at its end and then without the semicolons before them. */
  ghost predicate TakenOff(sql: string, t: string, w: set<char>) {
    && t <= sql && (t != "" ==> t[|t| - 1] != ';')
    && exists m :: |t| <= m <= |sql| && AllSemicolons(sql, |t|, m) && EndsAt(sql, m, w)
  }

  ghost predicate AllSemicolons(s: string, from: nat, to: nat)
    requires from <= to <= |s|
  {
    forall i :: from <= i < to ==> s[i] == ';'
  }

  /** From `m` on there are only spaces, and none before. */
  ghost predicate EndsAt(s: string, m: nat, w: set<char>)
    requires m <= |s|
  {
    Spaces(s, m, |s|, w) && (m > 0 ==> !IsSpace(s[m - 1], w))
  }

  /** A `LIMIT` of that many rows, unless the query has the word already. */
  ghost predicate LimitAsked(sql: string, limit: nat, limited: string, u: set<char>, w: set<char>) {
    if HasWord(sql, "LIMIT", u) then limited == sql
    else exists t, d :: TakenOff(sql, t, w) && Numeral(d, limit) && limited == t + " LIMIT " + d
  }

  /** `SELECT` stands at `i`, after spaces. */
  ghost predicate SelectAt(t: string, i: nat, u: set<char>, w: set<char>) {
    Spaces(t, 0, i, w) && WordAt(t, i, "SELECT", u)
  }

  /** A `TOP` of that many rows behind a leading `SELECT`, unless the query has the word
      already; the spaces in front of `SELECT` go. */
  ghost predicate TopAsked(sql: string, limit: nat, limited: string, u: set<char>, w: set<char>) {
    if HasWord(sql, "TOP", u) then limited == sql
    else exists t :: TakenOff(sql, t, w) && TopPut(t, limit, limited, u, w)
  }

  ghost predicate TopPut(t: string, limit: nat, limited: string, u: set<char>, w: set<char>) {
    if exists i: nat :: SelectAt(t, i, u, w)
    then exists i: nat, d :: SelectAt(t, i, u, w) && Numeral(d, limit)
                        && limited == t[i..i + 6] + " TOP " + d + t[i + 6..]
    else limited == t
  }

  lemma {:induction false} StripSpacesStops(s: string, w: set<char>)
    ensures EndsAt(s, |StripSpaces(s, w)|, w)
    decreases |s|
  {
    if s != "" && IsSpace(s[|s| - 1], w) { StripSpacesStops(s[..|s| - 1], w); }
  }

  lemma {:induction false} StripSemicolonsStops(s: string)
    ensures var t := StripSemicolons(s); t != "" ==> t[|t| - 1] != ';'
  {
    if s != "" && s[|s| - 1] == ';' { StripSemicolonsStops(s[..|s| - 1]); }
  }

  lemma {:induction false} TrimmedIsTakenOff(sql: string, w: set<char>)
    ensures TakenOff(sql, Trimmed(sql, w), w)
  {
    var a := StripSpaces(sql, w);
    StripSpacesStops(sql, w);
    StripSemicolonsStops(a);
    assert AllSemicolons(sql, |Trimmed(sql, w)|, |a|);
  }

  lemma {:induction false} SelectEndIs(t: string, i: nat, u: set<char>, w: set<char>)
    requires SelectAt(t, i, u, w)
    ensures SelectEnd(t, u, w) == Some(i + 6)
  {
    assert SameLetter(t[i + 0], "SELECT"[0]);
    SpaceEndIs(t, 0, i, w);
  }

  lemma {:induction false} TopIsPut(t: string, limit: nat, u: set<char>, w: set<char>)
    ensures TopPut(t, limit,
                   match SelectEnd(t, u, w)
                   case Some(e) => t[e - 6..e] + " TOP " + Dec(limit) + t[e..]
                   case None => t, u, w)
  {
    DecIsNumeral(limit);
    match SelectEnd(t, u, w)
    case Some(e) => assert SelectAt(t, e - 6, u, w) && Numeral(Dec(limit), limit);
    case None =>
      if i: nat :| SelectAt(t, i, u, w) {
        SelectEndIs(t, i, u, w);
      }
  }

  /** The limit stage writes the limit that is asked for, and nothing else changes. */
  lemma {:induction false} LimitIsWritten(sql: string, limit: nat, u: set<char>, w: set<char>)
    ensures LimitAsked(sql, limit, EnsureLimit(sql, limit, false, u, w), u, w)
    ensures TopAsked(sql, limit, EnsureLimit(sql, limit, true, u, w), u, w)
  {
    var t := Trimmed(sql, w);
    TrimmedIsTakenOff(sql, w);
    DecIsNumeral(limit);
    TopIsPut(t, limit, u, w);
    assert Numeral(Dec(limit), limit);
  }

  /** The placeholder names of a text, in order, with repetitions. */
  function Refs(ts: seq<Token>): seq<string> {
    if ts == [] then []
    else (match ts[0] case Ref(n) => [n] case Lit(_) => []) + Refs(ts[1..])
  }

  lemma {:induction false} RefsAppend(a: seq<Token>, b: seq<Token>)
    ensures Refs(a + b) == Refs(a) + Refs(b)
  {
    if a == [] {
      assert a + b == b;
    } else {
      assert (a + b)[1..] == a[1..] + b;
      RefsAppend(a[1..], b);
    }
  }

  predicate NoColon(s: string) {
    forall i :: 0 <= i < |s| ==> s[i] != ':'
  }

  /** Text without a colon in front adds no placeholder; only its last character matters. */
  lemma {:induction false} RefsAfterPrefix(blocked: bool, p: string, s: string, u: set<char>)
    requires NoColon(p) && p != ""
    ensures Refs(Scan(blocked, p + s, u)) == Refs(Scan(Blocks(p[|p| - 1], u), s, u))
    decreases |p|
  {
    var t := p + s;
    assert t[1..] == p[1..] + s;
    RefsAppend([Lit(t[0])], Scan(Blocks(t[0], u), t[1..], u));
    if |p| > 1 {
      RefsAfterPrefix(Blocks(p[0], u), p[1..], s, u);
    } else {
      assert t[1..] == s;
    }
  }

  lemma {:induction false} ScanOfPlaceholder(s: string, p: string, u: set<char>) returns (n: string)
    requires |s| > 1 && s[0] == ':' && IsWord(s[1], u)
    requires p != "" ==> !IsWord(p[0], u)
    ensures 1 + |n| <= |s|
    ensures Scan(false, s, u) == [Ref(n)] + Scan(true, s[1 + |n|..], u)
    ensures Scan(false, s + p, u) == [Ref(n)] + Scan(true, s[1 + |n|..] + p, u)
  {
    n := WordRun(s[1..], u);
    assert (s + p)[1..] == s[1..] + p;
    WordRunOfSuffixed(s[1..], p, u);
    assert (s + p)[1 + |n|..] == s[1 + |n|..] + p;
  }

  lemma {:induction false} ScanOfLiteral(blocked: bool, s: string, p: string, u: set<char>)
    requires s != "" && (p != "" ==> !IsWord(p[0], u))
    requires blocked || s[0] != ':' || |s| == 1 || !IsWord(s[1], u)
    ensures Scan(blocked, s, u) == [Lit(s[0])] + Scan(Blocks(s[0], u), s[1..], u)
    ensures Scan(blocked, s + p, u) == [Lit(s[0])] + Scan(Blocks(s[0], u), s[1..] + p, u)
  {
    assert (s + p)[1..] == s[1..] + p;
  }

  /** Every character as a literal. */
  function Lits(p: string): (ts: seq<Token>)
    ensures |ts| == |p| && forall i :: 0 <= i < |p| ==> ts[i] == Lit(p[i])
  {
    if p == "" then [] else [Lit(p[0])] + Lits(p[1..])
  }

  lemma {:induction false} ScanOfColonless(blocked: bool, p: string, u: set<char>)
    requires NoColon(p)
    ensures Scan(blocked, p, u) == Lits(p)
    decreases |p|
  {
    if p != "" { ScanOfColonless(Blocks(p[0], u), p[1..], u); }
  }

  lemma {:induction false} ConsAppend(t: Token, a: seq<Token>, b: seq<Token>)
    ensures [t] + (a + b) == ([t] + a) + b
  {
  }

  /** Colonless text that does not extend a word is scanned on its own. */
  lemma {:induction false} ScanBeforeSuffix(blocked: bool, s: string, p: string, u: set<char>)
    requires NoColon(p) && (p != "" ==> !IsWord(p[0], u))
    ensures Scan(blocked, s + p, u) == Scan(blocked, s, u) + Lits(p)
    decreases |s|
  {
    if s == "" {
      assert s + p == p && [] + Lits(p) == Lits(p);
      ScanOfColonless(blocked, p, u);
    } else if !blocked && s[0] == ':' && |s| > 1 && IsWord(s[1], u) {
      var n := ScanOfPlaceholder(s, p, u);
      ScanBeforeSuffix(true, s[1 + |n|..], p, u);
      ConsAppend(Ref(n), Scan(true, s[1 + |n|..], u), Lits(p));
    } else {
      var next := Blocks(s[0], u);
      ScanOfLiteral(blocked, s, p, u);
      ScanBeforeSuffix(next, s[1..], p, u);
      ConsAppend(Lit(s[0]), Scan(next, s[1..], u), Lits(p));
    }
  }

  lemma {:induction false} RefsOfLits(p: string)
    ensures Refs(Lits(p)) == []
  {
    if p != "" { RefsOfLits(p[1..]); }
  }

  /** Appending it leaves the placeholders alone. */
  lemma {:induction false} RefsBeforeSuffix(blocked: bool, s: string, p: string, u: set<char>)
    requires NoColon(p) && (p != "" ==> !IsWord(p[0], u))
    ensures Refs(Scan(blocked, s + p, u)) == Refs(Scan(blocked, s, u))
  {
    ScanBeforeSuffix(blocked, s, p, u);
    RefsAppend(Scan(blocked, s, u), Lits(p));
    RefsOfLits(p);
  }

  lemma {:induction false} WordRunOfSuffixed(s: string, p: string, u: set<char>)
    requires p != "" ==> !IsWord(p[0], u)
    ensures WordRun(s + p, u) == WordRun(s, u)
  {
    if s == "" {
      assert s + p == p;
    } else if IsWord(s[0], u) {
      assert (s + p)[1..] == s[1..] + p;
      WordRunOfSuffixed(s[1..], p, u);
    }
  }

  lemma {:induction false} RefsOfTrimmed(s: string, u: set<char>, w: set<char>)
    requires u !! w
    ensures Refs(Tokens(Trimmed(s, w), u)) == Refs(Tokens(s, u))
  {
    var a := StripSpaces(s, w);
    var b := StripSemicolons(a);
    assert a + s[|a|..] == s && b + a[|b|..] == a;
    RefsBeforeSuffix(false, a, s[|a|..], u);
    RefsBeforeSuffix(false, b, a[|b|..], u);
  }

  /** Two colonless beginnings that both end in a word character are interchangeable. */
  lemma {:induction false} RefsAfterEither(p: string, q: string, s: string, u: set<char>)
    requires NoColon(p) && NoColon(q) && p != "" && q != ""
    requires IsWord(p[|p| - 1], u) && IsWord(q[|q| - 1], u)
    ensures Refs(Tokens(p + s, u)) == Refs(Tokens(q + s, u))
  {
    RefsAfterPrefix(false, p, s, u);
    RefsAfterPrefix(false, q, s, u);
  }

  lemma {:induction false} WholeWord(s: string, i: nat, word: string, u: set<char>)
    requires UpperWord(word) && WordAt(s, i, word, u)
    ensures forall k :: i <= k < i + |word| ==> s[k] != ':' && IsWord(s[k], u)
  {
    forall k | i <= k < i + |word| ensures s[k] != ':' && IsWord(s[k], u) {
      assert SameLetter(s[i + (k - i)], word[k - i]);
    }
  }

  /** A colonless text ending in a number ends in a word character. */
  lemma {:induction false} EndsInNumber(p: string, limit: nat, u: set<char>)
    requires NoColon(p)
    ensures var q := p + Dec(limit); NoColon(q) && q != "" && IsWord(q[|q| - 1], u)
  {
    var d := Dec(limit);
    assert IsDigit(d[|d| - 1]);
  }

  lemma {:induction false} NoColonUpTo(t: string, e: nat, u: set<char>, w: set<char>)
    requires SelectEnd(t, u, w) == Some(e)
    ensures 6 <= e <= |t| && IsWord(t[e - 1], u) && forall k :: 0 <= k < e ==> t[k] != ':'
  {
    WholeWord(t, e - 6, "SELECT", u);
  }

  lemma {:induction false} NoColonSlice(t: string, from: nat, to: nat)
    requires from <= to <= |t| && forall k :: 0 <= k < to ==> t[k] != ':'
    ensures NoColon(t[from..to])
  {
  }

  lemma {:induction false} SelectPrefix(t: string, e: nat, limit: nat, u: set<char>, w: set<char>)
    requires SelectEnd(t, u, w) == Some(e)
    ensures 6 <= e <= |t| && NoColon(t[..e]) && IsWord(t[..e][e - 1], u)
    ensures var q := t[e - 6..e] + " TOP " + Dec(limit);
            q != "" && NoColon(q) && IsWord(q[|q| - 1], u)
  {
    NoColonUpTo(t, e, u, w);
    NoColonSlice(t, 0, e);
    NoColonSlice(t, e - 6, e);
    EndsInNumber(t[e - 6..e] + " TOP ", limit, u);
  }

  lemma {:induction false} RefsOfTop(t: string, e: nat, limit: nat, u: set<char>, w: set<char>)
    requires SelectEnd(t, u, w) == Some(e)
    ensures e <= |t| && Refs(Tokens(t[e - 6..e] + " TOP " + Dec(limit) + t[e..], u)) == Refs(Tokens(t, u))
  {
    SelectPrefix(t, e, limit, u, w);
    RefsAfterEither(t[..e], t[e - 6..e] + " TOP " + Dec(limit), t[e..], u);
    assert t[..e] + t[e..] == t;
  }

  lemma {:induction false} RefsOfLimit(t: string, limit: nat, u: set<char>)
    requires !IsWord(' ', u)
    ensures Refs(Tokens(t + " LIMIT " + Dec(limit), u)) == Refs(Tokens(t, u))
  {
    var p := " LIMIT " + Dec(limit);
    RefsBeforeSuffix(false, t, p, u);
    assert t + " LIMIT " + Dec(limit) == t + p;
  }

  /** The limit stage never adds, drops or reorders a placeholder, on any dialect. */
  lemma {:induction false} LimitKeepsPlaceholders(sql: string, limit: nat, mssql: bool, u: set<char>, w: set<char>)
    requires u !! w
    ensures Refs(Tokens(EnsureLimit(sql, limit, mssql, u, w), u)) == Refs(Tokens(sql, u))
  {
    var t := Trimmed(sql, w);
    RefsOfTrimmed(sql, u, w);
    if mssql {
      match SelectEnd(t, u, w)
      case None =>
      case Some(e) => RefsOfTop(t, e, limit, u, w);
    } else {
      RefsOfLimit(t, limit, u);
    }
  }

  /** Outside SQL Server the result carries the `LIMIT` that is asked for, unless there was
      one, and a second run changes nothing. */
  lemma {:induction false} LimitIdempotent(sql: string, limit: nat, again: nat, u: set<char>, w: set<char>)
    ensures LimitAsked(sql, limit, EnsureLimit(sql, limit, false, u, w), u, w)
    ensures var once := EnsureLimit(sql, limit, false, u, w);
            HasWord(once, "LIMIT", u) && EnsureLimit(once, again, false, u, w) == once
  {
    LimitIsWritten(sql, limit, u, w);
    LimitIsThere(sql, limit, u, w);
  }

  lemma {:induction false} LimitIsThere(sql: string, limit: nat, u: set<char>, w: set<char>)
    ensures HasWord(EnsureLimit(sql, limit, false, u, w), "LIMIT", u)
  {
    if !HasWord(sql, "LIMIT", u) {
      var t := Trimmed(sql, w);
      var r := t + " LIMIT " + Dec(limit);
      var i := |t| + 1;
      assert r[i - 1] == ' ' && r[i..i + 5] == "LIMIT" && r[i + 5] == ' ';
      forall j | 0 <= j < 5 ensures SameLetter(r[i + j], "LIMIT"[j]) {
        assert r[i + j] == r[i..i + 5][j];
      }
      assert WordAt(r, i, "LIMIT", u);
    }
  }
}
