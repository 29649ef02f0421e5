/** SQL Server's `TOP`, which takes no bind parameter: `:name` placeholders in a
    `TOP :name` or `TOP(:name)` context are written into the query text. */
module SqlTop {
  import opened Prelude
  import opened SqlScan
  import opened SqlPyformat

  /** Whitespace: the ASCII characters, and whichever others (given by `w`). */
  predicate IsSpace(c: char, w: set<char>) {
    || c == ' ' || 9 <= c as int <= 13 || 28 <= c as int <= 31
    || (c as int >= 128 && c in w)
  }

  /** Where the spaces from `at` on end. */
  function SpaceEnd(s: string, at: nat, w: set<char>): (k: nat)
    requires at <= |s|
    ensures at <= k <= |s| && forall i :: at <= i < k ==> IsSpace(s[i], w)
    decreases |s| - at
  {
    if at < |s| && IsSpace(s[at], w) then SpaceEnd(s, at + 1, w) else at
  }

  /** Where the word characters from `at` on end. */
  function WordEnd(s: string, at: nat, u: set<char>): (k: nat)
    requires at <= |s|
    ensures at <= k <= |s| && forall i :: at <= i < k ==> IsWord(s[i], u)
    decreases |s| - at
  {
    if at < |s| && IsWord(s[at], u) then WordEnd(s, at + 1, u) else at
  }

  /** `c` is the upper-case ASCII letter `up`, in either case. */
  predicate SameLetter(c: char, up: char)
    requires 'A' <= up <= 'Z'
  {
    c == up || c as int == up as int + 32
  }

  datatype TopMatch = NoMatch | Match(len: nat, name: string)

  function Optional(s: string, at: nat, c: char): (k: nat)
    requires at <= |s|
    ensures at <= k <= |s|
  {
    if at < |s| && s[at] == c then at + 1 else at
  }

  predicate TopLetters(s: string) {
    |s| >= 3 && SameLetter(s[0], 'T') && SameLetter(s[1], 'O') && SameLetter(s[2], 'P')
  }

  /** Past `TOP`, spaces, `(`? and spaces. */
  function NameStart(s: string, w: set<char>): (c: nat)
    requires TopLetters(s)
    ensures 3 <= c <= |s| && forall i :: 3 <= i < c ==> IsSpace(s[i], w) || s[i] == '('
  {
    SpaceEnd(s, Optional(s, SpaceEnd(s, 3, w), '('), w)
  }

  /** Past spaces and `)`?. */
  function MatchEnd(s: string, d: nat, w: set<char>): (e: nat)
    requires d <= |s|
    ensures d <= e <= |s| && forall i :: d <= i < e ==> IsSpace(s[i], w) || s[i] == ')'
  {
    Optional(s, SpaceEnd(s, d, w), ')')
  }

  /** The pattern `TOP`, spaces, `(`?, spaces, `:name`, spaces, `)`? at the start of `s`. */
  function TopAt(s: string, u: set<char>, w: set<char>): (m: TopMatch)
    ensures m.Match? ==> 4 < m.len <= |s| && m.name != "" && AllWord(m.name, u)
  {
    if !TopLetters(s) then NoMatch
    else
      var c := NameStart(s, w);
      if c == |s| || s[c] != ':' then NoMatch
      else
        var d := WordEnd(s, c + 1, u);
        if d == c + 1 then NoMatch else Match(MatchEnd(s, d, w), s[c + 1..d])
  }

  // ---- the pattern, place by place ----

  ghost predicate Spaces(s: string, from: nat, to: nat, w: set<char>) {
    from <= to <= |s| && forall i :: from <= i < to ==> IsSpace(s[i], w)
  }

  ghost predicate Words(s: string, from: nat, to: nat, u: set<char>) {
    from <= to <= |s| && forall i :: from <= i < to ==> IsWord(s[i], u)
  }

  /** Where the parts of a match end: the first spaces, the parenthesis, the second spaces,
      the name, the last spaces, and the whole. */
  datatype Places = Places(a: nat, b: nat, c: nat, d: nat, e: nat, f: nat)

  /** `s` starts with a text of the pattern. */
  ghost predicate Fits(s: string, p: Places, u: set<char>, w: set<char>) {
    && TopLetters(s) && Spaces(s, 3, p.a, w)
    && (p.b == p.a || (p.b == p.a + 1 <= |s| && s[p.a] == '('))
    && Spaces(s, p.b, p.c, w) && p.c < |s| && s[p.c] == ':'
    && p.c + 1 < p.d && Words(s, p.c + 1, p.d, u)
    && Spaces(s, p.d, p.e, w)
    && (p.f == p.e || (p.f == p.e + 1 <= |s| && s[p.e] == ')'))
  }

  /** No part that comes after the colon could be longer. */
  ghost predicate Longest(s: string, p: Places, u: set<char>, w: set<char>)
    requires Fits(s, p, u, w)
  {
    && (p.d < |s| ==> !IsWord(s[p.d], u))
    && (p.e < |s| ==> !IsSpace(s[p.e], w) && (s[p.e] == ')' ==> p.f == p.e + 1))
  }

  lemma {:induction false} SpaceEndIs(s: string, at: nat, k: nat, w: set<char>)
    requires Spaces(s, at, k, w) && (k < |s| ==> !IsSpace(s[k], w))
    ensures SpaceEnd(s, at, w) == k
    decreases k - at
  {
    if at < k { SpaceEndIs(s, at + 1, k, w); }
  }

  lemma {:induction false} SpaceEndStops(s: string, at: nat, w: set<char>)
    requires at <= |s|
    ensures var k := SpaceEnd(s, at, w); k < |s| ==> !IsSpace(s[k], w)
    decreases |s| - at
  {
    if at < |s| && IsSpace(s[at], w) { SpaceEndStops(s, at + 1, w); }
  }

  lemma {:induction false} WordEndStops(s: string, at: nat, u: set<char>)
    requires at <= |s|
    ensures var k := WordEnd(s, at, u); k < |s| ==> !IsWord(s[k], u)
    decreases |s| - at
  {
    if at < |s| && IsWord(s[at], u) { WordEndStops(s, at + 1, u); }
  }

  /** Wherever the pattern fits, the colon is where the matcher looks for it. */
  lemma {:induction false} NameStartIs(s: string, p: Places, u: set<char>, w: set<char>)
    requires Fits(s, p, u, w)
    ensures NameStart(s, w) == p.c
  {
    if p.b == p.a {
      assert Spaces(s, 3, p.c, w);
      SpaceEndIs(s, 3, p.c, w);
      SpaceEndIs(s, p.c, p.c, w);
    } else {
      SpaceEndIs(s, 3, p.a, w);
      SpaceEndIs(s, p.b, p.c, w);
    }
  }

  lemma {:induction false} MatchFits(s: string, u: set<char>, w: set<char>) returns (p: Places)
    requires TopAt(s, u, w).Match?
    ensures Fits(s, p, u, w) && Longest(s, p, u, w) && TopAt(s, u, w) == Match(p.f, s[p.c + 1..p.d])
  {
    var a := SpaceEnd(s, 3, w);
    var b := Optional(s, a, '(');
    var d := WordEnd(s, NameStart(s, w) + 1, u);
    var e := SpaceEnd(s, d, w);
    p := Places(a, b, NameStart(s, w), d, e, MatchEnd(s, d, w));
    HeadFits(s, a, b, p.c, w);
    TailFits(s, p.c, d, e, p.f, u, w);
  }

  lemma {:induction false} HeadFits(s: string, a: nat, b: nat, c: nat, w: set<char>)
    requires TopLetters(s) && a == SpaceEnd(s, 3, w) && b == Optional(s, a, '(') && c == NameStart(s, w)
    ensures Spaces(s, 3, a, w) && (b == a || (b == a + 1 <= |s| && s[a] == '(')) && Spaces(s, b, c, w)
  {
  }

  lemma {:induction false} TailFits(s: string, c: nat, d: nat, e: nat, f: nat, u: set<char>, w: set<char>)
    requires c < |s| && d == WordEnd(s, c + 1, u) && e == SpaceEnd(s, d, w) && f == MatchEnd(s, d, w)
    ensures Words(s, c + 1, d, u) && (d < |s| ==> !IsWord(s[d], u)) && Spaces(s, d, e, w)
    ensures f == e || (f == e + 1 <= |s| && s[e] == ')')
    ensures e < |s| ==> !IsSpace(s[e], w) && (s[e] == ')' ==> f == e + 1)
  {
    WordEndStops(s, c + 1, u);
    SpaceEndStops(s, d, w);
  }

  /** The matcher finds a match at the start of a text exactly if the pattern fits there in
      any way, and what it takes is the longest text that fits. */
  lemma {:induction false} TopAtExact(s: string, u: set<char>, w: set<char>)
    ensures TopAt(s, u, w).Match? <==> exists p :: Fits(s, p, u, w)
    ensures forall p :: Fits(s, p, u, w) && Longest(s, p, u, w) ==> TopAt(s, u, w) == Match(p.f, s[p.c + 1..p.d])
    ensures TopAt(s, u, w).Match? ==> exists p :: Fits(s, p, u, w) && Longest(s, p, u, w)
  {
    forall p | Fits(s, p, u, w)
      ensures TopAt(s, u, w).Match?
      ensures Longest(s, p, u, w) ==> TopAt(s, u, w) == Match(p.f, s[p.c + 1..p.d])
    {
      NameStartIs(s, p, u, w);
      WordEndReaches(s, p.c + 1, p.d, u);
      if Longest(s, p, u, w) { SpaceEndIs(s, p.d, p.e, w); }
    }
    if TopAt(s, u, w).Match? {
      var p := MatchFits(s, u, w);
    }
  }

  lemma {:induction false} WordEndReaches(s: string, at: nat, k: nat, u: set<char>)
    requires Words(s, at, k, u)
    ensures WordEnd(s, at, u) >= k && (k == |s| || !IsWord(s[k], u) ==> WordEnd(s, at, u) == k)
    decreases k - at
  {
    if at < k { WordEndReaches(s, at + 1, k, u); }
  }

  function DecInt(i: int): string {
    if i < 0 then "-" + Dec(-i) else Dec(i)
  }

  /** `int(value)`, or the safe fallback when that raises. */
  function TopValue(v: Value): int {
    match v.asInt
    case Some(i) => i
    case None => 100
  }

  function TopText(v: Value): string {
    "TOP " + DecInt(TopValue(v)) + " "
  }

  /** `z` is the decimal number `i`. */
  predicate Integer(z: string, i: int) {
    if i < 0 then z != "" && z[0] == '-' && Numeral(z[1..], -i) else Numeral(z, i)
  }

  /** What is written is `TOP`, a space, the number (100 for a value that is none) and a space. */
  lemma {:induction false} TopTextIs(v: Value)
    ensures var text := TopText(v);
            && |text| > 5 && text[..4] == "TOP " && text[|text| - 1] == ' '
            && Integer(text[4..|text| - 1], if v.asInt.Some? then v.asInt.value else 100)
  {
    var z := DecInt(TopValue(v));
    IntegerIs(TopValue(v));
    assert TopText(v)[4..|TopText(v)| - 1] == z;
  }

  lemma {:induction false} IntegerIs(i: int)
    ensures Integer(DecInt(i), i)
  {
    DecIsNumeral(if i < 0 then -i else i);
    if i < 0 { assert DecInt(i)[1..] == Dec(-i); }
  }

  datatype Inlined = Inlined(text: string, remaining: map<string, Value>)

  function Before(p: string, i: Inlined): Inlined {
    Inlined(p + i.text, i.remaining)
  }

  /** A query cut at its `TOP` contexts: any other character, or the whole text of one. */
  datatype Segment = Plain(c: char) | Top(text: string, name: string)

  /** The matches of the pattern, from left to right. */
  function Segments(afterWord: bool, s: string, u: set<char>, w: set<char>): seq<Segment>
    decreases |s|
  {
    if s == "" then []
    else
      var m := if afterWord then NoMatch else TopAt(s, u, w);
      match m
      case NoMatch => [Plain(s[0])] + Segments(IsWord(s[0], u), s[1..], u, w)
      case Match(len, n) => [Top(s[..len], n)] + Segments(IsWord(s[len - 1], u), s[len..], u, w)
  }

  /** `t` is the longest text of the pattern at the start of `s`, and `n` its name. */
  ghost predicate Takes(s: string, t: string, n: string, u: set<char>, w: set<char>)
    ensures Takes(s, t, n, u, w) ==> 0 < |t| <= |s|
  {
    exists p :: Fits(s, p, u, w) && Longest(s, p, u, w) && t == s[..p.f] && n == s[p.c + 1..p.d]
  }

  /** The cut takes, from left to right, what the pattern fits at a word boundary, and only
      that. */
  ghost predicate CutAtMatches(afterWord: bool, s: string, gs: seq<Segment>, u: set<char>, w: set<char>)
    decreases |gs|
  {
    if gs == [] then s == ""
    else
      match gs[0]
      case Plain(c) =>
        && s != "" && c == s[0] && (afterWord || !exists p :: Fits(s, p, u, w))
        && CutAtMatches(IsWord(c, u), s[1..], gs[1..], u, w)
      case Top(t, n) =>
        && !afterWord
        && Takes(s, t, n, u, w)
        && CutAtMatches(IsWord(t[|t| - 1], u), s[|t|..], gs[1..], u, w)
  }

  lemma {:induction false} SegmentsExact(afterWord: bool, s: string, u: set<char>, w: set<char>)
    ensures CutAtMatches(afterWord, s, Segments(afterWord, s, u, w), u, w)
    decreases |s|
  {
    if s != "" {
      if afterWord || TopAt(s, u, w).NoMatch? {
        SegmentsExact(IsWord(s[0], u), s[1..], u, w);
        PlainExact(afterWord, s, Segments(IsWord(s[0], u), s[1..], u, w), u, w);
      } else {
        var len, n := TopAt(s, u, w).len, TopAt(s, u, w).name;
        var rest := Segments(IsWord(s[len - 1], u), s[len..], u, w);
        SegmentsExact(IsWord(s[len - 1], u), s[len..], u, w);
        MatchTaken(s, u, w);
        TopExact(s, s[..len], n, rest, u, w);
        assert Segments(afterWord, s, u, w) == [Top(s[..len], n)] + rest;
      }
    }
  }

  lemma {:induction false} MatchTaken(s: string, u: set<char>, w: set<char>)
    requires TopAt(s, u, w).Match?
    ensures Takes(s, s[..TopAt(s, u, w).len], TopAt(s, u, w).name, u, w)
  {
    var p := MatchFits(s, u, w);
  }

  lemma {:induction false} PlainExact(afterWord: bool, s: string, gs: seq<Segment>, u: set<char>, w: set<char>)
    requires s != "" && (afterWord || TopAt(s, u, w).NoMatch?) && CutAtMatches(IsWord(s[0], u), s[1..], gs, u, w)
    ensures CutAtMatches(afterWord, s, [Plain(s[0])] + gs, u, w)
  {
    TopAtExact(s, u, w);
    assert ([Plain(s[0])] + gs)[1..] == gs;
  }

  lemma {:induction false} TopExact(s: string, t: string, n: string, gs: seq<Segment>, u: set<char>, w: set<char>)
    requires Takes(s, t, n, u, w) && CutAtMatches(IsWord(t[|t| - 1], u), s[|t|..], gs, u, w)
    ensures CutAtMatches(false, s, [Top(t, n)] + gs, u, w)
  {
    assert ([Top(t, n)] + gs)[1..] == gs;
  }

  function SegmentText(g: Segment): string {
    match g
    case Plain(c) => [c]
    case Top(t, _) => t
  }

  function Joined(gs: seq<Segment>): string {
    if gs == [] then "" else SegmentText(gs[0]) + Joined(gs[1..])
  }

  /** The substitution: each name is used up by its first `TOP`. */
  function Inline(gs: seq<Segment>, remaining: map<string, Value>): Inlined {
    if gs == [] then Inlined("", remaining)
    else
      match gs[0]
      case Plain(c) => Before([c], Inline(gs[1..], remaining))
      case Top(t, n) =>
        if n in remaining then Before(TopText(remaining[n]), Inline(gs[1..], remaining - {n}))
        else Before(t, Inline(gs[1..], remaining))
  }

  /** What is meant: every `TOP` placeholder that has a value is written out. */
  function InlineEvery(gs: seq<Segment>, params: map<string, Value>): string {
    if gs == [] then ""
    else
      (match gs[0]
       case Plain(c) => [c]
       case Top(t, n) => if n in params then TopText(params[n]) else t)
      + InlineEvery(gs[1..], params)
  }

  /** The names met in a `TOP` context, in order. */
  function Names(gs: seq<Segment>): seq<string> {
    if gs == [] then []
    else (match gs[0] case Plain(_) => [] case Top(_, n) => [n]) + Names(gs[1..])
  }

  function InlineTop(sql: string, params: map<string, Value>, u: set<char>, w: set<char>): Inlined {
    Inline(Segments(false, sql, u, w), params)
  }

  function InlineEveryTop(sql: string, params: map<string, Value>, u: set<char>, w: set<char>): string {
    InlineEvery(Segments(false, sql, u, w), params)
  }

  function TopNames(sql: string, u: set<char>, w: set<char>): seq<string> {
    Names(Segments(false, sql, u, w))
  }

  lemma {:induction false} RemovedCons(params: map<string, Value>, n: string, rest: seq<string>)
    ensures (if n in params then params - {n} else params) - (set k | k in rest) == params - (set k | k in [n] + rest)
  {
    assert (set k | k in [n] + rest) == {n} + (set k | k in rest);
  }

  lemma {:induction false} InlineConsumes(gs: seq<Segment>, params: map<string, Value>)
    ensures Inline(gs, params).remaining == params - (set n | n in Names(gs))
  {
    if gs != [] {
      var rest := gs[1..];
      match gs[0]
      case Plain(_) =>
        InlineConsumes(rest, params);
      case Top(_, n) =>
        InlineConsumes(rest, if n in params then params - {n} else params);
        RemovedCons(params, n, Names(rest));
    }
  }

  /** Exactly the parameters named in a `TOP` context leave the dictionary. */
  lemma {:induction false} InlineTopConsumes(sql: string, params: map<string, Value>, u: set<char>, w: set<char>)
    ensures InlineTop(sql, params, u, w).remaining == params - (set n | n in TopNames(sql, u, w))
  {
    InlineConsumes(Segments(false, sql, u, w), params);
  }
}
