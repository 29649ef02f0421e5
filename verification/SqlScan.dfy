/** The `:name` scanner shared by every dialect of the preview compiler: what the
    pattern "a colon not preceded by a colon or a word character, then a maximal
    run of word characters" matches when it is applied from left to right. */
module SqlScan {
  import opened Prelude

  /** A scanned SQL text: literal characters and placeholder names. */
  datatype Token = Lit(c: char) | Ref(name: string)

  /** Word characters: the ASCII ones, and whichever others (given by `u`) the
      regular-expression engine's Unicode tables contain. */
  predicate IsWord(c: char, u: set<char>) {
    || 'a' <= c <= 'z' || 'A' <= c <= 'Z' || IsDigit(c) || c == '_'
    || (c as int >= 128 && c in u)
  }

  predicate AllWord(s: string, u: set<char>) {
    forall i :: 0 <= i < |s| ==> IsWord(s[i], u)
  }

  /** Characters after which a colon does not start a placeholder. */
  predicate Blocks(c: char, u: set<char>) {
    c == ':' || IsWord(c, u)
  }

  /** The longest prefix made of word characters. */
  function WordRun(s: string, u: set<char>): (n: string)
    ensures |n| <= |s| && n == s[..|n|] && AllWord(n, u)
    ensures |n| < |s| ==> !IsWord(s[|n|], u)
  {
    if s == "" || !IsWord(s[0], u) then "" else [s[0]] + WordRun(s[1..], u)
  }

  function Scan(blocked: bool, s: string, u: set<char>): seq<Token>
    decreases |s|
  {
    if s == "" then []
    else if !blocked && s[0] == ':' && |s| > 1 && IsWord(s[1], u) then
      var n := WordRun(s[1..], u);
      [Ref(n)] + Scan(true, s[1 + |n|..], u)
    else
      [Lit(s[0])] + Scan(Blocks(s[0], u), s[1..], u)
  }

  /** The tokens of a whole SQL text. */
  function Tokens(s: string, u: set<char>): seq<Token> {
    Scan(false, s, u)
  }

  function TokenText(t: Token): string {
    match t
    case Lit(c) => [c]
    case Ref(n) => ":" + n
  }

  function Source(ts: seq<Token>): string {
    if ts == [] then "" else TokenText(ts[0]) + Source(ts[1..])
  }

  /** What every scan yields: names are non-empty word runs, and maximal. */
  ghost predicate WellScanned(ts: seq<Token>, u: set<char>) {
    ts == [] ||
    (WellScanned(ts[1..], u) &&
     (ts[0].Ref? ==>
        && ts[0].name != "" && AllWord(ts[0].name, u)
        && (|ts| > 1 && ts[1].Lit? ==> !IsWord(ts[1].c, u))))
  }

  lemma {:induction false} ScanWellScanned(blocked: bool, s: string, u: set<char>)
    ensures WellScanned(Scan(blocked, s, u), u)
    decreases |s|
  {
    if s != "" {
      if !blocked && s[0] == ':' && |s| > 1 && IsWord(s[1], u) {
        var n := WordRun(s[1..], u);
        var rest := s[1 + |n|..];
        ScanWellScanned(true, rest, u);
        assert Scan(blocked, s, u)[1..] == Scan(true, rest, u);
        if rest != "" {
          assert rest[0] == s[1..][|n|];
        }
      } else {
        ScanWellScanned(Blocks(s[0], u), s[1..], u);
        assert Scan(blocked, s, u)[1..] == Scan(Blocks(s[0], u), s[1..], u);
      }
    }
  }

  lemma {:induction false} SourceCons(t: Token, ts: seq<Token>)
    ensures Source([t] + ts) == TokenText(t) + Source(ts)
  {
    assert ([t] + ts)[1..] == ts;
  }

  lemma {:induction false} SplitAtName(s: string, k: nat)
    requires 1 + k <= |s| && s[0] == ':'
    ensures (":" + s[1..][..k]) + s[1 + k..] == s
  {
  }

  lemma {:induction false} NameKeepsText(s: string, n: string, rest: seq<Token>)
    requires 1 + |n| <= |s| && s[0] == ':' && n == s[1..][..|n|] && Source(rest) == s[1 + |n|..]
    ensures Source([Ref(n)] + rest) == s
  {
    SourceCons(Ref(n), rest);
    SplitAtName(s, |n|);
  }

  /** Nothing of the text is lost or invented: each token stands for its own characters. */
  lemma {:induction false} ScanKeepsText(blocked: bool, s: string, u: set<char>)
    ensures Source(Scan(blocked, s, u)) == s
    decreases |s|
  {
    if s == "" {
    } else if !blocked && s[0] == ':' && |s| > 1 && IsWord(s[1], u) {
      var n := WordRun(s[1..], u);
      ScanKeepsText(true, s[1 + |n|..], u);
      NameKeepsText(s, n, Scan(true, s[1 + |n|..], u));
    } else {
      var rest := Scan(Blocks(s[0], u), s[1..], u);
      ScanKeepsText(Blocks(s[0], u), s[1..], u);
      SourceCons(Lit(s[0]), rest);
      assert [s[0]] + s[1..] == s;
    }
  }

  /** The pattern read off the text alone: position `i` of `s` starts a match. */
  predicate MatchesAt(s: string, i: int, u: set<char>) {
    && 0 <= i < |s| - 1
    && s[i] == ':'
    && (i > 0 ==> !Blocks(s[i - 1], u))
    && IsWord(s[i + 1], u)
  }

  /** Where the placeholders among `ts` start, when `ts` itself starts at `at`. */
  function RefStarts(ts: seq<Token>, at: nat): set<int> {
    if ts == [] then {}
    else (if ts[0].Ref? then {at} else {}) + RefStarts(ts[1..], at + |TokenText(ts[0])|)
  }

  ghost function MatchesFrom(s: string, p: nat, u: set<char>): set<int> {
    set i | p <= i < |s| && MatchesAt(s, i, u)
  }

  lemma {:induction false} RefStartsCons(t: Token, ts: seq<Token>, at: nat)
    ensures RefStarts([t] + ts, at)
         == (if t.Ref? then {at} else {}) + RefStarts(ts, at + |TokenText(t)|)
  {
    assert ([t] + ts)[1..] == ts;
  }

  /** Past a match at `p` whose name has `k` characters, the next possible match is at its end. */
  lemma {:induction false} NoMatchInsideName(s: string, p: nat, k: nat, u: set<char>)
    requires p + 1 + k <= |s| && k > 0 && MatchesAt(s, p, u)
    requires forall i :: p < i <= p + k ==> IsWord(s[i], u)
    ensures MatchesFrom(s, p, u) == {p as int} + MatchesFrom(s, p + 1 + k, u)
  {
  }

  ghost predicate BlockedAt(s: string, p: nat, u: set<char>)
    requires p <= |s|
  {
    p > 0 && Blocks(s[p - 1], u)
  }

  lemma {:induction false} ScanAtMatch(s: string, p: nat, u: set<char>) returns (q: nat, n: string)
    requires MatchesAt(s, p, u)
    ensures p + 1 < q <= |s| && q == p + 1 + |n|
    ensures forall i :: p < i < q ==> IsWord(s[i], u)
    ensures Scan(false, s[p..], u) == [Ref(n)] + Scan(true, s[q..], u)
  {
    var t := s[p..];
    n := WordRun(t[1..], u);
    q := p + 1 + |n|;
    assert t[1..] == s[p + 1..];
    assert n != "" by { assert t[1..][0] == s[p + 1]; }
    assert t[1 + |n|..] == s[q..];
    forall i | p < i < q ensures IsWord(s[i], u) {
      assert s[i] == n[i - p - 1];
    }
  }

  lemma {:induction false} ScanAtLiteral(s: string, p: nat, u: set<char>)
    requires p < |s| && !MatchesAt(s, p, u)
    ensures Scan(BlockedAt(s, p, u), s[p..], u)
         == [Lit(s[p])] + Scan(Blocks(s[p], u), s[p + 1..], u)
  {
    assert s[p..][1..] == s[p + 1..];
  }

  lemma {:induction false} MatchStep(s: string, p: nat, n: string, rest: seq<Token>, u: set<char>)
    requires p + 1 + |n| <= |s| && n != "" && MatchesAt(s, p, u)
    requires forall i :: p < i <= p + |n| ==> IsWord(s[i], u)
    requires RefStarts(rest, p + 1 + |n|) == MatchesFrom(s, p + 1 + |n|, u)
    ensures RefStarts([Ref(n)] + rest, p) == MatchesFrom(s, p, u)
  {
    NoMatchInsideName(s, p, |n|, u);
    RefStartsCons(Ref(n), rest, p);
  }

  lemma {:induction false} LiteralStep(s: string, p: nat, rest: seq<Token>, u: set<char>)
    requires p < |s| && !MatchesAt(s, p, u) && RefStarts(rest, p + 1) == MatchesFrom(s, p + 1, u)
    ensures RefStarts([Lit(s[p])] + rest, p) == MatchesFrom(s, p, u)
  {
    RefStartsCons(Lit(s[p]), rest, p);
    assert MatchesFrom(s, p, u) == MatchesFrom(s, p + 1, u);
  }

  lemma {:induction false} ScanFrom(s: string, p: nat, u: set<char>)
    requires p <= |s|
    ensures RefStarts(Scan(BlockedAt(s, p, u), s[p..], u), p) == MatchesFrom(s, p, u)
    decreases |s| - p, 1
  {
    if p == |s| {
    } else if MatchesAt(s, p, u) {
      ScanFromMatch(s, p, u);
    } else {
      ScanFromLiteral(s, p, u);
    }
  }

  lemma {:induction false} ScanFromMatch(s: string, p: nat, u: set<char>)
    requires p < |s| && MatchesAt(s, p, u)
    ensures !BlockedAt(s, p, u) && RefStarts(Scan(false, s[p..], u), p) == MatchesFrom(s, p, u)
    decreases |s| - p, 0
  {
    var q, n := ScanAtMatch(s, p, u);
    ScanFrom(s, q, u);
    assert BlockedAt(s, q, u);
    MatchStep(s, p, n, Scan(true, s[q..], u), u);
  }

  lemma {:induction false} ScanFromLiteral(s: string, p: nat, u: set<char>)
    requires p < |s| && !MatchesAt(s, p, u)
    ensures RefStarts(Scan(BlockedAt(s, p, u), s[p..], u), p) == MatchesFrom(s, p, u)
    decreases |s| - p, 0
  {
    ScanFrom(s, p + 1, u);
    ScanAtLiteral(s, p, u);
    LiteralStep(s, p, Scan(Blocks(s[p], u), s[p + 1..], u), u);
  }

  /** The scanner finds exactly the positions where the pattern matches: in
      particular consuming one placeholder never hides or creates another. */
  lemma {:induction false} ScanFindsEveryMatch(s: string, u: set<char>)
    ensures RefStarts(Tokens(s, u), 0) == set i | 0 <= i < |s| && MatchesAt(s, i, u)
  {
    ScanFrom(s, 0, u);
    assert s[0..] == s;
  }
}
