/** SQL Server from end to end: when what is executed is the source query with every `TOP`
    parameter written out and every other placeholder bound. */
module SqlMssql {
  import opened Prelude
  import opened SqlScan
  import opened SqlPyformat
  import opened SqlPositional
  import opened SqlPreview
  import opened SqlTop

  // ---- using names up ----

  /** A name that has a value is met in two `TOP` contexts. */
  predicate Repeats(names: seq<string>, params: map<string, Value>) {
    exists i, j :: 0 <= i < j < |names| && names[i] == names[j] && names[i] in params
  }

  /** Every name with a value is still there when it is met. */
  ghost predicate UsedOnce(names: seq<string>, remaining: map<string, Value>, params: map<string, Value>) {
    names == [] ||
    ((names[0] in params ==> names[0] in remaining) && UsedOnce(names[1..], remaining - {names[0]}, params))
  }

  lemma {:induction false} RepeatsCons(n: string, rest: seq<string>, params: map<string, Value>)
    ensures Repeats([n] + rest, params) <==> Repeats(rest, params) || (n in params && n in rest)
  {
    var all := [n] + rest;
    if Repeats(all, params) {
      var i, j :| 0 <= i < j < |all| && all[i] == all[j] && all[i] in params;
      assert all[j] == rest[j - 1] && (i > 0 ==> all[i] == rest[i - 1]);
    }
    if Repeats(rest, params) {
      var i, j :| 0 <= i < j < |rest| && rest[i] == rest[j] && rest[i] in params;
      assert all[i + 1] == all[j + 1];
    }
    if n in params && n in rest {
      var j :| 0 <= j < |rest| && rest[j] == n;
      assert all[0] == all[j + 1];
    }
  }

  lemma {:induction false} UsedOnceIs(names: seq<string>, remaining: map<string, Value>, params: map<string, Value>)
    requires remaining.Keys <= params.Keys
    ensures UsedOnce(names, remaining, params) <==>
            !Repeats(names, params) && forall n :: n in names && n in params ==> n in remaining
  {
    if names != [] {
      var n, rest := names[0], names[1..];
      assert names == [n] + rest;
      UsedOnceIs(rest, remaining - {n}, params);
      RepeatsCons(n, rest, params);
    }
  }

  ghost predicate Part(some: map<string, Value>, all: map<string, Value>) {
    some.Keys <= all.Keys && forall n :: n in some ==> some[n] == all[n]
  }

  lemma {:induction false} TextsAgree(gs: seq<Segment>, remaining: map<string, Value>, params: map<string, Value>)
    requires Part(remaining, params) && UsedOnce(Names(gs), remaining, params)
    ensures Inline(gs, remaining).text == InlineEvery(gs, params)
  {
    if gs != [] {
      var rest := gs[1..];
      match gs[0]
      case Plain(_) =>
        assert [] + Names(rest) == Names(rest);
        TextsAgree(rest, remaining, params);
      case Top(_, n) =>
        assert ([n] + Names(rest))[1..] == Names(rest);
        assert n !in remaining ==> remaining - {n} == remaining;
        TextsAgree(rest, remaining - {n}, params);
    }
  }

  // ---- what the segments of a query look like ----

  /** What follows the letters of `TOP` in a match. */
  predicate AfterLetters(c: char, w: set<char>) {
    IsSpace(c, w) || c == '(' || c == ':'
  }

  ghost predicate TopShape(t: string, w: set<char>) {
    && |t| > 4 && TopLetters(t) && AfterLetters(t[3], w) && (t[3] != ':' ==> AfterLetters(t[4], w))
    && '%' !in t
  }

  ghost predicate WellCut(afterWord: bool, gs: seq<Segment>, u: set<char>, w: set<char>)
    decreases |gs|
  {
    gs == [] ||
    match gs[0]
    case Plain(c) => WellCut(IsWord(c, u), gs[1..], u, w)
    case Top(t, _) => !afterWord && TopShape(t, w) && WellCut(IsWord(t[|t| - 1], u), gs[1..], u, w)
  }

  lemma {:induction false} MatchShape(s: string, u: set<char>, w: set<char>)
    requires TopAt(s, u, w).Match?
    ensures TopShape(s[..TopAt(s, u, w).len], w)
  {
    var c, len := NameStart(s, w), TopAt(s, u, w).len;
    var d := WordEnd(s, c + 1, u);
    assert s[c] == ':' && len == MatchEnd(s, d, w);
    forall i | 0 <= i < len ensures s[i] != '%' {
      assert i < 3 || i < c || i == c || i < d || i < len;
    }
  }

  lemma {:induction false} PlainCut(afterWord: bool, s: string, u: set<char>, w: set<char>)
    requires s != "" && (afterWord || TopAt(s, u, w).NoMatch?)
    requires var gs := Segments(IsWord(s[0], u), s[1..], u, w);
             WellCut(IsWord(s[0], u), gs, u, w) && Joined(gs) == s[1..]
    ensures var gs := Segments(afterWord, s, u, w); WellCut(afterWord, gs, u, w) && Joined(gs) == s
  {
    var gs := Segments(IsWord(s[0], u), s[1..], u, w);
    PlainFirst(afterWord, s, u, w);
    assert ([Plain(s[0])] + gs)[1..] == gs;
    assert [s[0]] + s[1..] == s;
  }

  lemma {:induction false} TopCut(s: string, len: nat, n: string, gs: seq<Segment>, u: set<char>, w: set<char>)
    requires 0 < len <= |s| && TopShape(s[..len], w)
    requires WellCut(IsWord(s[len - 1], u), gs, u, w) && Joined(gs) == s[len..]
    ensures WellCut(false, [Top(s[..len], n)] + gs, u, w) && Joined([Top(s[..len], n)] + gs) == s
  {
    assert ([Top(s[..len], n)] + gs)[1..] == gs;
    assert s[..len][|s[..len]| - 1] == s[len - 1];
    assert s[..len] + s[len..] == s;
  }

  lemma {:induction false} SegmentsWellCut(afterWord: bool, s: string, u: set<char>, w: set<char>)
    ensures WellCut(afterWord, Segments(afterWord, s, u, w), u, w) && Joined(Segments(afterWord, s, u, w)) == s
    decreases |s|
  {
    if s == "" {
    } else if afterWord || TopAt(s, u, w).NoMatch? {
      SegmentsWellCut(IsWord(s[0], u), s[1..], u, w);
      PlainCut(afterWord, s, u, w);
    } else {
      var len, n := TopAt(s, u, w).len, TopAt(s, u, w).name;
      SegmentsWellCut(IsWord(s[len - 1], u), s[len..], u, w);
      MatchShape(s, u, w);
      TopFirst(s, u, w);
      TopCut(s, len, n, Segments(IsWord(s[len - 1], u), s[len..], u, w), u, w);
    }
  }

  // ---- where the texts part ----

  /** The two texts are different from there on, within five characters. */
  ghost predicate Differ(x: string, y: string, w: set<char>) {
    && |x| > 1 && |y| > 1 && y[0] == ' ' && (IsDigit(y[1]) || y[1] == '-')
    && AfterLetters(x[0], w) && (x[0] != ':' ==> AfterLetters(x[1], w))
  }

  /** Two continuations that start with the letters of `TOP` and then differ. */
  ghost predicate Apart(left: string, right: string, w: set<char>) {
    |left| > 4 && |right| > 4 && TopLetters(left) && TopLetters(right) && Differ(left[3..], right[3..], w)
  }

  lemma {:induction false} DecStarts(v: Value)
    ensures |TopText(v)| > 4 && TopText(v)[..4] == "TOP " && (IsDigit(TopText(v)[4]) || TopText(v)[4] == '-')
  {
    var i := TopValue(v);
    var d := DecInt(i);
    assert d != "" && (IsDigit(d[0]) || d[0] == '-');
    assert TopText(v)[4] == d[0];
  }

  /** A match that stays and one that is written out. */
  lemma {:induction false} KeptAndWritten(t: string, v: Value, ra: string, rb: string, w: set<char>)
    requires TopShape(t, w)
    ensures Apart(t + ra, TopText(v) + rb, w)
  {
    DecStarts(v);
    var x, y := t + ra, TopText(v) + rb;
    assert forall i :: 0 <= i < 5 ==> x[i] == t[i] && y[i] == TopText(v)[i];
    assert forall i :: 0 <= i < 4 ==> TopText(v)[i] == TopText(v)[..4][i];
  }

  /** The first `TOP` whose parameter is used up already: `pre` comes before it in both
      texts, `left` and `right` are what follows. */
  datatype Parting = Parting(pre: string, left: string, right: string)

  ghost predicate Boundary(pre: string, u: set<char>) {
    pre != "" ==> !IsWord(pre[|pre| - 1], u)
  }

  ghost predicate PartsAt(d: Parting, u: set<char>, w: set<char>) {
    Boundary(d.pre, u) && Apart(d.left, d.right, w)
  }

  lemma {:induction false} Associates(p: string, q: string, r: string)
    ensures p + (q + r) == (p + q) + r
  {
  }

  lemma {:induction false} BoundaryJoin(p: string, q: string, u: set<char>)
    requires Boundary(q, u) && (q == "" ==> Boundary(p, u))
    ensures Boundary(p + q, u)
  {
    assert q == "" ==> p + q == p;
    assert q != "" ==> (p + q)[|p + q| - 1] == q[|q| - 1];
  }

  /** The parting of the rest, with `p` in front of it. */
  lemma {:induction false} Longer(p: string, d: Parting, u: set<char>, w: set<char>) returns (e: Parting)
    requires PartsAt(d, u, w) && p != "" && (d.pre == "" ==> Boundary(p, u))
    ensures PartsAt(e, u, w) && e.pre != ""
    ensures p + (d.pre + d.left) == e.pre + e.left && p + (d.pre + d.right) == e.pre + e.right
  {
    e := d.(pre := p + d.pre);
    BoundaryJoin(p, d.pre, u);
    Associates(p, d.pre, d.left);
    Associates(p, d.pre, d.right);
  }

  /** Everything known about where the texts part. */
  ghost predicate Parted(d: Parting, afterWord: bool, gs: seq<Segment>, remaining: map<string, Value>,
                         params: map<string, Value>, u: set<char>, w: set<char>) {
    && PartsAt(d, u, w) && (d.pre == "" ==> !afterWord)
    && Inline(gs, remaining).text == d.pre + d.left && InlineEvery(gs, params) == d.pre + d.right
  }

  lemma {:induction false} FindParting(afterWord: bool, gs: seq<Segment>, remaining: map<string, Value>,
                                       params: map<string, Value>, u: set<char>, w: set<char>) returns (d: Parting)
    requires WellCut(afterWord, gs, u, w)
    requires Part(remaining, params) && !UsedOnce(Names(gs), remaining, params)
    ensures Parted(d, afterWord, gs, remaining, params, u, w)
    decreases |gs|
  {
    var rest := gs[1..];
    match gs[0]
    case Plain(c) =>
      assert [] + Names(rest) == Names(rest);
      var d' := FindParting(IsWord(c, u), rest, remaining, params, u, w);
      d := Longer([c], d', u, w);
    case Top(t, n) =>
      assert ([n] + Names(rest))[1..] == Names(rest);
      if n in params && n !in remaining {
        var ra, rb := Inline(rest, remaining).text, InlineEvery(rest, params);
        KeptAndWritten(t, params[n], ra, rb, w);
        d := Parting("", t + ra, TopText(params[n]) + rb);
        assert "" + d.left == d.left && "" + d.right == d.right;
      } else {
        d := PartingAfterTop(gs, t, n, remaining, params, u, w);
      }
  }

  lemma {:induction false} PartingAfterTop(gs: seq<Segment>, t: string, n: string, remaining: map<string, Value>,
                                           params: map<string, Value>, u: set<char>, w: set<char>) returns (d: Parting)
    requires gs != [] && gs[0] == Top(t, n) && WellCut(false, gs, u, w) && Part(remaining, params)
    requires (n in params ==> n in remaining) && !UsedOnce(Names(gs[1..]), remaining - {n}, params)
    ensures Parted(d, false, gs, remaining, params, u, w)
    decreases |gs|, 0
  {
    var rest := gs[1..];
    var chunk := if n in params then TopText(params[n]) else t;
    assert n !in remaining ==> remaining - {n} == remaining;
    var d' := FindParting(IsWord(t[|t| - 1], u), rest, remaining - {n}, params, u, w);
    d := Longer(chunk, d', u, w);
  }

  lemma {:induction false} TailsDiffer(pre: string, x: string, y: string, w: set<char>)
    requires Apart(x, y, w)
    ensures pre + x != pre + y
  {
    var a, b := pre + x, pre + y;
    assert a[|pre| + 3] == x[3] == x[3..][0] && b[|pre| + 3] == y[3] == y[3..][0];
    assert a[|pre| + 4] == x[4] == x[3..][1] && b[|pre| + 4] == y[4] == y[3..][1];
  }

  /** Using names up makes no difference to writing every `TOP` parameter out, exactly when
      no name that has a value is met twice. */
  lemma {:induction false} InlineTopExact(sql: string, params: map<string, Value>, u: set<char>, w: set<char>)
    ensures InlineTop(sql, params, u, w).text == InlineEveryTop(sql, params, u, w)
       <==> !Repeats(TopNames(sql, u, w), params)
  {
    var gs := Segments(false, sql, u, w);
    UsedOnceIs(Names(gs), params, params);
    if UsedOnce(Names(gs), params, params) {
      TextsAgree(gs, params, params);
    } else {
      SegmentsWellCut(false, sql, u, w);
      var d := FindParting(false, gs, params, params, u, w);
      TailsDiffer(d.pre, d.left, d.right, w);
    }
  }

  // ---- scanning past a common beginning ----

  lemma {:induction false} WordRunStops(s: string, t: string, u: set<char>)
    requires s != "" && !IsWord(s[|s| - 1], u)
    ensures WordRun(s + t, u) == WordRun(s, u) && |WordRun(s, u)| < |s|
  {
    if IsWord(s[0], u) {
      assert (s + t)[1..] == s[1..] + t;
      WordRunStops(s[1..], t, u);
    }
  }

  /** What the scanner makes of a text after the tokens `ts`: either the last one was a
      literal, or a colon is pending and names the word that follows. */
  datatype Reading = Reading(ts: seq<Token>, named: bool, blocked: bool)

  function ReadOn(r: Reading, t: string, u: set<char>): seq<Token> {
    if r.named then
      var n := WordRun(t, u);
      r.ts + ([Ref(n)] + Scan(true, t[|n|..], u))
    else r.ts + Scan(r.blocked, t, u)
  }

  ghost predicate StartsWord(t: string, u: set<char>) {
    t != "" && IsWord(t[0], u)
  }

  lemma {:induction false} ReadOnCons(t: Token, r: Reading, x: string, u: set<char>)
    ensures [t] + ReadOn(r, x, u) == ReadOn(r.(ts := [t] + r.ts), x, u)
  {
    if r.named {
      var tail := [Ref(WordRun(x, u))] + Scan(true, x[|WordRun(x, u)|..], u);
      assert [t] + (r.ts + tail) == ([t] + r.ts) + tail;
    } else {
      assert [t] + (r.ts + Scan(r.blocked, x, u)) == ([t] + r.ts) + Scan(r.blocked, x, u);
    }
  }

  /** Up to a word boundary two texts with a common beginning are read alike. */
  lemma {:induction false} ReadPrefix(blocked: bool, pre: string, x: string, y: string, u: set<char>)
    returns (r: Reading)
    requires Boundary(pre, u) && StartsWord(x, u) && StartsWord(y, u)
    ensures Scan(blocked, pre + x, u) == ReadOn(r, x, u) && Scan(blocked, pre + y, u) == ReadOn(r, y, u)
    decreases |pre|
  {
    if pre == "" {
      r := Reading([], false, blocked);
      assert pre + x == x && pre + y == y;
    } else if !blocked && pre == ":" {
      r := Reading([], true, true);
      ScanNamed(x, u);
      ScanNamed(y, u);
    } else if !blocked && pre[0] == ':' && IsWord(pre[1], u) {
      var n := WordRun(pre[1..], u);
      WordRunStops(pre[1..], "", u);
      var rest := pre[1 + |n|..];
      var r' := ReadPrefix(true, rest, x, y, u);
      r := r'.(ts := [Ref(n)] + r'.ts);
      ScanName(pre, x, u);
      ScanName(pre, y, u);
      ReadOnCons(Ref(n), r', x, u);
      ReadOnCons(Ref(n), r', y, u);
    } else {
      var r' := ReadPrefix(Blocks(pre[0], u), pre[1..], x, y, u);
      r := r'.(ts := [Lit(pre[0])] + r'.ts);
      ScanLit(blocked, pre, x, u);
      ScanLit(blocked, pre, y, u);
      ReadOnCons(Lit(pre[0]), r', x, u);
      ReadOnCons(Lit(pre[0]), r', y, u);
    }
  }

  lemma {:induction false} ScanNamed(x: string, u: set<char>)
    requires StartsWord(x, u)
    ensures Scan(false, ":" + x, u) == ReadOn(Reading([], true, true), x, u)
  {
    assert (":" + x)[1..] == x;
    assert (":" + x)[1 + |WordRun(x, u)|..] == x[|WordRun(x, u)|..];
    assert [] + ([Ref(WordRun(x, u))] + Scan(true, x[|WordRun(x, u)|..], u))
        == [Ref(WordRun(x, u))] + Scan(true, x[|WordRun(x, u)|..], u);
  }

  lemma {:induction false} ScanName(pre: string, x: string, u: set<char>)
    requires |pre| > 1 && Boundary(pre, u) && pre[0] == ':' && IsWord(pre[1], u)
    ensures var n := WordRun(pre[1..], u);
            1 + |n| <= |pre| && Scan(false, pre + x, u) == [Ref(n)] + Scan(true, pre[1 + |n|..] + x, u)
  {
    assert (pre + x)[1..] == pre[1..] + x;
    WordRunStops(pre[1..], x, u);
    var n := WordRun(pre[1..], u);
    assert (pre + x)[1 + |n|..] == pre[1 + |n|..] + x;
  }

  lemma {:induction false} ScanLit(blocked: bool, pre: string, x: string, u: set<char>)
    requires pre != "" && Boundary(pre, u) && StartsWord(x, u)
    requires blocked || pre[0] != ':' || (|pre| > 1 && !IsWord(pre[1], u))
    ensures Scan(blocked, pre + x, u) == [Lit(pre[0])] + Scan(Blocks(pre[0], u), pre[1..] + x, u)
  {
    assert (pre + x)[1..] == pre[1..] + x;
  }

  // ---- what the two tails bind to ----

  lemma {:induction false} BindAppend(a: seq<Token>, b: seq<Token>, params: map<string, Value>)
    ensures Bind(a + b, params).Ok? <==> Bind(a, params).Ok? && Bind(b, params).Ok?
    ensures Bind(a + b, params).Ok? ==>
              && Bind(a + b, params).value == Bind(a, params).value + Bind(b, params).value
              && |Bind(a, params).value| == |a|
  {
    if a == [] {
      assert a + b == b;
      assert Bind(b, params).Ok? ==> [] + Bind(b, params).value == Bind(b, params).value;
    } else {
      assert (a + b)[0] == a[0] && (a + b)[1..] == a[1..] + b;
      BindAppend(a[1..], b, params);
      if Bind(a + b, params).Ok? {
        var p, q := Bind(a[1..], params).value, Bind(b, params).value;
        assert forall c: Piece :: [c] + (p + q) == ([c] + p) + q;
      }
    }
  }

  /** The first pieces after the letters of `TOP`. */
  lemma {:induction false} TailPieces(x: string, y: string, some: map<string, Value>, all: map<string, Value>,
                                      u: set<char>, w: set<char>)
    requires Differ(x, y, w)
    requires Bind(Scan(true, x, u), some).Ok? && Bind(Scan(true, y, u), all).Ok?
    ensures Bind(Scan(true, x, u), some) != Bind(Scan(true, y, u), all)
  {
    var p, q := Bind(Scan(true, x, u), some).value, Bind(Scan(true, y, u), all).value;
    FirstPiece(true, x, some, u);
    FirstPiece(true, y, all, u);
    assert p[0] == Ch(x[0]) && q[0] == Ch(' ');
    if x[0] == ' ' {
      FirstPiece(false, x[1..], some, u);
      FirstPiece(false, y[1..], all, u);
      assert q[1] == Ch(y[1]);
      assert p[1] == Ch(x[1]) || p[1].Val?;
      assert x[1] != y[1];
    }
  }

  /** The scanner's first token, bound; a literal unless a name starts here. */
  lemma {:induction false} FirstPiece(blocked: bool, x: string, params: map<string, Value>, u: set<char>)
    requires x != "" && Bind(Scan(blocked, x, u), params).Ok?
    ensures var p := Bind(Scan(blocked, x, u), params).value;
            p != [] && (p[0] == Ch(x[0]) || (!blocked && x[0] == ':' && p[0].Val?))
            && (blocked || x[0] != ':' ==>
                  p[0] == Ch(x[0]) && Bind(Scan(Blocks(x[0], u), x[1..], u), params) == Ok(p[1..]))
  {
    var ts := Scan(blocked, x, u);
    if blocked || x[0] != ':' {
      var rest := Scan(Blocks(x[0], u), x[1..], u);
      assert ts == [Lit(x[0])] + rest && ts[1..] == rest;
      var q := Bind(rest, params).value;
      assert ([Ch(x[0])] + q)[1..] == q;
    }
  }

  /** Three letters and a character that is none. */
  ghost predicate ThreeLetters(x: string, u: set<char>) {
    |x| > 3 && (forall i :: 0 <= i < 3 ==> IsWord(x[i], u) && x[i] != ':') && !IsWord(x[3], u)
  }

  lemma {:induction false} ThreeRun(x: string, u: set<char>)
    requires ThreeLetters(x, u)
    ensures WordRun(x, u) == x[..3]
  {
    assert x[1..][0] == x[1] && x[2..][0] == x[2] && x[3..][0] == x[3];
    assert x[1..][1..] == x[2..] && x[2..][1..] == x[3..];
    assert WordRun(x[3..], u) == "";
    assert WordRun(x[2..], u) == [x[2]] + "";
    assert WordRun(x[1..], u) == [x[1]] + [x[2]];
  }

  lemma {:induction false} ThreeLits(blocked: bool, x: string, u: set<char>)
    requires ThreeLetters(x, u)
    ensures Scan(blocked, x, u) == [Lit(x[0]), Lit(x[1]), Lit(x[2])] + Scan(true, x[3..], u)
  {
    assert x[1..][1..] == x[2..] && x[2..][1..] == x[3..];
    var t := Scan(true, x[3..], u);
    assert Scan(true, x[2..], u) == [Lit(x[2])] + t;
    assert Scan(true, x[1..], u) == [Lit(x[1])] + ([Lit(x[2])] + t);
    assert [Lit(x[0])] + ([Lit(x[1])] + ([Lit(x[2])] + t)) == [Lit(x[0]), Lit(x[1]), Lit(x[2])] + t;
  }

  /** After the same reading, both texts have as many tokens before their tails. */
  function HeadOf(r: Reading, x: string): seq<Token>
    requires |x| > 3
  {
    r.ts + if r.named then [Ref(x[..3])] else [Lit(x[0]), Lit(x[1]), Lit(x[2])]
  }

  lemma {:induction false} HeadAndTail(r: Reading, x: string, u: set<char>)
    requires ThreeLetters(x, u)
    ensures ReadOn(r, x, u) == HeadOf(r, x) + Scan(true, x[3..], u)
  {
    ThreeRun(x, u);
    ThreeLits(r.blocked, x, u);
    var t := Scan(true, x[3..], u);
    if r.named {
      assert r.ts + ([Ref(x[..3])] + t) == (r.ts + [Ref(x[..3])]) + t;
    } else {
      assert r.ts + ([Lit(x[0]), Lit(x[1]), Lit(x[2])] + t) == (r.ts + [Lit(x[0]), Lit(x[1]), Lit(x[2])]) + t;
    }
  }

  /** Where the texts part, so does what they bind to. */
  lemma {:induction false} BindingsDiffer(pre: string, x: string, y: string, some: map<string, Value>,
                                          all: map<string, Value>, u: set<char>, w: set<char>)
    requires Boundary(pre, u) && ThreeLetters(x, u) && ThreeLetters(y, u) && Differ(x[3..], y[3..], w)
    requires Bind(Tokens(pre + y, u), all).Ok?
    ensures Bind(Tokens(pre + x, u), some) != Bind(Tokens(pre + y, u), all)
  {
    var r := ReadPrefix(false, pre, x, y, u);
    HeadAndTail(r, x, u);
    HeadAndTail(r, y, u);
    BindAppend(HeadOf(r, x), Scan(true, x[3..], u), some);
    BindAppend(HeadOf(r, y), Scan(true, y[3..], u), all);
    if Bind(Tokens(pre + x, u), some).Ok? {
      TailPieces(x[3..], y[3..], some, all, u, w);
      var n := |HeadOf(r, x)|;
      var p, q := Bind(Tokens(pre + x, u), some).value, Bind(Tokens(pre + y, u), all).value;
      assert p[n..] == Bind(Scan(true, x[3..], u), some).value && q[n..] == Bind(Scan(true, y[3..], u), all).value;
    }
  }

  // ---- the text sent as it is, when every parameter is used up ----

  lemma {:induction false} ConvertedAppend(a: seq<Token>, b: seq<Token>)
    ensures ToPyformat(DoublePercent(a + b)) == ToPyformat(DoublePercent(a)) + ToPyformat(DoublePercent(b))
  {
    if a == [] {
      assert a + b == b;
    } else {
      var rest := a[1..];
      assert a == [a[0]] + rest && a + b == [a[0]] + (rest + b);
      ConvertedAppend(rest, b);
      ConvertedCons(a[0], rest);
      ConvertedCons(a[0], rest + b);
      var p, q := ToPyformat(DoublePercent(rest)), ToPyformat(DoublePercent(b));
      assert ConvertedToken(a[0]) + (p + q) == (ConvertedToken(a[0]) + p) + q;
    }
  }

  lemma {:induction false} SourceAppend(a: seq<Token>, b: seq<Token>)
    ensures Source(a + b) == Source(a) + Source(b)
  {
    if a == [] {
      assert a + b == b;
    } else {
      assert (a + b)[0] == a[0] && (a + b)[1..] == a[1..] + b;
      SourceAppend(a[1..], b);
      assert TokenText(a[0]) + (Source(a[1..]) + Source(b)) == (TokenText(a[0]) + Source(a[1..])) + Source(b);
    }
  }

  function Percents(k: nat): string {
    if k == 0 then "" else "%" + Percents(k - 1)
  }

  /** One character on: a percent sign leaves one more of them to make up for. */
  lemma {:induction false} ShiftOne(k: nat, c: char, t: string, z: string)
    requires Percents(k) + ((if c == '%' then "%%" else [c]) + t) == [c] + z
    ensures if c == '%' then Percents(k + 1) + t == z else k == 0 && t == z
  {
    var l := Percents(k) + ((if c == '%' then "%%" else [c]) + t);
    assert l[0] == c && l[1..] == z;
    if k > 0 {
      assert l[0] == '%';
      PercentsMove(k, t);
    } else if c == '%' {
      assert Percents(1) == "%" + Percents(0);
      assert l == "%%" + t && l[1..] == "%" + t;
    } else {
      assert l == [c] + t && l[1..] == t;
    }
  }

  /** The first token of both sides taken apart. */
  lemma {:induction false} ShiftHead(k: nat, c: char, rest: seq<Token>, a: string, b: string)
    requires Percents(k) + (ToPyformat(DoublePercent([Lit(c)] + rest)) + a) == Source([Lit(c)] + rest) + b
    ensures if c == '%' then Percents(k + 1) + (ToPyformat(DoublePercent(rest)) + a) == Source(rest) + b
            else k == 0 && ToPyformat(DoublePercent(rest)) + a == Source(rest) + b
  {
    var p, q := ToPyformat(DoublePercent(rest)), Source(rest);
    ConvertedCons(Lit(c), rest);
    SourceCons(Lit(c), rest);
    Associates(ConvertedToken(Lit(c)), p, a);
    Associates([c], q, b);
    ShiftOne(k, c, p + a, q + b);
  }

  /** A doubled percent sign shifts the rest, and the shift is never made good. */
  lemma {:induction false} NoShift(k: nat, ts: seq<Token>, a: string, b: string)
    requires AllLits(ts) && b != "" && b[0] != '%'
    requires Percents(k) + (ToPyformat(DoublePercent(ts)) + a) == Source(ts) + b
    ensures k == 0 && a == b
    decreases |ts|
  {
    if ts == [] {
      assert "" + a == a && "" + b == b;
      assert (Percents(k) + a)[0] == b[0];
    } else {
      var c, rest := ts[0].c, ts[1..];
      assert ts == [Lit(c)] + rest;
      ShiftHead(k, c, rest, a, b);
      assert Percents(0) + (ToPyformat(DoublePercent(rest)) + a) == ToPyformat(DoublePercent(rest)) + a;
      NoShift(if c == '%' then k + 1 else 0, rest, a, b);
    }
  }

  lemma {:induction false} PercentsMove(k: nat, t: string)
    requires k > 0
    ensures (Percents(k) + ("%%" + t))[1..] == Percents(k + 1) + t
  {
    PercentsEnd(k);
    assert Percents(k + 1) == "%" + Percents(k);
    assert Percents(k) == "%" + Percents(k - 1);
    PercentsEnd(k - 1);
    assert (Percents(k) + ("%%" + t))[1..] == Percents(k - 1) + ("%%" + t);
    assert Percents(k - 1) + ("%%" + t) == (Percents(k - 1) + "%") + ("%" + t);
    assert Percents(k) + ("%" + t) == (Percents(k) + "%") + t;
  }

  lemma {:induction false} PercentsEnd(k: nat)
    ensures Percents(k) + "%" == Percents(k + 1)
  {
    if k > 0 {
      PercentsEnd(k - 1);
      assert ("%" + Percents(k - 1)) + "%" == "%" + (Percents(k - 1) + "%");
    }
  }

  lemma {:induction false} CharsInjective(s: string, t: string)
    requires Chars(s) == Chars(t)
    ensures s == t
  {
    CharsAreChars(s);
    CharsAreChars(t);
    forall i | 0 <= i < |s| ensures s[i] == t[i] {
      assert Chars(s)[i] == Ch(s[i]) && Chars(t)[i] == Ch(t[i]);
    }
  }

  /** The tail, converted, is not the tail that was meant. */
  lemma {:induction false} ConvertedTailDiffers(blocked: bool, x: string, y: string, u: set<char>, w: set<char>)
    requires ThreeLetters(x, u) && ThreeLetters(y, u) && Differ(x[3..], y[3..], w)
    ensures ToPyformat(DoublePercent(Scan(blocked, x, u))) != y
  {
    ThreeLits(blocked, x, u);
    var head, tail := [Lit(x[0]), Lit(x[1]), Lit(x[2])], Scan(true, x[3..], u);
    ConvertedAppend(head, tail);
    ConvertedLits(x, u);
    ConvertedTail(x[3..], u, w);
    var c := ToPyformat(DoublePercent(tail));
    assert y[3] == y[3..][0] && y[4] == y[3..][1];
    assert ToPyformat(DoublePercent(head)) + c == x[..3] + c;
    assert (x[..3] + c)[3] == c[0] && (|c| > 1 ==> (x[..3] + c)[4] == c[1]);
  }

  lemma {:induction false} ConvertedLits(x: string, u: set<char>)
    requires ThreeLetters(x, u)
    ensures ToPyformat(DoublePercent([Lit(x[0]), Lit(x[1]), Lit(x[2])])) == x[..3]
  {
    var a, b, c := Lit(x[0]), Lit(x[1]), Lit(x[2]);
    assert [a, b, c] == [a] + ([b] + ([c] + []));
    ConvertedCons(c, []);
    ConvertedCons(b, [c] + []);
    ConvertedCons(a, [b] + ([c] + []));
    assert ToPyformat(DoublePercent([])) == "";
  }

  lemma {:induction false} ConvertedTail(x: string, u: set<char>, w: set<char>)
    requires |x| > 1 && AfterLetters(x[0], w) && (x[0] != ':' ==> AfterLetters(x[1], w))
    ensures var c := ToPyformat(DoublePercent(Scan(true, x, u)));
            |c| > 1 && c[0] == x[0] && (x[0] == ' ' ==> c[1] == x[1] || c[1] == '%')
  {
    var rest := Scan(Blocks(x[0], u), x[1..], u);
    assert Scan(true, x, u) == [Lit(x[0])] + rest;
    ConvertedCons(Lit(x[0]), rest);
    assert rest != [] && rest == [rest[0]] + rest[1..];
    ConvertedCons(rest[0], rest[1..]);
  }

  /** With nothing left to bind the driver is given the converted text as it is. */
  lemma {:induction false} SentAsItIs(pre: string, x: string, y: string, all: map<string, Value>, u: set<char>,
          w: set<char>)
    requires Boundary(pre, u) && ThreeLetters(x, u) && ThreeLetters(y, u) && Differ(x[3..], y[3..], w)
    requires Bind(Tokens(pre + y, u), all).Ok?
    ensures Bind(Tokens(pre + y, u), all) != Ok(Chars(Converted(pre + x, u)))
  {
    var ts := Tokens(pre + y, u);
    BindOfLits(ts, all);
    CharsAreChars(Converted(pre + x, u));
    if AllLits(ts) {
      ScanKeepsText(false, pre + y, u);
      if Chars(pre + y) == Chars(Converted(pre + x, u)) {
        CharsInjective(pre + y, Converted(pre + x, u));
        LitsConvertedDiffer(pre, x, y, u, w);
      }
    }
  }

  lemma {:induction false} NamedHasRef(r: Reading, y: string, u: set<char>)
    ensures AllLits(ReadOn(r, y, u)) ==> !r.named
  {
    assert r.named ==> ReadOn(r, y, u)[|r.ts|].Ref?;
  }

  lemma {:induction false} LitsConvertedDiffer(pre: string, x: string, y: string, u: set<char>, w: set<char>)
    requires Boundary(pre, u) && ThreeLetters(x, u) && ThreeLetters(y, u) && Differ(x[3..], y[3..], w)
    requires AllLits(Tokens(pre + y, u)) && y[0] != '%'
    ensures Converted(pre + x, u) != pre + y
  {
    var r := ReadPrefix(false, pre, x, y, u);
    ScanOfEscape(false, pre + x, u);
    ScanKeepsText(false, pre + y, u);
    NamedHasRef(r, y, u);
    var a, b := Scan(r.blocked, x, u), Scan(r.blocked, y, u);
    ConvertedAppend(r.ts, a);
    SourceAppend(r.ts, b);
    ScanKeepsText(r.blocked, y, u);
    ConvertedTailDiffers(r.blocked, x, y, u, w);
    assert AllLits(r.ts) by {
      assert forall i :: 0 <= i < |r.ts| ==> ReadOn(r, y, u)[i] == r.ts[i];
    }
    if Converted(pre + x, u) == pre + y {
      var c := ToPyformat(DoublePercent(a));
      assert Percents(0) + (ToPyformat(DoublePercent(r.ts)) + c) == Source(r.ts) + y;
      NoShift(0, r.ts, c, y);
    }
  }

  // ---- percent signs ----

  lemma {:induction false} TopTextHasNoPercent(v: Value)
    ensures '%' !in TopText(v)
  {
    var i := TopValue(v);
    assert AllDigits(Dec(if i < 0 then -i else i));
    assert '%' !in DecInt(i);
  }

  lemma {:induction false} PercentOfEvery(afterWord: bool, gs: seq<Segment>, params: map<string, Value>,
                                          u: set<char>, w: set<char>)
    requires WellCut(afterWord, gs, u, w)
    ensures '%' in InlineEvery(gs, params) <==> '%' in Joined(gs)
    decreases |gs|
  {
    if gs != [] {
      var rest := gs[1..];
      match gs[0]
      case Plain(c) => PercentOfEvery(IsWord(c, u), rest, params, u, w);
      case Top(t, n) =>
        PercentOfEvery(IsWord(t[|t| - 1], u), rest, params, u, w);
        if n in params { TopTextHasNoPercent(params[n]); }
    }
  }

  // ---- the whole branch ----

  lemma {:induction false} NothingToInline(gs: seq<Segment>)
    ensures InlineEvery(gs, map[]) == Joined(gs)
  {
    if gs != [] { NothingToInline(gs[1..]); }
  }

  lemma {:induction false} ApartLetters(x: string, y: string, u: set<char>, w: set<char>)
    requires Apart(x, y, w) && u !! w
    ensures ThreeLetters(x, u) && ThreeLetters(y, u)
  {
    assert x[3] == x[3..][0] && y[3] == y[3..][0];
  }

  /** Where the texts part, what is executed is not the text that was meant. */
  lemma {:induction false} PartingGoesWrong(d: Parting, remaining: map<string, Value>, params: map<string, Value>,
                                            u: set<char>, w: set<char>)
    requires u !! w && PartsAt(d, u, w) && AllGiven(Tokens(d.pre + d.right, u), params)
    ensures MssqlExecuted(Inlined(d.pre + d.left, remaining), u) != Meaning(d.pre + d.right, params, u)
  {
    ApartLetters(d.left, d.right, u, w);
    BindRestricted(Tokens(d.pre + d.right, u), params, params);
    if remaining != map[] {
      ConvertedFormatsToBind(d.pre + d.left, remaining, u);
      BindingsDiffer(d.pre, d.left, d.right, remaining, params, u, w);
    } else {
      SentAsItIs(d.pre, d.left, d.right, params, u, w);
    }
  }

  /** A repeated name with a value makes the driver execute something else, or fail. */
  lemma {:induction false} RepeatGoesWrong(sql: string, params: map<string, Value>, u: set<char>, w: set<char>)
    requires u !! w && Repeats(TopNames(sql, u, w), params)
    requires AllGiven(Tokens(InlineEveryTop(sql, params, u, w), u), params)
    ensures MssqlExecuted(InlineTop(sql, params, u, w), u) != Meaning(InlineEveryTop(sql, params, u, w), params, u)
  {
    var gs, i := Segments(false, sql, u, w), InlineTop(sql, params, u, w);
    UsedOnceIs(Names(gs), params, params);
    SegmentsWellCut(false, sql, u, w);
    var d := FindParting(false, gs, params, params, u, w);
    assert i == Inlined(d.pre + d.left, i.remaining);
    PartingGoesWrong(d, i.remaining, params, u, w);
  }

  lemma {:induction false} OnceGoesRight(sql: string, params: map<string, Value>, u: set<char>, w: set<char>)
    requires !Repeats(TopNames(sql, u, w), params)
    requires AllGiven(Tokens(InlineEveryTop(sql, params, u, w), u), params)
    ensures var names, every := TopNames(sql, u, w), InlineEveryTop(sql, params, u, w);
            MssqlExecuted(InlineTop(sql, params, u, w), u) == Meaning(every, params, u)
            <==> (&& (forall n :: Ref(n) in Tokens(every, u) ==> n !in names)
                  && ((exists n :: n in params && n !in names) || '%' !in sql))
  {
    var gs, i := Segments(false, sql, u, w), InlineTop(sql, params, u, w);
    InlineTopExact(sql, params, u, w);
    InlineTopConsumes(sql, params, u, w);
    MssqlOfInlined(i, params, u);
    SegmentsWellCut(false, sql, u, w);
    PercentOfEvery(false, gs, params, u, w);
    LeftToBind(Tokens(i.text, u), TopNames(sql, u, w), params);
    SomeLeft(params, TopNames(sql, u, w));
  }

  /** SQL Server: what is executed is the intended query with every value in its place,
      exactly when every placeholder has a value and, if there is a parameter at all, no name
      with a value is in two `TOP` contexts, none is used outside `TOP` as well, and either a
      parameter is left to bind or the text has no percent sign. All of it can be read off
      the source text and the parameters. */
  lemma {:induction false} MssqlDialect(sql: string, params: map<string, Value>, u: set<char>, w: set<char>)
    requires u !! w
    ensures var (text, p) := Substituted(sql, params, Mssql, u, w);
            var names, every := TopNames(sql, u, w), InlineEveryTop(sql, params, u, w);
            Executed(text, p, Mssql, u) == Meaning(every, params, u) && Meaning(every, params, u).Ok?
            <==> && AllGiven(Tokens(every, u), params)
                 && (|| params == map[]
                     || (&& !Repeats(names, params)
                         && (forall n :: Ref(n) in Tokens(every, u) ==> n !in names)
                         && ((exists n :: n in params && n !in names) || '%' !in sql)))
  {
    BindGiven(Tokens(InlineEveryTop(sql, params, u, w), u), params);
    if !AllGiven(Tokens(InlineEveryTop(sql, params, u, w), u), params) {
    } else if params == map[] {
      SegmentsWellCut(false, sql, u, w);
      NothingToInline(Segments(false, sql, u, w));
      BindOfLits(Tokens(sql, u), params);
      ScanKeepsText(false, sql, u);
      assert AllLits(Tokens(sql, u));
    } else if Repeats(TopNames(sql, u, w), params) {
      RepeatGoesWrong(sql, params, u, w);
    } else {
      OnceGoesRight(sql, params, u, w);
    }
  }

  lemma {:induction false} LeftToBind(ts: seq<Token>, names: seq<string>, params: map<string, Value>)
    requires AllGiven(ts, params)
    ensures AllGiven(ts, params - (set n | n in names)) <==> forall n :: Ref(n) in ts ==> n !in names
  {
    var left := params - (set n | n in names);
    if AllGiven(ts, left) {
      forall n | Ref(n) in ts ensures n !in names {
        var i :| 0 <= i < |ts| && ts[i] == Ref(n);
        assert ts[i].name in left;
      }
    }
    if forall n :: Ref(n) in ts ==> n !in names {
      forall i | 0 <= i < |ts| && ts[i].Ref? ensures ts[i].name in left {
        assert Ref(ts[i].name) == ts[i] && ts[i].name in params;
      }
    }
  }

  lemma {:induction false} SomeLeft(params: map<string, Value>, names: seq<string>)
    ensures params - (set n | n in names) != map[] <==> exists n :: n in params && n !in names
  {
    var left := params - (set n | n in names);
    if left != map[] {
      var n :| n in left;
      assert n in params && n !in names;
    }
    if exists n :: n in params && n !in names {
      var n :| n in params && n !in names;
      assert n in left;
    }
  }

  // ---- a query the code gets wrong ----

  function Plains(p: string): seq<Segment> {
    if p == "" then [] else [Plain(p[0])] + Plains(p[1..])
  }

  /** No match starts at position `i` of `p`, whatever follows `p`. */
  predicate TopFree(afterWord: bool, p: string, i: nat, u: set<char>)
    requires i < |p|
  {
    || !SameLetter(p[i], 'T') || (i + 1 < |p| && !SameLetter(p[i + 1], 'O'))
    || (if i == 0 then afterWord else IsWord(p[i - 1], u))
  }

  ghost predicate AllFree(afterWord: bool, p: string, u: set<char>) {
    forall i :: 0 <= i < |p| ==> TopFree(afterWord, p, i, u)
  }

  lemma {:induction false} SkipOne(afterWord: bool, c: char, s: string, u: set<char>, w: set<char>)
    requires afterWord || !TopLetters([c] + s)
    ensures Segments(afterWord, [c] + s, u, w) == [Plain(c)] + Segments(IsWord(c, u), s, u, w)
  {
    var t := [c] + s;
    assert t[1..] == s && t[0] == c;
    PlainFirst(afterWord, t, u, w);
  }

  lemma {:induction false} FreeTail(afterWord: bool, p: string, s: string, u: set<char>)
    requires p != "" && AllFree(afterWord, p, u)
    ensures afterWord || !TopLetters([p[0]] + (p[1..] + s))
    ensures AllFree(IsWord(p[0], u), p[1..], u)
  {
    assert TopFree(afterWord, p, 0, u);
    forall i | 0 <= i < |p| - 1 ensures TopFree(IsWord(p[0], u), p[1..], i, u) {
      assert TopFree(afterWord, p, i + 1, u);
    }
  }

  function LastWord(afterWord: bool, p: string, u: set<char>): bool {
    if p == "" then afterWord else IsWord(p[|p| - 1], u)
  }

  lemma {:induction false} NothingSkipped(afterWord: bool, s: string, u: set<char>, w: set<char>)
    ensures Segments(afterWord, "" + s, u, w) == Plains("") + Segments(LastWord(afterWord, "", u), s, u, w)
  {
    assert "" + s == s;
    var gs := Segments(afterWord, s, u, w);
    assert [] + gs == gs;
  }

  lemma {:induction false} SkipPlain(afterWord: bool, p: string, s: string, u: set<char>, w: set<char>)
    requires AllFree(afterWord, p, u)
    ensures Segments(afterWord, p + s, u, w) == Plains(p) + Segments(LastWord(afterWord, p, u), s, u, w)
    decreases |p|
  {
    if p == "" {
      NothingSkipped(afterWord, s, u, w);
    } else {
      var c, rest := p[0], p[1..];
      FreeTail(afterWord, p, s, u);
      SkipPlain(IsWord(c, u), rest, s, u, w);
      SkipMore(afterWord, c, rest, s, u, w);
      FirstAndRest(p, s);
    }
  }

  lemma {:induction false} FirstAndRest(p: string, s: string)
    requires p != ""
    ensures [p[0]] + (p[1..] + s) == p + s && [p[0]] + p[1..] == p
  {
  }

  lemma {:induction false} LastWordOf(afterWord: bool, c: char, p: string, u: set<char>)
    ensures LastWord(IsWord(c, u), p, u) == LastWord(afterWord, [c] + p, u)
  {
  }

  lemma {:induction false} SkipMore(afterWord: bool, c: char, p: string, s: string, u: set<char>, w: set<char>)
    requires afterWord || !TopLetters([c] + (p + s))
    requires Segments(IsWord(c, u), p + s, u, w) == Plains(p) + Segments(LastWord(IsWord(c, u), p, u), s, u, w)
    ensures Segments(afterWord, [c] + (p + s), u, w)
         == Plains([c] + p) + Segments(LastWord(afterWord, [c] + p, u), s, u, w)
  {
    LastWordOf(afterWord, c, p, u);
    SkipOne(afterWord, c, p + s, u, w);
    PlainsFirst(c, p, Segments(LastWord(IsWord(c, u), p, u), s, u, w));
  }

  lemma {:induction false} PlainsFirst(c: char, p: string, gs: seq<Segment>)
    ensures [Plain(c)] + (Plains(p) + gs) == Plains([c] + p) + gs
  {
    assert ([c] + p)[1..] == p;
  }

  lemma {:induction false} PlainRun(p: string, gs: seq<Segment>, params: map<string, Value>)
    ensures Names(Plains(p) + gs) == Names(gs)
    ensures Inline(Plains(p) + gs, params) == Before(p, Inline(gs, params))
    ensures InlineEvery(Plains(p) + gs, params) == p + InlineEvery(gs, params)
  {
    if p == "" {
      assert [] + gs == gs && "" + Inline(gs, params).text == Inline(gs, params).text;
    } else {
      var c, tail := p[0], p[1..];
      PlainRun(tail, gs, params);
      PlainsFirst(c, tail, gs);
      assert [c] + tail == p;
      PlainHead(c, Plains(tail) + gs, params);
      BeforeBefore([c], tail, Inline(gs, params));
      Associates([c], tail, InlineEvery(gs, params));
    }
  }

  lemma {:induction false} PlainHead(c: char, gs: seq<Segment>, params: map<string, Value>)
    ensures Names([Plain(c)] + gs) == Names(gs)
    ensures Inline([Plain(c)] + gs, params) == Before([c], Inline(gs, params))
    ensures InlineEvery([Plain(c)] + gs, params) == [c] + InlineEvery(gs, params)
  {
    assert ([Plain(c)] + gs)[1..] == gs;
    assert [] + Names(gs) == Names(gs);
  }

  lemma {:induction false} TopHead(t: string, n: string, gs: seq<Segment>, params: map<string, Value>)
    ensures Names([Top(t, n)] + gs) == [n] + Names(gs)
    ensures Inline([Top(t, n)] + gs, params)
         == if n in params then Before(TopText(params[n]), Inline(gs, params - {n})) else Before(t, Inline(gs, params))
    ensures InlineEvery([Top(t, n)] + gs, params)
         == (if n in params then TopText(params[n]) else t) + InlineEvery(gs, params)
  {
    assert ([Top(t, n)] + gs)[1..] == gs;
  }

  lemma {:induction false} RowsMatch(s: string, u: set<char>, w: set<char>)
    requires s != "" && s[0] == '*'
    ensures TopAt("TOP :n " + s, u, w) == Match(7, "n")
  {
    var t := "TOP :n " + s;
    assert t[0] == 'T' && t[1] == 'O' && t[2] == 'P' && t[3] == ' ' && t[4] == ':' && t[5] == 'n' && t[6] == ' ';
    assert t[7] == '*';
    assert SpaceEnd(t, 4, w) == 4 && SpaceEnd(t, 3, w) == 4 && NameStart(t, w) == 4;
    assert WordEnd(t, 6, u) == 6 && WordEnd(t, 5, u) == 6;
    assert SpaceEnd(t, 7, w) == 7 && SpaceEnd(t, 6, w) == 7 && MatchEnd(t, 6, w) == 7;
    assert t[5..6] == "n";
  }

  lemma {:induction false} RowsFirst(s: string, u: set<char>, w: set<char>)
    requires s != "" && s[0] == '*'
    ensures Segments(false, "TOP :n " + s, u, w) == [Top("TOP :n ", "n")] + Segments(false, s, u, w)
  {
    var t := "TOP :n " + s;
    RowsMatch(s, u, w);
    TopFirst(t, u, w);
    assert t[..7] == "TOP :n " && t[7..] == s && t[6] == ' ';
  }

  /** A query with `TOP :n` twice. */
  function Nested(head: string, middle: string, tail: string): string {
    head + ("TOP :n " + (middle + ("TOP :n " + tail)))
  }

  ghost predicate Around(head: string, middle: string, tail: string, u: set<char>) {
    && AllFree(false, head, u) && AllFree(false, middle, u) && AllFree(false, tail, u)
    && !LastWord(false, head, u) && !LastWord(false, middle, u)
    && middle != "" && middle[0] == '*' && tail != "" && tail[0] == '*'
  }

  lemma {:induction false} NestedSegments(head: string, middle: string, tail: string, u: set<char>, w: set<char>)
    requires Around(head, middle, tail, u)
    ensures Segments(false, Nested(head, middle, tail), u, w)
         == Plains(head) + ([Top("TOP :n ", "n")] + (Plains(middle) + ([Top("TOP :n ", "n")] + (Plains(tail) + []))))
  {
    var d := "TOP :n " + tail;
    var b := "TOP :n " + (middle + d);
    SkipPlain(false, head, b, u, w);
    RowsFirst(middle + d, u, w);
    SkipPlain(false, middle, d, u, w);
    RowsFirst(tail, u, w);
    SkipPlain(false, tail, "", u, w);
    assert tail + "" == tail;
  }

  /** The inner limit keeps its placeholder, and nothing is left to bind it. */
  lemma {:induction false} NestedInlined(head: string, middle: string, tail: string, v: Value, u: set<char>,
          w: set<char>)
    requires Around(head, middle, tail, u)
    ensures var sql, params := Nested(head, middle, tail), map["n" := v];
            && InlineTop(sql, params, u, w) == Inlined(head + (TopText(v) + (middle + ("TOP :n " + tail))), map[])
            && InlineEveryTop(sql, params, u, w) == head + (TopText(v) + (middle + (TopText(v) + tail)))
            && TopNames(sql, u, w) == ["n", "n"]
  {
    NestedSegments(head, middle, tail, u, w);
    var params, none: map<string, Value> := map["n" := v], map[];
    assert params - {"n"} == none;
    var e := Plains(tail) + [];
    var d := [Top("TOP :n ", "n")] + e;
    var c := Plains(middle) + d;
    PlainRun(head, [Top("TOP :n ", "n")] + c, params);
    TopHead("TOP :n ", "n", c, params);
    PlainRun(middle, d, none);
    PlainRun(middle, d, params);
    TopHead("TOP :n ", "n", e, none);
    TopHead("TOP :n ", "n", e, params);
    PlainRun(tail, [], none);
    PlainRun(tail, [], params);
    assert tail + "" == tail;
  }

  lemma {:induction false} SelectAround(u: set<char>)
    ensures Around("SELECT ", "* FROM (SELECT ", "* FROM t) x", u)
  {
    forall i | 0 <= i < 7 ensures TopFree(false, "SELECT ", i, u) {
      assert i < 5 || i == 5 || i == 6;
    }
    forall i | 0 <= i < 15 ensures TopFree(false, "* FROM (SELECT ", i, u) {
      assert i < 7 || i == 7 || i == 8 || i == 9 || i == 10 || i == 11 || i == 12 || i == 13 || i == 14;
    }
    forall i | 0 <= i < 11 ensures TopFree(false, "* FROM t) x", i, u) {
      assert i < 7 || i == 7 || i == 8 || i == 9 || i == 10;
    }
  }

  lemma {:induction false} NoColonNoName(s: string, u: set<char>)
    requires ':' !in s
    ensures AllLits(Tokens(s, u))
  {
    PlaceholderTokens(s, u);
  }

  lemma {:induction false} TopTextHasNoColon(v: Value)
    ensures ':' !in TopText(v)
  {
    var i := TopValue(v);
    assert AllDigits(Dec(if i < 0 then -i else i));
    assert ':' !in DecInt(i);
  }

  /** However the rest of the query looks, the driver is sent the name instead of the limit. */
  lemma {:induction false} NestedGoesWrong(head: string, middle: string, tail: string, v: Value,
                                           u: set<char>, w: set<char>)
    requires u !! w && Around(head, middle, tail, u) && ':' !in head && ':' !in middle && ':' !in tail
    ensures var sql, params := Nested(head, middle, tail), map["n" := v];
            var (text, p) := Substituted(sql, params, Mssql, u, w);
            && InlineTop(sql, params, u, w).text == head + (TopText(v) + (middle + ("TOP :n " + tail)))
            && p == NoParams
            && Executed(text, p, Mssql, u) != Meaning(InlineEveryTop(sql, params, u, w), params, u)
  {
    var sql, params := Nested(head, middle, tail), map["n" := v];
    NestedInlined(head, middle, tail, v, u, w);
    TopTextHasNoColon(v);
    NoColonNoName(InlineEveryTop(sql, params, u, w), u);
    assert ["n", "n"][0] == ["n", "n"][1] && "n" in params;
    RepeatGoesWrong(sql, params, u, w);
  }

  /** `SELECT TOP :n * FROM (SELECT TOP :n * FROM t) x` with five for `n`: the driver is
      sent `SELECT TOP 5 * FROM (SELECT TOP :n * FROM t) x`, converted, and no parameter. */
  lemma {:induction false} NestedTopFails(u: set<char>, w: set<char>)
    requires u !! w
    ensures var sql := Nested("SELECT ", "* FROM (SELECT ", "* FROM t) x");
            var params := map["n" := Value("5", Some(5))];
            var (text, p) := Substituted(sql, params, Mssql, u, w);
            Executed(text, p, Mssql, u) != Meaning(InlineEveryTop(sql, params, u, w), params, u)
  {
    SelectAround(u);
    assert ':' !in "SELECT " && ':' !in "* FROM (SELECT " && ':' !in "* FROM t) x";
    NestedGoesWrong("SELECT ", "* FROM (SELECT ", "* FROM t) x", Value("5", Some(5)), u, w);
  }
}
