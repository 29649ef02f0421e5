/** The dialects whose driver takes its own placeholders: `$1, $2, …` for the
    PostgreSQL family and `@name` for BigQuery. */
module SqlPositional {
  import opened Prelude
  import opened SqlScan
  import opened SqlPyformat

  // ---- PostgreSQL, Greenplum, Supabase ----

  function Extend(names: seq<string>, t: Token): seq<string> {
    if t.Ref? && t.name !in names then names + [t.name] else names
  }

  /** The distinct placeholder names, in the order the rewriting callback meets them. */
  function NamesOf(ts: seq<Token>): seq<string> {
    if ts == [] then [] else Extend(NamesOf(ts[..|ts| - 1]), ts[|ts| - 1])
  }

  /** `param_names.index(name)` */
  function IndexOf(names: seq<string>, n: string): (k: nat)
    requires n in names
    ensures k < |names| && names[k] == n && n !in names[..k]
  {
    if names[0] == n then 0 else 1 + IndexOf(names[1..], n)
  }

  ghost predicate Covers(names: seq<string>, ts: seq<Token>) {
    forall i :: 0 <= i < |ts| && ts[i].Ref? ==> ts[i].name in names
  }

  function Numbered(t: Token, names: seq<string>): string
    requires t.Ref? ==> t.name in names
  {
    match t
    case Lit(c) => [c]
    case Ref(n) => "$" + Dec(IndexOf(names, n) + 1)
  }

  function PgText(ts: seq<Token>, names: seq<string>): string
    requires Covers(names, ts)
  {
    if ts == [] then "" else Numbered(ts[0], names) + PgText(ts[1..], names)
  }

  function DigitRun(s: string): (n: string)
    ensures |n| <= |s| && n == s[..|n|] && AllDigits(n)
    ensures |n| < |s| ==> !IsDigit(s[|n|])
  {
    if s == "" || !IsDigit(s[0]) then "" else [s[0]] + DigitRun(s[1..])
  }

  datatype Mark = NoMark | Mark(len: nat, k: nat)

  /** A `$k` at the start of the text. */
  function MarkAt(t: string): (m: Mark)
    ensures m.Mark? ==> 2 <= m.len <= |t|
  {
    if |t| > 1 && t[0] == '$' && IsDigit(t[1]) then
      var d := DigitRun(t[1..]);
      Mark(1 + |d|, Parse(d))
    else NoMark
  }

  /** What an identifier starts with, and what it goes on with. */
  predicate IdentStart(c: char) {
    'a' <= c <= 'z' || 'A' <= c <= 'Z' || c == '_' || c as int >= 128
  }

  predicate IdentPart(c: char) {
    IdentStart(c) || IsDigit(c) || c == '$'
  }

  /** Inside an identifier after `c`, given whether one was going on before. */
  predicate InIdent(ident: bool, c: char) {
    if ident then IdentPart(c) else IdentStart(c)
  }

  /** What the server makes of `$k`: the k-th argument, or an error out of range. A dollar
      sign that goes on with an identifier is part of it. */
  function PgBind(ident: bool, t: string, vals: seq<Value>): Bound
    decreases |t|
  {
    if t == "" then Ok([])
    else match if ident then NoMark else MarkAt(t)
      case NoMark => Then(Ch(t[0]), PgBind(InIdent(ident, t[0]), t[1..], vals))
      case Mark(len, k) =>
        if 1 <= k <= |vals| then Then(Val(vals[k - 1]), PgBind(false, t[len..], vals))
        else Err(BadPosition)
  }

  /** The tokens with each placeholder replaced by the value at its name's position. */
  function Fill(ts: seq<Token>, names: seq<string>, vals: seq<Value>): (ps: seq<Piece>)
    requires Covers(names, ts) && |vals| == |names|
    ensures |ps| == |ts|
  {
    if ts == [] then []
    else
      [match ts[0] case Lit(c) => Ch(c) case Ref(n) => Val(vals[IndexOf(names, n)])]
      + Fill(ts[1..], names, vals)
  }

  /** The text itself contains a `$` directly followed by a digit. */
  predicate DollarDigit(s: string) {
    exists i :: 0 <= i < |s| - 1 && s[i] == '$' && IsDigit(s[i + 1])
  }

  ghost predicate DollarDigitTokens(ts: seq<Token>) {
    exists i :: 0 <= i < |ts| - 1 && ts[i] == Lit('$') && ts[i + 1].Lit? && IsDigit(ts[i + 1].c)
  }

  /** The numbered text would be read otherwise than it was meant: the source has a `$digit`
      outside an identifier, or a placeholder that goes on with one. */
  ghost predicate Clash(ident: bool, ts: seq<Token>)
    decreases |ts|
  {
    ts != [] &&
    match ts[0]
    case Ref(_) => ident || Clash(false, ts[1..])
    case Lit(c) =>
      || (!ident && c == '$' && |ts| > 1 && ts[1].Lit? && IsDigit(ts[1].c))
      || Clash(InIdent(ident, c), ts[1..])
  }

  lemma {:induction false} DollarDigitSkip(s: string, k: nat)
    requires 0 < k <= |s|
    requires forall i :: 0 <= i < k ==> s[i] != '$'
    ensures DollarDigit(s) == DollarDigit(s[k..])
  {
    if DollarDigit(s) {
      var i :| 0 <= i < |s| - 1 && s[i] == '$' && IsDigit(s[i + 1]);
      assert s[k..][i - k] == '$' && s[k..][i - k + 1] == s[i + 1];
    }
    if DollarDigit(s[k..]) {
      var i :| 0 <= i < |s[k..]| - 1 && s[k..][i] == '$' && IsDigit(s[k..][i + 1]);
      assert s[i + k] == '$' && IsDigit(s[i + k + 1]);
    }
  }

  lemma {:induction false} DollarDigitStep(s: string)
    requires |s| > 0
    ensures DollarDigit(s)
         == ((s[0] == '$' && |s| > 1 && IsDigit(s[1])) || DollarDigit(s[1..]))
  {
    if DollarDigit(s[1..]) {
      var i :| 0 <= i < |s[1..]| - 1 && s[1..][i] == '$' && IsDigit(s[1..][i + 1]);
      assert s[i + 1] == '$' && IsDigit(s[i + 2]);
    }
    if DollarDigit(s) {
      var i :| 0 <= i < |s| - 1 && s[i] == '$' && IsDigit(s[i + 1]);
      if i > 0 {
        assert s[1..][i - 1] == '$' && IsDigit(s[1..][i]);
      }
    }
  }

  lemma {:induction false} DollarDigitTokensStep(t: Token, ts: seq<Token>)
    ensures DollarDigitTokens([t] + ts)
         == ((t == Lit('$') && |ts| > 0 && ts[0].Lit? && IsDigit(ts[0].c)) || DollarDigitTokens(ts))
  {
    var all := [t] + ts;
    if DollarDigitTokens(ts) {
      var i :| 0 <= i < |ts| - 1 && ts[i] == Lit('$') && ts[i + 1].Lit? && IsDigit(ts[i + 1].c);
      assert all[i + 1] == Lit('$') && all[i + 2] == ts[i + 1];
    }
    if t == Lit('$') && |ts| > 0 && ts[0].Lit? && IsDigit(ts[0].c) {
      assert all[0] == Lit('$') && all[1] == ts[0];
    }
    if DollarDigitTokens(all) {
      var i :| 0 <= i < |all| - 1 && all[i] == Lit('$') && all[i + 1].Lit? && IsDigit(all[i + 1].c);
      if i > 0 {
        assert ts[i - 1] == Lit('$') && ts[i] == all[i + 1];
      }
    }
  }

  lemma {:induction false} DollarDigitOfScan(blocked: bool, s: string, u: set<char>)
    ensures DollarDigitTokens(Scan(blocked, s, u)) == DollarDigit(s)
    decreases |s|
  {
    if s == "" {
    } else if !blocked && s[0] == ':' && |s| > 1 && IsWord(s[1], u) {
      var n := WordRun(s[1..], u);
      DollarDigitOfScan(true, s[1 + |n|..], u);
      DollarDigitTokensStep(Ref(n), Scan(true, s[1 + |n|..], u));
      forall i | 0 <= i < 1 + |n| ensures s[i] != '$' {
        if i > 0 { assert s[i] == n[i - 1]; }
      }
      DollarDigitSkip(s, 1 + |n|);
    } else {
      var rest := Scan(Blocks(s[0], u), s[1..], u);
      DollarDigitOfScan(Blocks(s[0], u), s[1..], u);
      DollarDigitTokensStep(Lit(s[0]), rest);
      DollarDigitStep(s);
    }
  }

  lemma {:induction false} DigitRunOf(d: string, rest: string)
    requires AllDigits(d) && (rest != "" ==> !IsDigit(rest[0]))
    ensures DigitRun(d + rest) == d
  {
    if d == "" {
      assert d + rest == rest;
    } else {
      DigitRunOf(d[1..], rest);
      assert (d + rest)[1..] == d[1..] + rest;
    }
  }

  lemma {:induction false} MarkOfNumber(k: nat, rest: string)
    requires rest != "" ==> !IsDigit(rest[0])
    ensures MarkAt("$" + Dec(k) + rest) == Mark(1 + |Dec(k)|, k)
  {
    var d := Dec(k);
    var t := "$" + d + rest;
    assert t[1..] == d + rest && t[1] == d[0];
    DigitRunOf(d, rest);
    ParseDec(k);
  }

  lemma {:induction false} PgBindAtMark(t: string, vals: seq<Value>)
    requires MarkAt(t).Mark? && 1 <= MarkAt(t).k <= |vals|
    ensures PgBind(false, t, vals) == Then(Val(vals[MarkAt(t).k - 1]), PgBind(false, t[MarkAt(t).len..], vals))
  {
  }

  lemma {:induction false} PgBindOfNumber(k: nat, rest: string, vals: seq<Value>)
    requires 1 <= k <= |vals| && (rest != "" ==> !IsDigit(rest[0]))
    ensures PgBind(false, "$" + Dec(k) + rest, vals) == Then(Val(vals[k - 1]), PgBind(false, rest, vals))
  {
    var t := "$" + Dec(k) + rest;
    MarkOfNumber(k, rest);
    PgBindAtMark(t, vals);
    assert t[1 + |Dec(k)|..] == rest;
  }

  lemma {:induction false} PgBindOfLiteral(ident: bool, c: char, rest: string, vals: seq<Value>)
    ensures var r := PgBind(ident, [c] + rest, vals);
            if !ident && c == '$' && rest != "" && IsDigit(rest[0])
            then r.Ok? ==> r.value != [] && r.value[0].Val?
            else r == Then(Ch(c), PgBind(InIdent(ident, c), rest, vals))
  {
    assert ([c] + rest)[1..] == rest;
  }

  lemma {:induction false} ThenIs(p: Piece, r: Bound, ps: seq<Piece>)
    ensures Then(p, r) == Ok([p] + ps) <==> r == Ok(ps)
  {
    if r.Ok? && [p] + r.value == [p] + ps {
      assert ([p] + r.value)[1..] == ([p] + ps)[1..];
    }
  }

  lemma {:induction false} LiteralIsBound(ident: bool, c: char, rest: string, vals: seq<Value>, ps: seq<Piece>)
    ensures PgBind(ident, [c] + rest, vals) == Ok([Ch(c)] + ps)
       <==> PgBind(InIdent(ident, c), rest, vals) == Ok(ps) && !(!ident && c == '$' && rest != "" && IsDigit(rest[0]))
  {
    PgBindOfLiteral(ident, c, rest, vals);
    ThenIs(Ch(c), PgBind(InIdent(ident, c), rest, vals), ps);
    assert ([Ch(c)] + ps)[0] == Ch(c);
  }

  lemma {:induction false} NumberIsBound(k: nat, rest: string, vals: seq<Value>, ps: seq<Piece>)
    requires 1 <= k <= |vals| && (rest != "" ==> !IsDigit(rest[0]))
    ensures PgBind(false, "$" + Dec(k) + rest, vals) == Ok([Val(vals[k - 1])] + ps)
       <==> PgBind(false, rest, vals) == Ok(ps)
  {
    PgBindOfNumber(k, rest, vals);
    ThenIs(Val(vals[k - 1]), PgBind(false, rest, vals), ps);
  }

  /** Inside an identifier the number is read as characters. */
  lemma {:induction false} NumberInIdent(k: nat, rest: string, vals: seq<Value>, v: Value, ps: seq<Piece>)
    ensures PgBind(true, "$" + Dec(k) + rest, vals) != Ok([Val(v)] + ps)
  {
    var t := "$" + Dec(k) + rest;
    var r := PgBind(true, t, vals);
    assert r == Then(Ch('$'), PgBind(true, t[1..], vals));
    assert r.Ok? ==> r.value[0] == Ch('$');
    assert ([Val(v)] + ps)[0] == Val(v);
  }

  lemma {:induction false} PgTextHead(ts: seq<Token>, names: seq<string>)
    requires Covers(names, ts) && ts != []
    ensures PgText(ts, names) != ""
    ensures PgText(ts, names)[0] == match ts[0] case Lit(c) => c case Ref(_) => '$'
  {
  }

  ghost predicate BoundBack(ident: bool, ts: seq<Token>, names: seq<string>, vals: seq<Value>)
    requires Covers(names, ts) && |vals| == |names|
  {
    PgBind(ident, PgText(ts, names), vals) == Ok(Fill(ts, names, vals)) <==> !Clash(ident, ts)
  }

  lemma {:induction false} PgBindAfterLit(ident: bool, c: char, tail: seq<Token>, names: seq<string>, vals: seq<Value>)
    requires Covers(names, tail) && |vals| == |names| && BoundBack(InIdent(ident, c), tail, names, vals)
    ensures Covers(names, [Lit(c)] + tail) && BoundBack(ident, [Lit(c)] + tail, names, vals)
  {
    var ts := [Lit(c)] + tail;
    assert ts[1..] == tail;
    if tail != [] { PgTextHead(tail, names); }
    LiteralIsBound(ident, c, PgText(tail, names), vals, Fill(tail, names, vals));
  }

  lemma {:induction false} PgTextOfRef(n: string, tail: seq<Token>, names: seq<string>, vals: seq<Value>)
    requires n in names && Covers(names, tail) && |vals| == |names|
    ensures Covers(names, [Ref(n)] + tail)
    ensures PgText([Ref(n)] + tail, names) == "$" + Dec(IndexOf(names, n) + 1) + PgText(tail, names)
    ensures Fill([Ref(n)] + tail, names, vals) == [Val(vals[IndexOf(names, n)])] + Fill(tail, names, vals)
  {
    assert ([Ref(n)] + tail)[1..] == tail;
  }

  lemma {:induction false} PgBindAfterRef(ident: bool, n: string, tail: seq<Token>, names: seq<string>,
          vals: seq<Value>)
    requires n in names && Covers(names, tail) && |vals| == |names| && BoundBack(false, tail, names, vals)
    requires PgText(tail, names) != "" ==> !IsDigit(PgText(tail, names)[0])
    ensures Covers(names, [Ref(n)] + tail) && BoundBack(ident, [Ref(n)] + tail, names, vals)
  {
    PgTextOfRef(n, tail, names, vals);
    assert ([Ref(n)] + tail)[1..] == tail;
    var k := IndexOf(names, n);
    if ident {
      NumberInIdent(k + 1, PgText(tail, names), vals, vals[k], Fill(tail, names, vals));
    } else {
      NumberIsBound(k + 1, PgText(tail, names), vals, Fill(tail, names, vals));
    }
  }

  /** The server reads the numbered text back as the intended pieces, exactly when nothing
      in the source clashes with the numbers. */
  lemma {:induction false} PgBindOfText(ident: bool, ts: seq<Token>, names: seq<string>, vals: seq<Value>, u: set<char>)
    requires WellScanned(ts, u) && Covers(names, ts) && |vals| == |names|
    ensures PgBind(ident, PgText(ts, names), vals) == Ok(Fill(ts, names, vals)) <==> !Clash(ident, ts)
    decreases |ts|
  {
    if ts != [] {
      var tail := ts[1..];
      assert ts == [ts[0]] + tail;
      if |tail| > 0 { PgTextHead(tail, names); }
      match ts[0]
      case Lit(c) =>
        PgBindOfText(InIdent(ident, c), tail, names, vals, u);
        PgBindAfterLit(ident, c, tail, names, vals);
      case Ref(n) =>
        PgBindOfText(false, tail, names, vals, u);
        PgBindAfterRef(ident, n, tail, names, vals);
    }
  }

  /** Without arguments the server never puts a value anywhere. */
  lemma {:induction false} PgBindNoValues(ident: bool, t: string)
    ensures var r := PgBind(ident, t, []);
            r.Ok? ==> |r.value| == |t| && forall i :: 0 <= i < |r.value| ==> r.value[i].Ch?
    decreases |t|
  {
    if t != "" && (ident || MarkAt(t).NoMark?) {
      PgBindNoValues(InIdent(ident, t[0]), t[1..]);
    }
  }

  /** A placeholder directly after a character that an identifier may end with. */
  ghost predicate RefAfterIdent(ts: seq<Token>) {
    exists i :: 0 < i < |ts| && ts[i].Ref? && ts[i - 1].Lit? && IdentPart(ts[i - 1].c)
  }

  lemma {:induction false} RefAfterIdentCons(t: Token, ts: seq<Token>)
    ensures RefAfterIdent(ts) ==> RefAfterIdent([t] + ts)
    ensures t.Lit? && IdentPart(t.c) && ts != [] && ts[0].Ref? ==> RefAfterIdent([t] + ts)
  {
    var all := [t] + ts;
    if RefAfterIdent(ts) {
      var i :| 0 < i < |ts| && ts[i].Ref? && ts[i - 1].Lit? && IdentPart(ts[i - 1].c);
      assert all[i + 1] == ts[i] && all[i] == ts[i - 1];
    }
    if t.Lit? && IdentPart(t.c) && ts != [] && ts[0].Ref? {
      assert all[1] == ts[0] && all[0] == t;
    }
  }

  /** No clash without a `$digit` in the text or a placeholder right after an identifier. */
  lemma {:induction false} ClashReads(ident: bool, ts: seq<Token>)
    requires Clash(ident, ts)
    ensures DollarDigitTokens(ts) || RefAfterIdent(ts) || (ident && ts[0].Ref?)
    decreases |ts|
  {
    var t, tail := ts[0], ts[1..];
    assert ts == [t] + tail;
    DollarDigitTokensStep(t, tail);
    RefAfterIdentCons(t, tail);
    match t
    case Ref(_) => if !ident { ClashReads(false, tail); }
    case Lit(c) =>
      if Clash(InIdent(ident, c), tail) {
        ClashReads(InIdent(ident, c), tail);
      }
  }

  /** Where a name is first used. */
  function FirstUse(ts: seq<Token>, n: string): (k: nat)
    requires Ref(n) in ts
    ensures k < |ts| && ts[k] == Ref(n)
    ensures forall i :: 0 <= i < k ==> ts[i] != Ref(n)
  {
    if ts[0] == Ref(n) then 0 else 1 + FirstUse(ts[1..], n)
  }

  ghost predicate Lists(names: seq<string>, ts: seq<Token>) {
    forall n :: n in names <==> Ref(n) in ts
  }

  lemma {:induction false} ListsStep(pre: seq<Token>, t: Token, names: seq<string>)
    requires Lists(names, pre)
    ensures Lists(Extend(names, t), pre + [t])
  {
    forall n ensures n in Extend(names, t) <==> Ref(n) in pre + [t] {
      assert n in names <==> Ref(n) in pre;
    }
  }

  lemma {:induction false} FirstUseStable(pre: seq<Token>, t: Token, n: string)
    requires Ref(n) in pre
    ensures FirstUse(pre + [t], n) == FirstUse(pre, n)
  {
    if pre[0] != Ref(n) {
      assert (pre + [t])[1..] == pre[1..] + [t];
      FirstUseStable(pre[1..], t, n);
    }
  }

  lemma {:induction false} FirstUseNew(pre: seq<Token>, n: string)
    requires Ref(n) !in pre
    ensures FirstUse(pre + [Ref(n)], n) == |pre|
  {
    if pre != [] {
      assert (pre + [Ref(n)])[1..] == pre[1..] + [Ref(n)];
      FirstUseNew(pre[1..], n);
    }
  }

  ghost predicate ByFirstUse(ts: seq<Token>, names: seq<string>)
    requires Lists(names, ts)
  {
    forall i, j :: 0 <= i < j < |names| ==> FirstUse(ts, names[i]) < FirstUse(ts, names[j])
  }

  lemma {:induction false} ByFirstUseStep(pre: seq<Token>, t: Token, names: seq<string>)
    requires Lists(names, pre) && ByFirstUse(pre, names) && Lists(Extend(names, t), pre + [t])
    ensures ByFirstUse(pre + [t], Extend(names, t))
  {
    var all := Extend(names, t);
    forall i, j | 0 <= i < j < |all| ensures FirstUse(pre + [t], all[i]) < FirstUse(pre + [t], all[j]) {
      assert all[i] == names[i];
      FirstUseStable(pre, t, names[i]);
      if j < |names| {
        FirstUseStable(pre, t, names[j]);
      } else {
        FirstUseNew(pre, t.name);
      }
    }
  }

  lemma {:induction false} NamesInOrder(ts: seq<Token>)
    ensures Lists(NamesOf(ts), ts) && ByFirstUse(ts, NamesOf(ts))
  {
    if ts != [] {
      var pre, t := ts[..|ts| - 1], ts[|ts| - 1];
      NamesInOrder(pre);
      ListsStep(pre, t, NamesOf(pre));
      ByFirstUseStep(pre, t, NamesOf(pre));
      assert ts == pre + [t];
    }
  }

  /** The names are exactly those of the placeholders, once each, by first use. */
  lemma {:induction false} NamesByFirstUse(ts: seq<Token>)
    ensures forall n :: n in NamesOf(ts) <==> Ref(n) in ts
    ensures Distinct(NamesOf(ts))
    ensures forall i, j :: 0 <= i < j < |NamesOf(ts)| ==>
              FirstUse(ts, NamesOf(ts)[i]) < FirstUse(ts, NamesOf(ts)[j])
  {
    NamesInOrder(ts);
  }

  // ---- BigQuery ----

  function BqText(ts: seq<Token>): string {
    if ts == [] then ""
    else (match ts[0] case Lit(c) => [c] case Ref(n) => "@" + n) + BqText(ts[1..])
  }

  /** What BigQuery makes of `@name`: the query parameter of that name. */
  function BqBind(t: string, params: map<string, Value>, u: set<char>): Bound
    decreases |t|
  {
    if t == "" then Ok([])
    else if t[0] == '@' && |t| > 1 && IsWord(t[1], u) then
      var n := WordRun(t[1..], u);
      if n in params then Then(Val(params[n]), BqBind(t[1 + |n|..], params, u))
      else Err(MissingKey(n))
    else Then(Ch(t[0]), BqBind(t[1..], params, u))
  }

  predicate AtWordTokens(ts: seq<Token>, u: set<char>) {
    exists i :: 0 <= i < |ts| - 1 && ts[i] == Lit('@') && ts[i + 1].Lit? && IsWord(ts[i + 1].c, u)
  }

  lemma {:induction false} AtWordStep(t: Token, ts: seq<Token>, u: set<char>)
    ensures AtWordTokens([t] + ts, u)
         == ((t == Lit('@') && |ts| > 0 && ts[0].Lit? && IsWord(ts[0].c, u)) || AtWordTokens(ts, u))
  {
    var all := [t] + ts;
    if AtWordTokens(ts, u) {
      var i :| 0 <= i < |ts| - 1 && ts[i] == Lit('@') && ts[i + 1].Lit? && IsWord(ts[i + 1].c, u);
      assert all[i + 1] == Lit('@') && all[i + 2] == ts[i + 1];
    }
    if t == Lit('@') && |ts| > 0 && ts[0].Lit? && IsWord(ts[0].c, u) {
      assert all[0] == Lit('@') && all[1] == ts[0];
    }
    if AtWordTokens(all, u) {
      var i :| 0 <= i < |all| - 1 && all[i] == Lit('@') && all[i + 1].Lit? && IsWord(all[i + 1].c, u);
      if i > 0 {
        assert ts[i - 1] == Lit('@') && ts[i] == all[i + 1];
      }
    }
  }

  lemma {:induction false} WordRunOf(n: string, rest: string, u: set<char>)
    requires AllWord(n, u) && (rest != "" ==> !IsWord(rest[0], u))
    ensures WordRun(n + rest, u) == n
  {
    if n == "" {
      assert n + rest == rest;
    } else {
      WordRunOf(n[1..], rest, u);
      assert (n + rest)[1..] == n[1..] + rest;
    }
  }

  lemma {:induction false} BqBindOfLiteral(c: char, rest: string, params: map<string, Value>, u: set<char>)
    ensures var r := BqBind([c] + rest, params, u);
            if c == '@' && rest != "" && IsWord(rest[0], u)
            then r.Ok? ==> r.value != [] && r.value[0].Val?
            else r == Then(Ch(c), BqBind(rest, params, u))
  {
    assert ([c] + rest)[1..] == rest;
  }

  lemma {:induction false} BqBindOfName(n: string, rest: string, params: map<string, Value>, u: set<char>)
    requires n != "" && AllWord(n, u) && (rest != "" ==> !IsWord(rest[0], u)) && n in params
    ensures BqBind("@" + n + rest, params, u) == Then(Val(params[n]), BqBind(rest, params, u))
  {
    var t := "@" + n + rest;
    assert t[1..] == n + rest;
    WordRunOf(n, rest, u);
    assert t[1 + |n|..] == rest;
  }

  ghost predicate AllGiven(ts: seq<Token>, params: map<string, Value>) {
    forall i :: 0 <= i < |ts| && ts[i].Ref? ==> ts[i].name in params
  }

  /** The reference fails exactly when a placeholder has no value. */
  lemma {:induction false} BindGiven(ts: seq<Token>, params: map<string, Value>)
    ensures Bind(ts, params).Ok? <==> AllGiven(ts, params)
  {
    if ts != [] {
      BindGiven(ts[1..], params);
      assert AllGiven(ts, params) <==> (ts[0].Ref? ==> ts[0].name in params) && AllGiven(ts[1..], params) by {
        assert ts == [ts[0]] + ts[1..];
        GivenCons(ts[0], ts[1..], params);
      }
    }
  }

  lemma {:induction false} GivenCons(t: Token, ts: seq<Token>, params: map<string, Value>)
    ensures AllGiven([t] + ts, params) <==> (t.Ref? ==> t.name in params) && AllGiven(ts, params)
  {
    var all := [t] + ts;
    assert all[0] == t && forall i :: 0 <= i < |ts| ==> all[i + 1] == ts[i];
    if (t.Ref? ==> t.name in params) && AllGiven(ts, params) {
      forall i | 0 <= i < |all| && all[i].Ref? ensures all[i].name in params {
        if i > 0 { assert all[i] == ts[i - 1]; }
      }
    }
  }

  /** BigQuery reads the converted text back as the reference, exactly when the source
      had no `@word` of its own. */
  lemma {:induction false} BqBindOfText(ts: seq<Token>, params: map<string, Value>, u: set<char>)
    requires WellScanned(ts, u) && AllGiven(ts, params)
    ensures Bind(ts, params).Ok?
    ensures BqBind(BqText(ts), params, u) == Bind(ts, params) <==> !AtWordTokens(ts, u)
  {
    if ts != [] {
      var rest := BqText(ts[1..]);
      BqBindOfText(ts[1..], params, u);
      assert ts == [ts[0]] + ts[1..];
      AtWordStep(ts[0], ts[1..], u);
      assert |ts| > 1 ==> rest != "" && rest[0] == match ts[1] case Lit(c) => c case Ref(_) => '@';
      match ts[0]
      case Lit(c) =>
        BqBindOfLiteral(c, rest, params, u);
        ThenIs(Ch(c), BqBind(rest, params, u), Bind(ts[1..], params).value);
      case Ref(n) =>
        BqBindOfName(n, rest, params, u);
        ThenIs(Val(params[n]), BqBind(rest, params, u), Bind(ts[1..], params).value);
    }
  }
}
