/** The dialects that bind with Python's `%` operator: escaping the literal percent
    signs, rewriting `:name` to `%(name)s`, and what the operator makes of the result. */
module SqlPyformat {
  import opened Prelude
  import opened SqlScan

  /** A parameter value: what the driver writes for it, and what `int()` makes of it. */
  datatype Value = Value(repr: string, asInt: Option<int>)

  /** What reaches the database: query characters and bound values, never mixed up. */
  datatype Piece = Ch(c: char) | Val(v: Value)

  datatype Failure = MissingKey(name: string) | BadFormat | BadPosition

  type Bound = Result<seq<Piece>, Failure>

  function Then(p: Piece, r: Bound): Bound {
    match r
    case Ok(ps) => Ok([p] + ps)
    case Err(e) => Err(e)
  }

  function Chars(s: string): seq<Piece> {
    if s == "" then [] else [Ch(s[0])] + Chars(s[1..])
  }

  /** The reference meaning: every literal character stays, every scanned placeholder
      is replaced by its value, and the first one without a value is the error. */
  function Bind(ts: seq<Token>, params: map<string, Value>): Bound {
    if ts == [] then Ok([])
    else match ts[0]
      case Lit(c) => Then(Ch(c), Bind(ts[1..], params))
      case Ref(n) =>
        if n in params then Then(Val(params[n]), Bind(ts[1..], params))
        else Err(MissingKey(n))
  }

  /** `sql.replace("%", "%%")` */
  function Escape(s: string): string {
    if s == "" then "" else (if s[0] == '%' then "%%" else [s[0]]) + Escape(s[1..])
  }

  /** Replacing each match of the scanner by `%(name)s`. */
  function ToPyformat(ts: seq<Token>): string {
    if ts == [] then ""
    else (match ts[0] case Lit(c) => [c] case Ref(n) => "%(" + n + ")s") + ToPyformat(ts[1..])
  }

  /** Python's `%` operator with a dictionary on the right. */
  function PyFormat(t: string, params: map<string, Value>): Bound
    decreases |t|
  {
    if t == "" then Ok([])
    else if t[0] != '%' then Then(Ch(t[0]), PyFormat(t[1..], params))
    else if |t| > 1 && t[1] == '%' then Then(Ch('%'), PyFormat(t[2..], params))
    else if |t| > 1 && t[1] == '(' then
      var n := KeyRun(t[2..]);
      if |n| + 2 < |t| && t[|n| + 2] == ')' then
        if n !in params then Err(MissingKey(n))
        else if |n| + 3 < |t| && t[|n| + 3] == 's' then
          Then(Val(params[n]), PyFormat(t[|n| + 4..], params))
        else Err(BadFormat)
      else Err(BadFormat)
    else Err(BadFormat)
  }

  /** The mapping key of a conversion: everything up to the next parenthesis. */
  function KeyRun(s: string): (n: string)
    ensures |n| <= |s|
  {
    if s == "" || s[0] == ')' || s[0] == '(' then "" else [s[0]] + KeyRun(s[1..])
  }

  /** The tokens of the escaped text: every literal percent sign twice. */
  function DoublePercent(ts: seq<Token>): seq<Token> {
    if ts == [] then []
    else (if ts[0] == Lit('%') then [ts[0], ts[0]] else [ts[0]]) + DoublePercent(ts[1..])
  }

  lemma {:induction false} WordRunOfEscape(s: string, u: set<char>)
    ensures var n := WordRun(s, u);
            && WordRun(Escape(s), u) == n
            && |n| <= |Escape(s)|
            && Escape(s)[|n|..] == Escape(s[|n|..])
  {
    if s != "" && IsWord(s[0], u) {
      var n := WordRun(s, u);
      WordRunOfEscape(s[1..], u);
      assert Escape(s) == [s[0]] + Escape(s[1..]);
      assert Escape(s)[1..] == Escape(s[1..]);
      assert s[1..][|n| - 1..] == s[|n|..];
    } else if s != "" {
      assert Escape(s)[0] == s[0];
    }
  }

  lemma {:induction false} DoubleCons(t: Token, ts: seq<Token>)
    ensures DoublePercent([t] + ts)
         == (if t == Lit('%') then [t, t] else [t]) + DoublePercent(ts)
  {
    assert ([t] + ts)[1..] == ts;
  }

  lemma {:induction false} ScanPercents(blocked: bool, s: string, u: set<char>)
    ensures Scan(blocked, "%%" + s, u) == [Lit('%'), Lit('%')] + Scan(false, s, u)
  {
    var t := "%%" + s;
    assert t[1..] == "%" + s;
    assert t[1..][1..] == s;
  }

  /** Escaping first does not disturb the scanner: it finds the same placeholders. */
  lemma {:induction false} ScanOfEscape(blocked: bool, s: string, u: set<char>)
    ensures Scan(blocked, Escape(s), u) == DoublePercent(Scan(blocked, s, u))
    decreases |s|
  {
    if s == "" {
    } else if s[0] == '%' {
      ScanOfEscape(false, s[1..], u);
      ScanPercents(blocked, Escape(s[1..]), u);
      DoubleCons(Lit('%'), Scan(false, s[1..], u));
    } else {
      var e := Escape(s);
      assert e[0] == s[0] && e[1..] == Escape(s[1..]);
      if !blocked && s[0] == ':' && |s| > 1 && IsWord(s[1], u) {
        assert e[1] == s[1] by { assert Escape(s[1..])[0] == s[1]; }
        WordRunOfEscape(s[1..], u);
        var n := WordRun(s[1..], u);
        assert e[1 + |n|..] == e[1..][|n|..];
        assert s[1..][|n|..] == s[1 + |n|..];
        ScanOfEscape(true, s[1 + |n|..], u);
        DoubleCons(Ref(n), Scan(true, s[1 + |n|..], u));
      } else {
        assert |s| > 1 ==> Escape(s[1..])[0] == s[1];
        ScanOfEscape(Blocks(s[0], u), s[1..], u);
        DoubleCons(Lit(s[0]), Scan(Blocks(s[0], u), s[1..], u));
      }
    }
  }

  lemma {:induction false} KeyRunOfName(n: string, rest: string, u: set<char>)
    requires AllWord(n, u)
    ensures KeyRun(n + ")" + rest) == n
  {
    if n == "" {
    } else {
      assert (n + ")" + rest)[1..] == n[1..] + ")" + rest;
      KeyRunOfName(n[1..], rest, u);
    }
  }

  lemma {:induction false} FormatOfRef(n: string, rest: string, params: map<string, Value>, u: set<char>)
    requires AllWord(n, u)
    ensures PyFormat("%(" + n + ")s" + rest, params)
         == if n in params then Then(Val(params[n]), PyFormat(rest, params)) else Err(MissingKey(n))
  {
    var t := "%(" + n + ")s" + rest;
    assert t[2..] == n + ")" + ("s" + rest);
    KeyRunOfName(n, "s" + rest, u);
    assert t[|n| + 4..] == rest;
  }

  lemma {:induction false} FormatOfPercents(rest: string, params: map<string, Value>)
    ensures PyFormat("%%" + rest, params) == Then(Ch('%'), PyFormat(rest, params))
  {
    assert ("%%" + rest)[2..] == rest;
  }

  lemma {:induction false} ToPyformatCons(t: Token, ts: seq<Token>)
    ensures ToPyformat([t] + ts)
         == (match t case Lit(c) => [c] case Ref(n) => "%(" + n + ")s") + ToPyformat(ts)
  {
    assert ([t] + ts)[1..] == ts;
  }

  /** Formatting the converted tokens is binding: for every token list and every
      parameter map, down to which missing name is reported. */
  lemma {:induction false} FormatIsBind(ts: seq<Token>, params: map<string, Value>, u: set<char>)
    requires WellScanned(ts, u)
    ensures PyFormat(ToPyformat(DoublePercent(ts)), params) == Bind(ts, params)
  {
    if ts == [] {
    } else {
      var rest := ToPyformat(DoublePercent(ts[1..]));
      FormatIsBind(ts[1..], params, u);
      assert ts == [ts[0]] + ts[1..];
      DoubleCons(ts[0], ts[1..]);
      match ts[0]
      case Lit(c) =>
        if c == '%' {
          var ds := DoublePercent(ts[1..]);
          assert [Lit('%'), Lit('%')] + ds == [Lit('%')] + ([Lit('%')] + ds);
          ToPyformatCons(Lit('%'), [Lit('%')] + ds);
          ToPyformatCons(Lit('%'), ds);
          assert "%" + ("%" + rest) == "%%" + rest;
          FormatOfPercents(rest, params);
        } else {
          ToPyformatCons(Lit(c), DoublePercent(ts[1..]));
          assert ([c] + rest)[1..] == rest;
        }
      case Ref(n) =>
        ToPyformatCons(Ref(n), DoublePercent(ts[1..]));
        FormatOfRef(n, rest, params, u);
    }
  }

  /** The text every pyformat branch produces: escape, then substitute the matches. */
  function Converted(sql: string, u: set<char>): string {
    ToPyformat(Tokens(Escape(sql), u))
  }

  /** Compiler correctness of the pyformat dialects: formatting the converted text
      equals replacing each scanned placeholder of the original text by its value. */
  lemma {:induction false} ConvertedFormatsToBind(sql: string, params: map<string, Value>, u: set<char>)
    ensures PyFormat(Converted(sql, u), params) == Bind(Tokens(sql, u), params)
  {
    ScanOfEscape(false, sql, u);
    ScanWellScanned(false, sql, u);
    FormatIsBind(Tokens(sql, u), params, u);
  }
}
