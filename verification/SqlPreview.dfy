/** The preview compiler: the row-limit stage and the placeholder substitution of
    every dialect, with what each driver makes of the result. */
module SqlPreview {
  import opened Prelude
  import opened SqlScan
  import opened SqlPyformat
  import opened SqlPositional
  import opened SqlTop

  datatype DbType =
    | Mssql | Mysql | Clickhouse | Snowflake | Cassandra
    | Postgresql | Greenplum | Supabase | Bigquery | OtherDb(name: string)

  predicate PgCompatible(db: DbType) {
    db.Postgresql? || db.Greenplum? || db.Supabase?
  }

  predicate Pyformat(db: DbType) {
    db.Mysql? || db.Clickhouse? || db.Snowflake? || db.Cassandra?
  }

  datatype DriverParams =
    | NoParams
    | Named(dict: map<string, Value>)
    | Positional(args: seq<Value>)

  const EMPTY_TEXT := Value("", None)

  function ValuesOf(names: seq<string>, params: map<string, Value>): (vals: seq<Value>)
    ensures |vals| == |names|
  {
    seq(|names|, i requires 0 <= i < |names| => Get(params, names[i], EMPTY_TEXT))
  }

  lemma {:induction false} NamesCover(ts: seq<Token>)
    ensures Covers(NamesOf(ts), ts)
  {
    NamesByFirstUse(ts);
    forall i | 0 <= i < |ts| && ts[i].Ref? ensures ts[i].name in NamesOf(ts) {
      assert Ref(ts[i].name) == ts[i];
    }
  }

  /** The converted text and the driver's arguments, branch by branch. */
  function Substituted(sql: string, params: map<string, Value>, db: DbType, u: set<char>,
          w: set<char>): (string, DriverParams) {
    if params == map[] then (sql, NoParams)
    else match db
      case Mssql =>
        var i := InlineTop(sql, params, u, w);
        (Converted(i.text, u), if i.remaining == map[] then NoParams else Named(i.remaining))
      case Mysql => (Converted(sql, u), Named(params))
      case Clickhouse => (Converted(sql, u), Named(params))
      case Snowflake => (Converted(sql, u), Named(params))
      case Cassandra => (Converted(sql, u), Named(params))
      case Bigquery => (BqText(Tokens(sql, u)), Named(params))
      case OtherDb(_) => (sql, Named(params))
      case _ =>
        var ts := Tokens(sql, u);
        NamesCover(ts);
        (PgText(ts, NamesOf(ts)), Positional(ValuesOf(NamesOf(ts), params)))
  }

  lemma {:induction false} CoversAppend(ts: seq<Token>, t: Token, names: seq<string>)
    requires Covers(names, ts) && (t.Ref? ==> t.name in names)
    ensures Covers(names, ts + [t])
  {
  }

  lemma {:induction false} PgTextCons(t: Token, ts: seq<Token>, names: seq<string>)
    requires Covers(names, ts) && (t.Ref? ==> t.name in names)
    ensures Covers(names, [t] + ts)
    ensures PgText([t] + ts, names) == Numbered(t, names) + PgText(ts, names)
  {
    assert ([t] + ts)[1..] == ts;
  }

  lemma {:induction false} PgTextAppend(ts: seq<Token>, t: Token, names: seq<string>)
    requires Covers(names, ts) && (t.Ref? ==> t.name in names)
    ensures Covers(names, ts + [t])
    ensures PgText(ts + [t], names) == PgText(ts, names) + Numbered(t, names)
  {
    CoversAppend(ts, t, names);
    if ts == [] {
      assert [] + [t] == [t] + [];
      PgTextCons(t, [], names);
    } else {
      var tail := ts[1..];
      PgTextAppend(tail, t, names);
      assert ts == [ts[0]] + tail && ts + [t] == [ts[0]] + (tail + [t]);
      PgTextCons(ts[0], tail, names);
      PgTextCons(ts[0], tail + [t], names);
      assert Numbered(ts[0], names) + (PgText(tail, names) + Numbered(t, names))
          == (Numbered(ts[0], names) + PgText(tail, names)) + Numbered(t, names);
    }
  }

  lemma {:induction false} IndexStable(names: seq<string>, n: string, m: string)
    requires n in names
    ensures IndexOf(names + [m], n) == IndexOf(names, n)
  {
    if names[0] != n {
      assert (names + [m])[1..] == names[1..] + [m];
      IndexStable(names[1..], n, m);
    }
  }

  lemma {:induction false} CoversMore(ts: seq<Token>, names: seq<string>, m: string)
    requires Covers(names, ts)
    ensures Covers(names + [m], ts)
  {
    forall i | 0 <= i < |ts| && ts[i].Ref? ensures ts[i].name in names + [m] {
      assert ts[i].name in names;
    }
  }

  lemma {:induction false} NumberedStable(t: Token, names: seq<string>, m: string)
    requires t.Ref? ==> t.name in names
    ensures t.Ref? ==> t.name in names + [m]
    ensures Numbered(t, names + [m]) == Numbered(t, names)
  {
    if t.Ref? { IndexStable(names, t.name, m); }
  }

  lemma {:induction false} PgTextStable(ts: seq<Token>, names: seq<string>, m: string)
    requires Covers(names, ts)
    ensures Covers(names + [m], ts)
    ensures PgText(ts, names + [m]) == PgText(ts, names)
  {
    CoversMore(ts, names, m);
    if ts != [] {
      PgTextStable(ts[1..], names, m);
      NumberedStable(ts[0], names, m);
    }
  }

  /** Everything the loop of the PostgreSQL branch keeps true after the tokens `done`. */
  ghost predicate PgProgress(done: seq<Token>, converted: string, names: seq<string>) {
    names == NamesOf(done) && Covers(names, done) && converted == PgText(done, names)
  }

  lemma {:induction false} PgProgressStep(done: seq<Token>, t: Token, converted: string, names: seq<string>)
    requires PgProgress(done, converted, names)
    ensures var names' := Extend(names, t);
            && (t.Ref? ==> t.name in names')
            && PgProgress(done + [t], converted + Numbered(t, names'), names')
  {
    var names' := Extend(names, t);
    assert (done + [t])[..|done|] == done;
    if names' != names {
      PgTextStable(done, names, t.name);
    }
    PgTextAppend(done, t, names');
  }

  lemma {:induction false} AppendHead(done: seq<Token>, t: Token, tail: seq<Token>)
    ensures done + ([t] + tail) == (done + [t]) + tail
  {
  }

  /** The PostgreSQL branch: one pass over the text, numbering each name when the
      callback first meets it. */
  method ConvertPg(sql: string, u: set<char>) returns (converted: string, names: seq<string>)
    ensures names == NamesOf(Tokens(sql, u))
    ensures Covers(names, Tokens(sql, u))
    ensures converted == PgText(Tokens(sql, u), names)
  {
    converted, names := "", [];
    var rest, blocked := sql, false;
    ghost var done: seq<Token> := [];
    while rest != ""
      invariant Tokens(sql, u) == done + Scan(blocked, rest, u)
      invariant PgProgress(done, converted, names)
      decreases |rest|
    {
      ghost var t, before := Lit(rest[0]), names;
      var piece;
      if !blocked && rest[0] == ':' && |rest| > 1 && IsWord(rest[1], u) {
        var name := WordRun(rest[1..], u);
        t := Ref(name);
        if name !in names {
          names := names + [name];
        }
        piece := "$" + Dec(IndexOf(names, name) + 1);
        rest, blocked := rest[1 + |name|..], true;
      } else {
        piece := [rest[0]];
        rest, blocked := rest[1..], Blocks(rest[0], u);
      }
      PgProgressStep(done, t, converted, before);
      AppendHead(done, t, Scan(blocked, rest, u));
      converted, done := converted + piece, done + [t];
    }
    assert done + [] == done;
  }

  lemma {:induction false} BeforeBefore(p: string, q: string, i: Inlined)
    ensures Before(p, Before(q, i)) == Before(p + q, i)
  {
    assert p + (q + i.text) == (p + q) + i.text;
  }

  /** A match at the front is the first segment. */
  lemma {:induction false} TopFirst(s: string, u: set<char>, w: set<char>)
    requires s != "" && TopAt(s, u, w).Match?
    ensures var m := TopAt(s, u, w);
            Segments(false, s, u, w) == [Top(s[..m.len], m.name)] + Segments(IsWord(s[m.len - 1], u), s[m.len..], u, w)
  {
  }

  lemma {:induction false} PlainFirst(afterWord: bool, s: string, u: set<char>, w: set<char>)
    requires s != "" && (afterWord || TopAt(s, u, w).NoMatch?)
    ensures Segments(afterWord, s, u, w) == [Plain(s[0])] + Segments(IsWord(s[0], u), s[1..], u, w)
  {
  }

  lemma {:induction false} InlineTopStep(g: Segment, rest: seq<Segment>, remaining: map<string, Value>,
                                         text: string, piece: string, left: map<string, Value>)
    requires match g
             case Plain(c) => piece == [c] && left == remaining
             case Top(t, n) =>
               && piece == (if n in remaining then TopText(remaining[n]) else t)
               && left == (if n in remaining then remaining - {n} else remaining)
    ensures Before(text, Inline([g] + rest, remaining)) == Before(text + piece, Inline(rest, left))
  {
    var tail := Inline(rest, left);
    assert ([g] + rest)[1..] == rest;
    assert Inline([g] + rest, remaining) == Before(piece, tail);
    BeforeBefore(text, piece, tail);
  }

  ghost predicate PieceDone(text: string, afterWord: bool, rest: string, remaining: map<string, Value>,
                            piece: string, len: nat, left: map<string, Value>, u: set<char>, w: set<char>) {
    && 1 <= len <= |rest|
    && Before(text, Inline(Segments(afterWord, rest, u, w), remaining))
       == Before(text + piece, Inline(Segments(IsWord(rest[len - 1], u), rest[len..], u, w), left))
  }

  lemma {:induction false} PlainPiece(text: string, afterWord: bool, rest: string, remaining: map<string, Value>,
                                      u: set<char>, w: set<char>)
    requires rest != "" && (afterWord || TopAt(rest, u, w).NoMatch?)
    ensures PieceDone(text, afterWord, rest, remaining, [rest[0]], 1, remaining, u, w)
  {
    PlainFirst(afterWord, rest, u, w);
    InlineTopStep(Plain(rest[0]), Segments(IsWord(rest[0], u), rest[1..], u, w), remaining, text, [rest[0]], remaining);
  }

  lemma {:induction false} TopPiece(text: string, rest: string, remaining: map<string, Value>,
                                    len: nat, n: string, u: set<char>, w: set<char>)
    requires rest != "" && TopAt(rest, u, w) == Match(len, n)
    ensures len <= |rest|
    ensures if n in remaining
            then PieceDone(text, false, rest, remaining, TopText(remaining[n]), len, remaining - {n}, u, w)
            else PieceDone(text, false, rest, remaining, rest[..len], len, remaining, u, w)
  {
    TopFirst(rest, u, w);
    var tail := Segments(IsWord(rest[len - 1], u), rest[len..], u, w);
    if n in remaining {
      InlineTopStep(Top(rest[..len], n), tail, remaining, text, TopText(remaining[n]), remaining - {n});
    } else {
      InlineTopStep(Top(rest[..len], n), tail, remaining, text, rest[..len], remaining);
    }
  }

  /** The replacement for what comes next, and the parameters that are left after it. */
  method NextPiece(afterWord: bool, rest: string, remaining: map<string, Value>, u: set<char>, w: set<char>,
                   ghost text: string)
    returns (piece: string, len: nat, left: map<string, Value>)
    requires rest != ""
    ensures PieceDone(text, afterWord, rest, remaining, piece, len, left, u, w)
  {
    var m := if afterWord then NoMatch else TopAt(rest, u, w);
    match m {
      case NoMatch =>
        PlainPiece(text, afterWord, rest, remaining, u, w);
        piece, len, left := [rest[0]], 1, remaining;
      case Match(l, n) =>
        TopPiece(text, rest, remaining, l, n, u, w);
        if n in remaining {
          piece, len, left := TopText(remaining[n]), l, remaining - {n};
        } else {
          piece, len, left := rest[..l], l, remaining;
        }
    }
  }

  /** The `TOP` pass of the SQL Server branch, popping used names from `remaining`. */
  method InlineTopParams(sql: string, params: map<string, Value>, u: set<char>, w: set<char>)
    returns (text: string, remaining: map<string, Value>)
    ensures Inlined(text, remaining) == InlineTop(sql, params, u, w)
  {
    text, remaining := "", params;
    var rest, afterWord := sql, false;
    while rest != ""
      invariant InlineTop(sql, params, u, w)
             == Before(text, Inline(Segments(afterWord, rest, u, w), remaining))
      decreases |rest|
    {
      var piece, len, left := NextPiece(afterWord, rest, remaining, u, w, text);
      text, remaining, rest, afterWord := text + piece, left, rest[len..], IsWord(rest[len - 1], u);
    }
  }

  /** `_substitute_params` */
  method SubstituteParams(sql: string, params: map<string, Value>, db: DbType, u: set<char>, w: set<char>)
    returns (text: string, driverParams: DriverParams)
    ensures (text, driverParams) == Substituted(sql, params, db, u, w)
  {
    if params == map[] {
      return sql, NoParams;
    }
    match db {
      case Mssql =>
        var inlined, remaining := InlineTopParams(sql, params, u, w);
        text := Converted(inlined, u);
        driverParams := if remaining == map[] then NoParams else Named(remaining);
      case Postgresql =>
        var names;
        text, names := ConvertPg(sql, u);
        driverParams := Positional(ValuesOf(names, params));
      case Greenplum =>
        var names;
        text, names := ConvertPg(sql, u);
        driverParams := Positional(ValuesOf(names, params));
      case Supabase =>
        var names;
        text, names := ConvertPg(sql, u);
        driverParams := Positional(ValuesOf(names, params));
      case Bigquery =>
        text, driverParams := BqText(Tokens(sql, u)), Named(params);
      case OtherDb(_) =>
        text, driverParams := sql, Named(params);
      case _ =>
        text, driverParams := Converted(sql, u), Named(params);
    }
  }

  /** What the driver of each dialect sends: without parameters the text goes out as it is. */
  function Executed(text: string, p: DriverParams, db: DbType, u: set<char>): Bound {
    if PgCompatible(db) then PgBind(false, text, if p.Positional? then p.args else [])
    else if db.Bigquery? then BqBind(text, if p.Named? then p.dict else map[], u)
    else match p
      case Named(dict) => PyFormat(text, dict)
      case _ => Ok(Chars(text))
  }

  /** The pieces a query is meant to become. */
  function Meaning(sql: string, params: map<string, Value>, u: set<char>): Bound {
    Bind(Tokens(sql, u), params)
  }

  predicate HasPlaceholder(sql: string, u: set<char>) {
    exists i :: 0 <= i < |sql| && MatchesAt(sql, i, u)
  }

  predicate AllLits(ts: seq<Token>) {
    forall i :: 0 <= i < |ts| ==> ts[i].Lit?
  }

  lemma {:induction false} RefStartsIn(ts: seq<Token>, at: nat)
    ensures RefStarts(ts, at) == {} <==> AllLits(ts)
  {
    if ts != [] {
      RefStartsIn(ts[1..], at + |TokenText(ts[0])|);
      if ts[0].Ref? { assert at in RefStarts(ts, at); }
      assert AllLits(ts) <==> ts[0].Lit? && AllLits(ts[1..]) by {
        if ts[0].Lit? && AllLits(ts[1..]) {
          forall i | 0 <= i < |ts| ensures ts[i].Lit? {
            if i > 0 { assert ts[1..][i - 1] == ts[i]; }
          }
        }
      }
    }
  }

  lemma {:induction false} PlaceholderTokens(sql: string, u: set<char>)
    ensures HasPlaceholder(sql, u) <==> !AllLits(Tokens(sql, u))
  {
    ScanFindsEveryMatch(sql, u);
    RefStartsIn(Tokens(sql, u), 0);
    var starts := set i | 0 <= i < |sql| && MatchesAt(sql, i, u);
    if HasPlaceholder(sql, u) {
      var i :| 0 <= i < |sql| && MatchesAt(sql, i, u);
      assert i in starts;
    } else {
      assert starts == {};
    }
  }

  lemma {:induction false} BindOfLits(ts: seq<Token>, params: map<string, Value>)
    ensures AllLits(ts) ==> Bind(ts, params) == Ok(Chars(Source(ts)))
    ensures !AllLits(ts) && Bind(ts, params).Ok? ==>
              exists i :: 0 <= i < |Bind(ts, params).value| && Bind(ts, params).value[i].Val?
    ensures Bind(ts, params).Ok? ==> |Bind(ts, params).value| == |ts|
    ensures Bind(ts, map[]).Ok? <==> AllLits(ts)
  {
    if ts != [] {
      BindOfLits(ts[1..], params);
      var r := Bind(ts, params);
      match ts[0]
      case Lit(c) =>
        assert Source(ts) == [c] + Source(ts[1..]);
        assert AllLits(ts) ==> AllLits(ts[1..]);
        if AllLits(ts[1..]) {
          forall i | 0 <= i < |ts| ensures ts[i].Lit? {
            if i > 0 { assert ts[1..][i - 1] == ts[i]; }
          }
        } else if r.Ok? {
          var tail := Bind(ts[1..], params).value;
          var i :| 0 <= i < |tail| && tail[i].Val?;
          assert r.value[i + 1].Val?;
        }
      case Ref(_) =>
        assert r.Ok? ==> r.value[0].Val?;
    }
  }

  lemma {:induction false} CharsAreChars(s: string)
    ensures |Chars(s)| == |s| && forall i :: 0 <= i < |s| ==> Chars(s)[i] == Ch(s[i])
  {
    if s != "" { CharsAreChars(s[1..]); }
  }

  /** MySQL, ClickHouse, Snowflake and Cassandra: the executed query is the reference
      one exactly when there are parameters, or nothing to substitute. */
  lemma {:induction false} PyformatDialects(sql: string, params: map<string, Value>, db: DbType, u: set<char>,
          w: set<char>)
    requires Pyformat(db)
    ensures var (text, p) := Substituted(sql, params, db, u, w);
            Executed(text, p, db, u) == Meaning(sql, params, u)
            <==> (params != map[] || !HasPlaceholder(sql, u))
  {
    PlaceholderTokens(sql, u);
    ScanKeepsText(false, sql, u);
    BindOfLits(Tokens(sql, u), params);
    if params != map[] {
      ConvertedFormatsToBind(sql, params, u);
    }
  }

  /** The reference of the PostgreSQL family, where a missing value is the empty text. */
  function BindOrEmpty(ts: seq<Token>, params: map<string, Value>): seq<Piece> {
    if ts == [] then []
    else
      [match ts[0] case Lit(c) => Ch(c) case Ref(n) => Val(Get(params, n, EMPTY_TEXT))]
      + BindOrEmpty(ts[1..], params)
  }

  lemma {:induction false} FillIsBindOrEmpty(ts: seq<Token>, names: seq<string>, params: map<string, Value>)
    requires Covers(names, ts)
    ensures Fill(ts, names, ValuesOf(names, params)) == BindOrEmpty(ts, params)
  {
    if ts != [] { FillIsBindOrEmpty(ts[1..], names, params); }
  }

  /** Without a parameter the text goes out as it is, and nothing is put anywhere. */
  lemma {:induction false} PgUnconverted(ts: seq<Token>, sql: string, u: set<char>)
    requires ts == Tokens(sql, u)
    ensures PgBind(false, sql, []) == Ok(BindOrEmpty(ts, map[])) <==> AllLits(ts) && !Clash(false, ts)
  {
    ScanKeepsText(false, sql, u);
    ScanWellScanned(false, sql, u);
    if AllLits(ts) {
      PgTextOfLits(ts);
      PgBindOfText(false, ts, [], [], u);
      FillIsBindOrEmpty(ts, [], map[]);
      assert ValuesOf([], map[]) == [];
    } else {
      PgBindNoValues(false, sql);
      BindOrEmptyHasValue(ts, map[]);
    }
  }

  lemma {:induction false} PgTextOfLits(ts: seq<Token>)
    requires AllLits(ts)
    ensures Covers([], ts) && PgText(ts, []) == Source(ts)
  {
    if ts != [] {
      assert forall i :: 0 <= i < |ts| - 1 ==> ts[1..][i] == ts[i + 1];
      PgTextOfLits(ts[1..]);
    }
  }

  lemma {:induction false} BindOrEmptyHasValue(ts: seq<Token>, params: map<string, Value>)
    ensures |BindOrEmpty(ts, params)| == |ts|
    ensures forall i :: 0 <= i < |ts| ==> (BindOrEmpty(ts, params)[i].Val? <==> ts[i].Ref?)
  {
    if ts != [] { BindOrEmptyHasValue(ts[1..], params); }
  }

  /** The PostgreSQL family: the server binds the reference query exactly when nothing in
      the source clashes with the numbers, and there is a parameter or no placeholder. */
  lemma {:induction false} PostgresqlDialects(sql: string, params: map<string, Value>, db: DbType,
          u: set<char>, w: set<char>)
    requires PgCompatible(db)
    ensures var (text, p) := Substituted(sql, params, db, u, w);
            Executed(text, p, db, u) == Ok(BindOrEmpty(Tokens(sql, u), params))
            <==> !Clash(false, Tokens(sql, u)) && (params != map[] || !HasPlaceholder(sql, u))
  {
    var ts := Tokens(sql, u);
    PlaceholderTokens(sql, u);
    if params == map[] {
      PgUnconverted(ts, sql, u);
    } else {
      var names := NamesOf(ts);
      NamesCover(ts);
      ScanWellScanned(false, sql, u);
      PgBindOfText(false, ts, names, ValuesOf(names, params), u);
      FillIsBindOrEmpty(ts, names, params);
    }
  }

  /** A clash needs a `$digit` in the source, or a placeholder directly after a dollar sign
      or a character outside ASCII. */
  lemma {:induction false} ClashNeeds(sql: string, u: set<char>)
    requires Clash(false, Tokens(sql, u))
    ensures DollarDigit(sql) || RefAfterIdent(Tokens(sql, u))
  {
    ClashReads(false, Tokens(sql, u));
    DollarDigitOfScan(false, sql, u);
  }

  /** Writing each `$k` back as its k-th name. */
  function Restored(b: Bound): Option<string> {
    match b
    case Err(_) => None
    case Ok(ps) => Some(PiecesText(ps))
  }

  function PiecesText(ps: seq<Piece>): string {
    if ps == [] then ""
    else (match ps[0] case Ch(c) => [c] case Val(v) => v.repr) + PiecesText(ps[1..])
  }

  function NameValues(names: seq<string>): (vals: seq<Value>)
    ensures |vals| == |names|
  {
    seq(|names|, i requires 0 <= i < |names| => Value(":" + names[i], None))
  }

  lemma {:induction false} FillWithNames(ts: seq<Token>, names: seq<string>)
    requires Covers(names, ts)
    ensures PiecesText(Fill(ts, names, NameValues(names))) == Source(ts)
  {
    if ts != [] {
      FillWithNames(ts[1..], names);
      var ps := Fill(ts, names, NameValues(names));
      assert ps[1..] == Fill(ts[1..], names, NameValues(names));
    }
  }

  /** Round trip: replacing every `$k` by the k-th name gives the original SQL back. */
  lemma {:induction false} PostgresqlRoundTrip(sql: string, u: set<char>)
    requires !Clash(false, Tokens(sql, u))
    ensures var names := NamesOf(Tokens(sql, u));
            && Covers(names, Tokens(sql, u))
            && Restored(PgBind(false, PgText(Tokens(sql, u), names), NameValues(names))) == Some(sql)
  {
    var ts := Tokens(sql, u);
    NamesCover(ts);
    ScanWellScanned(false, sql, u);
    ScanKeepsText(false, sql, u);
    PgBindOfText(false, ts, NamesOf(ts), NameValues(NamesOf(ts)), u);
    FillWithNames(ts, NamesOf(ts));
  }

  predicate AtWord(s: string, u: set<char>) {
    exists i :: 0 <= i < |s| - 1 && s[i] == '@' && IsWord(s[i + 1], u)
  }

  lemma {:induction false} AtWordSplit(s: string, k: nat, u: set<char>)
    requires 0 < k <= |s|
    requires forall i :: 0 <= i < k - 1 ==> !(s[i] == '@' && IsWord(s[i + 1], u))
    ensures AtWord(s, u)
         == ((s[k - 1] == '@' && k < |s| && IsWord(s[k], u)) || AtWord(s[k..], u))
  {
    if AtWord(s[k..], u) {
      var i :| 0 <= i < |s[k..]| - 1 && s[k..][i] == '@' && IsWord(s[k..][i + 1], u);
      assert s[i + k] == '@' && IsWord(s[i + k + 1], u);
    }
    if AtWord(s, u) {
      var i :| 0 <= i < |s| - 1 && s[i] == '@' && IsWord(s[i + 1], u);
      if i >= k {
        assert s[k..][i - k] == '@' && IsWord(s[k..][i - k + 1], u);
      }
    }
  }

  /** A placeholder holds no character that is neither a colon nor a word character. */
  lemma {:induction false} NameHasNo(s: string, n: string, c: char, u: set<char>)
    requires 1 + |n| <= |s| && s[0] == ':' && n == s[1..][..|n|] && AllWord(n, u) && c != ':' && !IsWord(c, u)
    ensures forall i :: 0 <= i < 1 + |n| ==> s[i] != c
  {
    forall i | 0 < i < 1 + |n| ensures s[i] != c {
      assert s[i] == n[i - 1];
    }
  }

  lemma {:induction false} AtWordOfScan(blocked: bool, s: string, u: set<char>)
    ensures AtWordTokens(Scan(blocked, s, u), u) == AtWord(s, u)
    decreases |s|
  {
    if s == "" {
    } else if !blocked && s[0] == ':' && |s| > 1 && IsWord(s[1], u) {
      var n := WordRun(s[1..], u);
      var k := 1 + |n|;
      AtWordOfScan(true, s[k..], u);
      AtWordStep(Ref(n), Scan(true, s[k..], u), u);
      NameHasNo(s, n, '@', u);
      AtWordSplit(s, k, u);
    } else {
      AtWordOfScan(Blocks(s[0], u), s[1..], u);
      AtWordStep(Lit(s[0]), Scan(Blocks(s[0], u), s[1..], u), u);
      AtWordSplit(s, 1, u);
    }
  }

  /** BigQuery: the executed query is the reference one, with every value in its place,
      exactly when every placeholder has a value and the source has no `@word` of its own. */
  lemma {:induction false} BigqueryDialect(sql: string, params: map<string, Value>, u: set<char>, w: set<char>)
    ensures var (text, p) := Substituted(sql, params, Bigquery, u, w);
            Executed(text, p, Bigquery, u) == Meaning(sql, params, u) && Meaning(sql, params, u).Ok?
            <==> AllGiven(Tokens(sql, u), params) && !AtWord(sql, u)
  {
    var ts := Tokens(sql, u);
    BindGiven(ts, params);
    ScanWellScanned(false, sql, u);
    ScanKeepsText(false, sql, u);
    AtWordOfScan(false, sql, u);
    if AllGiven(ts, params) {
      BqBindOfText(ts, params, u);
      if params == map[] {
        BindOfLits(ts, params);
        BqTextOfLits(ts);
      }
    }
  }

  lemma {:induction false} BqTextOfLits(ts: seq<Token>)
    requires AllLits(ts)
    ensures BqText(ts) == Source(ts)
  {
    if ts != [] {
      assert forall i :: 0 <= i < |ts| - 1 ==> ts[1..][i] == ts[i + 1];
      BqTextOfLits(ts[1..]);
    }
  }

  lemma {:induction false} BindRestricted(ts: seq<Token>, some: map<string, Value>, all: map<string, Value>)
    requires AllGiven(ts, all)
    requires some.Keys <= all.Keys && forall n :: n in some ==> some[n] == all[n]
    ensures Bind(ts, all).Ok?
    ensures Bind(ts, some) == Bind(ts, all) <==> AllGiven(ts, some)
  {
    if ts != [] {
      BindRestricted(ts[1..], some, all);
      assert AllGiven(ts, some) <==> (ts[0].Ref? ==> ts[0].name in some) && AllGiven(ts[1..], some) by {
        if (ts[0].Ref? ==> ts[0].name in some) && AllGiven(ts[1..], some) {
          forall i | 0 <= i < |ts| && ts[i].Ref? ensures ts[i].name in some {
            if i > 0 { assert ts[1..][i - 1] == ts[i]; }
          }
        }
      }
      match ts[0]
      case Lit(c) => ThenIs(Ch(c), Bind(ts[1..], some), Bind(ts[1..], all).value);
      case Ref(n) => if n in some { ThenIs(Val(all[n]), Bind(ts[1..], some), Bind(ts[1..], all).value); }
    }
  }

  lemma {:induction false} PlainCons(t: Token, ts: seq<Token>)
    ensures AllLits([t] + ts) && Lit('%') !in [t] + ts <==> t.Lit? && t != Lit('%') && AllLits(ts) && Lit('%') !in ts
  {
    var all := [t] + ts;
    assert all[0] == t && forall i :: 0 <= i < |ts| ==> all[i + 1] == ts[i];
    if t.Lit? && AllLits(ts) {
      forall i | 0 <= i < |all| ensures all[i].Lit? {
        if i > 0 { assert all[i] == ts[i - 1]; }
      }
    }
  }

  function ConvertedToken(t: Token): string {
    match t
    case Lit(c) => if c == '%' then "%%" else [c]
    case Ref(n) => "%(" + n + ")s"
  }

  lemma {:induction false} TwoPercents(ds: seq<Token>)
    ensures ToPyformat([Lit('%'), Lit('%')] + ds) == "%%" + ToPyformat(ds)
  {
    assert [Lit('%'), Lit('%')] + ds == [Lit('%')] + ([Lit('%')] + ds);
    ToPyformatCons(Lit('%'), [Lit('%')] + ds);
    ToPyformatCons(Lit('%'), ds);
    assert "%" + ("%" + ToPyformat(ds)) == "%%" + ToPyformat(ds);
  }

  lemma {:induction false} ConvertedCons(t: Token, ts: seq<Token>)
    ensures var rest := ToPyformat(DoublePercent(ts));
            ToPyformat(DoublePercent([t] + ts)) == ConvertedToken(t) + rest
  {
    var ds := DoublePercent(ts);
    DoubleCons(t, ts);
    if t == Lit('%') {
      TwoPercents(ds);
    } else {
      ToPyformatCons(t, ds);
    }
  }

  lemma {:induction false} ConvertedLength(ts: seq<Token>)
    ensures var n := |ToPyformat(DoublePercent(ts))|;
            && n >= |ts|
            && (n == |ts| <==> AllLits(ts) && Lit('%') !in ts)
    ensures AllLits(ts) && Lit('%') !in ts ==> ToPyformat(DoublePercent(ts)) == Source(ts)
  {
    if ts != [] {
      ConvertedLength(ts[1..]);
      PlainCons(ts[0], ts[1..]);
      ConvertedCons(ts[0], ts[1..]);
      assert ts == [ts[0]] + ts[1..];
    }
  }

  lemma {:induction false} PercentOfScan(blocked: bool, s: string, u: set<char>)
    ensures Lit('%') in Scan(blocked, s, u) <==> '%' in s
    decreases |s|
  {
    if s == "" {
    } else if !blocked && s[0] == ':' && |s| > 1 && IsWord(s[1], u) {
      var n := WordRun(s[1..], u);
      PercentOfScan(true, s[1 + |n|..], u);
      NameHasNo(s, n, '%', u);
      assert s == s[..1 + |n|] + s[1 + |n|..];
    } else {
      PercentOfScan(Blocks(s[0], u), s[1..], u);
      assert s == [s[0]] + s[1..];
    }
  }

  /** What the SQL Server driver is given for what its `TOP` pass leaves. */
  function MssqlExecuted(i: Inlined, u: set<char>): Bound {
    Executed(Converted(i.text, u), if i.remaining == map[] then NoParams else Named(i.remaining), Mssql, u)
  }

  /** SQL Server after its `TOP` pass: with a value for every placeholder of the inlined
      text, that text is bound exactly when no `TOP` parameter is used again, and either
      some parameter is left to bind or the text has no percent sign. */
  lemma {:induction false} MssqlOfInlined(i: Inlined, params: map<string, Value>, u: set<char>)
    requires i.remaining.Keys <= params.Keys && forall n :: n in i.remaining ==> i.remaining[n] == params[n]
    requires AllGiven(Tokens(i.text, u), params)
    ensures MssqlExecuted(i, u) == Meaning(i.text, params, u)
            <==> (AllGiven(Tokens(i.text, u), i.remaining)
                  && (i.remaining != map[] || '%' !in i.text))
  {
    var ts := Tokens(i.text, u);
    BindRestricted(ts, i.remaining, params);
    if i.remaining != map[] {
      ConvertedFormatsToBind(i.text, i.remaining, u);
    } else {
      ScanOfEscape(false, i.text, u);
      ConvertedLength(ts);
      CharsAreChars(Converted(i.text, u));
      BindOfLits(ts, params);
      PercentOfScan(false, i.text, u);
    }
  }
}
