/** The preview from end to end: the row limit is added first, and then the placeholders are
    substituted. What is executed is the limited query with every value in its place under
    the same conditions on the original query as without the limit. */
module SqlPipeline {
  import opened Prelude
  import opened SqlScan
  import opened SqlPyformat
  import opened SqlPositional
  import opened SqlTop
  import opened SqlPreview
  import opened SqlMssql
  import opened SqlLimit

  // ---- what the limit stage takes off and puts on ----

  /** Text that can be taken off or put on behind a query. */
  ghost predicate Harmless(p: string, u: set<char>) {
    && (forall i :: 0 <= i < |p| ==> p[i] != ':' && p[i] != '$' && p[i] != '@')
    && (p != "" ==> !IsWord(p[0], u))
  }

  lemma {:induction false} TrimmedShape(sql: string, u: set<char>, w: set<char>) returns (r: string)
    requires u !! w
    ensures sql == Trimmed(sql, w) + r && Harmless(r, u)
  {
    var a := StripSpaces(sql, w);
    var b := StripSemicolons(a);
    r := sql[|b|..];
    assert forall i :: |b| <= i < |sql| ==> IsSpace(sql[i], w) || sql[i] == ';';
  }

  lemma {:induction false} LimitShape(sql: string, limit: nat, u: set<char>, w: set<char>)
    returns (t: string, r: string, x: string)
    requires u !! w
    ensures sql == t + r && EnsureLimit(sql, limit, false, u, w) == t + x && Harmless(r, u) && Harmless(x, u)
  {
    if HasWord(sql, "LIMIT", u) {
      t, r, x := sql, "", "";
    } else {
      t := Trimmed(sql, w);
      r := TrimmedShape(sql, u, w);
      x := " LIMIT " + Dec(limit);
      assert AllDigits(Dec(limit));
    }
  }

  lemma {:induction false} ScanOfBoth(t: string, r: string, x: string, u: set<char>)
    requires Harmless(r, u) && Harmless(x, u)
    ensures Tokens(t + r, u) == Tokens(t, u) + Lits(r) && Tokens(t + x, u) == Tokens(t, u) + Lits(x)
  {
    ScanBeforeSuffix(false, t, r, u);
    ScanBeforeSuffix(false, t, x, u);
  }

  // ---- the conditions do not see it ----

  lemma {:induction false} ClashOfLits(ident: bool, p: string, u: set<char>)
    requires forall i :: 0 <= i < |p| ==> p[i] != '$'
    ensures !Clash(ident, Lits(p))
    decreases |p|
  {
    if p != "" {
      assert Lits(p)[1..] == Lits(p[1..]);
      ClashOfLits(InIdent(ident, p[0]), p[1..], u);
    }
  }

  lemma {:induction false} ClashBefore(ident: bool, ts: seq<Token>, p: string, u: set<char>)
    requires Harmless(p, u)
    ensures Clash(ident, ts + Lits(p)) <==> Clash(ident, ts)
    decreases |ts|
  {
    if ts == [] {
      assert ts + Lits(p) == Lits(p);
      ClashOfLits(ident, p, u);
    } else {
      var all := ts + Lits(p);
      assert all[0] == ts[0] && all[1..] == ts[1..] + Lits(p);
      match ts[0]
      case Ref(_) => ClashBefore(false, ts[1..], p, u);
      case Lit(c) => ClashBefore(InIdent(ident, c), ts[1..], p, u);
    }
  }

  lemma {:induction false} AtWordBefore(ts: seq<Token>, p: string, u: set<char>)
    requires Harmless(p, u)
    ensures AtWordTokens(ts + Lits(p), u) <==> AtWordTokens(ts, u)
  {
    var all := ts + Lits(p);
    if AtWordTokens(all, u) {
      var i :| 0 <= i < |all| - 1 && all[i] == Lit('@') && all[i + 1].Lit? && IsWord(all[i + 1].c, u);
      assert i < |ts| && i + 1 < |ts|;
      assert ts[i] == all[i] && ts[i + 1] == all[i + 1];
    }
    if AtWordTokens(ts, u) {
      var i :| 0 <= i < |ts| - 1 && ts[i] == Lit('@') && ts[i + 1].Lit? && IsWord(ts[i + 1].c, u);
      assert all[i] == ts[i] && all[i + 1] == ts[i + 1];
    }
  }

  lemma {:induction false} RefsDecide(ts: seq<Token>, params: map<string, Value>)
    ensures AllLits(ts) <==> Refs(ts) == []
    ensures AllGiven(ts, params) <==> forall n :: n in Refs(ts) ==> n in params
  {
    if ts != [] {
      RefsDecide(ts[1..], params);
      GivenCons(ts[0], ts[1..], params);
      assert ts == [ts[0]] + ts[1..];
      assert AllLits(ts) <==> ts[0].Lit? && AllLits(ts[1..]) by {
        assert forall i :: 0 <= i < |ts| - 1 ==> ts[1..][i] == ts[i + 1];
        assert forall i :: 0 < i < |ts| ==> ts[i] == ts[1..][i - 1];
      }
    }
  }

  /** The limited query has a placeholder, and a value for each, if the original has. */
  lemma {:induction false} SamePlaceholders(sql: string, limit: nat, mssql: bool, params: map<string, Value>,
          u: set<char>, w: set<char>)
    requires u !! w
    ensures var limited := EnsureLimit(sql, limit, mssql, u, w);
            && (HasPlaceholder(limited, u) <==> HasPlaceholder(sql, u))
            && (AllGiven(Tokens(limited, u), params) <==> AllGiven(Tokens(sql, u), params))
  {
    var limited := EnsureLimit(sql, limit, mssql, u, w);
    LimitKeepsPlaceholders(sql, limit, mssql, u, w);
    RefsDecide(Tokens(limited, u), params);
    RefsDecide(Tokens(sql, u), params);
    PlaceholderTokens(limited, u);
    PlaceholderTokens(sql, u);
  }

  lemma {:induction false} SameClashes(sql: string, limit: nat, u: set<char>, w: set<char>)
    requires u !! w
    ensures var limited := EnsureLimit(sql, limit, false, u, w);
            && (Clash(false, Tokens(limited, u)) <==> Clash(false, Tokens(sql, u)))
            && (AtWord(limited, u) <==> AtWord(sql, u))
  {
    var t, r, x := LimitShape(sql, limit, u, w);
    ScanOfBoth(t, r, x, u);
    ClashBefore(false, Tokens(t, u), r, u);
    ClashBefore(false, Tokens(t, u), x, u);
    AtWordBefore(Tokens(t, u), r, u);
    AtWordBefore(Tokens(t, u), x, u);
    AtWordOfScan(false, t + r, u);
    AtWordOfScan(false, t + x, u);
  }

  // ---- the dialects ----

  /** What the driver of the dialect sends for the query with its limit. */
  function Previewed(sql: string, params: map<string, Value>, db: DbType, limit: nat, u: set<char>,
          w: set<char>): Bound
  {
    var (text, p) := Substituted(EnsureLimit(sql, limit, db.Mssql?, u, w), params, db, u, w);
    Executed(text, p, db, u)
  }

  /** MySQL, ClickHouse, Snowflake and Cassandra. */
  lemma {:induction false} PyformatPreview(sql: string, params: map<string, Value>, db: DbType, limit: nat,
          u: set<char>, w: set<char>)
    returns (limited: string)
    requires u !! w && Pyformat(db)
    ensures LimitAsked(sql, limit, limited, u, w)
    ensures Previewed(sql, params, db, limit, u, w) == Meaning(limited, params, u)
       <==> params != map[] || !HasPlaceholder(sql, u)
  {
    limited := EnsureLimit(sql, limit, false, u, w);
    LimitIsWritten(sql, limit, u, w);
    SamePlaceholders(sql, limit, false, params, u, w);
    PyformatDialects(limited, params, db, u, w);
  }

  /** PostgreSQL, Greenplum and Supabase. */
  lemma {:induction false} PostgresqlPreview(sql: string, params: map<string, Value>, db: DbType, limit: nat,
          u: set<char>, w: set<char>)
    returns (limited: string)
    requires u !! w && PgCompatible(db)
    ensures LimitAsked(sql, limit, limited, u, w)
    ensures Previewed(sql, params, db, limit, u, w) == Ok(BindOrEmpty(Tokens(limited, u), params))
       <==> !Clash(false, Tokens(sql, u)) && (params != map[] || !HasPlaceholder(sql, u))
  {
    limited := EnsureLimit(sql, limit, false, u, w);
    LimitIsWritten(sql, limit, u, w);
    SamePlaceholders(sql, limit, false, params, u, w);
    SameClashes(sql, limit, u, w);
    PostgresqlDialects(limited, params, db, u, w);
  }

  lemma {:induction false} BigqueryPreview(sql: string, params: map<string, Value>, limit: nat,
          u: set<char>, w: set<char>)
    returns (limited: string)
    requires u !! w
    ensures LimitAsked(sql, limit, limited, u, w)
    ensures var meant := Meaning(limited, params, u);
            Previewed(sql, params, Bigquery, limit, u, w) == meant && meant.Ok?
            <==> AllGiven(Tokens(sql, u), params) && !AtWord(sql, u)
  {
    limited := EnsureLimit(sql, limit, false, u, w);
    LimitIsWritten(sql, limit, u, w);
    SamePlaceholders(sql, limit, false, params, u, w);
    SameClashes(sql, limit, u, w);
    BigqueryDialect(limited, params, u, w);
  }

  // ---- SQL Server ----

  predicate BoundaryAt(afterWord: bool, s: string, i: nat, u: set<char>)
    requires i < |s|
  {
    if i == 0 then !afterWord else !IsWord(s[i - 1], u)
  }

  ghost predicate NoTop(afterWord: bool, s: string, u: set<char>, w: set<char>) {
    forall i :: 0 <= i < |s| && BoundaryAt(afterWord, s, i, u) ==> TopAt(s[i..], u, w).NoMatch?
  }

  lemma {:induction false} NoTopTail(afterWord: bool, s: string, u: set<char>, w: set<char>)
    requires s != "" && NoTop(afterWord, s, u, w)
    ensures afterWord || TopAt(s, u, w).NoMatch?
    ensures NoTop(IsWord(s[0], u), s[1..], u, w)
  {
    assert s[0..] == s;
    assert !afterWord ==> BoundaryAt(afterWord, s, 0, u);
    forall i | 0 <= i < |s| - 1 && BoundaryAt(IsWord(s[0], u), s[1..], i, u)
      ensures TopAt(s[1..][i..], u, w).NoMatch?
    {
      assert BoundaryAt(afterWord, s, i + 1, u) && s[1..][i..] == s[i + 1..];
    }
  }

  /** Without a match anywhere the whole text is plain. */
  lemma {:induction false} AllPlain(afterWord: bool, s: string, u: set<char>, w: set<char>)
    requires NoTop(afterWord, s, u, w)
    ensures Segments(afterWord, s, u, w) == Plains(s)
    decreases |s|
  {
    if s != "" {
      NoTopTail(afterWord, s, u, w);
      AllPlain(IsWord(s[0], u), s[1..], u, w);
      PlainFirst(afterWord, s, u, w);
    }
  }

  lemma {:induction false} PlainNames(s: string, params: map<string, Value>)
    ensures Names(Plains(s)) == [] && InlineEvery(Plains(s), params) == s
  {
    var none: seq<Segment> := [];
    PlainRun(s, none, params);
    assert Plains(s) + none == Plains(s) && s + "" == s;
  }

  /** A match is the word `TOP`, and something follows it. */
  lemma {:induction false} MatchIsWord(s: string, i: nat, u: set<char>, w: set<char>)
    requires u !! w && i < |s| && BoundaryAt(false, s, i, u) && TopAt(s[i..], u, w).Match?
    ensures i + 4 < |s| && WordAt(s, i, "TOP", u) && AfterLetters(s[i + 3], w)
  {
    var t := s[i..];
    MatchShape(t, u, w);
    var m := t[..TopAt(t, u, w).len];
    assert m[0] == s[i] && m[1] == s[i + 1] && m[2] == s[i + 2] && m[3] == s[i + 3];
    assert "TOP"[0] == 'T' && "TOP"[1] == 'O' && "TOP"[2] == 'P';
  }

  lemma {:induction false} NoWordNoTop(s: string, u: set<char>, w: set<char>)
    requires u !! w && !HasWord(s, "TOP", u)
    ensures NoTop(false, s, u, w)
  {
    forall i | 0 <= i < |s| && BoundaryAt(false, s, i, u) ensures TopAt(s[i..], u, w).NoMatch? {
      if TopAt(s[i..], u, w).Match? { MatchIsWord(s, i, u, w); }
    }
  }

  /** A word that ends before the end of a beginning is a word of the whole. */
  lemma {:induction false} PrefixWord(t: string, s: string, i: nat, u: set<char>)
    requires t <= s && i + 3 < |t| && WordAt(t, i, "TOP", u)
    ensures HasWord(s, "TOP", u)
  {
    assert WordAt(s, i, "TOP", u) by {
      assert forall j :: 0 <= j < |t| ==> s[j] == t[j];
    }
  }

  lemma {:induction false} TrimmedNoTop(sql: string, u: set<char>, w: set<char>)
    requires u !! w && !HasWord(sql, "TOP", u)
    ensures NoTop(false, Trimmed(sql, w), u, w)
  {
    var t := Trimmed(sql, w);
    forall i | 0 <= i < |t| && BoundaryAt(false, t, i, u) ensures TopAt(t[i..], u, w).NoMatch? {
      if TopAt(t[i..], u, w).Match? {
        MatchIsWord(t, i, u, w);
        PrefixWord(t, sql, i, u);
      }
    }
  }

  /** `SELECT TOP n`, spelt as in the query. */
  function Selected(select: string, limit: nat): string {
    select + " TOP " + Dec(limit)
  }

  lemma {:induction false} LimitIsNoTop(s: string, u: set<char>, w: set<char>)
    requires |s| > 4 && s[3] == ' ' && IsDigit(s[4])
    ensures TopAt(s, u, w).NoMatch?
  {
    if TopLetters(s) {
      assert SpaceEnd(s, 4, w) == 4 && SpaceEnd(s, 3, w) == 4 && NameStart(s, w) == 4;
    }
  }

  /** The inserted words are no `TOP` context, and make none of what follows. */
  lemma {:induction false} InsertedNoTop(select: string, rest: string, limit: nat, t: string, e: nat,
          u: set<char>, w: set<char>)
    requires u !! w && e <= |t| && rest == t[e..] && NoTop(false, t, u, w)
    requires |select| == 6 && forall j :: 0 <= j < 6 ==> SameLetter(select[j], "SELECT"[j])
    ensures NoTop(false, Selected(select, limit) + rest, u, w)
  {
    var pre := Selected(select, limit);
    var s := pre + rest;
    forall i | 0 <= i < |s| && BoundaryAt(false, s, i, u) ensures TopAt(s[i..], u, w).NoMatch? {
      if i < |pre| {
        InsertedHere(select, rest, limit, i, u, w);
      } else {
        assert IsDigit(Dec(limit)[|Dec(limit)| - 1]) && pre[|pre| - 1] == Dec(limit)[|Dec(limit)| - 1];
        var j := e + (i - |pre|);
        assert i > |pre| && s[i - 1] == t[j - 1];
        assert BoundaryAt(false, t, j, u) && s[i..] == t[j..];
      }
    }
  }

  lemma {:induction false} InsertedHere(select: string, rest: string, limit: nat, i: nat, u: set<char>, w: set<char>)
    requires |select| == 6 && forall j :: 0 <= j < 6 ==> SameLetter(select[j], "SELECT"[j])
    requires i < |Selected(select, limit)| && BoundaryAt(false, Selected(select, limit) + rest, i, u)
    ensures TopAt((Selected(select, limit) + rest)[i..], u, w).NoMatch?
  {
    var pre := Selected(select, limit);
    var s := pre + rest;
    var d := Dec(limit);
    assert forall j :: 0 <= j < 6 ==> s[j] == select[j];
    assert forall j :: 0 <= j < 5 ==> s[6 + j] == " TOP "[j];
    assert forall j :: 0 <= j < |d| ==> s[11 + j] == d[j] && IsDigit(s[11 + j]);
    assert forall j :: 0 <= j < 6 ==> IsWord(s[j], u);
    assert IsWord(s[7], u) && IsWord(s[8], u) && IsWord(s[9], u);
    assert "SELECT"[0] == 'S' && !SameLetter(s[0], 'T');
    assert i == 0 || i == 7 || i >= 11;
    assert i >= 11 ==> IsDigit(s[11 + (i - 11)]);
    if i == 7 {
      assert s[7..][3] == s[10] && s[7..][4] == s[11];
      LimitIsNoTop(s[7..], u, w);
    } else {
      assert !SameLetter(s[i], 'T') && s[i..][0] == s[i];
    }
  }

  /** Behind the limit stage a query without the word `TOP` has no `TOP` context. */
  lemma {:induction false} LimitedNoTop(sql: string, limit: nat, u: set<char>, w: set<char>)
    requires u !! w && !HasWord(sql, "TOP", u)
    ensures NoTop(false, EnsureLimit(sql, limit, true, u, w), u, w)
  {
    var t := Trimmed(sql, w);
    TrimmedNoTop(sql, u, w);
    match SelectEnd(t, u, w)
    case None =>
    case Some(e) =>
      var select := t[e - 6..e];
      assert forall j :: 0 <= j < 6 ==> select[j] == t[e - 6 + j];
      InsertedNoTop(select, t[e..], limit, t, e, u, w);
  }

  lemma {:induction false} NothingInlined(s: string, params: map<string, Value>, u: set<char>, w: set<char>)
    requires NoTop(false, s, u, w)
    ensures TopNames(s, u, w) == [] && InlineEveryTop(s, params, u, w) == s
  {
    AllPlain(false, s, u, w);
    PlainNames(s, params);
  }

  /** What SQL Server needs for the query with its limit, on the original query. */
  ghost predicate MssqlFits(sql: string, params: map<string, Value>, u: set<char>, w: set<char>) {
    var names, every := TopNames(sql, u, w), InlineEveryTop(sql, params, u, w);
    && AllGiven(Tokens(every, u), params)
    && (|| params == map[]
        || (&& !Repeats(names, params)
            && (forall n :: Ref(n) in Tokens(every, u) ==> n !in names)
            && ((exists n :: n in params && n !in names) || '%' !in sql)))
  }

  lemma {:induction false} MssqlLimited(sql: string, params: map<string, Value>, limit: nat, u: set<char>, w: set<char>)
    requires u !! w
    ensures MssqlFits(EnsureLimit(sql, limit, true, u, w), params, u, w) <==> MssqlFits(sql, params, u, w)
  {
    var limited := EnsureLimit(sql, limit, true, u, w);
    if !HasWord(sql, "TOP", u) {
      LimitedNoTop(sql, limit, u, w);
      NoWordNoTop(sql, u, w);
      NothingInlined(limited, params, u, w);
      NothingInlined(sql, params, u, w);
      SamePlaceholders(sql, limit, true, params, u, w);
      assert params != map[] ==> exists n :: n in params;
    }
  }

  /** SQL Server: the conditions of the substitution, on the original query. */
  lemma {:induction false} MssqlPreview(sql: string, params: map<string, Value>, limit: nat, u: set<char>, w: set<char>)
    returns (limited: string)
    requires u !! w
    ensures TopAsked(sql, limit, limited, u, w)
    ensures var meant := Meaning(InlineEveryTop(limited, params, u, w), params, u);
            Previewed(sql, params, Mssql, limit, u, w) == meant && meant.Ok? <==> MssqlFits(sql, params, u, w)
  {
    limited := EnsureLimit(sql, limit, true, u, w);
    LimitIsWritten(sql, limit, u, w);
    MssqlLimited(sql, params, limit, u, w);
    MssqlDialect(limited, params, u, w);
  }
}
