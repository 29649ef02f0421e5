/** Export and import of the studio's entities: ids become names, and names fresh ids. */
module ExportImport {
  import opened Prelude

  /** A JSON value; for a value that is not text, its dump and its truth value. */
  datatype Json = Null | Text(s: string) | Other(dump: string, truthy: bool)

  type Extra = Option<map<string, Json>>

  datatype Param = Param(name: string, order: int, body: string)

  // ---- the tables; `body` stands for the columns that are copied as they are ----

  datatype Conn = Conn(id: nat, name: string, host: string, password: string, extra: Extra, body: string)

  datatype Tool = Tool(
    name: string, conn: nat, tags: Option<seq<string>>, version: int, params: seq<Param>, body: string)

  datatype Resource = Resource(name: string, conn: Option<nat>, tags: Option<seq<string>>, version: int, body: string)

  datatype Prompt = Prompt(
    name: string, arguments: Option<seq<string>>, tags: Option<seq<string>>, version: int, body: string)

  datatype Db = Db(conns: seq<Conn>, tools: seq<Tool>, resources: seq<Resource>, prompts: seq<Prompt>)

  const EMPTY := Db([], [], [], [])

  // ---- the payload ----

  datatype XConn = XConn(name: string, host: string, password: Option<string>, extra: Extra, body: string)

  datatype XTool = XTool(name: string, conn: string, tags: seq<string>, version: int, params: seq<Param>, body: string)

  datatype XResource = XResource(name: string, conn: Option<string>, tags: seq<string>, version: int, body: string)

  datatype XPrompt = XPrompt(name: string, arguments: seq<string>, tags: seq<string>, version: int, body: string)

  datatype Payload = Payload(conns: seq<XConn>, tools: seq<XTool>, resources: seq<XResource>, prompts: seq<XPrompt>)

  // ---- entity names ----

  predicate IsLetter(c: char) {
    'a' <= c <= 'z' || 'A' <= c <= 'Z' || c == '_'
  }

  /** `ENTITY_NAME_PATTERN`, which both directions of the payload must match. */
  predicate NameOk(s: string) {
    1 <= |s| <= 255 && IsLetter(s[0]) && forall i :: 1 <= i < |s| ==> IsLetter(s[i]) || IsDigit(s[i]) || s[i] == '-'
  }

  predicate WellNamed(x: Payload) {
    && (forall c :: c in x.conns ==> NameOk(c.name))
    && (forall t :: t in x.tools ==> NameOk(t.name))
    && (forall r :: r in x.resources ==> NameOk(r.name))
    && (forall p :: p in x.prompts ==> NameOk(p.name))
  }

  // ---- sensitive extra parameters ----

  const SENSITIVE: set<string> := {"credentials_json"}
  const MASK := "••••••"
  const ENC := "__enc__:"

  predicate Truthy(v: Json) {
    match v
    case Null => false
    case Text(s) => s != ""
    case Other(_, truthy) => truthy
  }

  function Dumped(v: Json): string {
    match v
    case Null => "null"
    case Text(s) => s
    case Other(dump, _) => dump
  }

  predicate StartsWith(s: string, prefix: string) {
    |prefix| <= |s| && s[..|prefix|] == prefix
  }

  function MaskedValue(v: Json): Json {
    if Truthy(v) then Text(MASK) else v
  }

  /** The dump of a value that is not text never starts with the prefix. */
  predicate IsEncrypted(v: Json) {
    v.Text? && StartsWith(v.s, ENC)
  }

  function EncryptedValue(v: Json, enc: string -> string): Json {
    if v == Null || IsEncrypted(v) then v else Text(ENC + enc(Dumped(v)))
  }

  function Masked(extra: Extra): Extra {
    match extra
    case None => None
    case Some(m) => Some(map k | k in m :: if k in SENSITIVE then MaskedValue(m[k]) else m[k])
  }

  function Encrypted(extra: Extra, enc: string -> string): Extra {
    match extra
    case None => None
    case Some(m) => Some(map k | k in m :: if k in SENSITIVE then EncryptedValue(m[k], enc) else m[k])
  }

  /** No sensitive field is there without a value, other than as null. */
  predicate Clean(extra: Extra) {
    extra.Some? ==> forall k :: k in extra.value && k in SENSITIVE ==> extra.value[k] == Null || Truthy(extra.value[k])
  }

  /** A secret survives export, import and export as a mask, and an empty one does not:
      the import encrypts it. */
  lemma {:induction false} MaskIsStable(extra: Extra, enc: string -> string)
    ensures Masked(Encrypted(Masked(extra), enc)) == Masked(extra) <==> Clean(extra)
  {
    if extra.Some? {
      var m := extra.value;
      var a, b := Masked(Encrypted(Masked(extra), enc)).value, Masked(extra).value;
      assert a.Keys == b.Keys == m.Keys;
      forall k | k in m ensures a[k] == b[k] <==> !(k in SENSITIVE) || m[k] == Null || Truthy(m[k]) {
        if k in SENSITIVE { MaskedOnce(m[k], enc); }
      }
      if Clean(extra) {
        assert a == b;
      } else {
        var k :| k in m && k in SENSITIVE && m[k] != Null && !Truthy(m[k]);
        assert a[k] != b[k];
      }
    }
  }

  lemma {:induction false} MaskedOnce(v: Json, enc: string -> string)
    ensures MaskedValue(EncryptedValue(MaskedValue(v), enc)) == MaskedValue(v) <==> v == Null || Truthy(v)
  {
    assert |MASK| < |ENC| && !IsEncrypted(Text(""));
    var w := MaskedValue(v);
    if w != Null {
      assert EncryptedValue(w, enc) == Text(ENC + enc(Dumped(w)));
      assert MaskedValue(EncryptedValue(w, enc)) == Text(MASK);
    }
  }

  // ---- sorted(parameters, key=sort_order) ----

  function Insert(p: Param, s: seq<Param>): seq<Param> {
    if s == [] || p.order < s[0].order then [p] + s else [s[0]] + Insert(p, s[1..])
  }

  function Sorted(s: seq<Param>): seq<Param> {
    if s == [] then [] else Insert(s[|s| - 1], Sorted(s[..|s| - 1]))
  }

  predicate Ordered(s: seq<Param>) {
    forall i, j :: 0 <= i < j < |s| ==> s[i].order <= s[j].order
  }

  function WithOrder(s: seq<Param>, k: int): seq<Param> {
    if s == [] then [] else (if s[0].order == k then [s[0]] else []) + WithOrder(s[1..], k)
  }

  lemma {:induction false} WithOrderAppend(s: seq<Param>, t: seq<Param>, k: int)
    ensures WithOrder(s + t, k) == WithOrder(s, k) + WithOrder(t, k)
  {
    if s == [] {
      assert s + t == t;
    } else {
      var head := if s[0].order == k then [s[0]] else [];
      assert (s + t)[1..] == s[1..] + t;
      WithOrderAppend(s[1..], t, k);
      assert head + (WithOrder(s[1..], k) + WithOrder(t, k)) == (head + WithOrder(s[1..], k)) + WithOrder(t, k);
    }
  }

  lemma {:induction false} NoneWithOrder(s: seq<Param>, k: int)
    requires forall i :: 0 <= i < |s| ==> s[i].order > k
    ensures WithOrder(s, k) == []
  {
    if s != [] { NoneWithOrder(s[1..], k); }
  }

  lemma {:induction false} InsertKeeps(p: Param, s: seq<Param>)
    ensures multiset(Insert(p, s)) == multiset(s) + multiset{p}
  {
    if s != [] && p.order >= s[0].order {
      InsertKeeps(p, s[1..]);
      assert s == [s[0]] + s[1..];
    }
  }

  lemma {:induction false} InsertOrders(p: Param, s: seq<Param>)
    requires Ordered(s)
    ensures Ordered(Insert(p, s))
  {
    if s != [] && p.order >= s[0].order {
      var r := Insert(p, s[1..]);
      InsertOrders(p, s[1..]);
      InsertKeeps(p, s[1..]);
      forall q | q in r ensures s[0].order <= q.order {
        assert q in multiset(r);
        assert q in s[1..] || q == p;
      }
    }
  }

  lemma {:induction false} InsertIsStable(p: Param, s: seq<Param>, k: int)
    requires Ordered(s)
    ensures WithOrder(Insert(p, s), k) == WithOrder(s, k) + WithOrder([p], k)
  {
    assert WithOrder([p], k) == if p.order == k then [p] else [];
    if s == [] {
      assert Insert(p, s) == [p];
    } else if p.order < s[0].order {
      assert ([p] + s)[1..] == s;
      if p.order == k { NoneWithOrder(s, k); }
    } else {
      InsertIsStable(p, s[1..], k);
      var r := Insert(p, s[1..]);
      assert ([s[0]] + r)[1..] == r;
    }
  }

  lemma {:induction false} InsertLast(p: Param, s: seq<Param>)
    requires forall q :: q in s ==> q.order <= p.order
    ensures Insert(p, s) == s + [p]
  {
    if s != [] {
      assert s[0] in s;
      InsertLast(p, s[1..]);
    }
  }

  lemma {:induction false} SortedOrders(s: seq<Param>)
    ensures Ordered(Sorted(s)) && multiset(Sorted(s)) == multiset(s)
  {
    if s != [] {
      var init, p := s[..|s| - 1], s[|s| - 1];
      SortedOrders(init);
      InsertOrders(p, Sorted(init));
      InsertKeeps(p, Sorted(init));
      assert s == init + [p];
    }
  }

  lemma {:induction false} SortedKeepsTies(s: seq<Param>, k: int)
    ensures WithOrder(Sorted(s), k) == WithOrder(s, k)
  {
    if s != [] {
      var init, p := s[..|s| - 1], s[|s| - 1];
      SortedKeepsTies(init, k);
      SortedOrders(init);
      StableStep(init, p, k);
      assert s == init + [p];
    }
  }

  /** The sort is a stable one: the result is ordered, has the same elements, and those of
      equal order stay as they were. */
  lemma {:induction false} SortedIsStable(s: seq<Param>, k: int)
    ensures Ordered(Sorted(s)) && multiset(Sorted(s)) == multiset(s)
    ensures WithOrder(Sorted(s), k) == WithOrder(s, k)
  {
    SortedOrders(s);
    SortedKeepsTies(s, k);
  }

  lemma {:induction false} StableStep(init: seq<Param>, p: Param, k: int)
    requires Ordered(Sorted(init)) && WithOrder(Sorted(init), k) == WithOrder(init, k)
    ensures WithOrder(Insert(p, Sorted(init)), k) == WithOrder(init + [p], k)
  {
    InsertIsStable(p, Sorted(init), k);
    WithOrderAppend(init, [p], k);
  }

  lemma {:induction false} SortedLeavesOrdered(s: seq<Param>)
    requires Ordered(s)
    ensures Sorted(s) == s
  {
    if s != [] {
      var init, p := s[..|s| - 1], s[|s| - 1];
      SortedLeavesOrdered(init);
      InsertLast(p, init);
    }
  }

  // ---- names and ids ----

  /** `conn_id_to_name`: a later row of the same id overwrites an earlier one. */
  function NameIndex(cs: seq<Conn>): map<nat, string> {
    if cs == [] then map[] else NameIndex(cs[..|cs| - 1])[cs[|cs| - 1].id := cs[|cs| - 1].name]
  }

  /** `conn_name_to_id` */
  function IdIndex(cs: seq<Conn>): map<string, nat> {
    if cs == [] then map[] else IdIndex(cs[..|cs| - 1])[cs[|cs| - 1].name := cs[|cs| - 1].id]
  }

  function ConnNames(cs: seq<Conn>): seq<string> { seq(|cs|, i requires 0 <= i < |cs| => cs[i].name) }
  function ToolNames(ts: seq<Tool>): seq<string> { seq(|ts|, i requires 0 <= i < |ts| => ts[i].name) }
  function ResourceNames(rs: seq<Resource>): seq<string> { seq(|rs|, i requires 0 <= i < |rs| => rs[i].name) }
  function PromptNames(ps: seq<Prompt>): seq<string> { seq(|ps|, i requires 0 <= i < |ps| => ps[i].name) }

  ghost predicate DistinctIds(cs: seq<Conn>) {
    forall i, j :: 0 <= i < j < |cs| ==> cs[i].id != cs[j].id
  }

  lemma {:induction false} NameIndexHas(cs: seq<Conn>, i: nat)
    requires i < |cs|
    ensures cs[i].id in NameIndex(cs)
    ensures DistinctIds(cs) ==> NameIndex(cs)[cs[i].id] == cs[i].name
  {
    if i < |cs| - 1 { NameIndexHas(cs[..|cs| - 1], i); }
  }

  lemma {:induction false} IdIndexHas(cs: seq<Conn>, i: nat)
    requires i < |cs|
    ensures cs[i].name in IdIndex(cs)
    ensures Distinct(ConnNames(cs)) ==> IdIndex(cs)[cs[i].name] == cs[i].id
  {
    if i < |cs| - 1 {
      var init := cs[..|cs| - 1];
      IdIndexHas(init, i);
      if Distinct(ConnNames(cs)) {
        assert ConnNames(init) == ConnNames(cs)[..|cs| - 1] && Distinct(ConnNames(init));
        assert ConnNames(cs)[i] != ConnNames(cs)[|cs| - 1];
      }
    }
  }

  lemma {:induction false} IdIndexFrom(cs: seq<Conn>, name: string) returns (i: nat)
    requires name in IdIndex(cs)
    ensures i < |cs| && cs[i].name == name && cs[i].id == IdIndex(cs)[name]
  {
    i := |cs| - 1;
    if cs[i].name != name { i := IdIndexFrom(cs[..i], name); }
  }

  // ---- export ----

  function OrEmpty(s: Option<seq<string>>): seq<string> {
    if s.Some? then s.value else []
  }

  function ExportConn(c: Conn): XConn {
    XConn(c.name, c.host, None, Masked(c.extra), c.body)
  }

  function ExportTool(t: Tool, names: map<nat, string>): XTool {
    XTool(t.name, Get(names, t.conn, "unknown"), OrEmpty(t.tags), t.version, Sorted(t.params), t.body)
  }

  function ExportResource(r: Resource, names: map<nat, string>): XResource {
    XResource(r.name, if r.conn.Some? then Some(Get(names, r.conn.value, "")) else None,
              OrEmpty(r.tags), r.version, r.body)
  }

  function ExportPrompt(p: Prompt): XPrompt {
    XPrompt(p.name, OrEmpty(p.arguments), OrEmpty(p.tags), p.version, p.body)
  }

  function ExportConns(cs: seq<Conn>): seq<XConn> {
    seq(|cs|, i requires 0 <= i < |cs| => ExportConn(cs[i]))
  }

  function ExportTools(ts: seq<Tool>, names: map<nat, string>): seq<XTool> {
    seq(|ts|, i requires 0 <= i < |ts| => ExportTool(ts[i], names))
  }

  function ExportResources(rs: seq<Resource>, names: map<nat, string>): seq<XResource> {
    seq(|rs|, i requires 0 <= i < |rs| => ExportResource(rs[i], names))
  }

  function ExportPrompts(ps: seq<Prompt>): seq<XPrompt> {
    seq(|ps|, i requires 0 <= i < |ps| => ExportPrompt(ps[i]))
  }

  /** The snapshot of a database. */
  function Snapshot(db: Db): Payload {
    var names := NameIndex(db.conns);
    Payload(ExportConns(db.conns), ExportTools(db.tools, names), ExportResources(db.resources, names),
            ExportPrompts(db.prompts))
  }

  /** The export fails when a name does not fit the payload's schema. */
  function Export(db: Db): Option<Payload> {
    if WellNamed(Snapshot(db)) then Some(Snapshot(db)) else None
  }

  // ---- what a payload tells of the tables ----

  /** Only the one sensitive field is masked, and only if it has a value. */
  ghost predicate Hides(extra: Extra, shown: Extra) {
    match extra
    case None => shown == None
    case Some(m) =>
      && shown.Some? && shown.value.Keys == m.Keys
      && forall k :: k in m ==>
           shown.value[k] == if k == "credentials_json" && Truthy(m[k]) then Text("••••••") else m[k]
  }

  /** `name` is that of the connection with the id, or the substitute if there is none. */
  ghost predicate NamesConn(cs: seq<Conn>, id: nat, name: string, substitute: string) {
    && (forall i :: 0 <= i < |cs| && cs[i].id == id ==> name == cs[i].name)
    && ((forall i :: 0 <= i < |cs| ==> cs[i].id != id) ==> name == substitute)
  }

  ghost predicate TellsConn(c: Conn, x: XConn) {
    x.name == c.name && x.host == c.host && x.password == None && x.body == c.body && Hides(c.extra, x.extra)
  }

  /** The parameters are those of the row, in their order, and ties as they were. */
  ghost predicate TellsTool(cs: seq<Conn>, r: Tool, x: XTool) {
    && x.name == r.name && x.body == r.body && x.version == r.version
    && x.tags == (if r.tags.Some? then r.tags.value else [])
    && NamesConn(cs, r.conn, x.conn, "unknown")
    && multiset(x.params) == multiset(r.params) && Ordered(x.params)
    && forall k :: WithOrder(x.params, k) == WithOrder(r.params, k)
  }

  ghost predicate TellsResource(cs: seq<Conn>, r: Resource, x: XResource) {
    && x.name == r.name && x.body == r.body && x.version == r.version
    && x.tags == (if r.tags.Some? then r.tags.value else [])
    && (r.conn.Some? <==> x.conn.Some?)
    && (r.conn.Some? ==> NamesConn(cs, r.conn.value, x.conn.value, ""))
  }

  ghost predicate TellsPrompt(r: Prompt, x: XPrompt) {
    && x.name == r.name && x.body == r.body && x.version == r.version
    && x.tags == (if r.tags.Some? then r.tags.value else [])
    && x.arguments == (if r.arguments.Some? then r.arguments.value else [])
  }

  /** Entry by entry, the payload is what the tables hold. */
  ghost predicate Tells(db: Db, x: Payload) {
    && |x.conns| == |db.conns| && |x.tools| == |db.tools|
    && |x.resources| == |db.resources| && |x.prompts| == |db.prompts|
    && (forall i :: 0 <= i < |db.conns| ==> TellsConn(db.conns[i], x.conns[i]))
    && (forall i :: 0 <= i < |db.tools| ==> TellsTool(db.conns, db.tools[i], x.tools[i]))
    && (forall i :: 0 <= i < |db.resources| ==> TellsResource(db.conns, db.resources[i], x.resources[i]))
    && (forall i :: 0 <= i < |db.prompts| ==> TellsPrompt(db.prompts[i], x.prompts[i]))
  }

  lemma {:induction false} NameIndexOnly(cs: seq<Conn>, id: nat)
    requires forall i :: 0 <= i < |cs| ==> cs[i].id != id
    ensures id !in NameIndex(cs)
  {
    if cs != [] { NameIndexOnly(cs[..|cs| - 1], id); }
  }

  lemma {:induction false} IndexNames(cs: seq<Conn>, id: nat, substitute: string)
    requires DistinctIds(cs)
    ensures NamesConn(cs, id, Get(NameIndex(cs), id, substitute), substitute)
  {
    forall i | 0 <= i < |cs| && cs[i].id == id ensures Get(NameIndex(cs), id, substitute) == cs[i].name {
      NameIndexHas(cs, i);
    }
    if forall i :: 0 <= i < |cs| ==> cs[i].id != id {
      NameIndexOnly(cs, id);
    }
  }

  lemma {:induction false} ToolTold(cs: seq<Conn>, r: Tool)
    requires DistinctIds(cs)
    ensures TellsTool(cs, r, ExportTool(r, NameIndex(cs)))
  {
    IndexNames(cs, r.conn, "unknown");
    SortedOrders(r.params);
    forall k ensures WithOrder(Sorted(r.params), k) == WithOrder(r.params, k) {
      SortedKeepsTies(r.params, k);
    }
  }

  lemma {:induction false} ResourceTold(cs: seq<Conn>, r: Resource)
    requires DistinctIds(cs)
    ensures TellsResource(cs, r, ExportResource(r, NameIndex(cs)))
  {
    if r.conn.Some? { IndexNames(cs, r.conn.value, ""); }
  }

  /** An export is made exactly if every name fits the schema, and then it tells what the
      tables hold. */
  lemma {:induction false} ExportTells(db: Db)
    requires DistinctIds(db.conns)
    ensures Export(db).Some? <==>
              && (forall i :: 0 <= i < |db.conns| ==> NameOk(db.conns[i].name))
              && (forall i :: 0 <= i < |db.tools| ==> NameOk(db.tools[i].name))
              && (forall i :: 0 <= i < |db.resources| ==> NameOk(db.resources[i].name))
              && (forall i :: 0 <= i < |db.prompts| ==> NameOk(db.prompts[i].name))
    ensures Export(db).Some? ==> Tells(db, Export(db).value)
  {
    var x := Snapshot(db);
    SnapshotNames(db);
    forall i | 0 <= i < |db.tools| ensures TellsTool(db.conns, db.tools[i], x.tools[i]) {
      ToolTold(db.conns, db.tools[i]);
    }
    forall i | 0 <= i < |db.resources| ensures TellsResource(db.conns, db.resources[i], x.resources[i]) {
      ResourceTold(db.conns, db.resources[i]);
    }
  }

  lemma {:induction false} SnapshotNames(db: Db)
    ensures WellNamed(Snapshot(db)) <==>
              && (forall i :: 0 <= i < |db.conns| ==> NameOk(db.conns[i].name))
              && (forall i :: 0 <= i < |db.tools| ==> NameOk(db.tools[i].name))
              && (forall i :: 0 <= i < |db.resources| ==> NameOk(db.resources[i].name))
              && (forall i :: 0 <= i < |db.prompts| ==> NameOk(db.prompts[i].name))
  {
    var x := Snapshot(db);
    if WellNamed(x) {
      forall i | 0 <= i < |db.conns| ensures NameOk(db.conns[i].name) { assert x.conns[i] in x.conns; }
      forall i | 0 <= i < |db.tools| ensures NameOk(db.tools[i].name) { assert x.tools[i] in x.tools; }
      forall i | 0 <= i < |db.resources| ensures NameOk(db.resources[i].name) { assert x.resources[i] in x.resources; }
      forall i | 0 <= i < |db.prompts| ensures NameOk(db.prompts[i].name) { assert x.prompts[i] in x.prompts; }
    }
  }

  // ---- import ----

  /** What decides about an import: blocked hosts, and the prompt guard. */
  datatype Policy = Policy(blocked: string -> bool, guarded: Payload -> bool)

  datatype Verdict = New | Skip | Error

  function ConnVerdict(x: XConn, existing: seq<string>, policy: Policy): Verdict {
    if x.name in existing then Skip
    else if x.host != "" && policy.blocked(x.host) then Error
    else New
  }

  function ToolVerdict(x: XTool, existing: seq<string>, ids: map<string, nat>): Verdict {
    if x.name in existing then Skip else if x.conn !in ids then Error else New
  }

  function ResourceVerdict(x: XResource, existing: seq<string>, ids: map<string, nat>): Verdict {
    if x.name in existing then Skip
    else if x.conn.Some? && x.conn.value != "" && x.conn.value !in ids then Error
    else New
  }

  function PromptVerdict(x: XPrompt, existing: seq<string>): Verdict {
    if x.name in existing then Skip else New
  }

  function ConnVerdicts(xs: seq<XConn>, existing: seq<string>, policy: Policy): seq<Verdict> {
    seq(|xs|, i requires 0 <= i < |xs| => ConnVerdict(xs[i], existing, policy))
  }

  function ToolVerdicts(xs: seq<XTool>, existing: seq<string>, ids: map<string, nat>): seq<Verdict> {
    seq(|xs|, i requires 0 <= i < |xs| => ToolVerdict(xs[i], existing, ids))
  }

  function ResourceVerdicts(xs: seq<XResource>, existing: seq<string>, ids: map<string, nat>): seq<Verdict> {
    seq(|xs|, i requires 0 <= i < |xs| => ResourceVerdict(xs[i], existing, ids))
  }

  function PromptVerdicts(xs: seq<XPrompt>, existing: seq<string>): seq<Verdict> {
    seq(|xs|, i requires 0 <= i < |xs| => PromptVerdict(xs[i], existing))
  }

  /** The entries with the given verdict, in order. */
  function Chosen<X>(xs: seq<X>, vs: seq<Verdict>, v: Verdict): (r: seq<X>)
    requires |xs| == |vs|
  {
    if xs == [] then []
    else
      var n := |xs| - 1;
      Chosen(xs[..n], vs[..n], v) + if vs[n] == v then [xs[n]] else []
  }

  function NewConn(x: XConn, id: nat, enc: string -> string): Conn {
    Conn(id, x.name, x.host, enc(if x.password.Some? then x.password.value else ""), Encrypted(x.extra, enc), x.body)
  }

  function NewTool(x: XTool, ids: map<string, nat>): Tool {
    Tool(x.name, Get(ids, x.conn, 0), Some(x.tags), 1, x.params, x.body)
  }

  function NewResource(x: XResource, ids: map<string, nat>): Resource {
    Resource(x.name, if x.conn.Some? && x.conn.value != "" then Some(Get(ids, x.conn.value, 0)) else None,
             Some(x.tags), 1, x.body)
  }

  function NewPrompt(x: XPrompt): Prompt {
    Prompt(x.name, Some(x.arguments), Some(x.tags), 1, x.body)
  }

  /** New rows for the chosen entries; ids are fresh and here ascending. */
  function ConnRows(xs: seq<XConn>, base: nat, enc: string -> string): seq<Conn> {
    seq(|xs|, i requires 0 <= i < |xs| => NewConn(xs[i], base + i, enc))
  }

  function ToolRows(xs: seq<XTool>, ids: map<string, nat>): seq<Tool> {
    seq(|xs|, i requires 0 <= i < |xs| => NewTool(xs[i], ids))
  }

  function ResourceRows(xs: seq<XResource>, ids: map<string, nat>): seq<Resource> {
    seq(|xs|, i requires 0 <= i < |xs| => NewResource(xs[i], ids))
  }

  function PromptRows(xs: seq<XPrompt>): seq<Prompt> {
    seq(|xs|, i requires 0 <= i < |xs| => NewPrompt(xs[i]))
  }

  datatype Problem =
    | HostBlocked(name: string)
    | ToolUnattached(name: string, conn: string)
    | ResourceUnattached(name: string, conn: string)

  datatype Report = Report(
    conns: nat, tools: nat, resources: nat, prompts: nat,
    skippedConns: seq<string>, skippedTools: seq<string>, skippedResources: seq<string>, skippedPrompts: seq<string>,
    errors: seq<Problem>)

  datatype Outcome = Malformed | Guarded | Failed | Done(report: Report, db: Db)

  function ConnsOf(db: Db, x: Payload, policy: Policy, v: Verdict): seq<XConn> {
    Chosen(x.conns, ConnVerdicts(x.conns, ConnNames(db.conns), policy), v)
  }

  function ToolsOf(db: Db, x: Payload, ids: map<string, nat>, v: Verdict): seq<XTool> {
    Chosen(x.tools, ToolVerdicts(x.tools, ToolNames(db.tools), ids), v)
  }

  function ResourcesOf(db: Db, x: Payload, ids: map<string, nat>, v: Verdict): seq<XResource> {
    Chosen(x.resources, ResourceVerdicts(x.resources, ResourceNames(db.resources), ids), v)
  }

  function PromptsOf(db: Db, x: Payload, v: Verdict): seq<XPrompt> {
    Chosen(x.prompts, PromptVerdicts(x.prompts, PromptNames(db.prompts)), v)
  }

  function ConnsAfter(db: Db, x: Payload, policy: Policy, base: nat, enc: string -> string): seq<Conn> {
    db.conns + ConnRows(ConnsOf(db, x, policy, New), base, enc)
  }

  /** The tables once every entry is dealt with. */
  function Filled(db: Db, x: Payload, policy: Policy, base: nat, enc: string -> string): Db {
    var conns := ConnsAfter(db, x, policy, base, enc);
    var ids := IdIndex(conns);
    Db(conns,
       db.tools + ToolRows(ToolsOf(db, x, ids, New), ids),
       db.resources + ResourceRows(ResourcesOf(db, x, ids, New), ids),
       db.prompts + PromptRows(PromptsOf(db, x, New)))
  }

  function XConnNames(xs: seq<XConn>): seq<string> { seq(|xs|, i requires 0 <= i < |xs| => xs[i].name) }
  function XToolNames(xs: seq<XTool>): seq<string> { seq(|xs|, i requires 0 <= i < |xs| => xs[i].name) }
  function XResourceNames(xs: seq<XResource>): seq<string> { seq(|xs|, i requires 0 <= i < |xs| => xs[i].name) }
  function XPromptNames(xs: seq<XPrompt>): seq<string> { seq(|xs|, i requires 0 <= i < |xs| => xs[i].name) }

  function ConnErrors(xs: seq<XConn>): seq<Problem> {
    seq(|xs|, i requires 0 <= i < |xs| => HostBlocked(xs[i].name))
  }

  function ToolErrors(xs: seq<XTool>): seq<Problem> {
    seq(|xs|, i requires 0 <= i < |xs| => ToolUnattached(xs[i].name, xs[i].conn))
  }

  function ResourceErrors(xs: seq<XResource>): seq<Problem> {
    seq(|xs|, i requires 0 <= i < |xs| => ResourceUnattached(xs[i].name, OrNone(xs[i].conn)))
  }

  function OrNone(s: Option<string>): string {
    if s.Some? then s.value else ""
  }

  function ReportOf(db: Db, x: Payload, policy: Policy, ids: map<string, nat>): Report {
    Report(
      |ConnsOf(db, x, policy, New)|, |ToolsOf(db, x, ids, New)|,
      |ResourcesOf(db, x, ids, New)|, |PromptsOf(db, x, New)|,
      XConnNames(ConnsOf(db, x, policy, Skip)), XToolNames(ToolsOf(db, x, ids, Skip)),
      XResourceNames(ResourcesOf(db, x, ids, Skip)), XPromptNames(PromptsOf(db, x, Skip)),
      ConnErrors(ConnsOf(db, x, policy, Error)) + ToolErrors(ToolsOf(db, x, ids, Error))
      + ResourceErrors(ResourcesOf(db, x, ids, Error)))
  }

  /** The unique constraints that the inserts meet; in a dry run the prompts are rolled
      back before they are ever flushed. */
  predicate Accepted(db: Db, dryRun: bool) {
    && Distinct(ConnNames(db.conns)) && Distinct(ToolNames(db.tools)) && Distinct(ResourceNames(db.resources))
    && (dryRun || Distinct(PromptNames(db.prompts)))
  }

  /** `import_all`, given the first of the fresh ids. */
  function Import(db: Db, x: Payload, policy: Policy, base: nat, enc: string -> string, dryRun: bool): Outcome {
    if !WellNamed(x) then Malformed
    else if policy.guarded(x) then Guarded
    else
      var filled := Filled(db, x, policy, base, enc);
      if !Accepted(filled, dryRun) then Failed
      else Done(ReportOf(db, x, policy, IdIndex(filled.conns)), if dryRun then db else filled)
  }

  // ---- choosing ----

  lemma {:induction false} ChosenTotal<X>(xs: seq<X>, vs: seq<Verdict>)
    requires |xs| == |vs|
    ensures |Chosen(xs, vs, New)| + |Chosen(xs, vs, Skip)| + |Chosen(xs, vs, Error)| == |xs|
  {
    if xs != [] { ChosenTotal(xs[..|xs| - 1], vs[..|xs| - 1]); }
  }

  lemma {:induction false} ChosenAll<X>(xs: seq<X>, vs: seq<Verdict>, v: Verdict)
    requires |xs| == |vs|
    ensures (forall i :: 0 <= i < |vs| ==> vs[i] == v) <==> |Chosen(xs, vs, v)| == |xs|
    ensures |Chosen(xs, vs, v)| == |xs| ==> Chosen(xs, vs, v) == xs
    ensures |Chosen(xs, vs, v)| <= |xs|
  {
    if xs != [] {
      var n := |xs| - 1;
      ChosenAll(xs[..n], vs[..n], v);
      assert vs == vs[..n] + [vs[n]];
      assert xs == xs[..n] + [xs[n]];
    }
  }

  lemma {:induction false} ChosenNone<X>(xs: seq<X>, vs: seq<Verdict>, v: Verdict)
    requires |xs| == |vs| && forall i :: 0 <= i < |vs| ==> vs[i] != v
    ensures Chosen(xs, vs, v) == []
  {
    if xs != [] { ChosenNone(xs[..|xs| - 1], vs[..|xs| - 1], v); }
  }

  /** Every entry chosen comes from the list, with that verdict. */
  lemma {:induction false} ChosenFrom<X>(xs: seq<X>, vs: seq<Verdict>, v: Verdict, k: nat) returns (i: nat)
    requires |xs| == |vs| && k < |Chosen(xs, vs, v)|
    ensures i < |xs| && vs[i] == v && xs[i] == Chosen(xs, vs, v)[k]
  {
    var n := |xs| - 1;
    if k < |Chosen(xs[..n], vs[..n], v)| {
      i := ChosenFrom(xs[..n], vs[..n], v, k);
    } else {
      i := n;
    }
  }

  /** And every entry with that verdict is chosen. */
  lemma {:induction false} ChosenHas<X>(xs: seq<X>, vs: seq<Verdict>, v: Verdict, i: nat) returns (k: nat)
    requires |xs| == |vs| && i < |xs| && vs[i] == v
    ensures k < |Chosen(xs, vs, v)| && Chosen(xs, vs, v)[k] == xs[i]
  {
    var n := |xs| - 1;
    if i < n {
      k := ChosenHas(xs[..n], vs[..n], v, i);
    } else {
      k := |Chosen(xs[..n], vs[..n], v)|;
    }
  }

  // ---- conservation ----

  function Size(x: Payload): nat {
    |x.conns| + |x.tools| + |x.resources| + |x.prompts|
  }

  lemma {:induction false} EachDealtWithOnce(db: Db, x: Payload, policy: Policy, ids: map<string, nat>)
    ensures var r := ReportOf(db, x, policy, ids);
            && r.conns + r.tools + r.resources + r.prompts
               + |r.skippedConns| + |r.skippedTools| + |r.skippedResources| + |r.skippedPrompts| + |r.errors| == Size(x)
            && r.conns + |r.skippedConns| <= |x.conns| && r.tools + |r.skippedTools| <= |x.tools|
            && r.resources + |r.skippedResources| <= |x.resources| && r.prompts + |r.skippedPrompts| == |x.prompts|
  {
    ChosenTotal(x.conns, ConnVerdicts(x.conns, ConnNames(db.conns), policy));
    ChosenTotal(x.tools, ToolVerdicts(x.tools, ToolNames(db.tools), ids));
    ChosenTotal(x.resources, ResourceVerdicts(x.resources, ResourceNames(db.resources), ids));
    var vs := PromptVerdicts(x.prompts, PromptNames(db.prompts));
    ChosenTotal(x.prompts, vs);
    ChosenNone(x.prompts, vs, Error);
  }

  /** Every entry of a payload is created, skipped or reported as an error, exactly once;
      the rows there before stay as they are, and a dry run adds none. */
  lemma {:induction false} ImportConserves(db: Db, x: Payload, policy: Policy, base: nat,
          enc: string -> string, dryRun: bool)
    requires Import(db, x, policy, base, enc, dryRun).Done?
    ensures var Done(r, after) := Import(db, x, policy, base, enc, dryRun);
            && r.conns + r.tools + r.resources + r.prompts
               + |r.skippedConns| + |r.skippedTools| + |r.skippedResources| + |r.skippedPrompts| + |r.errors| == Size(x)
            && r.conns + |r.skippedConns| <= |x.conns| && r.tools + |r.skippedTools| <= |x.tools|
            && r.resources + |r.skippedResources| <= |x.resources| && r.prompts + |r.skippedPrompts| == |x.prompts|
    ensures var Done(r, after) := Import(db, x, policy, base, enc, dryRun);
            && db.conns <= after.conns && db.tools <= after.tools
            && db.resources <= after.resources && db.prompts <= after.prompts
            && |after.conns| == |db.conns| + (if dryRun then 0 else r.conns)
            && |after.tools| == |db.tools| + (if dryRun then 0 else r.tools)
            && |after.resources| == |db.resources| + (if dryRun then 0 else r.resources)
            && |after.prompts| == |db.prompts| + (if dryRun then 0 else r.prompts)
  {
    EachDealtWithOnce(db, x, policy, IdIndex(ConnsAfter(db, x, policy, base, enc)));
  }

  /** A dry run forecasts the import, except that it does not see a repeated prompt name. */
  lemma {:induction false} DryRunForecasts(db: Db, x: Payload, policy: Policy, base: nat, enc: string -> string)
    ensures var dry := Import(db, x, policy, base, enc, true);
            var wet := Import(db, x, policy, base, enc, false);
            && (wet.Done? ==> dry == Done(wet.report, db))
            && (dry.Done? && !wet.Done? <==>
                dry.Done? && !Distinct(PromptNames(db.prompts) + XPromptNames(PromptsOf(db, x, New))))
  {
    var added := PromptsOf(db, x, New);
    assert PromptNames(db.prompts + PromptRows(added)) == PromptNames(db.prompts) + XPromptNames(added);
  }

  // ---- soundness ----

  /** Names are unique per table, and ids too. */
  ghost predicate Sound(db: Db) {
    Accepted(db, false) && DistinctIds(db.conns)
  }

  ghost predicate Fresh(db: Db, base: nat) {
    forall c :: c in db.conns ==> c.id < base
  }

  lemma {:induction false} ConnsAfterDistinct(db: Db, x: Payload, policy: Policy, base: nat, enc: string -> string)
    requires DistinctIds(db.conns) && Fresh(db, base)
    ensures DistinctIds(ConnsAfter(db, x, policy, base, enc))
  {
  }

  /** An import keeps names and ids unique, and every tool and resource it creates is
      attached to the connection whose name the payload gives for it, or to none. */
  lemma {:induction false} ImportAttaches(db: Db, x: Payload, policy: Policy, base: nat, enc: string -> string)
    requires Sound(db) && Fresh(db, base)
    requires Import(db, x, policy, base, enc, false).Done?
    ensures var after := Import(db, x, policy, base, enc, false).db;
            var names := NameIndex(after.conns);
            && Sound(after)
            && (forall i :: |db.tools| <= i < |after.tools| ==>
                  after.tools[i].conn in names
                  && ExistsTool(x, after.tools[i], names[after.tools[i].conn]))
            && (forall i :: |db.resources| <= i < |after.resources| ==>
                  (after.resources[i].conn.Some? ==> after.resources[i].conn.value in names)
                  && ExistsResource(x, after.resources[i],
                                    if after.resources[i].conn.Some? then names[after.resources[i].conn.value] else ""))
  {
    var after := Import(db, x, policy, base, enc, false).db;
    var ids := IdIndex(after.conns);
    ConnsAfterDistinct(db, x, policy, base, enc);
    forall i | |db.tools| <= i < |after.tools|
      ensures after.tools[i].conn in NameIndex(after.conns)
      ensures ExistsTool(x, after.tools[i], NameIndex(after.conns)[after.tools[i].conn])
    {
      var k := ChosenFrom(x.tools, ToolVerdicts(x.tools, ToolNames(db.tools), ids), New, i - |db.tools|);
      var j := IdIndexFrom(after.conns, x.tools[k].conn);
      NameIndexHas(after.conns, j);
      assert CarriesTool(x.tools[k], after.tools[i]);
    }
    forall i | |db.resources| <= i < |after.resources|
      ensures after.resources[i].conn.Some? ==> after.resources[i].conn.value in NameIndex(after.conns)
      ensures ExistsResource(x, after.resources[i],
                             if after.resources[i].conn.Some?
                             then NameIndex(after.conns)[after.resources[i].conn.value] else "")
    {
      var vs := ResourceVerdicts(x.resources, ResourceNames(db.resources), ids);
      var k := ChosenFrom(x.resources, vs, New, i - |db.resources|);
      if after.resources[i].conn.Some? {
        var j := IdIndexFrom(after.conns, x.resources[k].conn.value);
        NameIndexHas(after.conns, j);
      }
      assert CarriesResource(x.resources[k], after.resources[i]);
    }
  }

  /** Every connection and prompt that an import creates carries an entry of the payload. */
  lemma {:induction false} ImportCarries(db: Db, x: Payload, policy: Policy, base: nat, enc: string -> string)
    requires Import(db, x, policy, base, enc, false).Done?
    ensures var after := Import(db, x, policy, base, enc, false).db;
            && (forall i :: |db.conns| <= i < |after.conns| ==> ExistsConn(x, after.conns[i], enc))
            && (forall i :: |db.prompts| <= i < |after.prompts| ==> ExistsPrompt(x, after.prompts[i]))
  {
    var after := Import(db, x, policy, base, enc, false).db;
    forall i | |db.conns| <= i < |after.conns| ensures ExistsConn(x, after.conns[i], enc) {
      ConnCarries(db, x, policy, base, enc, i - |db.conns|);
    }
    forall i | |db.prompts| <= i < |after.prompts| ensures ExistsPrompt(x, after.prompts[i]) {
      PromptCarries(db, x, i - |db.prompts|);
    }
  }

  lemma {:induction false} ConnCarries(db: Db, x: Payload, policy: Policy, base: nat, enc: string -> string, k: nat)
    requires k < |ConnsOf(db, x, policy, New)|
    ensures ExistsConn(x, NewConn(ConnsOf(db, x, policy, New)[k], base + k, enc), enc)
  {
    var i := ChosenFrom(x.conns, ConnVerdicts(x.conns, ConnNames(db.conns), policy), New, k);
    NewConnCarries(x.conns[i], base + k, enc);
  }

  lemma {:induction false} PromptCarries(db: Db, x: Payload, k: nat)
    requires k < |PromptsOf(db, x, New)|
    ensures ExistsPrompt(x, NewPrompt(PromptsOf(db, x, New)[k]))
  {
    var i := ChosenFrom(x.prompts, PromptVerdicts(x.prompts, PromptNames(db.prompts)), New, k);
    assert CarriesPrompt(x.prompts[i], NewPrompt(x.prompts[i]));
  }

  lemma {:induction false} NewConnCarries(x: XConn, id: nat, enc: string -> string)
    ensures CarriesConn(x, NewConn(x, id, enc), enc)
  {
  }

  /** Only the one sensitive field is encrypted, unless it is null or encrypted already. */
  ghost predicate Secures(extra: Extra, stored: Extra, enc: string -> string) {
    match extra
    case None => stored == None
    case Some(m) =>
      && stored.Some? && stored.value.Keys == m.Keys
      && forall k :: k in m ==>
           stored.value[k] == if k == "credentials_json" && m[k] != Null && !IsEncrypted(m[k])
                              then Text("__enc__:" + enc(Dumped(m[k]))) else m[k]
  }

  /** The row holds what the entry says, the password and the sensitive field encrypted. */
  ghost predicate CarriesConn(x: XConn, row: Conn, enc: string -> string) {
    && row.name == x.name && row.host == x.host && row.body == x.body
    && row.password == enc(match x.password case Some(p) => p case None => "")
    && Secures(x.extra, row.extra, enc)
  }

  ghost predicate CarriesTool(x: XTool, row: Tool) {
    && row.name == x.name && row.tags == Some(x.tags) && row.version == 1
    && row.params == x.params && row.body == x.body
  }

  ghost predicate CarriesResource(x: XResource, row: Resource) {
    row.name == x.name && row.tags == Some(x.tags) && row.version == 1 && row.body == x.body
  }

  ghost predicate CarriesPrompt(x: XPrompt, row: Prompt) {
    && row.name == x.name && row.arguments == Some(x.arguments) && row.tags == Some(x.tags)
    && row.version == 1 && row.body == x.body
  }

  ghost predicate ExistsConn(x: Payload, row: Conn, enc: string -> string) {
    exists c :: c in x.conns && CarriesConn(c, row, enc)
  }

  ghost predicate ExistsTool(x: Payload, row: Tool, conn: string) {
    exists t :: t in x.tools && CarriesTool(t, row) && t.conn == conn
  }

  ghost predicate ExistsResource(x: Payload, row: Resource, conn: string) {
    exists r :: r in x.resources && CarriesResource(r, row) && OrNone(r.conn) == conn
  }

  ghost predicate ExistsPrompt(x: Payload, row: Prompt) {
    exists p :: p in x.prompts && CarriesPrompt(p, row)
  }

  // ---- what becomes of each entry ----

  ghost predicate ConnFate(db: Db, after: Db, r: Report, x: XConn, policy: Policy, enc: string -> string) {
    if x.name in ConnNames(db.conns) then x.name in r.skippedConns
    else if x.host != "" && policy.blocked(x.host) then HostBlocked(x.name) in r.errors
    else exists i :: |db.conns| <= i < |after.conns| && CarriesConn(x, after.conns[i], enc)
  }

  ghost predicate ToolFate(db: Db, after: Db, r: Report, x: XTool) {
    if x.name in ToolNames(db.tools) then x.name in r.skippedTools
    else if x.conn !in ConnNames(after.conns) then ToolUnattached(x.name, x.conn) in r.errors
    else exists i :: |db.tools| <= i < |after.tools| && CarriesTool(x, after.tools[i])
  }

  ghost predicate ResourceFate(db: Db, after: Db, r: Report, x: XResource) {
    if x.name in ResourceNames(db.resources) then x.name in r.skippedResources
    else if OrNone(x.conn) != "" && OrNone(x.conn) !in ConnNames(after.conns) then
      ResourceUnattached(x.name, OrNone(x.conn)) in r.errors
    else exists i :: |db.resources| <= i < |after.resources| && CarriesResource(x, after.resources[i])
  }

  ghost predicate PromptFate(db: Db, after: Db, r: Report, x: XPrompt) {
    if x.name in PromptNames(db.prompts) then x.name in r.skippedPrompts
    else exists i :: |db.prompts| <= i < |after.prompts| && CarriesPrompt(x, after.prompts[i])
  }

  lemma {:induction false} ConnFates(db: Db, x: Payload, policy: Policy, base: nat, enc: string -> string, i: nat)
    requires i < |x.conns|
    ensures var after := Filled(db, x, policy, base, enc);
            ConnFate(db, after, ReportOf(db, x, policy, IdIndex(after.conns)), x.conns[i], policy, enc)
  {
    var after := Filled(db, x, policy, base, enc);
    var r := ReportOf(db, x, policy, IdIndex(after.conns));
    var vs := ConnVerdicts(x.conns, ConnNames(db.conns), policy);
    var k := ChosenHas(x.conns, vs, vs[i], i);
    match vs[i]
    case New => NewRowIs(db, x, policy, base, enc, i, k);
    case Skip => assert r.skippedConns[k] == x.conns[i].name;
    case Error => assert r.errors[k] == HostBlocked(x.conns[i].name);
  }

  lemma {:induction false} NewRowIs(db: Db, x: Payload, policy: Policy, base: nat, enc: string -> string, i: nat,
          k: nat)
    requires i < |x.conns| && k < |ConnsOf(db, x, policy, New)| && ConnsOf(db, x, policy, New)[k] == x.conns[i]
    ensures var rows := ConnsAfter(db, x, policy, base, enc);
            |db.conns| + k < |rows| && CarriesConn(x.conns[i], rows[|db.conns| + k], enc)
  {
    NewConnCarries(x.conns[i], base + k, enc);
  }

  lemma {:induction false} KnownIds(cs: seq<Conn>, name: string)
    ensures name in IdIndex(cs) <==> name in ConnNames(cs)
  {
    if name in IdIndex(cs) {
      var i := IdIndexFrom(cs, name);
      assert ConnNames(cs)[i] == name;
    }
    if name in ConnNames(cs) {
      var i :| 0 <= i < |cs| && ConnNames(cs)[i] == name;
      IdIndexHas(cs, i);
    }
  }

  lemma {:induction false} ToolFates(db: Db, x: Payload, policy: Policy, base: nat, enc: string -> string, i: nat)
    requires i < |x.tools|
    ensures var after := Filled(db, x, policy, base, enc);
            ToolFate(db, after, ReportOf(db, x, policy, IdIndex(after.conns)), x.tools[i])
  {
    var after := Filled(db, x, policy, base, enc);
    var ids := IdIndex(after.conns);
    var r := ReportOf(db, x, policy, ids);
    var vs := ToolVerdicts(x.tools, ToolNames(db.tools), ids);
    KnownIds(after.conns, x.tools[i].conn);
    var k := ChosenHas(x.tools, vs, vs[i], i);
    match vs[i]
    case New => assert CarriesTool(x.tools[i], after.tools[|db.tools| + k]);
    case Skip => assert r.skippedTools[k] == x.tools[i].name;
    case Error =>
      assert r.errors[|ConnsOf(db, x, policy, Error)| + k] == ToolUnattached(x.tools[i].name, x.tools[i].conn);
  }

  lemma {:induction false} ResourceFates(db: Db, x: Payload, policy: Policy, base: nat, enc: string -> string, i: nat)
    requires i < |x.resources|
    ensures var after := Filled(db, x, policy, base, enc);
            ResourceFate(db, after, ReportOf(db, x, policy, IdIndex(after.conns)), x.resources[i])
  {
    var after := Filled(db, x, policy, base, enc);
    var ids := IdIndex(after.conns);
    var r, e := ReportOf(db, x, policy, ids), x.resources[i];
    var vs := ResourceVerdicts(x.resources, ResourceNames(db.resources), ids);
    KnownIds(after.conns, OrNone(e.conn));
    var k := ChosenHas(x.resources, vs, vs[i], i);
    match vs[i]
    case New => assert CarriesResource(e, after.resources[|db.resources| + k]);
    case Skip => assert r.skippedResources[k] == e.name;
    case Error =>
      var before := |ConnsOf(db, x, policy, Error)| + |ToolsOf(db, x, ids, Error)|;
      assert r.errors[before + k] == ResourceUnattached(e.name, OrNone(e.conn));
  }

  lemma {:induction false} PromptFates(db: Db, x: Payload, policy: Policy, base: nat, enc: string -> string, i: nat)
    requires i < |x.prompts|
    ensures var after := Filled(db, x, policy, base, enc);
            PromptFate(db, after, ReportOf(db, x, policy, IdIndex(after.conns)), x.prompts[i])
  {
    var after := Filled(db, x, policy, base, enc);
    var r := ReportOf(db, x, policy, IdIndex(after.conns));
    var vs := PromptVerdicts(x.prompts, PromptNames(db.prompts));
    var k := ChosenHas(x.prompts, vs, vs[i], i);
    if vs[i] == New {
      assert CarriesPrompt(x.prompts[i], after.prompts[|db.prompts| + k]);
    } else {
      assert r.skippedPrompts[k] == x.prompts[i].name;
    }
  }

  /** Each entry of an imported payload is skipped for a name that is taken, or reported for
      a blocked host or an unknown connection, or there is a new row that carries it. */
  lemma {:induction false} ImportFates(db: Db, x: Payload, policy: Policy, base: nat, enc: string -> string)
    requires Import(db, x, policy, base, enc, false).Done?
    ensures var Done(r, after) := Import(db, x, policy, base, enc, false);
            && (forall i :: 0 <= i < |x.conns| ==> ConnFate(db, after, r, x.conns[i], policy, enc))
            && (forall i :: 0 <= i < |x.tools| ==> ToolFate(db, after, r, x.tools[i]))
            && (forall i :: 0 <= i < |x.resources| ==> ResourceFate(db, after, r, x.resources[i]))
            && (forall i :: 0 <= i < |x.prompts| ==> PromptFate(db, after, r, x.prompts[i]))
  {
    var Done(r, after) := Import(db, x, policy, base, enc, false);
    forall i | 0 <= i < |x.conns| ensures ConnFate(db, after, r, x.conns[i], policy, enc) {
      ConnFates(db, x, policy, base, enc, i);
    }
    forall i | 0 <= i < |x.tools| ensures ToolFate(db, after, r, x.tools[i]) {
      ToolFates(db, x, policy, base, enc, i);
    }
    forall i | 0 <= i < |x.resources| ensures ResourceFate(db, after, r, x.resources[i]) {
      ResourceFates(db, x, policy, base, enc, i);
    }
    forall i | 0 <= i < |x.prompts| ensures PromptFate(db, after, r, x.prompts[i]) {
      PromptFates(db, x, policy, base, enc, i);
    }
  }

  // ---- when an import goes through ----

  lemma {:induction false} DistinctJoin(a: seq<string>, b: seq<string>)
    requires Distinct(a) && forall y :: y in b ==> y !in a
    ensures Distinct(a + b) <==> Distinct(b)
  {
    if Distinct(a + b) {
      assert forall i :: 0 <= i < |b| ==> b[i] == (a + b)[|a| + i];
    } else {
      var i, j :| 0 <= i < j < |a + b| && (a + b)[i] == (a + b)[j];
      assert (a + b)[j] in b;
    }
  }

  lemma {:induction false} NewNamesUntaken(db: Db, x: Payload, policy: Policy, ids: map<string, nat>)
    ensures forall y :: y in XConnNames(ConnsOf(db, x, policy, New)) ==> y !in ConnNames(db.conns)
    ensures forall y :: y in XToolNames(ToolsOf(db, x, ids, New)) ==> y !in ToolNames(db.tools)
    ensures forall y :: y in XResourceNames(ResourcesOf(db, x, ids, New)) ==> y !in ResourceNames(db.resources)
    ensures forall y :: y in XPromptNames(PromptsOf(db, x, New)) ==> y !in PromptNames(db.prompts)
  {
    forall k | 0 <= k < |ConnsOf(db, x, policy, New)|
      ensures ConnsOf(db, x, policy, New)[k].name !in ConnNames(db.conns)
    {
      var i := ChosenFrom(x.conns, ConnVerdicts(x.conns, ConnNames(db.conns), policy), New, k);
    }
    forall k | 0 <= k < |ToolsOf(db, x, ids, New)| ensures ToolsOf(db, x, ids, New)[k].name !in ToolNames(db.tools) {
      var i := ChosenFrom(x.tools, ToolVerdicts(x.tools, ToolNames(db.tools), ids), New, k);
    }
    forall k | 0 <= k < |ResourcesOf(db, x, ids, New)|
      ensures ResourcesOf(db, x, ids, New)[k].name !in ResourceNames(db.resources)
    {
      var i := ChosenFrom(x.resources, ResourceVerdicts(x.resources, ResourceNames(db.resources), ids), New, k);
    }
    forall k | 0 <= k < |PromptsOf(db, x, New)| ensures PromptsOf(db, x, New)[k].name !in PromptNames(db.prompts) {
      var i := ChosenFrom(x.prompts, PromptVerdicts(x.prompts, PromptNames(db.prompts)), New, k);
    }
  }

  lemma {:induction false} NamesJoin(cs: seq<Conn>, xc: seq<XConn>, base: nat, enc: string -> string,
          ts: seq<Tool>, xt: seq<XTool>, rs: seq<Resource>, xr: seq<XResource>, ids: map<string, nat>)
    ensures ConnNames(cs + ConnRows(xc, base, enc)) == ConnNames(cs) + XConnNames(xc)
    ensures ToolNames(ts + ToolRows(xt, ids)) == ToolNames(ts) + XToolNames(xt)
    ensures ResourceNames(rs + ResourceRows(xr, ids)) == ResourceNames(rs) + XResourceNames(xr)
  {
  }

  lemma {:induction false} PromptNamesJoin(ps: seq<Prompt>, xs: seq<XPrompt>)
    ensures PromptNames(ps + PromptRows(xs)) == PromptNames(ps) + XPromptNames(xs)
  {
  }

  /** An import goes through exactly if the names fit the schema, the guard lets the payload
      pass, and no two entries that are to be created share a name; a dry run does not see a
      prompt's. Otherwise nothing is created. */
  lemma {:induction false} ImportDoneExactly(db: Db, x: Payload, policy: Policy, base: nat, enc: string -> string,
          dryRun: bool)
    requires Sound(db)
    ensures var ids := IdIndex(ConnsAfter(db, x, policy, base, enc));
            Import(db, x, policy, base, enc, dryRun).Done?
            <==> && WellNamed(x) && !policy.guarded(x)
                 && Distinct(XConnNames(ConnsOf(db, x, policy, New)))
                 && Distinct(XToolNames(ToolsOf(db, x, ids, New)))
                 && Distinct(XResourceNames(ResourcesOf(db, x, ids, New)))
                 && (dryRun || Distinct(XPromptNames(PromptsOf(db, x, New))))
  {
    var ids := IdIndex(ConnsAfter(db, x, policy, base, enc));
    NamesJoin(db.conns, ConnsOf(db, x, policy, New), base, enc, db.tools, ToolsOf(db, x, ids, New),
              db.resources, ResourcesOf(db, x, ids, New), ids);
    PromptNamesJoin(db.prompts, PromptsOf(db, x, New));
    NewNamesUntaken(db, x, policy, ids);
    DistinctJoin(ConnNames(db.conns), XConnNames(ConnsOf(db, x, policy, New)));
    DistinctJoin(ToolNames(db.tools), XToolNames(ToolsOf(db, x, ids, New)));
    DistinctJoin(ResourceNames(db.resources), XResourceNames(ResourcesOf(db, x, ids, New)));
    DistinctJoin(PromptNames(db.prompts), XPromptNames(PromptsOf(db, x, New)));
  }

  // ---- idempotence ----

  /** After an import no connection of the payload would be created again. */
  lemma {:induction false} ConnsSettled(db: Db, x: Payload, policy: Policy, base: nat, enc: string -> string)
    ensures forall i :: 0 <= i < |x.conns| ==>
              ConnVerdict(x.conns[i], ConnNames(ConnsAfter(db, x, policy, base, enc)), policy) != New
  {
    var after := ConnsAfter(db, x, policy, base, enc);
    var vs := ConnVerdicts(x.conns, ConnNames(db.conns), policy);
    forall i | 0 <= i < |x.conns| ensures ConnVerdict(x.conns[i], ConnNames(after), policy) != New {
      if vs[i] == New {
        var k := ChosenHas(x.conns, vs, New, i);
        assert ConnNames(after)[|db.conns| + k] == x.conns[i].name;
      } else if vs[i] == Skip {
        var k :| 0 <= k < |db.conns| && ConnNames(db.conns)[k] == x.conns[i].name;
        assert ConnNames(after)[k] == x.conns[i].name;
      }
    }
  }

  lemma {:induction false} ToolsSettled(db: Db, x: Payload, ids: map<string, nat>)
    ensures var after := db.tools + ToolRows(ToolsOf(db, x, ids, New), ids);
            forall i :: 0 <= i < |x.tools| ==> ToolVerdict(x.tools[i], ToolNames(after), ids) != New
  {
    var after := db.tools + ToolRows(ToolsOf(db, x, ids, New), ids);
    var vs := ToolVerdicts(x.tools, ToolNames(db.tools), ids);
    forall i | 0 <= i < |x.tools| ensures ToolVerdict(x.tools[i], ToolNames(after), ids) != New {
      if vs[i] == New {
        var k := ChosenHas(x.tools, vs, New, i);
        assert ToolNames(after)[|db.tools| + k] == x.tools[i].name;
      } else if vs[i] == Skip {
        var k :| 0 <= k < |db.tools| && ToolNames(db.tools)[k] == x.tools[i].name;
        assert ToolNames(after)[k] == x.tools[i].name;
      }
    }
  }

  lemma {:induction false} ResourcesSettled(db: Db, x: Payload, ids: map<string, nat>)
    ensures var after := db.resources + ResourceRows(ResourcesOf(db, x, ids, New), ids);
            forall i :: 0 <= i < |x.resources| ==> ResourceVerdict(x.resources[i], ResourceNames(after), ids) != New
  {
    var after := db.resources + ResourceRows(ResourcesOf(db, x, ids, New), ids);
    var vs := ResourceVerdicts(x.resources, ResourceNames(db.resources), ids);
    forall i | 0 <= i < |x.resources| ensures ResourceVerdict(x.resources[i], ResourceNames(after), ids) != New {
      if vs[i] == New {
        var k := ChosenHas(x.resources, vs, New, i);
        assert ResourceNames(after)[|db.resources| + k] == x.resources[i].name;
      } else if vs[i] == Skip {
        var k :| 0 <= k < |db.resources| && ResourceNames(db.resources)[k] == x.resources[i].name;
        assert ResourceNames(after)[k] == x.resources[i].name;
      }
    }
  }

  lemma {:induction false} PromptsSettled(db: Db, x: Payload)
    ensures var after := db.prompts + PromptRows(PromptsOf(db, x, New));
            forall i :: 0 <= i < |x.prompts| ==> PromptVerdict(x.prompts[i], PromptNames(after)) != New
  {
    var after := db.prompts + PromptRows(PromptsOf(db, x, New));
    var vs := PromptVerdicts(x.prompts, PromptNames(db.prompts));
    forall i | 0 <= i < |x.prompts| ensures PromptVerdict(x.prompts[i], PromptNames(after)) != New {
      if vs[i] == New {
        var k := ChosenHas(x.prompts, vs, New, i);
        assert PromptNames(after)[|db.prompts| + k] == x.prompts[i].name;
      } else {
        var k :| 0 <= k < |db.prompts| && PromptNames(db.prompts)[k] == x.prompts[i].name;
        assert PromptNames(after)[k] == x.prompts[i].name;
      }
    }
  }

  /** What settled verdicts mean for the tables. */
  lemma {:induction false} SettledIsFilled(db: Db, x: Payload, policy: Policy, base: nat, enc: string -> string)
    requires forall i :: 0 <= i < |x.conns| ==> ConnVerdict(x.conns[i], ConnNames(db.conns), policy) != New
    requires forall i :: 0 <= i < |x.tools| ==> ToolVerdict(x.tools[i], ToolNames(db.tools), IdIndex(db.conns)) != New
    requires forall i :: 0 <= i < |x.resources| ==>
               ResourceVerdict(x.resources[i], ResourceNames(db.resources), IdIndex(db.conns)) != New
    requires forall i :: 0 <= i < |x.prompts| ==> PromptVerdict(x.prompts[i], PromptNames(db.prompts)) != New
    ensures Filled(db, x, policy, base, enc) == db
    ensures |ConnsOf(db, x, policy, New)| == |ToolsOf(db, x, IdIndex(db.conns), New)|
            == |ResourcesOf(db, x, IdIndex(db.conns), New)| == |PromptsOf(db, x, New)| == 0
  {
    var ids := IdIndex(db.conns);
    ChosenNone(x.conns, ConnVerdicts(x.conns, ConnNames(db.conns), policy), New);
    assert ConnsAfter(db, x, policy, base, enc) == db.conns;
    ChosenNone(x.tools, ToolVerdicts(x.tools, ToolNames(db.tools), ids), New);
    ChosenNone(x.resources, ResourceVerdicts(x.resources, ResourceNames(db.resources), ids), New);
    ChosenNone(x.prompts, PromptVerdicts(x.prompts, PromptNames(db.prompts)), New);
  }

  /** Importing the same payload a second time, with any other encryption, creates nothing
      and changes nothing. */
  lemma {:induction false} ImportTwice(db: Db, x: Payload, policy: Policy, base: nat, enc: string -> string,
          base2: nat, enc2: string -> string)
    requires Import(db, x, policy, base, enc, false).Done?
    ensures var after := Import(db, x, policy, base, enc, false).db;
            var again := Import(after, x, policy, base2, enc2, false);
            && again.Done? && again.db == after
            && again.report.conns == again.report.tools == again.report.resources == again.report.prompts == 0
  {
    var after := Filled(db, x, policy, base, enc);
    ConnsSettled(db, x, policy, base, enc);
    ToolsSettled(db, x, IdIndex(after.conns));
    ResourcesSettled(db, x, IdIndex(after.conns));
    PromptsSettled(db, x);
    SettledIsFilled(after, x, policy, base2, enc2);
  }

  // ---- round trip ----

  function ToolsAtOne(xs: seq<XTool>): seq<XTool> {
    seq(|xs|, i requires 0 <= i < |xs| => xs[i].(version := 1))
  }

  function ResourcesAtOne(xs: seq<XResource>): seq<XResource> {
    seq(|xs|, i requires 0 <= i < |xs| => xs[i].(version := 1))
  }

  function PromptsAtOne(xs: seq<XPrompt>): seq<XPrompt> {
    seq(|xs|, i requires 0 <= i < |xs| => xs[i].(version := 1))
  }

  /** The payload with every version 1. */
  function Reversioned(x: Payload): Payload {
    Payload(x.conns, ToolsAtOne(x.tools), ResourcesAtOne(x.resources), PromptsAtOne(x.prompts))
  }

  predicate HostsAccepted(cs: seq<Conn>, policy: Policy) {
    forall i :: 0 <= i < |cs| ==> cs[i].host == "" || !policy.blocked(cs[i].host)
  }

  predicate AllClean(cs: seq<Conn>) {
    forall i :: 0 <= i < |cs| ==> Clean(cs[i].extra)
  }

  /** A tool of no connection is exported under the name "unknown". */
  predicate ToolsAttached(db: Db) {
    forall i :: 0 <= i < |db.tools| ==> db.tools[i].conn in NameIndex(db.conns) || "unknown" in ConnNames(db.conns)
  }

  predicate ResourcesAttached(rs: seq<Resource>, names: map<nat, string>) {
    forall i :: 0 <= i < |rs| && rs[i].conn.Some? ==> rs[i].conn.value in names
  }

  lemma {:induction false} HostsTravel(cs: seq<Conn>, policy: Policy)
    ensures var xs := ExportConns(cs);
            var chosen := Chosen(xs, ConnVerdicts(xs, [], policy), New);
            (HostsAccepted(cs, policy) ==> chosen == xs) && (|chosen| == |xs| ==> HostsAccepted(cs, policy))
  {
    var xs := ExportConns(cs);
    var vs := ConnVerdicts(xs, [], policy);
    ChosenAll(xs, vs, New);
    if |Chosen(xs, vs, New)| == |xs| {
      forall i | 0 <= i < |cs| ensures cs[i].host == "" || !policy.blocked(cs[i].host) {
        assert vs[i] == New;
      }
    }
  }

  lemma {:induction false} SecretsTravel(cs: seq<Conn>, base: nat, enc: string -> string)
    ensures ExportConns(ConnRows(ExportConns(cs), base, enc)) == ExportConns(cs) <==> AllClean(cs)
  {
    var xs := ExportConns(cs);
    var ys := ExportConns(ConnRows(xs, base, enc));
    forall i | 0 <= i < |cs| ensures ys[i] == xs[i] <==> Clean(cs[i].extra) {
      MaskIsStable(cs[i].extra, enc);
    }
  }

  /** The connection that carried a name before carries it under its new id. */
  lemma {:induction false} NameTravels(rows: seq<Conn>, name: string)
    requires DistinctIds(rows)
    ensures name in IdIndex(rows) <==> name in ConnNames(rows)
    ensures name in IdIndex(rows) ==>
              IdIndex(rows)[name] in NameIndex(rows) && NameIndex(rows)[IdIndex(rows)[name]] == name
  {
    if name in ConnNames(rows) {
      var i :| 0 <= i < |rows| && ConnNames(rows)[i] == name;
      IdIndexHas(rows, i);
    }
    if name in IdIndex(rows) {
      var j := IdIndexFrom(rows, name);
      assert ConnNames(rows)[j] == name;
      NameIndexHas(rows, j);
    }
  }

  lemma {:induction false} ExportedNameKnown(cs: seq<Conn>, id: nat) returns (i: nat)
    requires id in NameIndex(cs)
    ensures i < |cs| && NameIndex(cs)[id] == cs[i].name
  {
    i := |cs| - 1;
    if id != cs[i].id { i := ExportedNameKnown(cs[..i], id); }
  }

  /** Where ids and names are inverse, tools come back attached as they were, exactly
      when all their connections' names are known. */
  lemma {:induction false} ToolsTravel(ts: seq<Tool>, names: map<nat, string>, ids: map<string, nat>,
          back: map<nat, string>)
    requires forall name :: name in ids ==> ids[name] in back && back[ids[name]] == name
    ensures var xs := ExportTools(ts, names);
            var rows := ToolRows(Chosen(xs, ToolVerdicts(xs, [], ids), New), ids);
            && (ExportTools(rows, back) == ToolsAtOne(xs)
                <==> forall i :: 0 <= i < |ts| ==> Get(names, ts[i].conn, "unknown") in ids)
            && (ExportTools(rows, back) == ToolsAtOne(xs) ==> ToolNames(rows) == ToolNames(ts))
  {
    var xs := ExportTools(ts, names);
    var vs := ToolVerdicts(xs, [], ids);
    var rows := ToolRows(Chosen(xs, vs, New), ids);
    ChosenAll(xs, vs, New);
    if |rows| == |ts| {
      assert Chosen(xs, vs, New) == xs;
      forall i | 0 <= i < |ts|
        ensures Get(names, ts[i].conn, "unknown") in ids
        ensures ExportTools(rows, back)[i] == ToolsAtOne(xs)[i]
      {
        assert vs[i] == New;
        SortedOrders(ts[i].params);
        SortedLeavesOrdered(xs[i].params);
      }
    } else {
      assert |ExportTools(rows, back)| != |ToolsAtOne(xs)|;
      var i :| 0 <= i < |vs| && vs[i] != New;
      assert Get(names, ts[i].conn, "unknown") !in ids;
    }
  }

  lemma {:induction false} ResourceTravels(r: Resource, names: map<nat, string>, ids: map<string, nat>,
          back: map<nat, string>)
    requires forall name :: name in ids ==> ids[name] in back && back[ids[name]] == name
    requires forall id :: id in names ==> names[id] != "" && names[id] in ids
    ensures var x := ExportResource(r, names);
            && ResourceVerdict(x, [], ids) == New
            && (ExportResource(NewResource(x, ids), back) == x.(version := 1)
                <==> (r.conn.Some? ==> r.conn.value in names))
  {
  }

  lemma {:induction false} ResourcesTravel(rs: seq<Resource>, names: map<nat, string>, ids: map<string, nat>,
          back: map<nat, string>)
    requires forall name :: name in ids ==> ids[name] in back && back[ids[name]] == name
    requires forall id :: id in names ==> names[id] != "" && names[id] in ids
    ensures var xs := ExportResources(rs, names);
            var rows := ResourceRows(Chosen(xs, ResourceVerdicts(xs, [], ids), New), ids);
            && (ExportResources(rows, back) == ResourcesAtOne(xs) <==> ResourcesAttached(rs, names))
            && ResourceNames(rows) == ResourceNames(rs)
  {
    var xs := ExportResources(rs, names);
    var vs := ResourceVerdicts(xs, [], ids);
    forall i | 0 <= i < |rs|
      ensures vs[i] == New
      ensures ExportResource(NewResource(xs[i], ids), back) == xs[i].(version := 1)
         <==> (rs[i].conn.Some? ==> rs[i].conn.value in names)
    {
      ResourceTravels(rs[i], names, ids, back);
    }
    ChosenAll(xs, vs, New);
    RowsCompare(rs, names, ids, back);
  }

  lemma {:induction false} RowsCompare(rs: seq<Resource>, names: map<nat, string>, ids: map<string, nat>,
          back: map<nat, string>)
    requires forall i :: 0 <= i < |rs| ==>
               (ExportResource(NewResource(ExportResource(rs[i], names), ids), back)
                == ExportResource(rs[i], names).(version := 1)
                <==> (rs[i].conn.Some? ==> rs[i].conn.value in names))
    ensures var xs := ExportResources(rs, names);
            ExportResources(ResourceRows(xs, ids), back) == ResourcesAtOne(xs) <==> ResourcesAttached(rs, names)
  {
    var xs := ExportResources(rs, names);
    var a, b := ExportResources(ResourceRows(xs, ids), back), ResourcesAtOne(xs);
    assert forall i :: 0 <= i < |rs| ==> (a[i] == b[i] <==> (rs[i].conn.Some? ==> rs[i].conn.value in names));
    if ResourcesAttached(rs, names) { assert a == b; }
  }

  lemma {:induction false} PromptsAgain(ps: seq<Prompt>)
    ensures var xs := ExportPrompts(ps);
            ExportPrompts(PromptRows(xs)) == PromptsAtOne(xs) && PromptNames(PromptRows(xs)) == PromptNames(ps)
  {
  }

  lemma {:induction false} PromptsTravel(ps: seq<Prompt>)
    ensures var xs := ExportPrompts(ps);
            var rows := PromptRows(Chosen(xs, PromptVerdicts(xs, []), New));
            ExportPrompts(rows) == PromptsAtOne(xs) && PromptNames(rows) == PromptNames(ps)
  {
    var xs := ExportPrompts(ps);
    ChosenAll(xs, PromptVerdicts(xs, []), New);
    PromptsAgain(ps);
  }

  /** What the new rows' index knows is what the old connections' names were. */
  lemma {:induction false} IndexTravels(cs: seq<Conn>, rows: seq<Conn>)
    requires DistinctIds(rows) && ConnNames(rows) == ConnNames(cs)
    ensures forall name :: name in IdIndex(rows) <==> name in ConnNames(cs)
    ensures forall name :: name in IdIndex(rows) ==>
              IdIndex(rows)[name] in NameIndex(rows) && NameIndex(rows)[IdIndex(rows)[name]] == name
    ensures forall id :: id in NameIndex(cs) ==> NameIndex(cs)[id] in IdIndex(rows)
  {
    forall name ensures name in IdIndex(rows) <==> name in ConnNames(cs)
                ensures name in IdIndex(rows) ==>
                          IdIndex(rows)[name] in NameIndex(rows) && NameIndex(rows)[IdIndex(rows)[name]] == name
    {
      NameTravels(rows, name);
    }
    forall id | id in NameIndex(cs) ensures NameIndex(cs)[id] in IdIndex(rows) {
      var i := ExportedNameKnown(cs, id);
      assert ConnNames(cs)[i] == NameIndex(cs)[id];
    }
  }

  /** What an import into the empty store makes, table by table. */
  lemma {:induction false} FilledEmpty(x: Payload, policy: Policy, base: nat, enc: string -> string)
    ensures var after := Filled(EMPTY, x, policy, base, enc);
            var ids := IdIndex(after.conns);
            && after.conns == ConnRows(Chosen(x.conns, ConnVerdicts(x.conns, [], policy), New), base, enc)
            && after.tools == ToolRows(Chosen(x.tools, ToolVerdicts(x.tools, [], ids), New), ids)
            && after.resources == ResourceRows(Chosen(x.resources, ResourceVerdicts(x.resources, [], ids), New), ids)
            && after.prompts == PromptRows(Chosen(x.prompts, PromptVerdicts(x.prompts, []), New))
  {
    assert ConnNames([]) == [] && ToolNames([]) == [] && ResourceNames([]) == [] && PromptNames([]) == [];
  }

  lemma {:induction false} KnownNamesNotEmpty(cs: seq<Conn>)
    requires forall c :: c in ExportConns(cs) ==> NameOk(c.name)
    ensures forall id :: id in NameIndex(cs) ==> NameIndex(cs)[id] != ""
  {
    forall id | id in NameIndex(cs) ensures NameIndex(cs)[id] != "" {
      var i := ExportedNameKnown(cs, id);
      assert ExportConns(cs)[i] in ExportConns(cs);
    }
  }

  lemma {:induction false} AttachedByName(db: Db, ids: map<string, nat>)
    requires forall name :: name in ids <==> name in ConnNames(db.conns)
    requires forall id :: id in NameIndex(db.conns) ==> NameIndex(db.conns)[id] in ids
    ensures (forall i :: 0 <= i < |db.tools| ==> Get(NameIndex(db.conns), db.tools[i].conn, "unknown") in ids)
       <==> ToolsAttached(db)
  {
  }

  lemma {:induction false} FreshRows(cs: seq<Conn>, base: nat, enc: string -> string)
    ensures var rows := ConnRows(ExportConns(cs), base, enc);
            ConnNames(rows) == ConnNames(cs) && DistinctIds(rows)
  {
    var rows := ConnRows(ExportConns(cs), base, enc);
    assert forall i :: 0 <= i < |rows| ==> rows[i].id == base + i && rows[i].name == cs[i].name;
  }

  lemma {:induction false} ConnPart(cs: seq<Conn>, policy: Policy, base: nat, enc: string -> string)
    requires HostsAccepted(cs, policy)
    ensures var xs := ExportConns(cs);
            var rows := ConnRows(Chosen(xs, ConnVerdicts(xs, [], policy), New), base, enc);
            && ConnNames(rows) == ConnNames(cs) && DistinctIds(rows)
            && (ExportConns(rows) == xs <==> AllClean(cs))
  {
    HostsTravel(cs, policy);
    FreshRows(cs, base, enc);
    SecretsTravel(cs, base, enc);
  }

  lemma {:induction false} ToolPart(db: Db, rows: seq<Conn>)
    requires DistinctIds(rows) && ConnNames(rows) == ConnNames(db.conns)
    ensures var ids := IdIndex(rows);
            var xs := ExportTools(db.tools, NameIndex(db.conns));
            var tools := ToolRows(Chosen(xs, ToolVerdicts(xs, [], ids), New), ids);
            && (ExportTools(tools, NameIndex(rows)) == ToolsAtOne(xs) <==> ToolsAttached(db))
            && (ExportTools(tools, NameIndex(rows)) == ToolsAtOne(xs) ==> ToolNames(tools) == ToolNames(db.tools))
  {
    IndexTravels(db.conns, rows);
    ToolsTravel(db.tools, NameIndex(db.conns), IdIndex(rows), NameIndex(rows));
    AttachedByName(db, IdIndex(rows));
  }

  lemma {:induction false} ResourcePart(db: Db, rows: seq<Conn>)
    requires DistinctIds(rows) && ConnNames(rows) == ConnNames(db.conns)
    requires forall c :: c in ExportConns(db.conns) ==> NameOk(c.name)
    ensures var ids := IdIndex(rows);
            var xs := ExportResources(db.resources, NameIndex(db.conns));
            var resources := ResourceRows(Chosen(xs, ResourceVerdicts(xs, [], ids), New), ids);
            && (ExportResources(resources, NameIndex(rows)) == ResourcesAtOne(xs)
                <==> ResourcesAttached(db.resources, NameIndex(db.conns)))
            && ResourceNames(resources) == ResourceNames(db.resources)
  {
    IndexTravels(db.conns, rows);
    KnownNamesNotEmpty(db.conns);
    ResourcesTravel(db.resources, NameIndex(db.conns), IdIndex(rows), NameIndex(rows));
  }

  /** The heart of the round trip, for hosts that are accepted. */
  lemma {:induction false} SnapshotTravels(db: Db, policy: Policy, base: nat, enc: string -> string)
    requires Sound(db) && WellNamed(Snapshot(db)) && HostsAccepted(db.conns, policy)
    ensures var x, after := Snapshot(db), Filled(EMPTY, Snapshot(db), policy, base, enc);
            && (Snapshot(after) == Reversioned(x)
                <==> AllClean(db.conns) && ToolsAttached(db) && ResourcesAttached(db.resources, NameIndex(db.conns)))
            && (Snapshot(after) == Reversioned(x) ==> Accepted(after, false))
  {
    var x, after := Snapshot(db), Filled(EMPTY, Snapshot(db), policy, base, enc);
    FilledEmpty(x, policy, base, enc);
    ConnPart(db.conns, policy, base, enc);
    ToolPart(db, after.conns);
    ResourcePart(db, after.conns);
    PromptsTravel(db.prompts);
  }

  /** The round trip: exporting, importing into an empty store and exporting again gives the
      same snapshot up to versions, with everything still attached by name, exactly when
      the names fit the schema, the guard and the host check let everything pass, no
      sensitive field is empty, and nothing refers to a missing connection. What the snapshot
      holds is what the tables hold. */
  lemma {:induction false} RoundTrip(db: Db, policy: Policy, base: nat, enc: string -> string)
    requires Sound(db)
    ensures Export(db).Some? ==> Export(db) == Some(Snapshot(db)) && Tells(db, Snapshot(db))
    ensures Returns(db, policy, base, enc)
       <==> && WellNamed(Snapshot(db)) && !policy.guarded(Snapshot(db)) && HostsAccepted(db.conns, policy)
            && AllClean(db.conns) && ToolsAttached(db) && ResourcesAttached(db.resources, NameIndex(db.conns))
  {
    ExportTells(db);
    ReturnsExactly(db, policy, base, enc);
  }

  /** Exported, imported into an empty store and exported again, it is the same snapshot. */
  ghost predicate Returns(db: Db, policy: Policy, base: nat, enc: string -> string) {
    var out := Import(EMPTY, Snapshot(db), policy, base, enc, false);
    Export(db).Some? && out.Done? && Export(out.db) == Some(Reversioned(Snapshot(db)))
  }

  lemma {:induction false} ReturnsExactly(db: Db, policy: Policy, base: nat, enc: string -> string)
    requires Sound(db)
    ensures Returns(db, policy, base, enc)
       <==> && WellNamed(Snapshot(db)) && !policy.guarded(Snapshot(db)) && HostsAccepted(db.conns, policy)
            && AllClean(db.conns) && ToolsAttached(db) && ResourcesAttached(db.resources, NameIndex(db.conns))
  {
    var x, after := Snapshot(db), Filled(EMPTY, Snapshot(db), policy, base, enc);
    if WellNamed(x) && !policy.guarded(x) {
      if HostsAccepted(db.conns, policy) {
        SnapshotTravels(db, policy, base, enc);
        ReversionedNames(x);
      } else {
        FilledEmpty(x, policy, base, enc);
        HostsTravel(db.conns, policy);
        assert |Snapshot(after).conns| == |after.conns| != |x.conns|;
      }
    }
  }

  lemma {:induction false} ReversionedNames(x: Payload)
    requires WellNamed(x)
    ensures WellNamed(Reversioned(x))
  {
    var y := Reversioned(x);
    forall t | t in y.tools ensures NameOk(t.name) {
      var i :| 0 <= i < |x.tools| && y.tools[i] == t;
      assert x.tools[i] in x.tools;
    }
    forall r | r in y.resources ensures NameOk(r.name) {
      var i :| 0 <= i < |x.resources| && y.resources[i] == r;
      assert x.resources[i] in x.resources;
    }
    forall p | p in y.prompts ensures NameOk(p.name) {
      var i :| 0 <= i < |x.prompts| && y.prompts[i] == p;
      assert x.prompts[i] in x.prompts;
    }
  }

  // ---- the endpoints ----

  /** `mask_sensitive_extra` */
  method MaskSensitive(extra: Extra) returns (r: Extra)
    ensures r == Masked(extra) && Hides(extra, r)
  {
    if extra.None? {
      return None;
    }
    var m := extra.value;
    var result := m;
    var left := SENSITIVE;
    while left != {}
      invariant left <= SENSITIVE
      invariant result == map k | k in m :: if k in SENSITIVE && k !in left then MaskedValue(m[k]) else m[k]
      decreases left
    {
      var key :| key in left;
      if key in result && Truthy(result[key]) {
        result := result[key := Text(MASK)];
      }
      left := left - {key};
    }
    assert result == Masked(extra).value;
    return Some(result);
  }

  /** `encrypt_sensitive_extra` */
  method EncryptSensitive(extra: Extra, enc: string -> string) returns (r: Extra)
    ensures r == Encrypted(extra, enc) && Secures(extra, r, enc)
  {
    if extra.None? {
      return None;
    }
    var m := extra.value;
    var result := m;
    var left := SENSITIVE;
    while left != {}
      invariant left <= SENSITIVE
      invariant result == map k | k in m :: if k in SENSITIVE && k !in left then EncryptedValue(m[k], enc) else m[k]
      decreases left
    {
      var key :| key in left;
      left := left - {key};
      var value := Get(result, key, Null);
      if value != Null && !IsEncrypted(value) {
        result := result[key := Text(ENC + enc(Dumped(value)))];
      }
    }
    assert result == Encrypted(extra, enc).value;
    return Some(result);
  }

  /** The connections and the report once the first entries are dealt with. */
  ghost predicate ConnsDone(was: seq<Conn>, now: seq<Conn>, xs: seq<XConn>, vs: seq<Verdict>, base: nat,
                            enc: string -> string, created: nat, skipped: seq<string>, errors: seq<Problem>)
    requires |xs| == |vs|
  {
    && now == was + ConnRows(Chosen(xs, vs, New), base, enc)
    && created == |Chosen(xs, vs, New)|
    && skipped == XConnNames(Chosen(xs, vs, Skip))
    && errors == ConnErrors(Chosen(xs, vs, Error))
  }

  lemma {:induction false} ConnSnoc(xs: seq<XConn>, x: XConn, base: nat, enc: string -> string)
    ensures ConnRows(xs + [x], base, enc) == ConnRows(xs, base, enc) + [NewConn(x, base + |xs|, enc)]
    ensures XConnNames(xs + [x]) == XConnNames(xs) + [x.name]
    ensures ConnErrors(xs + [x]) == ConnErrors(xs) + [HostBlocked(x.name)]
  {
  }

  lemma {:induction false} ConnDone(was: seq<Conn>, now: seq<Conn>, xs: seq<XConn>, vs: seq<Verdict>, i: nat,
          base: nat, enc: string -> string, created: nat, skipped: seq<string>, errors: seq<Problem>,
          now': seq<Conn>, created': nat, skipped': seq<string>, errors': seq<Problem>)
    requires |xs| == |vs| && i < |xs| && ConnsDone(was, now, xs[..i], vs[..i], base, enc, created, skipped, errors)
    requires now' == if vs[i] == New then now + [NewConn(xs[i], base + created, enc)] else now
    requires created' == if vs[i] == New then created + 1 else created
    requires skipped' == if vs[i] == Skip then skipped + [xs[i].name] else skipped
    requires errors' == if vs[i] == Error then errors + [HostBlocked(xs[i].name)] else errors
    ensures ConnsDone(was, now', xs[..i + 1], vs[..i + 1], base, enc, created', skipped', errors')
  {
    var v := vs[i];
    ChosenStep(xs, vs, i, New);
    ChosenStep(xs, vs, i, Skip);
    ChosenStep(xs, vs, i, Error);
    var chosen := Chosen(xs[..i], vs[..i], v);
    ConnSnoc(chosen, xs[i], base, enc);
    if v == New {
      var row := NewConn(xs[i], base + created, enc);
      assert was + (ConnRows(chosen, base, enc) + [row]) == now + [row];
    }
  }

  lemma {:induction false} IdIndexAppend(cs: seq<Conn>, c: Conn)
    ensures IdIndex(cs + [c]) == IdIndex(cs)[c.name := c.id]
  {
    assert (cs + [c])[..|cs|] == cs;
  }

  lemma {:induction false} FilledSound(db: Db, x: Payload, policy: Policy, base: nat, enc: string -> string)
    requires Sound(db) && Fresh(db, base) && Accepted(Filled(db, x, policy, base, enc), false)
    ensures Sound(Filled(db, x, policy, base, enc))
    ensures Fresh(Filled(db, x, policy, base, enc), base + |ConnsOf(db, x, policy, New)|)
  {
    ConnsAfterDistinct(db, x, policy, base, enc);
  }

  lemma {:induction false} ChosenStep<X>(xs: seq<X>, vs: seq<Verdict>, i: nat, v: Verdict)
    requires |xs| == |vs| && i < |xs|
    ensures Chosen(xs[..i + 1], vs[..i + 1], v) == Chosen(xs[..i], vs[..i], v) + if vs[i] == v then [xs[i]] else []
  {
    assert xs[..i + 1][..i] == xs[..i] && vs[..i + 1][..i] == vs[..i];
  }

  /** The tools and the report once the first entries are dealt with. */
  ghost predicate ToolsDone(was: seq<Tool>, now: seq<Tool>, xs: seq<XTool>, vs: seq<Verdict>, ids: map<string, nat>,
                            created: nat, skipped: seq<string>, errors: seq<Problem>)
    requires |xs| == |vs|
  {
    && now == was + ToolRows(Chosen(xs, vs, New), ids)
    && created == |Chosen(xs, vs, New)|
    && skipped == XToolNames(Chosen(xs, vs, Skip))
    && errors == ToolErrors(Chosen(xs, vs, Error))
  }

  lemma {:induction false} ToolDone(was: seq<Tool>, now: seq<Tool>, xs: seq<XTool>, vs: seq<Verdict>, i: nat,
          ids: map<string, nat>, created: nat, skipped: seq<string>, errors: seq<Problem>)
    requires |xs| == |vs| && i < |xs| && ToolsDone(was, now, xs[..i], vs[..i], ids, created, skipped, errors)
    ensures ToolsDone(was, if vs[i] == New then now + [NewTool(xs[i], ids)] else now, xs[..i + 1], vs[..i + 1], ids,
                      if vs[i] == New then created + 1 else created,
                      if vs[i] == Skip then skipped + [xs[i].name] else skipped,
                      if vs[i] == Error then errors + [ToolUnattached(xs[i].name, xs[i].conn)] else errors)
  {
    ChosenStep(xs, vs, i, New);
    ChosenStep(xs, vs, i, Skip);
    ChosenStep(xs, vs, i, Error);
  }

  /** The resources and the report once the first entries are dealt with. */
  ghost predicate ResourcesDone(was: seq<Resource>, now: seq<Resource>, xs: seq<XResource>, vs: seq<Verdict>,
                                ids: map<string, nat>, created: nat, skipped: seq<string>, errors: seq<Problem>)
    requires |xs| == |vs|
  {
    && now == was + ResourceRows(Chosen(xs, vs, New), ids)
    && created == |Chosen(xs, vs, New)|
    && skipped == XResourceNames(Chosen(xs, vs, Skip))
    && errors == ResourceErrors(Chosen(xs, vs, Error))
  }

  lemma {:induction false} ResourceDone(was: seq<Resource>, now: seq<Resource>, xs: seq<XResource>, vs: seq<Verdict>,
          i: nat, ids: map<string, nat>, created: nat, skipped: seq<string>, errors: seq<Problem>)
    requires |xs| == |vs| && i < |xs| && ResourcesDone(was, now, xs[..i], vs[..i], ids, created, skipped, errors)
    ensures ResourcesDone(was, if vs[i] == New then now + [NewResource(xs[i], ids)] else now,
                          xs[..i + 1], vs[..i + 1], ids,
                          if vs[i] == New then created + 1 else created,
                          if vs[i] == Skip then skipped + [xs[i].name] else skipped,
                          if vs[i] == Error then errors + [ResourceUnattached(xs[i].name, OrNone(xs[i].conn))]
                          else errors)
  {
    ChosenStep(xs, vs, i, New);
    ChosenStep(xs, vs, i, Skip);
    ChosenStep(xs, vs, i, Error);
  }

  method BuildConn(x: XConn, id: nat, enc: string -> string) returns (row: Conn)
    ensures row == NewConn(x, id, enc) && CarriesConn(x, row, enc)
  {
    var password := enc(if x.password.Some? then x.password.value else "");
    var extra := EncryptSensitive(x.extra, enc);
    row := Conn(id, x.name, x.host, password, extra, x.body);
  }

  class Studio {
    var conns: seq<Conn>
    var tools: seq<Tool>
    var resources: seq<Resource>
    var prompts: seq<Prompt>
    var nextId: nat

    ghost function State(): Db
      reads this
    {
      Db(conns, tools, resources, prompts)
    }

    ghost predicate Valid()
      reads this
    {
      Sound(State()) && Fresh(State(), nextId)
    }

    method ExportAll() returns (r: Option<Payload>)
      ensures r == Export(State())
      ensures r.Some? && DistinctIds(conns) ==> Tells(State(), r.value)
    {
      var names: map<nat, string> := map[];
      var xc: seq<XConn> := [];
      for i := 0 to |conns|
        invariant names == NameIndex(conns[..i]) && xc == ExportConns(conns[..i])
      {
        var c := conns[i];
        assert conns[..i + 1][..i] == conns[..i];
        names := names[c.id := c.name];
        var extra := MaskSensitive(c.extra);
        xc := xc + [XConn(c.name, c.host, None, extra, c.body)];
      }
      assert conns[..|conns|] == conns;
      var xt: seq<XTool> := [];
      for i := 0 to |tools|
        invariant xt == ExportTools(tools[..i], names)
      {
        xt := xt + [ExportTool(tools[i], names)];
      }
      assert tools[..|tools|] == tools;
      var xr: seq<XResource> := [];
      for i := 0 to |resources|
        invariant xr == ExportResources(resources[..i], names)
      {
        xr := xr + [ExportResource(resources[i], names)];
      }
      assert resources[..|resources|] == resources;
      var xp: seq<XPrompt> := [];
      for i := 0 to |prompts|
        invariant xp == ExportPrompts(prompts[..i])
      {
        xp := xp + [ExportPrompt(prompts[i])];
      }
      assert prompts[..|prompts|] == prompts;
      var x := Payload(xc, xt, xr, xp);
      if DistinctIds(conns) { ExportTells(State()); }
      r := if WellNamed(x) then Some(x) else None;
    }

    /** One round of the first loop. */
    method ImportConn(x: XConn, existing: seq<string>, policy: Policy, enc: string -> string, ids: map<string, nat>)
      returns (verdict: Verdict, index: map<string, nat>)
      requires ids == IdIndex(conns)
      modifies this`conns, this`nextId
      ensures verdict == ConnVerdict(x, existing, policy) && index == IdIndex(conns)
      ensures if verdict == New then conns == old(conns) + [NewConn(x, old(nextId), enc)] && nextId == old(nextId) + 1
              else conns == old(conns) && nextId == old(nextId)
    {
      if x.name in existing {
        return Skip, ids;
      }
      if x.host != "" && policy.blocked(x.host) {
        return Error, ids;
      }
      var row := BuildConn(x, nextId, enc);
      IdIndexAppend(conns, row);
      conns, nextId := conns + [row], nextId + 1;
      return New, ids[x.name := row.id];
    }

    method ImportConns(xs: seq<XConn>, policy: Policy, enc: string -> string)
      returns (ids: map<string, nat>, created: nat, skipped: seq<string>, errors: seq<Problem>)
      modifies this`conns, this`nextId
      ensures var vs := ConnVerdicts(xs, ConnNames(old(conns)), policy);
              && conns == old(conns) + ConnRows(Chosen(xs, vs, New), old(nextId), enc)
              && created == |Chosen(xs, vs, New)| && nextId == old(nextId) + created
              && skipped == XConnNames(Chosen(xs, vs, Skip))
              && errors == ConnErrors(Chosen(xs, vs, Error))
      ensures ids == IdIndex(conns)
    {
      var existing := ConnNames(conns);
      ids, created, skipped, errors := IdIndex(conns), 0, [], [];
      ghost var vs := ConnVerdicts(xs, existing, policy);
      for i := 0 to |xs|
        invariant ConnsDone(old(conns), conns, xs[..i], vs[..i], old(nextId), enc, created, skipped, errors)
        invariant nextId == old(nextId) + created && ids == IdIndex(conns)
      {
        ghost var now, c, s, e := conns, created, skipped, errors;
        var verdict;
        verdict, ids := ImportConn(xs[i], existing, policy, enc, ids);
        match verdict {
          case New => created := created + 1;
          case Skip => skipped := skipped + [xs[i].name];
          case Error => errors := errors + [HostBlocked(xs[i].name)];
        }
        ConnDone(old(conns), now, xs, vs, i, old(nextId), enc, c, s, e, conns, created, skipped, errors);
      }
      assert xs[..|xs|] == xs && vs[..|xs|] == vs;
    }

    method ImportTools(xs: seq<XTool>, ids: map<string, nat>)
      returns (created: nat, skipped: seq<string>, errors: seq<Problem>)
      modifies this`tools
      ensures var vs := ToolVerdicts(xs, ToolNames(old(tools)), ids);
              && tools == old(tools) + ToolRows(Chosen(xs, vs, New), ids)
              && created == |Chosen(xs, vs, New)|
              && skipped == XToolNames(Chosen(xs, vs, Skip))
              && errors == ToolErrors(Chosen(xs, vs, Error))
    {
      var existing := ToolNames(tools);
      created, skipped, errors := 0, [], [];
      ghost var vs := ToolVerdicts(xs, existing, ids);
      for i := 0 to |xs|
        invariant ToolsDone(old(tools), tools, xs[..i], vs[..i], ids, created, skipped, errors)
      {
        var x := xs[i];
        ToolDone(old(tools), tools, xs, vs, i, ids, created, skipped, errors);
        if x.name in existing {
          skipped := skipped + [x.name];
        } else if x.conn !in ids {
          errors := errors + [ToolUnattached(x.name, x.conn)];
        } else {
          tools := tools + [Tool(x.name, ids[x.conn], Some(x.tags), 1, x.params, x.body)];
          created := created + 1;
        }
      }
      assert xs[..|xs|] == xs && vs[..|xs|] == vs;
    }

    method ImportResources(xs: seq<XResource>, ids: map<string, nat>)
      returns (created: nat, skipped: seq<string>, errors: seq<Problem>)
      modifies this`resources
      ensures var vs := ResourceVerdicts(xs, ResourceNames(old(resources)), ids);
              && resources == old(resources) + ResourceRows(Chosen(xs, vs, New), ids)
              && created == |Chosen(xs, vs, New)|
              && skipped == XResourceNames(Chosen(xs, vs, Skip))
              && errors == ResourceErrors(Chosen(xs, vs, Error))
    {
      var existing := ResourceNames(resources);
      created, skipped, errors := 0, [], [];
      ghost var vs := ResourceVerdicts(xs, existing, ids);
      for i := 0 to |xs|
        invariant ResourcesDone(old(resources), resources, xs[..i], vs[..i], ids, created, skipped, errors)
      {
        var x := xs[i];
        ResourceDone(old(resources), resources, xs, vs, i, ids, created, skipped, errors);
        if x.name in existing {
          skipped := skipped + [x.name];
        } else if x.conn.Some? && x.conn.value != "" && x.conn.value !in ids {
          errors := errors + [ResourceUnattached(x.name, x.conn.value)];
        } else {
          var conn := if x.conn.Some? && x.conn.value != "" then Some(ids[x.conn.value]) else None;
          resources := resources + [Resource(x.name, conn, Some(x.tags), 1, x.body)];
          created := created + 1;
        }
      }
      assert xs[..|xs|] == xs && vs[..|xs|] == vs;
    }

    method ImportPrompts(xs: seq<XPrompt>) returns (created: nat, skipped: seq<string>)
      modifies this`prompts
      ensures var vs := PromptVerdicts(xs, PromptNames(old(prompts)));
              && prompts == old(prompts) + PromptRows(Chosen(xs, vs, New))
              && created == |Chosen(xs, vs, New)|
              && skipped == XPromptNames(Chosen(xs, vs, Skip))
    {
      var existing := PromptNames(prompts);
      created, skipped := 0, [];
      ghost var vs := PromptVerdicts(xs, existing);
      for i := 0 to |xs|
        invariant prompts == old(prompts) + PromptRows(Chosen(xs[..i], vs[..i], New))
        invariant created == |Chosen(xs[..i], vs[..i], New)|
        invariant skipped == XPromptNames(Chosen(xs[..i], vs[..i], Skip))
      {
        var x := xs[i];
        ChosenStep(xs, vs, i, New);
        ChosenStep(xs, vs, i, Skip);
        if x.name in existing {
          skipped := skipped + [x.name];
        } else {
          prompts := prompts + [Prompt(x.name, Some(x.arguments), Some(x.tags), 1, x.body)];
          created := created + 1;
        }
      }
      assert xs[..|xs|] == xs && vs[..|xs|] == vs;
    }

    /** The four loops of `import_all`, one after another. */
    method ImportRows(x: Payload, policy: Policy, enc: string -> string) returns (report: Report)
      modifies this
      ensures State() == Filled(old(State()), x, policy, old(nextId), enc)
      ensures report == ReportOf(old(State()), x, policy, IdIndex(conns))
      ensures nextId == old(nextId) + |ConnsOf(old(State()), x, policy, New)|
    {
      var ids, nc, sc, ec := ImportConns(x.conns, policy, enc);
      var nt, st, et := ImportTools(x.tools, ids);
      var nr, sr, er := ImportResources(x.resources, ids);
      var np, sp := ImportPrompts(x.prompts);
      report := Report(nc, nt, nr, np, sc, st, sr, sp, ec + et + er);
    }

    /** `import_all`; a unique constraint that fails rolls everything back, as does a dry run. */
    method ImportAll(x: Payload, policy: Policy, enc: string -> string, dryRun: bool) returns (outcome: Outcome)
      requires Valid()
      modifies this
      ensures Valid()
      ensures outcome == Import(old(State()), x, policy, old(nextId), enc, dryRun)
      ensures State() == if outcome.Done? then outcome.db else old(State())
    {
      if !WellNamed(x) {
        return Malformed;
      }
      if policy.guarded(x) {
        return Guarded;
      }
      var saved := Db(conns, tools, resources, prompts);
      var report := ImportRows(x, policy, enc);
      var accepted := Accepted(Db(conns, tools, resources, prompts), dryRun);
      if !accepted || dryRun {
        conns, tools, resources, prompts := saved.conns, saved.tools, saved.resources, saved.prompts;
      } else {
        FilledSound(saved, x, policy, old(nextId), enc);
      }
      outcome := if accepted then Done(report, Db(conns, tools, resources, prompts)) else Failed;
    }
  }
}
