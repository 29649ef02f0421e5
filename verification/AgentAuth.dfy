/** The backend's own view of agent tokens, OAuth clients and sessions: exchanging and
    refreshing credentials, validating and introspecting bearer tokens, revoking. The
    requests of this module run one after another; AgentProtocol interleaves them. */
module AgentAuth {
  import opened Credentials
  import opened Prelude

  datatype Token = Token(id: string, hash: Hash, prefix: string, expires: int, revoked: bool)

  datatype Client = Client(secret: Hash, idle: int, revoked: bool)

  datatype Session = Session(
    id: string, client: string, access: Hash, refresh: Hash,
    expires: int, lastActivity: int, revoked: bool)

  datatype Db = Db(tokens: seq<Token>, clients: map<string, Client>, sessions: seq<Session>)

  /** What the random generator hands out for a new session. */
  datatype Draw = Draw(id: string, access: Hash, refresh: Hash)

  // ---- invariant of the database ----

  /** No two sessions share an id or a secret. */
  ghost predicate SessionsDistinct(ss: seq<Session>) {
    forall i, j :: 0 <= i < j < |ss| ==>
      && ss[i].id != ss[j].id
      && ss[i].access.secret != ss[j].access.secret
      && ss[i].refresh.secret != ss[j].refresh.secret
  }

  ghost predicate KindsDistinct(db: Db) {
    forall t, s :: t in db.tokens && s in db.sessions ==> t.hash.secret != s.access.secret
  }

  /** A session belongs to a client, and its expiry slides with its last use. */
  ghost predicate SessionOk(db: Db, s: Session) {
    && s.client in db.clients
    && s.expires == s.lastActivity + db.clients[s.client].idle
    && (db.clients[s.client].revoked ==> s.revoked)
  }

  ghost predicate SessionsOk(db: Db) {
    forall i :: 0 <= i < |db.sessions| ==> SessionOk(db, db.sessions[i])
  }

  ghost predicate TokensOk(db: Db) {
    forall t :: t in db.tokens ==> t.prefix == Prefix(t.hash.secret)
  }

  /** No two agent tokens share an id or a secret. */
  ghost predicate TokensDistinct(ts: seq<Token>) {
    forall i, j :: 0 <= i < j < |ts| ==> ts[i].id != ts[j].id && ts[i].hash.secret != ts[j].hash.secret
  }

  ghost predicate DbValid(db: Db) {
    && SessionsDistinct(db.sessions) && TokensDistinct(db.tokens) && KindsDistinct(db)
    && SessionsOk(db) && TokensOk(db)
  }

  ghost predicate FreshDraw(db: Db, d: Draw) {
    && (forall s :: s in db.sessions ==>
          s.id != d.id && s.access.secret != d.access.secret && s.refresh.secret != d.refresh.secret)
    && (forall t :: t in db.tokens ==> t.hash.secret != d.access.secret)
  }

  ghost predicate FreshToken(db: Db, id: string, hash: Hash) {
    && (forall t :: t in db.tokens ==> t.id != id && t.hash.secret != hash.secret)
    && (forall s :: s in db.sessions ==> s.access.secret != hash.secret)
  }

  // ---- what the requests mean ----

  predicate Live(s: Session, now: int) {
    !s.revoked && s.expires > now
  }

  /** The plain scan: the first live session whose access token this is. */
  function ScanFrom(ss: seq<Session>, from: nat, token: string, now: int): (r: Option<nat>)
    requires from <= |ss|
    ensures match r
            case Some(i) =>
              && from <= i < |ss| && Live(ss[i], now) && Verifies(token, ss[i].access)
            case None => forall i :: from <= i < |ss| ==> !(Live(ss[i], now) && Verifies(token, ss[i].access))
    decreases |ss| - from
  {
    if from == |ss| then None
    else if Live(ss[from], now) && Verifies(token, ss[from].access) then Some(from)
    else ScanFrom(ss, from + 1, token, now)
  }

  predicate ClientActive(db: Db, id: string) {
    id in db.clients && !db.clients[id].revoked
  }

  function Slid(s: Session, idle: int, now: int): Session {
    s.(lastActivity := now, expires := now + idle)
  }

  datatype Validated = Validated(client: Option<string>, db: Db)

  /** Validation as a scan over the database, with no cache at all. */
  function ScanValidate(db: Db, token: string, now: int): Validated {
    match ScanFrom(db.sessions, 0, token, now)
    case None => Validated(None, db)
    case Some(i) =>
      var s := db.sessions[i];
      if ClientActive(db, s.client) then
        Validated(Some(s.client), db.(sessions := db.sessions[i := Slid(s, db.clients[s.client].idle, now)]))
      else Validated(None, db)
  }

  /** `generate_agent_token`: between 15 minutes and 7 days. */
  function TokenGenerated(db: Db, id: string, minutes: int, hash: Hash, now: int): Issued {
    if minutes < 15 || minutes > 10080 then Issued(false, db)
    else Issued(true, db.(tokens := db.tokens + [Token(id, hash, Prefix(hash.secret), now + minutes * 60, false)]))
  }

  function RevokedTokens(ts: seq<Token>, id: string): (r: seq<Token>)
    ensures |r| == |ts|
    ensures forall i :: 0 <= i < |ts| ==> r[i] == if ts[i].id == id then ts[i].(revoked := true) else ts[i]
  {
    if ts == [] then []
    else [if ts[0].id == id then ts[0].(revoked := true) else ts[0]] + RevokedTokens(ts[1..], id)
  }

  function NewSession(client: string, idle: int, d: Draw, now: int): Session {
    Session(d.id, client, d.access, d.refresh, now + idle, now, false)
  }

  datatype Issued = Issued(ok: bool, db: Db)

  function Exchanged(db: Db, client: string, secret: string, d: Draw, now: int): Issued {
    if ClientActive(db, client) && Verifies(secret, db.clients[client].secret) then
      Issued(true, db.(sessions := db.sessions + [NewSession(client, db.clients[client].idle, d, now)]))
    else Issued(false, db)
  }

  /** The first unrevoked session with this refresh token (its expiry is not looked at). */
  function RefreshFrom(ss: seq<Session>, from: nat, token: string): (r: Option<nat>)
    requires from <= |ss|
    ensures match r
            case Some(i) => from <= i < |ss| && !ss[i].revoked && Verifies(token, ss[i].refresh)
            case None => forall i :: from <= i < |ss| ==> ss[i].revoked || !Verifies(token, ss[i].refresh)
    decreases |ss| - from
  {
    if from == |ss| then None
    else if !ss[from].revoked && Verifies(token, ss[from].refresh) then Some(from)
    else RefreshFrom(ss, from + 1, token)
  }

  function Refreshed(db: Db, token: string, d: Draw, now: int): Issued {
    match RefreshFrom(db.sessions, 0, token)
    case None => Issued(false, db)
    case Some(i) =>
      var s := db.sessions[i];
      if ClientActive(db, s.client) then
        Issued(true, db.(sessions := db.sessions[i := s.(revoked := true)]
                                     + [NewSession(s.client, db.clients[s.client].idle, d, now)]))
      else Issued(false, db)
  }

  function RevokeAll(ss: seq<Session>, client: string): (r: seq<Session>)
    ensures |r| == |ss|
    ensures forall i :: 0 <= i < |ss| ==>
              r[i] == if ss[i].client == client then ss[i].(revoked := true) else ss[i]
  {
    if ss == [] then []
    else [if ss[0].client == client then ss[0].(revoked := true) else ss[0]] + RevokeAll(ss[1..], client)
  }

  function ClientRevoked(db: Db, client: string): Db {
    if client in db.clients then
      db.(clients := db.clients[client := db.clients[client].(revoked := true)],
          sessions := RevokeAll(db.sessions, client))
    else db
  }

  // ---- agent tokens and introspection ----

  /** `scalar_one_or_none()`, which raises when several rows match. */
  datatype Lookup = NoRow | OneRow(row: Token) | ManyRows

  function TokensBy(ts: seq<Token>, prefix: string): seq<Token> {
    if ts == [] then []
    else (if !ts[0].revoked && ts[0].prefix == prefix then [ts[0]] else []) + TokensBy(ts[1..], prefix)
  }

  function Unexpired(ts: seq<Token>, now: int): (r: seq<Token>)
    ensures |r| <= |ts|
  {
    if ts == [] then []
    else (if ts[0].expires > now then [ts[0]] else []) + Unexpired(ts[1..], now)
  }

  function OneOrNone(ts: seq<Token>): Lookup {
    if ts == [] then NoRow else if |ts| == 1 then OneRow(ts[0]) else ManyRows
  }

  datatype Outcome = Raised | Active | Inactive

  /** `validate_agent_token` */
  function AgentValidates(db: Db, token: string, now: int): Outcome {
    match OneOrNone(Unexpired(TokensBy(db.tokens, Prefix(token)), now))
    case NoRow => Inactive
    case ManyRows => Raised
    case OneRow(t) => if Verifies(token, t.hash) then Active else Inactive
  }

  /** The first unrevoked session with this access token, expired or not. */
  function UnrevokedFrom(ss: seq<Session>, from: nat, token: string): (r: Option<nat>)
    requires from <= |ss|
    ensures match r
            case Some(i) => from <= i < |ss| && !ss[i].revoked && Verifies(token, ss[i].access)
            case None => forall i :: from <= i < |ss| ==> ss[i].revoked || !Verifies(token, ss[i].access)
    decreases |ss| - from
  {
    if from == |ss| then None
    else if !ss[from].revoked && Verifies(token, ss[from].access) then Some(from)
    else UnrevokedFrom(ss, from + 1, token)
  }

  function SessionById(ss: seq<Session>, id: string): (r: Option<nat>)
    ensures match r
            case Some(i) => i < |ss| && ss[i].id == id
            case None => forall i :: 0 <= i < |ss| ==> ss[i].id != id
  {
    if ss == [] then None
    else if ss[0].id == id then Some(0)
    else match SessionById(ss[1..], id) case Some(i) => Some(i + 1) case None => None
  }

  /** The session behind an index entry, if it is unrevoked and has this access token. */
  function IndexedMatch(ss: seq<Session>, cached: Option<string>, token: string): (r: Option<nat>)
    ensures r.Some? ==> r.value < |ss| && !ss[r.value].revoked && Verifies(token, ss[r.value].access)
  {
    match cached
    case None => None
    case Some(id) =>
      match SessionById(ss, id)
      case None => None
      case Some(i) => if !ss[i].revoked && Verifies(token, ss[i].access) then Some(i) else None
  }

  /** The part of `introspect_token` for OAuth sessions. */
  function IntrospectSession(db: Db, token: string, now: int, cached: Option<string>): Outcome {
    var fast := IndexedMatch(db.sessions, cached, token);
    var found := if fast.Some? then fast else UnrevokedFrom(db.sessions, 0, token);
    match found
    case None => Inactive
    case Some(i) =>
      var s := db.sessions[i];
      if s.expires > now && ClientActive(db, s.client) then Active else Inactive
  }

  /** `introspect_token`, given what the prefix index answered. */
  function Introspect(db: Db, token: string, now: int, cached: Option<string>): Outcome {
    match OneOrNone(TokensBy(db.tokens, Prefix(token)))
    case ManyRows => Raised
    case NoRow => IntrospectSession(db, token, now, cached)
    case OneRow(t) =>
      if !Verifies(token, t.hash) then IntrospectSession(db, token, now, cached)
      else if t.expires > now then Active
      else Inactive
  }

  // ---- the service ----

  /** The token's prefix leads to the session that has this access token. */
  ghost predicate Indexed(index: map<string, string>, ss: seq<Session>, token: string) {
    Prefix(token) in index
    && exists i :: 0 <= i < |ss| && ss[i].id == index[Prefix(token)] && ss[i].access.secret == token
  }

  /** Only the entry of the token's prefix changes, and for the better. */
  ghost predicate LeadsTo(index: map<string, string>, index': map<string, string>, ss: seq<Session>, token: string) {
    Indexed(index', ss, token) && index' == index[Prefix(token) := index'[Prefix(token)]]
  }

  class Backend {
    var tokens: seq<Token>
    var clients: map<string, Client>
    var sessions: seq<Session>

    /** The Redis prefix index: access-token prefix to session id. Its content is never
        trusted: entries may be missing, dangling, stale or shared by a collision. */
    var index: map<string, string>

    ghost function State(): Db
      reads this
    {
      Db(tokens, clients, sessions)
    }

    ghost predicate Valid()
      reads this
    {
      DbValid(State())
    }

    constructor ()
      ensures Valid() && State() == Db([], map[], [])
    {
      tokens, clients, sessions, index := [], map[], [], map[];
    }

    /** `generate_agent_token`; the id and the plaintext of `hash` are freshly drawn. */
    method GenerateAgentToken(id: string, minutes: int, hash: Hash, now: int) returns (ok: bool)
      requires Valid() && FreshToken(State(), id, hash)
      modifies this`tokens
      ensures Valid() && Issued(ok, State()) == TokenGenerated(old(State()), id, minutes, hash, now)
    {
      if minutes < 15 || minutes > 10080 {
        return false;
      }
      TokenKeepsValid(State(), Token(id, hash, Prefix(hash.secret), now + minutes * 60, false));
      tokens := tokens + [Token(id, hash, Prefix(hash.secret), now + minutes * 60, false)];
      ok := true;
    }

    /** `revoke_agent_token` (the id is the primary key) */
    method RevokeAgentToken(id: string) returns (found: bool)
      requires Valid()
      modifies this`tokens
      ensures Valid() && State() == old(State()).(tokens := RevokedTokens(old(tokens), id))
      ensures found == exists t :: t in old(tokens) && t.id == id
    {
      found := exists t :: t in tokens && t.id == id;
      TokenRevokedKeepsValid(State(), id);
      tokens := RevokedTokens(tokens, id);
    }

    /** The scan of `validate_oauth_token` when the index did not help. */
    method FindLive(token: string, now: int) returns (matched: Option<nat>)
      ensures matched == ScanFrom(sessions, 0, token, now)
    {
      matched := None;
      var i := 0;
      while i < |sessions|
        invariant 0 <= i <= |sessions| && matched.None?
        invariant ScanFrom(sessions, 0, token, now) == ScanFrom(sessions, i, token, now)
      {
        if Live(sessions[i], now) && Verifies(token, sessions[i].access) {
          return Some(i);
        }
        i := i + 1;
      }
    }

    /** `validate_oauth_token`: the prefix index first, then the scan with back-fill. */
    method ValidateOauthToken(token: string, now: int, redisUp: bool) returns (client: Option<string>)
      requires Valid()
      modifies this`sessions, this`index
      ensures Valid()
      ensures Validated(client, State()) == ScanValidate(old(State()), token, now)
      ensures client.Some? <==> exists i: nat :: Bears(old(State()), i, token, now)
      ensures index == old(index) || (redisUp && LeadsTo(old(index), index, old(sessions), token))
      ensures redisUp && client.Some? ==> Indexed(index, sessions, token)
    {
      var matched: Option<nat> := None;
      if redisUp && Prefix(token) in index {
        var candidate := SessionById(sessions, index[Prefix(token)]);
        if candidate.Some? && Live(sessions[candidate.value], now)
           && Verifies(token, sessions[candidate.value].access) {
          matched := candidate;
        }
      }
      FastPathAgrees(sessions, matched, token, now);
      AcceptsExactly(State(), token, now);
      if matched.None? {
        matched := FindLive(token, now);
        if matched.Some? && redisUp {
          index := index[Prefix(token) := sessions[matched.value].id];
        }
      }
      if matched.None? {
        return None;
      }
      assert index != old(index) ==> Indexed(index, sessions, token);
      ghost var i := matched.value;
      assert redisUp ==> Prefix(token) in index && sessions[i].id == index[Prefix(token)];
      var s := sessions[matched.value];
      if s.client !in clients || clients[s.client].revoked {
        return None;
      }
      SlidingKeepsValid(State(), matched.value, now);
      sessions := sessions[matched.value := Slid(s, clients[s.client].idle, now)];
      assert sessions[i].id == s.id && sessions[i].access == s.access;
      client := Some(s.client);
    }

    /** `exchange_credentials`; `d` is what the random generator returned. */
    method ExchangeCredentials(client: string, secret: string, d: Draw, now: int, redisUp: bool)
      returns (ok: bool)
      requires Valid() && FreshDraw(State(), d)
      modifies this`sessions, this`index
      ensures Valid()
      ensures Issued(ok, State()) == Exchanged(old(State()), client, secret, d, now)
      ensures ok <==> KnowsClient(old(State()), client, secret)
      ensures index == if ok && redisUp then old(index)[Prefix(d.access.secret) := d.id] else old(index)
    {
      if client !in clients || clients[client].revoked {
        return false;
      }
      if !Verifies(secret, clients[client].secret) {
        return false;
      }
      AppendKeepsValid(State(), NewSession(client, clients[client].idle, d, now), d);
      sessions := sessions + [NewSession(client, clients[client].idle, d, now)];
      if redisUp {
        index := index[Prefix(d.access.secret) := d.id];
      }
      ok := true;
    }

    /** `refresh_access_token` */
    method RefreshAccessToken(token: string, d: Draw, now: int, redisUp: bool) returns (ok: bool)
      requires Valid() && FreshDraw(State(), d)
      modifies this`sessions, this`index
      ensures Valid()
      ensures Issued(ok, State()) == Refreshed(old(State()), token, d, now)
      ensures ok <==> exists i: nat :: Redeems(old(State()), i, token)
      ensures index == if ok && redisUp then old(index)[Prefix(d.access.secret) := d.id] else old(index)
    {
      RefreshExact(State(), 0, token, d, now);
      var matched: Option<nat> := None;
      var i := 0;
      while i < |sessions|
        invariant 0 <= i <= |sessions| && matched.None?
        invariant RefreshFrom(sessions, 0, token) == RefreshFrom(sessions, i, token)
      {
        if !sessions[i].revoked && Verifies(token, sessions[i].refresh) {
          matched := Some(i);
          break;
        }
        i := i + 1;
      }
      if matched.None? {
        return false;
      }
      var s := sessions[matched.value];
      if s.client !in clients || clients[s.client].revoked {
        return false;
      }
      RevokingKeepsValid(State(), matched.value, d);
      sessions := sessions[matched.value := s.(revoked := true)];
      AppendKeepsValid(State(), NewSession(s.client, clients[s.client].idle, d, now), d);
      sessions := sessions + [NewSession(s.client, clients[s.client].idle, d, now)];
      if redisUp {
        index := index[Prefix(d.access.secret) := d.id];
      }
      ok := true;
    }

    /** `revoke_oauth_client` */
    method RevokeOauthClient(client: string) returns (found: bool)
      requires Valid()
      modifies this`clients, this`sessions
      ensures Valid()
      ensures found == (client in old(clients)) && State() == ClientRevoked(old(State()), client)
    {
      if client !in clients {
        return false;
      }
      ghost var before := State();
      clients := clients[client := clients[client].(revoked := true)];
      var i := 0;
      while i < |sessions|
        invariant 0 <= i <= |sessions| && |sessions| == |before.sessions|
        invariant clients == before.clients[client := before.clients[client].(revoked := true)]
        invariant forall j :: 0 <= j < i ==> sessions[j] == RevokeAll(before.sessions, client)[j]
        invariant forall j :: i <= j < |sessions| ==> sessions[j] == before.sessions[j]
      {
        if sessions[i].client == client && !sessions[i].revoked {
          sessions := sessions[i := sessions[i].(revoked := true)];
        }
        i := i + 1;
      }
      assert sessions == RevokeAll(before.sessions, client);
      ClientRevokedKeepsValid(before, client);
      assert State() == ClientRevoked(before, client);
      found := true;
    }

    /** The scan of `introspect_token` when the index did not help. */
    method FindUnrevoked(token: string) returns (matched: Option<nat>)
      ensures matched == UnrevokedFrom(sessions, 0, token)
    {
      matched := None;
      var i := 0;
      while i < |sessions|
        invariant 0 <= i <= |sessions| && matched.None?
        invariant UnrevokedFrom(sessions, 0, token) == UnrevokedFrom(sessions, i, token)
      {
        if !sessions[i].revoked && Verifies(token, sessions[i].access) {
          return Some(i);
        }
        i := i + 1;
      }
    }

    /** `introspect_token` */
    method IntrospectToken(token: string, now: int, redisUp: bool) returns (r: Outcome)
      requires Valid()
      ensures r == Introspect(State(), token, now,
                     if redisUp && Prefix(token) in index then Some(index[Prefix(token)]) else None)
    {
      var lookup := OneOrNone(TokensBy(tokens, Prefix(token)));
      if lookup.ManyRows? {
        return Raised;
      }
      if lookup.OneRow? && Verifies(token, lookup.row.hash) {
        return if lookup.row.expires > now then Active else Inactive;
      }
      var matched := None;
      if redisUp && Prefix(token) in index {
        matched := IndexedMatch(sessions, Some(index[Prefix(token)]), token);
      }
      if matched.None? {
        matched := FindUnrevoked(token);
      }
      if matched.None? {
        return Inactive;
      }
      var s := sessions[matched.value];
      r := if s.expires > now && s.client in clients && !clients[s.client].revoked then Active else Inactive;
    }
  }

  // ---- the invariant is kept ----

  /** A match on the fast path is the one the scan would have found. */
  lemma {:induction false} FastPathAgrees(ss: seq<Session>, matched: Option<nat>, token: string, now: int)
    requires SessionsDistinct(ss)
    requires matched.Some? ==>
               && matched.value < |ss|
               && Live(ss[matched.value], now) && Verifies(token, ss[matched.value].access)
    ensures matched.Some? ==> ScanFrom(ss, 0, token, now) == matched
  {
    if matched.Some? && ScanFrom(ss, 0, token, now).Some? {
      SameAccess(ss, matched.value, ScanFrom(ss, 0, token, now).value);
    }
  }

  lemma {:induction false} SameAccess(ss: seq<Session>, i: nat, j: nat)
    requires SessionsDistinct(ss) && i < |ss| && j < |ss|
    requires ss[i].access.secret == ss[j].access.secret
    ensures i == j
  {
  }

  lemma {:induction false} SlidingKeepsValid(db: Db, i: nat, now: int)
    requires DbValid(db) && i < |db.sessions| && ClientActive(db, db.sessions[i].client)
    ensures var s := db.sessions[i];
            DbValid(db.(sessions := db.sessions[i := Slid(s, db.clients[s.client].idle, now)]))
  {
    var s := db.sessions[i];
    var ss := db.sessions[i := Slid(s, db.clients[s.client].idle, now)];
    assert forall j :: 0 <= j < |ss| ==> ss[j].access == db.sessions[j].access && db.sessions[j] in db.sessions;
  }

  lemma {:induction false} AppendKeepsValid(db: Db, s: Session, d: Draw)
    requires DbValid(db) && FreshDraw(db, d)
    requires s.id == d.id && s.access == d.access && s.refresh == d.refresh && SessionOk(db, s)
    ensures DbValid(db.(sessions := db.sessions + [s]))
  {
    assert forall j :: 0 <= j < |db.sessions| ==> db.sessions[j] in db.sessions;
  }

  lemma {:induction false} TokenKeepsValid(db: Db, t: Token)
    requires DbValid(db) && FreshToken(db, t.id, t.hash) && t.prefix == Prefix(t.hash.secret)
    ensures DbValid(db.(tokens := db.tokens + [t]))
  {
    assert forall j :: 0 <= j < |db.tokens| ==> db.tokens[j] in db.tokens;
  }

  lemma {:induction false} RevokedTokensKeep(ts: seq<Token>, id: string)
    requires TokensDistinct(ts)
    ensures TokensDistinct(RevokedTokens(ts, id))
    ensures forall t :: t in RevokedTokens(ts, id) ==> exists o :: o in ts && o.hash == t.hash && o.prefix == t.prefix
  {
    var r := RevokedTokens(ts, id);
    assert forall i :: 0 <= i < |ts| ==>
      r[i].id == ts[i].id && r[i].hash == ts[i].hash && r[i].prefix == ts[i].prefix && ts[i] in ts;
  }

  lemma {:induction false} TokenRevokedKeepsValid(db: Db, id: string)
    requires DbValid(db)
    ensures DbValid(db.(tokens := RevokedTokens(db.tokens, id)))
  {
    RevokedTokensKeep(db.tokens, id);
    assert SessionsOk(db.(tokens := RevokedTokens(db.tokens, id))) by {
      assert forall i :: 0 <= i < |db.sessions| ==> SessionOk(db, db.sessions[i]);
    }
  }

  lemma {:induction false} RevokingKeepsValid(db: Db, i: nat, d: Draw)
    requires DbValid(db) && i < |db.sessions| && FreshDraw(db, d)
    ensures var t := db.(sessions := db.sessions[i := db.sessions[i].(revoked := true)]);
            DbValid(t) && FreshDraw(t, d)
  {
    var ss := db.sessions[i := db.sessions[i].(revoked := true)];
    assert forall j :: 0 <= j < |ss| ==>
        ss[j].access == db.sessions[j].access && ss[j].id == db.sessions[j].id
        && ss[j].refresh == db.sessions[j].refresh && db.sessions[j] in db.sessions;
  }

  lemma {:induction false} RevokeAllKeepsDistinct(ss: seq<Session>, client: string)
    requires SessionsDistinct(ss)
    ensures SessionsDistinct(RevokeAll(ss, client))
    ensures forall s :: s in RevokeAll(ss, client) ==> exists o :: o in ss && o.access == s.access
  {
    var r := RevokeAll(ss, client);
    assert forall i :: 0 <= i < |ss| ==>
      r[i].id == ss[i].id && r[i].access == ss[i].access && r[i].refresh == ss[i].refresh && ss[i] in ss;
  }

  lemma {:induction false} ClientRevokedKeepsValid(db: Db, client: string)
    requires DbValid(db)
    ensures DbValid(ClientRevoked(db, client))
  {
    if client in db.clients {
      var t := ClientRevoked(db, client);
      RevokeAllKeepsDistinct(db.sessions, client);
      forall i | 0 <= i < |t.sessions| ensures SessionOk(t, t.sessions[i]) {
        assert SessionOk(db, db.sessions[i]);
      }
    }
  }

  // ---- introspection agrees with validation ----

  lemma {:induction false} UnexpiredOne(ts: seq<Token>, now: int)
    requires |ts| <= 1
    ensures Unexpired(ts, now) == if |ts| == 1 && ts[0].expires > now then ts else []
  {
    if |ts| == 1 {
      assert ts[1..] == [];
      assert [ts[0]] + [] == ts;
    }
  }

  lemma {:induction false} TokensByAre(ts: seq<Token>, prefix: string)
    ensures forall t :: t in TokensBy(ts, prefix) ==> t in ts
  {
    if ts != [] { TokensByAre(ts[1..], prefix); }
  }

  lemma {:induction false} IntrospectSessionAgrees(db: Db, token: string, now: int, cached: Option<string>)
    requires DbValid(db)
    ensures IntrospectSession(db, token, now, cached)
         == if ScanValidate(db, token, now).client.Some? then Active else Inactive
  {
    ScanAndIntrospectionMeet(db, token, now, cached);
  }

  lemma {:induction false} ScanAndIntrospectionMeet(db: Db, token: string, now: int, cached: Option<string>)
    requires SessionsDistinct(db.sessions)
    ensures var fast := IndexedMatch(db.sessions, cached, token);
            var found := if fast.Some? then fast else UnrevokedFrom(db.sessions, 0, token);
            ScanFrom(db.sessions, 0, token, now)
            == if found.Some? && db.sessions[found.value].expires > now then found else None
  {
    var fast := IndexedMatch(db.sessions, cached, token);
    var found := if fast.Some? then fast else UnrevokedFrom(db.sessions, 0, token);
    var scan := ScanFrom(db.sessions, 0, token, now);
    if found.Some? && scan.Some? {
      SameAccess(db.sessions, found.value, scan.value);
    }
  }

  /** A session's access token and an agent token never have the same secret. */
  lemma {:induction false} AgentTokenIsNoSession(db: Db, token: string, now: int, t: Token)
    requires DbValid(db) && t in db.tokens && Verifies(token, t.hash)
    ensures ScanValidate(db, token, now).client.None?
  {
    assert forall i :: 0 <= i < |db.sessions| ==> db.sessions[i] in db.sessions;
  }

  lemma {:induction false} AgentSideAgrees(db: Db, token: string, now: int)
    requires |TokensBy(db.tokens, Prefix(token))| <= 1
    ensures AgentValidates(db, token, now) == Active
       <==> var rows := TokensBy(db.tokens, Prefix(token));
            |rows| == 1 && rows[0].expires > now && Verifies(token, rows[0].hash)
  {
    UnexpiredOne(TokensBy(db.tokens, Prefix(token)), now);
  }

  /** Section 2.2 of RFC 7662: at the same instant and state, introspection reports a
      token as active exactly when one of the validations would accept it, whatever the
      prefix index answers; and it fails to answer exactly when two unrevoked agent
      tokens share the presented prefix. */
  lemma {:induction false} IntrospectionAgrees(db: Db, token: string, now: int, cached: Option<string>)
    requires DbValid(db)
    ensures var r := Introspect(db, token, now, cached);
            && (r == Raised <==> |TokensBy(db.tokens, Prefix(token))| > 1)
            && (r != Raised ==>
                  (r == Active <==>
                     || AgentValidates(db, token, now) == Active
                     || ScanValidate(db, token, now).client.Some?))
  {
    var rows := TokensBy(db.tokens, Prefix(token));
    TokensByAre(db.tokens, Prefix(token));
    if |rows| <= 1 {
      AgentSideAgrees(db, token, now);
      if |rows| == 1 && Verifies(token, rows[0].hash) {
        AgentTokenIsNoSession(db, token, now, rows[0]);
      } else {
        IntrospectSessionAgrees(db, token, now, cached);
      }
    }
  }

  // ---- runs ----

  datatype Event =
    | Register(client: string, c: Client)
    | Exchange(client: string, secret: string, d: Draw, now: int)
    | Refresh(token: string, d: Draw, now: int)
    | Validate(token: string, now: int)
    | RevokeClient(client: string)
    | GenerateToken(id: string, minutes: int, hash: Hash, now: int)
    | RevokeToken(id: string)

  /** A draw that is not fresh does not occur. */
  ghost function Step(db: Db, e: Event): Db {
    match e
    case Register(id, c) =>
      if id in db.clients || c.revoked then db else db.(clients := db.clients[id := c])
    case Exchange(id, secret, d, now) => if FreshDraw(db, d) then Exchanged(db, id, secret, d, now).db else db
    case Refresh(token, d, now) => if FreshDraw(db, d) then Refreshed(db, token, d, now).db else db
    case Validate(token, now) => ScanValidate(db, token, now).db
    case RevokeClient(id) => ClientRevoked(db, id)
    case GenerateToken(id, minutes, hash, now) =>
      if FreshToken(db, id, hash) then TokenGenerated(db, id, minutes, hash, now).db else db
    case RevokeToken(id) => db.(tokens := RevokedTokens(db.tokens, id))
  }

  ghost function Run(db: Db, es: seq<Event>): Db
    decreases |es|
  {
    if es == [] then db else Run(Step(db, es[0]), es[1..])
  }

  lemma {:induction false} StepKeepsValid(db: Db, e: Event)
    requires DbValid(db)
    ensures DbValid(Step(db, e))
  {
    match e
    case Register(id, c) =>
      var t := Step(db, e);
      forall i | 0 <= i < |t.sessions| ensures SessionOk(t, t.sessions[i]) {
        assert SessionOk(db, db.sessions[i]);
      }
    case Exchange(id, secret, d, now) =>
      if FreshDraw(db, d) && Exchanged(db, id, secret, d, now).ok {
        AppendKeepsValid(db, NewSession(id, db.clients[id].idle, d, now), d);
      }
    case Refresh(token, d, now) =>
      if FreshDraw(db, d) && Refreshed(db, token, d, now).ok {
        var i := RefreshFrom(db.sessions, 0, token).value;
        var s := db.sessions[i];
        RevokingKeepsValid(db, i, d);
        AppendKeepsValid(db.(sessions := db.sessions[i := s.(revoked := true)]),
                         NewSession(s.client, db.clients[s.client].idle, d, now), d);
      }
    case Validate(token, now) =>
      if ScanValidate(db, token, now).client.Some? {
        SlidingKeepsValid(db, ScanFrom(db.sessions, 0, token, now).value, now);
      }
    case RevokeClient(id) => ClientRevokedKeepsValid(db, id);
    case GenerateToken(id, minutes, hash, now) =>
      if FreshToken(db, id, hash) && TokenGenerated(db, id, minutes, hash, now).ok {
        TokenKeepsValid(db, Token(id, hash, Prefix(hash.secret), now + minutes * 60, false));
      }
    case RevokeToken(id) => TokenRevokedKeepsValid(db, id);
  }

  // ---- who gets in ----

  /** The secret of an active client. */
  ghost predicate KnowsClient(db: Db, client: string, secret: string) {
    client in db.clients && !db.clients[client].revoked && db.clients[client].secret.secret == secret
  }

  /** The refresh token of an unrevoked session of an active client. */
  ghost predicate Redeems(db: Db, i: nat, token: string) {
    && i < |db.sessions| && !db.sessions[i].revoked && db.sessions[i].refresh.secret == token
    && db.sessions[i].client in db.clients && !db.clients[db.sessions[i].client].revoked
  }

  /** The access token of an unrevoked, unexpired session of an active client. */
  ghost predicate Bears(db: Db, i: nat, token: string, now: int) {
    && i < |db.sessions| && !db.sessions[i].revoked && now < db.sessions[i].expires
    && db.sessions[i].access.secret == token
    && db.sessions[i].client in db.clients && !db.clients[db.sessions[i].client].revoked
  }

  /** A session of the client with the drawn secrets, unused so far. */
  ghost predicate Opened(db: Db, s: Session, client: string, d: Draw, now: int)
    requires client in db.clients
  {
    s == Session(d.id, client, d.access, d.refresh, now + db.clients[client].idle, now, false)
  }

  /** An exchange succeeds exactly for the secret of an active client; it opens one session
      of that client, whose access token is accepted at once and whose refresh token can be
      redeemed, and otherwise changes nothing. */
  lemma {:induction false} ExchangeExact(db: Db, client: string, secret: string, d: Draw, now: int)
    requires DbValid(db) && FreshDraw(db, d)
    ensures var r, n := Exchanged(db, client, secret, d, now), |db.sessions|;
            && (r.ok <==> KnowsClient(db, client, secret))
            && (!r.ok ==> r.db == db)
            && (r.ok ==>
                  && r.db == db.(sessions := r.db.sessions)
                  && |r.db.sessions| == n + 1 && r.db.sessions[..n] == db.sessions
                  && Opened(db, r.db.sessions[n], client, d, now)
                  && Redeems(r.db, n, d.refresh.secret)
                  && (db.clients[client].idle > 0 ==>
                        ScanValidate(r.db, d.access.secret, now).client == Some(client)))
  {
    var r := Exchanged(db, client, secret, d, now);
    if r.ok {
      StepKeepsValid(db, Exchange(client, secret, d, now));
      if db.clients[client].idle > 0 {
        assert Usable(r.db, |db.sessions|, d.access.secret);
        ScanFinds(r.db, |db.sessions|, d.access.secret, now);
      }
    }
  }

  /** A refresh succeeds exactly for the refresh token of an unrevoked session of an active
      client; that session is revoked, and one of the same client is opened. */
  lemma {:induction false} RefreshExact(db: Db, i: nat, token: string, d: Draw, now: int)
    requires DbValid(db)
    ensures Refreshed(db, token, d, now).ok <==> exists j :: Redeems(db, j, token)
    ensures !Refreshed(db, token, d, now).ok ==> Refreshed(db, token, d, now).db == db
    ensures Redeems(db, i, token) ==>
              var r, n := Refreshed(db, token, d, now).db, |db.sessions|;
              && r == db.(sessions := r.sessions)
              && |r.sessions| == n + 1 && r.sessions[..n] == db.sessions[i := db.sessions[i].(revoked := true)]
              && Opened(db, r.sessions[n], db.sessions[i].client, d, now)
  {
    var found := RefreshFrom(db.sessions, 0, token);
    forall j: nat | Redeems(db, j, token) ensures found == Some(j) {
      assert found.Some? && db.sessions[j].refresh.secret == db.sessions[found.value].refresh.secret;
    }
    if Refreshed(db, token, d, now).ok {
      assert Redeems(db, found.value, token);
    }
  }

  /** A validation accepts exactly the access token of an unrevoked, unexpired session of an
      active client; it answers with that client and renews that session, and no other. */
  lemma {:induction false} ValidateExact(db: Db, i: nat, token: string, now: int)
    requires DbValid(db)
    ensures ScanValidate(db, token, now).client.Some? <==> exists j :: Bears(db, j, token, now)
    ensures ScanValidate(db, token, now).client.None? ==> ScanValidate(db, token, now).db == db
    ensures Bears(db, i, token, now) ==>
              var v, s := ScanValidate(db, token, now), db.sessions[i];
              && v.client == Some(s.client)
              && v.db == db.(sessions := db.sessions[i := s.(lastActivity := now,
                                                             expires := now + db.clients[s.client].idle)])
  {
    var scan := ScanFrom(db.sessions, 0, token, now);
    forall j: nat | Bears(db, j, token, now) ensures scan == Some(j) {
      SameAccess(db.sessions, j, scan.value);
    }
    if ScanValidate(db, token, now).client.Some? {
      assert Bears(db, scan.value, token, now);
    }
  }

  lemma {:induction false} AcceptsExactly(db: Db, token: string, now: int)
    requires DbValid(db)
    ensures ScanValidate(db, token, now).client.Some? <==> exists i: nat :: Bears(db, i, token, now)
  {
    ValidateExact(db, 0, token, now);
  }

  /** The request presents a secret that entitles to the session. */
  ghost predicate Earns(db: Db, e: Event, s: Session) {
    || (e.Exchange? && KnowsClient(db, e.client, e.secret) && s.client == e.client
        && s.id == e.d.id && s.access == e.d.access && s.refresh == e.d.refresh)
    || (e.Refresh? && (exists i: nat :: Redeems(db, i, e.token) && s.client == db.sessions[i].client)
        && s.id == e.d.id && s.access == e.d.access && s.refresh == e.d.refresh)
  }

  lemma {:induction false} StepEarns(db: Db, e: Event)
    requires DbValid(db)
    ensures var t := Step(db, e);
            && |db.sessions| <= |t.sessions| <= |db.sessions| + 1
            && (forall i :: 0 <= i < |db.sessions| ==> SameSession(db.sessions[i], t.sessions[i]))
            && (|t.sessions| > |db.sessions| ==> Earns(db, e, t.sessions[|db.sessions|]))
  {
    if e.Refresh? && FreshDraw(db, e.d) && Refreshed(db, e.token, e.d, e.now).ok {
      var i := RefreshFrom(db.sessions, 0, e.token).value;
      assert Redeems(db, i, e.token);
    }
  }

  ghost predicate SameSession(s: Session, t: Session) {
    s.id == t.id && s.client == t.client && s.access == t.access && s.refresh == t.refresh
  }

  /** Every session that a run adds was opened by one of its requests, which presented the
      secret of the session's client, or the refresh token of an unrevoked session of it. */
  lemma {:induction false} EverySessionIsEarned(db: Db, es: seq<Event>, i: nat) returns (k: nat)
    requires DbValid(db) && |db.sessions| <= i < |Run(db, es).sessions|
    ensures k < |es| && Earns(Run(db, es[..k]), es[k], Run(db, es).sessions[i])
    decreases |es|
  {
    var t := Step(db, es[0]);
    StepKeepsValid(db, es[0]);
    StepEarns(db, es[0]);
    if i < |t.sessions| {
      SessionsStay(t, es[1..], i);
      k := 0;
    } else {
      var later := EverySessionIsEarned(t, es[1..], i);
      k := later + 1;
      assert es[..k][1..] == es[1..][..later];
    }
  }

  lemma {:induction false} SessionsStay(db: Db, es: seq<Event>, i: nat)
    requires DbValid(db) && i < |db.sessions|
    ensures i < |Run(db, es).sessions| && SameSession(db.sessions[i], Run(db, es).sessions[i])
    decreases |es|
  {
    if es != [] {
      StepKeepsValid(db, es[0]);
      StepEarns(db, es[0]);
      SessionsStay(Step(db, es[0]), es[1..], i);
    }
  }

  // ---- rotation ----

  /** The number of unrevoked sessions of a client. */
  function LiveCount(ss: seq<Session>, client: string): nat {
    if ss == [] then 0
    else (if ss[0].client == client && !ss[0].revoked then 1 else 0) + LiveCount(ss[1..], client)
  }

  lemma {:induction false} LiveCountAppend(ss: seq<Session>, s: Session, client: string)
    ensures LiveCount(ss + [s], client)
         == LiveCount(ss, client) + (if s.client == client && !s.revoked then 1 else 0)
  {
    if ss == [] {
      assert [] + [s] == [s] && [s][1..] == [];
    } else {
      assert (ss + [s])[1..] == ss[1..] + [s];
      LiveCountAppend(ss[1..], s, client);
    }
  }

  lemma {:induction false} LiveCountUpdate(ss: seq<Session>, i: nat, s: Session, client: string)
    requires i < |ss| && s.client == ss[i].client
    ensures LiveCount(ss[i := s], client)
         == LiveCount(ss, client)
          - (if ss[i].client == client && !ss[i].revoked then 1 else 0)
          + (if s.client == client && !s.revoked then 1 else 0)
  {
    if i == 0 {
      assert ss[0 := s][1..] == ss[1..];
    } else {
      assert ss[i := s][1..] == ss[1..][i - 1 := s];
      LiveCountUpdate(ss[1..], i - 1, s, client);
    }
  }

  lemma {:induction false} LiveCountRevoked(ss: seq<Session>, revoked: string, client: string)
    ensures LiveCount(RevokeAll(ss, revoked), client) == if client == revoked then 0 else LiveCount(ss, client)
  {
    if ss != [] {
      LiveCountRevoked(ss[1..], revoked, client);
      assert RevokeAll(ss, revoked)[1..] == RevokeAll(ss[1..], revoked);
    }
  }

  /** `e` hands out the first session of a fresh grant to `client`. */
  ghost predicate Grants(db: Db, e: Event, client: string) {
    && e.Exchange? && e.client == client && FreshDraw(db, e.d)
    && client in db.clients && !db.clients[client].revoked && e.secret == db.clients[client].secret.secret
  }

  ghost function Granted(db: Db, es: seq<Event>, client: string): nat
    decreases |es|
  {
    if es == [] then 0
    else (if Grants(db, es[0], client) then 1 else 0) + Granted(Step(db, es[0]), es[1..], client)
  }

  lemma {:induction false} StepCounts(db: Db, e: Event, client: string)
    requires DbValid(db)
    ensures LiveCount(Step(db, e).sessions, client)
         == if e.RevokeClient? && e.client == client && client in db.clients then 0
            else LiveCount(db.sessions, client) + (if Grants(db, e, client) then 1 else 0)
  {
    match e
    case Register(_, _) =>
    case Exchange(id, secret, d, now) =>
      if FreshDraw(db, d) && Exchanged(db, id, secret, d, now).ok {
        LiveCountAppend(db.sessions, NewSession(id, db.clients[id].idle, d, now), client);
      }
    case Refresh(token, d, now) =>
      if FreshDraw(db, d) && Refreshed(db, token, d, now).ok {
        var i := RefreshFrom(db.sessions, 0, token).value;
        var s := db.sessions[i];
        LiveCountUpdate(db.sessions, i, s.(revoked := true), client);
        var next := NewSession(s.client, db.clients[s.client].idle, d, now);
        LiveCountAppend(db.sessions[i := s.(revoked := true)], next, client);
      }
    case Validate(token, now) =>
      if ScanValidate(db, token, now).client.Some? {
        var i := ScanFrom(db.sessions, 0, token, now).value;
        var s := db.sessions[i];
        LiveCountUpdate(db.sessions, i, Slid(s, db.clients[s.client].idle, now), client);
      }
    case RevokeClient(id) => if id in db.clients { LiveCountRevoked(db.sessions, id, client); }
    case GenerateToken(_, _, _, _) =>
    case RevokeToken(_) =>
  }

  lemma {:induction false} NoLiveSessions(ss: seq<Session>, client: string)
    requires forall i :: 0 <= i < |ss| && ss[i].client == client ==> ss[i].revoked
    ensures LiveCount(ss, client) == 0
  {
    if ss != [] { NoLiveSessions(ss[1..], client); }
  }

  lemma {:induction false} InactiveHasNone(db: Db, client: string)
    requires DbValid(db) && !ClientActive(db, client)
    ensures LiveCount(db.sessions, client) == 0
  {
    assert forall i :: 0 <= i < |db.sessions| ==> SessionOk(db, db.sessions[i]);
    NoLiveSessions(db.sessions, client);
  }

  lemma {:induction false} StepKeepsClient(db: Db, e: Event, client: string)
    ensures client in db.clients ==> client in Step(db, e).clients
    ensures client in db.clients && db.clients[client].revoked ==> Step(db, e).clients[client].revoked
    ensures e.RevokeClient? && e.client == client && client in db.clients ==> Step(db, e).clients[client].revoked
  {
  }

  /** Refresh rotation: over any run, the live sessions of a client that is still active
      at the end are those it had, plus one for each successful exchange — refreshing
      any number of times adds none; and a revoked client has none, for good. */
  lemma {:induction false} RotationKeepsCount(db: Db, es: seq<Event>, client: string)
    requires DbValid(db)
    ensures DbValid(Run(db, es))
    ensures ClientActive(Run(db, es), client) ==>
              LiveCount(Run(db, es).sessions, client) == LiveCount(db.sessions, client) + Granted(db, es, client)
    ensures client in db.clients && !ClientActive(Run(db, es), client) ==>
              LiveCount(Run(db, es).sessions, client) == 0
    ensures client in db.clients && db.clients[client].revoked ==> !ClientActive(Run(db, es), client)
    ensures client in db.clients ==> client in Run(db, es).clients
    decreases |es|
  {
    if !ClientActive(db, client) { InactiveHasNone(db, client); }
    if es != [] {
      StepKeepsValid(db, es[0]);
      StepCounts(db, es[0], client);
      StepKeepsClient(db, es[0], client);
      RotationKeepsCount(Step(db, es[0]), es[1..], client);
    }
  }

  /** Sessions are never removed, renamed or unrevoked. */
  ghost predicate Continues(ss: seq<Session>, later: seq<Session>) {
    && |ss| <= |later|
    && forall i :: 0 <= i < |ss| ==>
         && later[i].access == ss[i].access && later[i].refresh == ss[i].refresh
         && (ss[i].revoked ==> later[i].revoked)
  }

  lemma {:induction false} RunContinues(db: Db, es: seq<Event>)
    requires DbValid(db)
    ensures DbValid(Run(db, es)) && Continues(db.sessions, Run(db, es).sessions)
    decreases |es|
  {
    if es != [] {
      StepKeepsValid(db, es[0]);
      assert Continues(db.sessions, Step(db, es[0]).sessions);
      RunContinues(Step(db, es[0]), es[1..]);
    }
  }

  /** Section 6 of RFC 6749: once redeemed, a refresh token is refused after any further
      run, and so is the access token it was issued with. */
  lemma {:induction false} RedeemedNeverAccepted(db: Db, token: string, d: Draw, now: int, es: seq<Event>,
          d2: Draw, later: int)
    requires DbValid(db) && FreshDraw(db, d) && Refreshed(db, token, d, now).ok
    ensures var i := RefreshFrom(db.sessions, 0, token).value;
            var t := Run(Refreshed(db, token, d, now).db, es);
            && !Refreshed(t, token, d2, later).ok
            && ScanValidate(t, db.sessions[i].access.secret, later).client.None?
  {
    var i := RefreshFrom(db.sessions, 0, token).value;
    StepKeepsValid(db, Refresh(token, d, now));
    var next := Step(db, Refresh(token, d, now));
    RunContinues(next, es);
    var t := Run(next, es);
    assert next.sessions[i].revoked && t.sessions[i].revoked;
    assert forall j :: 0 <= j < |t.sessions| && j != i ==>
      t.sessions[j].refresh.secret != t.sessions[i].refresh.secret
      && t.sessions[j].access.secret != t.sessions[i].access.secret;
  }

  // ---- sliding expiry ----

  /** When the token is presented in the run. */
  function UsesOf(es: seq<Event>, token: string): seq<int> {
    if es == [] then []
    else (if es[0].Validate? && es[0].token == token then [es[0].now] else []) + UsesOf(es[1..], token)
  }

  /** Every request of the run that presents the token is answered with its client. */
  ghost predicate AllUsesAccepted(db: Db, es: seq<Event>, token: string)
    decreases |es|
  {
    es == [] ||
    (&& (es[0].Validate? && es[0].token == token ==> ScanValidate(db, token, es[0].now).client.Some?)
     && AllUsesAccepted(Step(db, es[0]), es[1..], token))
  }

  ghost predicate Usable(db: Db, i: nat, token: string) {
    && DbValid(db) && i < |db.sessions| && !db.sessions[i].revoked
    && Verifies(token, db.sessions[i].access) && ClientActive(db, db.sessions[i].client)
  }

  /** The request neither revokes the session's client nor redeems its refresh token. */
  predicate Spares(e: Event, s: Session) {
    && !(e.RevokeClient? && e.client == s.client)
    && !(e.Refresh? && Verifies(e.token, s.refresh))
  }

  function IdleOf(db: Db, i: nat): int
    requires i < |db.sessions| && db.sessions[i].client in db.clients
  {
    db.clients[db.sessions[i].client].idle
  }

  lemma {:induction false} ScanFinds(db: Db, i: nat, token: string, now: int)
    requires Usable(db, i, token)
    ensures ScanFrom(db.sessions, 0, token, now)
         == if db.sessions[i].expires > now then Some(i) else None
  {
    var scan := ScanFrom(db.sessions, 0, token, now);
    if scan.Some? {
      SameAccess(db.sessions, i, scan.value);
    }
  }

  lemma {:induction false} UseStep(db: Db, i: nat, token: string, now: int)
    requires Usable(db, i, token)
    ensures var v := ScanValidate(db, token, now);
            && (v.client.Some? <==> now - db.sessions[i].lastActivity < IdleOf(db, i))
            && v.db == if v.client.None? then db
                       else db.(sessions := db.sessions[i := Slid(db.sessions[i], IdleOf(db, i), now)])
  {
    ScanFinds(db, i, token, now);
    assert SessionOk(db, db.sessions[i]);
  }

  /** Any other request leaves the session and its client alone. */
  lemma {:induction false} OtherStep(db: Db, e: Event, i: nat, token: string)
    requires Usable(db, i, token) && Spares(e, db.sessions[i]) && !(e.Validate? && e.token == token)
    ensures var t := Step(db, e); var s := db.sessions[i];
            && i < |t.sessions| && t.sessions[i] == s
            && s.client in t.clients && t.clients[s.client] == db.clients[s.client]
  {
  }

  /** A session survives exactly the runs in which every gap between its uses, counted from
      its last activity, is below the client's idle timeout, whatever else is requested in
      between, as long as nothing revokes its client or redeems its refresh token. */
  lemma {:induction false} SlidingSurvival(db: Db, i: nat, token: string, es: seq<Event>)
    requires Usable(db, i, token) && forall k :: 0 <= k < |es| ==> Spares(es[k], db.sessions[i])
    ensures AllUsesAccepted(db, es, token)
       <==> GapsBelow(db.sessions[i].lastActivity, UsesOf(es, token), IdleOf(db, i))
    decreases |es|
  {
    if es != [] {
      var e, t := es[0], Step(db, es[0]);
      StepKeepsValid(db, e);
      if e.Validate? && e.token == token {
        UseStep(db, i, token, e.now);
        assert ([e.now] + UsesOf(es[1..], token))[1..] == UsesOf(es[1..], token);
        if ScanValidate(db, token, e.now).client.Some? {
          SlidingSurvival(t, i, token, es[1..]);
        }
      } else {
        OtherStep(db, e, i, token);
        assert [] + UsesOf(es[1..], token) == UsesOf(es[1..], token);
        SlidingSurvival(t, i, token, es[1..]);
      }
    }
  }

  /** The session is revoked, or has been out of use for the whole timeout at `gap`. */
  ghost predicate Lapsed(s: Session, gap: int) {
    s.revoked || s.expires <= gap
  }

  lemma {:induction false} LapsedStep(db: Db, e: Event, i: nat, gap: int)
    requires DbValid(db) && i < |db.sessions| && Lapsed(db.sessions[i], gap) && (e.Validate? ==> e.now >= gap)
    ensures var t := Step(db, e);
            i < |t.sessions| && Lapsed(t.sessions[i], gap) && t.sessions[i].access == db.sessions[i].access
  {
  }

  /** After one gap of at least the timeout the token is never accepted again, whatever is
      requested from then on. */
  lemma {:induction false} NeverAfterGap(db: Db, i: nat, token: string, gap: int, es: seq<Event>, later: int)
    requires DbValid(db) && i < |db.sessions| && Verifies(token, db.sessions[i].access)
    requires gap - db.sessions[i].lastActivity >= IdleOf(db, i)
    requires (forall k :: 0 <= k < |es| && es[k].Validate? ==> es[k].now >= gap) && later >= gap
    ensures ScanValidate(Run(db, es), token, later).client.None?
  {
    assert SessionOk(db, db.sessions[i]);
    LapsedRun(db, i, gap, es);
    var t := Run(db, es);
    var scan := ScanFrom(t.sessions, 0, token, later);
    if scan.Some? { SameAccess(t.sessions, i, scan.value); }
  }

  lemma {:induction false} LapsedRun(db: Db, i: nat, gap: int, es: seq<Event>)
    requires DbValid(db) && i < |db.sessions| && Lapsed(db.sessions[i], gap)
    requires forall k :: 0 <= k < |es| && es[k].Validate? ==> es[k].now >= gap
    ensures var t := Run(db, es);
            && DbValid(t) && i < |t.sessions| && Lapsed(t.sessions[i], gap)
            && t.sessions[i].access == db.sessions[i].access
    decreases |es|
  {
    if es != [] {
      StepKeepsValid(db, es[0]);
      LapsedStep(db, es[0], i, gap);
      LapsedRun(Step(db, es[0]), i, gap, es[1..]);
    }
  }

  // ---- agent tokens over runs ----

  /** The row answers for a presented prefix at `now`. */
  predicate Answers(t: Token, prefix: string, now: int) {
    !t.revoked && t.prefix == prefix && t.expires > now
  }

  function Candidates(ts: seq<Token>, prefix: string, now: int): seq<Token> {
    Unexpired(TokensBy(ts, prefix), now)
  }

  lemma {:induction false} CandidatesCons(t: Token, ts: seq<Token>, prefix: string, now: int)
    ensures Candidates([t] + ts, prefix, now)
         == (if Answers(t, prefix, now) then [t] else []) + Candidates(ts, prefix, now)
  {
    assert ([t] + ts)[1..] == ts;
    var rest := TokensBy(ts, prefix);
    if !t.revoked && t.prefix == prefix {
      assert ([t] + rest)[1..] == rest;
    } else {
      assert [] + rest == rest;
    }
  }

  ghost predicate NoneAnswers(ts: seq<Token>, prefix: string, now: int) {
    forall i :: 0 <= i < |ts| ==> !Answers(ts[i], prefix, now)
  }

  ghost predicate OneAnswers(ts: seq<Token>, i: nat, prefix: string, now: int)
    requires i < |ts|
  {
    Answers(ts[i], prefix, now) && forall j :: 0 <= j < |ts| && j != i ==> !Answers(ts[j], prefix, now)
  }

  lemma {:induction false} NoCandidates(ts: seq<Token>, prefix: string, now: int)
    ensures Candidates(ts, prefix, now) == [] <==> NoneAnswers(ts, prefix, now)
  {
    if ts != [] {
      var t, tail := ts[0], ts[1..];
      assert ts == [t] + tail;
      CandidatesCons(t, tail, prefix, now);
      NoCandidates(tail, prefix, now);
      assert NoneAnswers(ts, prefix, now) <==> !Answers(t, prefix, now) && NoneAnswers(tail, prefix, now) by {
        assert forall j :: 0 <= j < |tail| ==> ts[j + 1] == tail[j];
        assert forall j :: 0 < j < |ts| ==> ts[j] == tail[j - 1];
      }
    }
  }

  /** A single candidate is the only row that answers, and the other way round. */
  lemma {:induction false} OneCandidate(ts: seq<Token>, i: nat, prefix: string, now: int)
    requires i < |ts|
    ensures OneAnswers(ts, i, prefix, now) ==> Candidates(ts, prefix, now) == [ts[i]]
    ensures Answers(ts[i], prefix, now) && |Candidates(ts, prefix, now)| == 1 ==> OneAnswers(ts, i, prefix, now)
  {
    var t, tail := ts[0], ts[1..];
    assert ts == [t] + tail;
    CandidatesCons(t, tail, prefix, now);
    NoCandidates(tail, prefix, now);
    assert forall j :: 0 <= j < |tail| ==> ts[j + 1] == tail[j];
    assert forall j :: 0 < j < |ts| ==> ts[j] == tail[j - 1];
    if i > 0 {
      OneCandidate(tail, i - 1, prefix, now);
      assert Answers(tail[i - 1], prefix, now) ==> !NoneAnswers(tail, prefix, now);
    }
  }

  lemma {:induction false} CandidatesAreRows(ts: seq<Token>, prefix: string, now: int)
    ensures forall t :: t in Candidates(ts, prefix, now) ==> t in ts && Answers(t, prefix, now)
  {
    if ts != [] {
      var t, tail := ts[0], ts[1..];
      assert ts == [t] + tail;
      CandidatesCons(t, tail, prefix, now);
      CandidatesAreRows(tail, prefix, now);
    }
  }

  /** No other live agent token has the same prefix. */
  ghost predicate Unrivalled(ts: seq<Token>, k: nat, now: int)
    requires k < |ts|
  {
    forall j :: 0 <= j < |ts| && j != k ==> !Answers(ts[j], ts[k].prefix, now)
  }

  lemma {:induction false} OnlyCandidate(ts: seq<Token>, k: nat, now: int)
    requires TokensDistinct(ts) && k < |ts|
    ensures var rows := Candidates(ts, ts[k].prefix, now);
            |rows| == 1 && rows[0].hash.secret == ts[k].hash.secret
            <==> Answers(ts[k], ts[k].prefix, now) && Unrivalled(ts, k, now)
  {
    OneCandidate(ts, k, ts[k].prefix, now);
    CandidatesAreRows(ts, ts[k].prefix, now);
    var rows := Candidates(ts, ts[k].prefix, now);
    if |rows| == 1 && rows[0].hash.secret == ts[k].hash.secret {
      assert rows[0] in rows;
      var j :| 0 <= j < |ts| && ts[j] == rows[0];
      assert j == k;
    }
  }

  /** Validating the secret of one row, in any valid state. */
  lemma {:induction false} ValidatesRow(db: Db, k: nat, now: int)
    requires TokensDistinct(db.tokens) && k < |db.tokens| && db.tokens[k].prefix == Prefix(db.tokens[k].hash.secret)
    ensures AgentValidates(db, db.tokens[k].hash.secret, now) == Active
       <==> !db.tokens[k].revoked && db.tokens[k].expires > now && Unrivalled(db.tokens, k, now)
  {
    OnlyCandidate(db.tokens, k, now);
    var rows := Candidates(db.tokens, db.tokens[k].prefix, now);
    assert AgentValidates(db, db.tokens[k].hash.secret, now) == Active
      <==> |rows| == 1 && rows[0].hash.secret == db.tokens[k].hash.secret;
  }

  /** Rows of agent tokens stay where they are; only `revoked` ever changes. */
  ghost predicate TokensContinue(ts: seq<Token>, later: seq<Token>) {
    && |ts| <= |later|
    && forall k :: 0 <= k < |ts| ==>
         && later[k].(revoked := false) == ts[k].(revoked := false)
         && (ts[k].revoked ==> later[k].revoked)
  }

  lemma {:induction false} StepTokens(db: Db, e: Event)
    ensures TokensContinue(db.tokens, Step(db, e).tokens)
    ensures forall k :: 0 <= k < |db.tokens| && e != RevokeToken(db.tokens[k].id) ==>
              Step(db, e).tokens[k] == db.tokens[k]
  {
  }

  lemma {:induction false} RunTokens(db: Db, es: seq<Event>, k: nat)
    requires DbValid(db) && k < |db.tokens|
    ensures DbValid(Run(db, es)) && TokensContinue(db.tokens, Run(db, es).tokens)
    ensures Run(db, es).tokens[k].revoked <==> db.tokens[k].revoked || RevokeToken(db.tokens[k].id) in es
    decreases |es|
  {
    if es != [] {
      var t := Step(db, es[0]);
      StepKeepsValid(db, es[0]);
      StepTokens(db, es[0]);
      RunTokens(t, es[1..], k);
      assert t.tokens[k].(revoked := false) == db.tokens[k].(revoked := false);
      assert t.tokens[k].id == db.tokens[k].id && es == [es[0]] + es[1..];
    }
  }

  /** A generated token is accepted, after any further run, exactly until it expires or is
      revoked, and while no other live token shares its prefix; other lifetimes than 15
      minutes to 7 days generate nothing. */
  lemma {:induction false} GeneratedTokenValidates(db: Db, id: string, minutes: int, hash: Hash, now: int,
                                                   es: seq<Event>, later: int)
    requires DbValid(db) && FreshToken(db, id, hash)
    ensures var g := TokenGenerated(db, id, minutes, hash, now);
            var t := Run(g.db, es);
            && (g.ok <==> 15 <= minutes <= 7 * 24 * 60)
            && (!g.ok ==> g.db == db)
            && (g.ok ==>
                  && |db.tokens| < |t.tokens|
                  && (AgentValidates(t, hash.secret, later) == Active
                      <==> && later < now + minutes * 60 && RevokeToken(id) !in es
                           && Unrivalled(t.tokens, |db.tokens|, later)))
  {
    var g := TokenGenerated(db, id, minutes, hash, now);
    if g.ok {
      var k, t := |db.tokens|, Run(g.db, es);
      TokenKeepsValid(db, Token(id, hash, Prefix(hash.secret), now + minutes * 60, false));
      RunTokens(g.db, es, k);
      assert t.tokens[k].(revoked := false) == g.db.tokens[k].(revoked := false);
      assert t.tokens[k].hash == hash && t.tokens[k].expires == now + minutes * 60;
      ValidatesRow(t, k, later);
    }
  }

  /** A revoked agent token is never accepted again after any further run, neither by the
      validation nor by the introspection; every other token keeps its answer. */
  lemma {:induction false} RevokedTokenRefused(db: Db, k: nat, es: seq<Event>, later: int, cached: Option<string>)
    requires DbValid(db) && k < |db.tokens|
    ensures var id, secret := db.tokens[k].id, db.tokens[k].hash.secret;
            var t := Run(Step(db, RevokeToken(id)), es);
            && AgentValidates(t, secret, later) != Active
            && Introspect(t, secret, later, cached) != Active
    ensures var next := Step(db, RevokeToken(db.tokens[k].id));
            && next.sessions == db.sessions && next.clients == db.clients && |next.tokens| == |db.tokens|
            && next.tokens[k].revoked
            && forall j :: 0 <= j < |db.tokens| && j != k ==> next.tokens[j] == db.tokens[j]
  {
    var id, secret := db.tokens[k].id, db.tokens[k].hash.secret;
    var next := Step(db, RevokeToken(id));
    StepKeepsValid(db, RevokeToken(id));
    RunTokens(next, es, k);
    var t := Run(next, es);
    assert t.tokens[k].(revoked := false) == db.tokens[k].(revoked := false);
    assert t.tokens[k].hash.secret == secret;
    ValidatesRow(t, k, later);
    IntrospectionAgrees(t, secret, later, cached);
    AgentTokenIsNoSession(t, secret, later, t.tokens[k]);
  }
}
