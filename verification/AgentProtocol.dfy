/** Agent tokens and OAuth sessions over two stores: the database rows, and the Redis
    entries and prefix indexes that agent-mcp validates against. Every request is a
    process whose Redis and database operations interleave freely with those of the
    others; keys expire with time and may be lost at any moment, Redis calls may fail, and
    a request may end half-way (a crash of the backend ends them all). */
module AgentProtocol {
  import opened Credentials
  import opened Prelude

  datatype Kind = Agent | Oauth

  /** `agent:token:{id}` or `agent:oauth:{id}` */
  datatype Key = Key(kind: Kind, id: nat)

  /** `agent:token_idx:{prefix}` or `agent:oauth_idx:{prefix}` */
  datatype Slot = Slot(kind: Kind, prefix: string)

  /** A token, or a session of a client. */
  datatype Row = Row(hash: Hash, revoked: bool, expires: int, idle: int, client: Option<nat>)

  /** A Redis hash; usage tracking can create one without any of the credential fields. */
  datatype Entry = Entry(hash: Option<Hash>, expires: Option<int>, idle: Option<int>, deadline: Option<int>)

  const EMPTY_ENTRY := Entry(None, None, None, None)

  datatype IndexEntry = IndexEntry(key: Key, deadline: int)

  /** One database or Redis operation of a request. */
  datatype Op =
    | Put(key: Key)
    | Touch(key: Key)
    | Extend(key: Key, ttl: int)
    | ExtendIndex(slot: Slot, ttl: int)
    | SetIndex(slot: Slot, key: Key, ttl: int)
    | Backfill(slot: Slot, key: Key)
    | Del(key: Key)
    | DelIndex(slot: Slot)
    | Revoke(client: nat, keys: set<Key>)

  /** How a validation came to look at a key: by the index, or as the n-th scanned one. */
  datatype Via = ByIndex | ByScan(n: nat)

  datatype Point =
    | AtIndex(kind: Kind)
    | AtEntry(key: Key, via: Via)
    | AtCheck(key: Key, entry: Entry, via: Via)
    | AtScan(kind: Kind, scanned: nat)
    | Matched(key: Key, at: int, via: Via, todo: seq<Op>)
    | Accepted(key: Key, at: int)
    | Rejected
    | Unavailable

  /** `each` tells whether every Redis write of a request has a try-block of its own, or
      all of them share one. */
  datatype Proc =
    | Worker(todo: seq<Op>, each: bool)
    | Syncing(todo: seq<Op>)
    | Granting(client: nat)
    | Refreshing(prev: Key)
    | Validating(secret: string, point: Point)

  function Todo(p: Proc): seq<Op> {
    match p
    case Worker(todo, _) => todo
    case Syncing(todo) => todo
    case Validating(_, point) => if point.Matched? then point.todo else []
    case _ => []
  }

  /** The stores and the requests in flight. `tainted` records the keys that have had a
      deletion dropped, or a revocation overlapped by a write of their hash. */
  datatype State = State(
    now: int,
    rows: map<Key, Row>,
    closed: set<nat>,
    redis: map<Key, Entry>,
    index: map<Slot, IndexEntry>,
    procs: map<nat, Proc>,
    tainted: set<Key>)

  const INIT := State(0, map[], {}, map[], map[], map[], {})

  const SCAN_MAX := 25

  const DEFAULT_IDLE := 3600

  // ---- operations on the stores ----

  type Procs = map<nat, Proc>

  /** A write of the key's hash is still to come. */
  predicate PendingPut(procs: Procs, k: Key) {
    exists p :: p in procs && Put(k) in Todo(procs[p])
  }

  function Marked(rows: map<Key, Row>, ks: set<Key>): map<Key, Row> {
    map k | k in rows :: if k in ks then rows[k].(revoked := true) else rows[k]
  }

  function EntryOf(s: State, k: Key): Entry {
    Get(s.redis, k, EMPTY_ENTRY)
  }

  function Perform(s: State, op: Op): State {
    match op
    case Put(k) =>
      if k !in s.rows then s
      else
        var row := s.rows[k];
        s.(redis := s.redis[k := EntryOf(s, k).(
             hash := Some(row.hash),
             expires := if k.kind.Agent? then Some(row.expires) else None,
             idle := if k.kind.Oauth? then Some(row.idle) else None)])
    case Touch(k) => s.(redis := s.redis[k := EntryOf(s, k)])
    case Extend(k, ttl) =>
      if k !in s.redis then s
      else if ttl <= 0 then s.(redis := s.redis - {k})
      else s.(redis := s.redis[k := s.redis[k].(deadline := Some(s.now + ttl))])
    case ExtendIndex(slot, ttl) =>
      if slot !in s.index then s
      else if ttl <= 0 then s.(index := s.index - {slot})
      else s.(index := s.index[slot := s.index[slot].(deadline := s.now + ttl)])
    case SetIndex(slot, k, ttl) => s.(index := s.index[slot := IndexEntry(k, s.now + ttl)])
    case Backfill(slot, k) => s
    case Del(k) =>
      s.(redis := s.redis - {k}, tainted := if PendingPut(s.procs, k) then s.tainted else s.tainted - {k})
    case DelIndex(slot) => s.(index := s.index - {slot})
    case Revoke(c, ks) => s.(rows := Marked(s.rows, ks), closed := s.closed + {c})
  }

  /** What an operation leaves to do: reading a remaining TTL may lead to an index write. */
  function FollowUp(s: State, op: Op): seq<Op> {
    match op
    case Backfill(slot, k) =>
      if k in s.redis && s.redis[k].deadline.Some? && s.redis[k].deadline.value > s.now then
        [SetIndex(slot, k, s.redis[k].deadline.value - s.now)]
      else []
    case _ => []
  }

  // ---- agent-mcp: validate_token ----

  /** Where a validation goes on after a key that did not match. */
  function Missed(kind: Kind, via: Via): Point {
    match via
    case ByScan(n) => AtScan(kind, n)
    case ByIndex => if kind.Agent? then AtIndex(Oauth) else AtScan(Agent, 0)
  }

  function UsageOps(secret: string, k: Key, e: Entry, via: Via): seq<Op> {
    var slot := Slot(k.kind, Prefix(secret));
    var idle := if e.idle.Some? then e.idle.value else DEFAULT_IDLE;
    match (k.kind, via)
    case (Agent, ByIndex) => [Touch(k)]
    case (Agent, ByScan(_)) => [Backfill(slot, k), Touch(k)]
    case (Oauth, ByIndex) => [Extend(k, idle), ExtendIndex(slot, idle), Touch(k)]
    case (Oauth, ByScan(_)) => [Extend(k, idle), SetIndex(slot, k, idle), Touch(k)]
  }

  function CheckEntry(now: int, secret: string, k: Key, e: Entry, via: Via): Point {
    if e.hash.Some? && Verifies(secret, e.hash.value) then
      if k.kind.Agent? && e.expires.Some? && e.expires.value <= now then Rejected
      else Matched(k, now, via, UsageOps(secret, k, e, via))
    else Missed(k.kind, via)
  }

  /** One step of a validation that is not a usage write; `scanned` is the key SCAN yields. */
  function Advance(s: State, secret: string, point: Point, scanned: Option<Key>): Point {
    match point
    case AtIndex(kind) =>
      var slot := Slot(kind, Prefix(secret));
      if slot in s.index then AtEntry(s.index[slot].key, ByIndex) else Missed(kind, ByIndex)
    case AtEntry(k, via) =>
      if k in s.redis then AtCheck(k, s.redis[k], via) else Missed(k.kind, via)
    case AtCheck(k, e, via) => CheckEntry(s.now, secret, k, e, via)
    case AtScan(kind, n) =>
      (match scanned
       case Some(k) =>
         if k.kind != kind then point
         else if n < SCAN_MAX then AtEntry(k, ByScan(n + 1))
         else if kind.Agent? then AtScan(Oauth, 0) else Rejected
       case None => if kind.Agent? then AtScan(Oauth, 0) else Rejected)
    case Matched(k, at, _, todo) => if todo == [] then Accepted(k, at) else point
    case _ => point
  }

  /** A Redis call raises: before the match the whole request fails; afterwards a failed
      usage write is ignored and any other failure sends the validation on. */
  function Fault(point: Point): Point {
    match point
    case AtIndex(_) => Unavailable
    case AtEntry(_, _) => Unavailable
    case AtScan(_, _) => Unavailable
    case AtCheck(k, _, via) => Missed(k.kind, via)
    case Matched(k, at, via, todo) =>
      if todo == [] then point
      else if todo[0].Touch? then Matched(k, at, via, todo[1..])
      else Missed(k.kind, via)
    case _ => point
  }

  // ---- requests ----

  datatype Event =
    | Create(p: nat, k: Key, row: Row, ttl: int)
    | StartExchange(p: nat, c: nat)
    | CommitExchange(p: nat, k: Key, row: Row, ttl: int)
    | StartRefresh(p: nat, prev: Key)
    | CommitRefresh(p: nat, k: Key, row: Row, ttl: int)
    | RevokeToken(p: nat, k: Key)
    | RevokeClient(p: nat, c: nat, ks: seq<Key>)
    | StartSync(p: nat, kind: Kind, ks: seq<Key>)
    | BackendUse(p: nat, k: Key, secret: string, ttl: int, backfill: Option<int>)
    | StartValidate(p: nat, secret: string)
    | Continue(p: nat, scanned: Option<Key>)
    | Execute(p: nat)
    | Raise(p: nat)
    | Fail(p: nat)
    | Abort(p: nat)
    | Tick(dt: nat)
    | LoseKey(k: Key)
    | LoseIndex(slot: Slot)

  predicate Fresh(s: State, k: Key, row: Row) {
    && k !in s.rows && !row.revoked
    && forall j :: j in s.rows ==> s.rows[j].hash.secret != row.hash.secret
  }

  function Dels(ks: seq<Key>): seq<Op> {
    if ks == [] then [] else [Del(ks[0])] + Dels(ks[1..])
  }

  function KeySet(ks: seq<Key>): set<Key> {
    set k | k in ks
  }

  function StoreOps(k: Key, row: Row, ttl: int): seq<Op> {
    [Put(k), Extend(k, ttl), SetIndex(Slot(k.kind, Prefix(row.hash.secret)), k, ttl)]
  }

  predicate ToSync(s: State, kind: Kind, k: Key) {
    && k.kind == kind && k in s.rows && !s.rows[k].revoked && s.rows[k].expires > s.now
    && (s.rows[k].client.Some? ==> s.rows[k].client.value !in s.closed)
  }

  /** Rows that are not live, or whose client is revoked, are not written. */
  function SyncOps(s: State, kind: Kind, ks: seq<Key>): seq<Op> {
    if ks == [] then []
    else
      (if ToSync(s, kind, ks[0]) then
         var row := s.rows[ks[0]];
         [Put(ks[0]), Extend(ks[0], row.expires - s.now)]
         + (if kind.Agent?
            then [SetIndex(Slot(Agent, Prefix(row.hash.secret)), ks[0], row.expires - s.now)]
            else [])
       else [])
      + SyncOps(s, kind, ks[1..])
  }

  /** The sessions that a client's revocation finds. */
  predicate SessionsOf(s: State, c: nat, ks: seq<Key>) {
    && (forall k :: k in ks ==> k in s.rows && s.rows[k].client == Some(c) && !s.rows[k].revoked)
    && (forall k :: k in s.rows && s.rows[k].client == Some(c) && !s.rows[k].revoked ==> k in ks)
  }

  predicate Open(s: State, k: Key) {
    && k in s.rows && !s.rows[k].revoked
    && s.rows[k].client.Some? && s.rows[k].client.value !in s.closed
  }

  predicate Backend(proc: Proc) {
    !proc.Validating?
  }

  predicate Enabled(s: State, e: Event) {
    match e
    case Create(p, k, row, _) => p !in s.procs && Fresh(s, k, row) && k.kind.Agent? && row.client.None?
    case StartExchange(p, c) => p !in s.procs && c !in s.closed
    case CommitExchange(p, k, row, _) =>
      && p in s.procs && s.procs[p].Granting?
      && Fresh(s, k, row) && k.kind.Oauth? && row.client == Some(s.procs[p].client)
    case StartRefresh(p, prev) => p !in s.procs && Open(s, prev)
    case CommitRefresh(p, k, row, _) =>
      && p in s.procs && s.procs[p].Refreshing? && s.procs[p].prev in s.rows
      && Fresh(s, k, row) && k.kind.Oauth? && row.client == s.rows[s.procs[p].prev].client
    case RevokeToken(p, k) => p !in s.procs && k in s.rows && k.kind.Agent?
    case RevokeClient(p, c, ks) => p !in s.procs && SessionsOf(s, c, ks)
    case StartSync(p, _, _) => p !in s.procs
    case BackendUse(p, k, _, _, _) => p !in s.procs && k.kind.Oauth?
    case StartValidate(p, _) => p !in s.procs
    case Continue(p, _) => p in s.procs && s.procs[p].Validating?
    case Execute(p) => p in s.procs && Todo(s.procs[p]) != []
    case Raise(p) => p in s.procs && s.procs[p].Validating?
    case Fail(p) => p in s.procs && Backend(s.procs[p]) && Todo(s.procs[p]) != [] && !Todo(s.procs[p])[0].Revoke?
    case Abort(p) => p in s.procs && Backend(s.procs[p])
    case Tick(_) => true
    case LoseKey(_) => true
    case LoseIndex(_) => true
  }

  // ---- failures, and what overlaps ----

  /** A commit does not depend on Redis. */
  function Closings(todo: seq<Op>): seq<Op> {
    if todo == [] then []
    else (if todo[0].Revoke? then [todo[0]] else []) + Closings(todo[1..])
  }

  /** What a request still does after its next Redis call has raised. */
  function AfterFault(proc: Proc): seq<Op>
    requires Todo(proc) != []
  {
    match proc
    case Worker(todo, each) => if each then todo[1..] else Closings(todo)
    case _ => []
  }

  /** `op` is the commit that will revoke `k`. */
  predicate Closes(op: Op, k: Key) {
    op.Revoke? && k in op.keys
  }

  predicate PendingClose(procs: Procs, k: Key) {
    exists p :: p in procs && exists op :: op in Todo(procs[p]) && Closes(op, k)
  }

  function Dropped(before: seq<Op>, after: seq<Op>): set<Key> {
    set op | op in before && op.Del? && op !in after :: op.key
  }

  function Overlapped(procs: Procs, ks: set<Key>): set<Key> {
    set k | k in ks && PendingPut(procs, k)
  }

  /** The keys for which the event means trouble: a revocation starts while their hash is
      still to be written, a sync is to write it during a revocation, or a deletion is lost. */
  function Taints(s: State, e: Event): set<Key>
    requires Enabled(s, e)
  {
    match e
    case RevokeToken(_, k) => Overlapped(s.procs, {k})
    case RevokeClient(_, _, ks) => Overlapped(s.procs, KeySet(ks))
    case CommitRefresh(p, _, _, _) => Overlapped(s.procs, {s.procs[p].prev})
    case StartSync(_, kind, ks) => set k | k in ks && ToSync(s, kind, k) && PendingClose(s.procs, k)
    case Fail(p) => Dropped(Todo(s.procs[p]), AfterFault(s.procs[p]))
    case Abort(p) => Dropped(Todo(s.procs[p]), [])
    case _ => {}
  }

  function Spawn(s: State, p: nat, proc: Proc): State {
    s.(procs := s.procs[p := proc])
  }

  function WithTodo(proc: Proc, todo: seq<Op>): Proc {
    match proc
    case Worker(_, each) => Worker(todo, each)
    case Syncing(_) => Syncing(todo)
    case Validating(secret, point) =>
      if point.Matched? then Validating(secret, point.(todo := todo)) else proc
    case _ => Worker(todo, false)
  }

  const ENDED := Worker([], false)

  /** The event itself; what it means for the record of trouble is added by `Next`. */
  function Effect(s: State, e: Event): State
    requires Enabled(s, e)
  {
    match e
    case Create(p, k, row, ttl) =>
      Spawn(s.(rows := s.rows[k := row]), p, Worker(StoreOps(k, row, ttl), false))
    case StartExchange(p, c) => Spawn(s, p, Granting(c))
    case CommitExchange(p, k, row, ttl) =>
      Spawn(s.(rows := s.rows[k := row]), p, Worker(StoreOps(k, row, ttl), false))
    case StartRefresh(p, prev) => Spawn(s, p, Refreshing(prev))
    case CommitRefresh(p, k, row, ttl) =>
      var prev := s.procs[p].prev;
      Spawn(s.(rows := Marked(s.rows, {prev})[k := row]), p,
            Worker([Del(prev)] + StoreOps(k, row, ttl), false))
    case RevokeToken(p, k) =>
      Spawn(s.(rows := Marked(s.rows, {k})), p,
            Worker([Del(k), DelIndex(Slot(Agent, Prefix(s.rows[k].hash.secret)))], false))
    case RevokeClient(p, c, ks) =>
      Spawn(s, p, Worker(Dels(ks) + [Revoke(c, KeySet(ks))], true))
    case StartSync(p, kind, ks) => Spawn(s, p, Syncing(SyncOps(s, kind, ks)))
    case BackendUse(p, k, secret, ttl, backfill) =>
      var slot := Slot(Oauth, Prefix(secret));
      var indexing := if backfill.Some? then [SetIndex(slot, k, backfill.value)] else [];
      Spawn(s, p, Worker(indexing + [Extend(k, ttl)], true))
    case StartValidate(p, secret) => Spawn(s, p, Validating(secret, AtIndex(Agent)))
    case Continue(p, scanned) =>
      var v := s.procs[p];
      Spawn(s, p, v.(point := Advance(s, v.secret, v.point, scanned)))
    case Execute(p) =>
      var todo := Todo(s.procs[p]);
      Spawn(Perform(s, todo[0]), p, WithTodo(s.procs[p], FollowUp(s, todo[0]) + todo[1..]))
    case Raise(p) =>
      var v := s.procs[p];
      Spawn(s, p, v.(point := Fault(v.point)))
    case Fail(p) => Spawn(s, p, WithTodo(s.procs[p], AfterFault(s.procs[p])))
    case Abort(p) => Spawn(s, p, ENDED)
    case Tick(dt) =>
      var now := s.now + dt;
      s.(now := now,
         redis := map k | k in s.redis && (s.redis[k].deadline.Some? ==> s.redis[k].deadline.value > now) :: s.redis[k],
         index := map i | i in s.index && s.index[i].deadline > now :: s.index[i])
    case LoseKey(k) => s.(redis := s.redis - {k})
    case LoseIndex(slot) => s.(index := s.index - {slot})
  }

  function Tainted(s: State, ks: set<Key>): State {
    s.(tainted := s.tainted + ks)
  }

  function Next(s: State, e: Event): State
    requires Enabled(s, e)
  {
    Tainted(Effect(s, e), Taints(s, e))
  }

  /** A disabled event changes nothing, so every event list is a run. */
  function Step(s: State, e: Event): State {
    if Enabled(s, e) then Next(s, e) else s
  }

  function Run(s: State, es: seq<Event>): State
    decreases |es|
  {
    if es == [] then s else Run(Step(s, es[0]), es[1..])
  }
}
