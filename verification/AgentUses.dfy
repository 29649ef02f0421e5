/** What storing, syncing and using a token leaves in Redis, and how long a session that is
    used stays valid there. */
module AgentUses {
  import opened AgentCoherence
  import opened AgentProtocol
  import opened AgentRuns
  import opened Credentials
  import opened Prelude

  // ---- storing ----

  /** The entry of a row, valid until the given moment. */
  function StoredEntry(k: Key, row: Row, until: int): Entry {
    match k.kind
    case Agent => Entry(Some(row.hash), Some(row.expires), None, Some(until))
    case Oauth => Entry(Some(row.hash), None, Some(row.idle), Some(until))
  }

  function SlotOf(k: Key, secret: string): Slot {
    Slot(k.kind, Prefix(secret))
  }

  /** One write of a request, after which the events `es` have led to state `b`. */
  lemma {:induction false} WriteDone(s: State, es: seq<Event>, a: State, p: nat, op: Op, rest: seq<Op>)
    returns (b: State)
    requires Run(s, es) == a && p in a.procs && (a.procs[p].Worker? || a.procs[p].Syncing?)
    requires Todo(a.procs[p]) == [op] + rest && (Plain(op) || op.Put?) && !op.Backfill?
    ensures b == Run(s, es + [Execute(p)])
    ensures b.redis == Perform(a, op).redis && b.index == Perform(a, op).index
    ensures b.rows == a.rows && b.now == a.now && b.procs == a.procs[p := WithTodo(a.procs[p], rest)]
  {
    var todo := [op] + rest;
    b := Step(a, Execute(p));
    assert todo[0] == op && todo[1..] == rest && FollowUp(a, op) == [] && [] + rest == rest;
    PerformIsClean(a, op);
    PerformRows(a, op);
    RunSplit(s, es, [Execute(p)]);
    RunOne(a, Execute(p));
  }

  lemma {:induction false} StoredEntryIs(a: State, b: State, k: Key, ttl: int)
    requires k in a.rows && ttl > 0
    requires b.redis == Perform(a, Put(k)).redis && b.index == Perform(a, Put(k)).index && b.now == a.now
    ensures var extend := Extend(k, ttl);
            && Perform(b, extend).redis == a.redis[k := StoredEntry(k, a.rows[k], a.now + ttl)]
            && Perform(b, extend).index == a.index
  {
    assert b.redis[k].deadline == EntryOf(a, k).deadline;
  }

  /** The hash is written and its lifetime set. */
  lemma {:induction false} PutAndExtend(s: State, es: seq<Event>, a: State, p: nat, k: Key, ttl: int, rest: seq<Op>)
    returns (c: State)
    requires Run(s, es) == a && p in a.procs && (a.procs[p].Worker? || a.procs[p].Syncing?)
    requires Todo(a.procs[p]) == [Put(k)] + ([Extend(k, ttl)] + rest)
    requires k in a.rows && ttl > 0
    ensures c == Run(s, es + [Execute(p)] + [Execute(p)])
    ensures c.redis == a.redis[k := StoredEntry(k, a.rows[k], a.now + ttl)] && c.index == a.index
    ensures c.rows == a.rows && c.now == a.now && c.procs == a.procs[p := WithTodo(a.procs[p], rest)]
  {
    var b := WriteDone(s, es, a, p, Put(k), [Extend(k, ttl)] + rest);
    StoredEntryIs(a, b, k, ttl);
    c := WriteDone(s, es + [Execute(p)], b, p, Extend(k, ttl), rest);
  }

  function Executes(p: nat, n: nat): seq<Event> {
    seq(n, i => Execute(p))
  }

  lemma {:induction false} ExecutesAre(es: seq<Event>, p: nat)
    ensures es + [Execute(p)] == es + Executes(p, 1)
    ensures es + [Execute(p)] + [Execute(p)] == es + Executes(p, 2)
    ensures es + [Execute(p)] + [Execute(p)] + [Execute(p)] == es + Executes(p, 3)
  {
  }

  /** The hash is written, its lifetime set, and the index led to it. */
  lemma {:induction false} AllThree(s: State, es: seq<Event>, a: State, p: nat, k: Key, ttl: int, rest: seq<Op>)
    returns (t: State)
    requires Run(s, es) == a && p in a.procs && (a.procs[p].Worker? || a.procs[p].Syncing?)
    requires k in a.rows && ttl > 0
    requires var index := SetIndex(SlotOf(k, a.rows[k].hash.secret), k, ttl);
             Todo(a.procs[p]) == [Put(k)] + ([Extend(k, ttl)] + ([index] + rest))
    ensures t == Run(s, es + Executes(p, 3))
    ensures t.redis == a.redis[k := StoredEntry(k, a.rows[k], a.now + ttl)]
    ensures t.index == a.index[SlotOf(k, a.rows[k].hash.secret) := IndexEntry(k, a.now + ttl)]
    ensures t.rows == a.rows && t.now == a.now && t.procs == a.procs[p := WithTodo(a.procs[p], rest)]
  {
    var index := SetIndex(SlotOf(k, a.rows[k].hash.secret), k, ttl);
    var c := PutAndExtend(s, es, a, p, k, ttl, [index] + rest);
    t := LastWritten(s, es + [Execute(p)] + [Execute(p)], a, c, p, index, rest);
    ExecutesAre(es, p);
  }

  lemma {:induction false} LastWritten(s: State, es: seq<Event>, a: State, c: State, p: nat, index: Op, rest: seq<Op>)
    returns (t: State)
    requires Run(s, es) == c && p in a.procs && (a.procs[p].Worker? || a.procs[p].Syncing?) && index.SetIndex?
    requires c.procs == a.procs[p := WithTodo(a.procs[p], [index] + rest)]
    ensures t == Run(s, es + [Execute(p)]) && t.redis == c.redis && t.rows == c.rows && t.now == c.now
    ensures t.index == c.index[index.slot := IndexEntry(index.key, c.now + index.ttl)]
    ensures t.procs == a.procs[p := WithTodo(a.procs[p], rest)]
  {
    t := WriteDone(s, es, c, p, index, rest);
    assert t.procs == a.procs[p := WithTodo(a.procs[p], [index] + rest)][p := WithTodo(a.procs[p], rest)];
  }

  /** Once a generation, an exchange or a refresh has done its writes, the entry has the
      fields of the row, the index leads to it, and both live for the given time. */
  lemma {:induction false} StoreDone(s: State, es: seq<Event>, a: State, p: nat, k: Key, row: Row, ttl: int)
    returns (t: State)
    requires Run(s, es) == a && p in a.procs && a.procs[p] == Worker(StoreOps(k, row, ttl), false)
    requires k in a.rows && a.rows[k] == row && ttl > 0
    ensures t == Run(s, es + Executes(p, 3))
    ensures t.redis == a.redis[k := StoredEntry(k, row, a.now + ttl)]
    ensures t.index == a.index[SlotOf(k, row.hash.secret) := IndexEntry(k, a.now + ttl)]
    ensures t.rows == a.rows && t.now == a.now && t.procs == a.procs[p := ENDED]
  {
    StoreOpsAre(k, row, ttl);
    t := AllThree(s, es, a, p, k, ttl, []);
  }

  lemma {:induction false} StoreOpsAre(k: Key, row: Row, ttl: int)
    ensures StoreOps(k, row, ttl)
         == [Put(k)] + ([Extend(k, ttl)] + ([SetIndex(SlotOf(k, row.hash.secret), k, ttl)] + []))
  {
  }

  /** A generated token, or a session opened by an exchange. */
  lemma {:induction false} NewIsStored(s: State, e: Event) returns (t: State)
    requires Enabled(s, e) && (e.Create? || e.CommitExchange?) && e.ttl > 0
    ensures t == Run(s, [e] + Executes(e.p, 3))
    ensures t.redis == s.redis[e.k := StoredEntry(e.k, e.row, s.now + e.ttl)]
    ensures t.index == s.index[SlotOf(e.k, e.row.hash.secret) := IndexEntry(e.k, s.now + e.ttl)]
    ensures t.rows == s.rows[e.k := e.row] && t.now == s.now
  {
    var a := Step(s, e);
    NewCommits(s, e);
    RunOne(s, e);
    t := StoreDone(s, [e], a, e.p, e.k, e.row, e.ttl);
  }

  lemma {:induction false} NewCommits(s: State, e: Event)
    requires Enabled(s, e) && (e.Create? || e.CommitExchange?)
    ensures var a := Step(s, e);
            && a.redis == s.redis && a.index == s.index && a.now == s.now && a.rows == s.rows[e.k := e.row]
            && a.procs == s.procs[e.p := Worker(StoreOps(e.k, e.row, e.ttl), false)]
  {
  }

  /** A refresh: the entry of the old session goes, that of the new one is stored. */
  lemma {:induction false} RefreshIsStored(s: State, e: Event) returns (t: State)
    requires Enabled(s, e) && e.CommitRefresh? && e.ttl > 0
    ensures t == Run(s, [e] + Executes(e.p, 4))
    ensures var prev := s.procs[e.p].prev;
            && t.redis == (s.redis - {prev})[e.k := StoredEntry(e.k, e.row, s.now + e.ttl)]
            && t.rows == Marked(s.rows, {prev})[e.k := e.row]
    ensures t.index == s.index[SlotOf(e.k, e.row.hash.secret) := IndexEntry(e.k, s.now + e.ttl)] && t.now == s.now
  {
    var prev, ops := s.procs[e.p].prev, StoreOps(e.k, e.row, e.ttl);
    var a := RefreshCommits(s, e.p, e.k, e.row, e.ttl);
    RunOne(s, e);
    var b := OldDeleted(s, e, a, prev, ops);
    t := StoreDone(s, [e] + [Execute(e.p)], b, e.p, e.k, e.row, e.ttl);
    assert [e] + [Execute(e.p)] + Executes(e.p, 3) == [e] + Executes(e.p, 4);
  }

  lemma {:induction false} OldDeleted(s: State, e: Event, a: State, prev: Key, ops: seq<Op>) returns (b: State)
    requires Run(s, [e]) == a && (e.CommitRefresh? || e.RevokeToken?)
    requires e.p in a.procs && a.procs[e.p] == Worker([Del(prev)] + ops, false)
    ensures b == Run(s, [e] + [Execute(e.p)])
    ensures b.redis == a.redis - {prev} && b.index == a.index && b.rows == a.rows && b.now == a.now
    ensures b.procs == a.procs[e.p := Worker(ops, false)]
  {
    ExecuteNext(a, e.p, Del(prev), ops, false);
    RunSplit(s, [e], [Execute(e.p)]);
    RunOne(a, Execute(e.p));
    b := Step(a, Execute(e.p));
  }

  /** The backend's own validation: a session found by the scan gets an index entry, and its
      entry, if there is one, the idle timeout from now on. */
  lemma {:induction false} BackendUseDone(s: State, e: Event) returns (n: nat, t: State)
    requires Enabled(s, e) && e.BackendUse? && e.ttl > 0
    ensures t == Run(s, [e] + Executes(e.p, n)) && t.rows == s.rows && t.now == s.now
    ensures t.redis == if e.k !in s.redis then s.redis
                       else s.redis[e.k := s.redis[e.k].(deadline := Some(s.now + e.ttl))]
    ensures t.index == if e.backfill.None? then s.index
                       else s.index[SlotOf(e.k, e.secret) := IndexEntry(e.k, s.now + e.backfill.value)]
  {
    var a := Step(s, e);
    RunOne(s, e);
    ExecutesAre([e], e.p);
    if e.backfill.Some? {
      assert a.procs == s.procs[e.p := Worker(BackfillOps(e), true)];
      n := 2;
      t := IndexAndExtend(s, [e], a, e);
    } else {
      assert [] + [Extend(e.k, e.ttl)] == [Extend(e.k, e.ttl)];
      n := 1;
      t := ExtendDone(s, [e], a, e.p, e.k, e.ttl);
    }
  }

  function BackfillOps(e: Event): seq<Op>
    requires e.BackendUse? && e.backfill.Some?
  {
    [SetIndex(SlotOf(e.k, e.secret), e.k, e.backfill.value)] + [Extend(e.k, e.ttl)]
  }

  lemma {:induction false} IndexAndExtend(s: State, es: seq<Event>, a: State, e: Event) returns (t: State)
    requires e.BackendUse? && e.backfill.Some? && e.ttl > 0
    requires Run(s, es) == a && e.p in a.procs && a.procs[e.p] == Worker(BackfillOps(e), true)
    ensures t == Run(s, es + Executes(e.p, 2)) && t.rows == a.rows && t.now == a.now
    ensures t.redis == if e.k !in a.redis then a.redis
                       else a.redis[e.k := a.redis[e.k].(deadline := Some(a.now + e.ttl))]
    ensures t.index == a.index[SlotOf(e.k, e.secret) := IndexEntry(e.k, a.now + e.backfill.value)]
  {
    var index := SetIndex(SlotOf(e.k, e.secret), e.k, e.backfill.value);
    var c := WriteDone(s, es, a, e.p, index, [Extend(e.k, e.ttl)]);
    t := ExtendDone(s, es + [Execute(e.p)], c, e.p, e.k, e.ttl);
    ExecutesAre(es, e.p);
  }

  lemma {:induction false} ExtendDone(s: State, es: seq<Event>, a: State, p: nat, k: Key, ttl: int) returns (t: State)
    requires Run(s, es) == a && p in a.procs && a.procs[p] == Worker([Extend(k, ttl)], true) && ttl > 0
    ensures t == Run(s, es + [Execute(p)]) && t.rows == a.rows && t.now == a.now && t.index == a.index
    ensures t.redis == if k !in a.redis then a.redis else a.redis[k := a.redis[k].(deadline := Some(a.now + ttl))]
  {
    assert [Extend(k, ttl)] == [Extend(k, ttl)] + [];
    t := WriteDone(s, es, a, p, Extend(k, ttl), []);
  }

  lemma {:induction false} NoClosings(todo: seq<Op>)
    requires forall op :: op in todo ==> !op.Revoke?
    ensures Closings(todo) == []
  {
    if todo != [] {
      NoClosings(todo[1..]);
      assert todo[0] in todo;
    }
  }

  /** A write of a generation, an exchange, a refresh or a sync that raises drops the writes
      after it as well. */
  lemma {:induction false} FailedWriteEnds(s: State, p: nat)
    requires p in s.procs && Todo(s.procs[p]) != [] && forall op :: op in Todo(s.procs[p]) ==> !op.Revoke?
    requires s.procs[p].Syncing? || (s.procs[p].Worker? && !s.procs[p].each)
    ensures var t := Step(s, Fail(p));
            Todo(t.procs[p]) == [] && t.redis == s.redis && t.index == s.index && t.rows == s.rows
  {
    NoClosings(Todo(s.procs[p]));
    assert Todo(s.procs[p])[0] in Todo(s.procs[p]);
  }

  // ---- syncing ----

  /** The row is live: not revoked, not expired, and of no revoked client. */
  ghost predicate LiveRow(s: State, k: Key) {
    && k in s.rows && !s.rows[k].revoked && s.now < s.rows[k].expires
    && (s.rows[k].client == None || s.rows[k].client.value !in s.closed)
  }

  /** The listed keys that are to be written. */
  ghost function Written(s: State, kind: Kind, ks: seq<Key>): set<Key> {
    set k | k in ks && k.kind == kind && LiveRow(s, k)
  }

  ghost predicate SyncedEntries(s: State, a: Redis, t: Redis, written: set<Key>)
    requires written <= s.rows.Keys
  {
    && t.Keys == a.Keys + written
    && forall k :: k in t ==> t[k] == if k in written then StoredEntry(k, s.rows[k], s.rows[k].expires) else a[k]
  }

  /** The index entry leads to the token for the rest of its lifetime. */
  ghost predicate LeadsTo(s: State, slot: Slot, i: IndexEntry, k: Key)
    requires k in s.rows
  {
    k.kind.Agent? && SlotOf(k, s.rows[k].hash.secret) == slot && i == IndexEntry(k, s.rows[k].expires)
  }

  /** Tokens get an index entry, which those with the same prefix share; sessions get none. */
  ghost predicate SyncedIndex(s: State, a: map<Slot, IndexEntry>, t: map<Slot, IndexEntry>, written: set<Key>)
    requires written <= s.rows.Keys
  {
    && (forall slot :: slot in a ==> slot in t)
    && (forall k :: k in written && k.kind.Agent? ==> SlotOf(k, s.rows[k].hash.secret) in t)
    && forall slot :: slot in t ==>
         || (exists k :: k in written && LeadsTo(s, slot, t[slot], k))
         || (slot in a && t[slot] == a[slot]
             && forall k :: k in written && k.kind.Agent? ==> SlotOf(k, s.rows[k].hash.secret) != slot)
  }

  /** A row is read before the writes start; nothing of it changes until they do. */
  ghost predicate Syncs(s: State, a: State, p: nat, kind: Kind, ks: seq<Key>) {
    && a.rows == s.rows && a.now == s.now
    && p in a.procs && a.procs[p] == Syncing(SyncOps(s, kind, ks))
  }

  ghost predicate FirstWritten(s: State, a: Redis, b: Redis, i: map<Slot, IndexEntry>, j: map<Slot, IndexEntry>, k: Key)
    requires k in s.rows
  {
    var row := s.rows[k];
    && b == a[k := StoredEntry(k, row, row.expires)]
    && j == if k.kind.Agent? then i[SlotOf(k, row.hash.secret) := IndexEntry(k, row.expires)] else i
  }

  lemma {:induction false} SyncOpsCons(s: State, kind: Kind, ks: seq<Key>)
    requires ks != [] && ks[0].kind == kind && LiveRow(s, ks[0])
    ensures var k, row, rest := ks[0], s.rows[ks[0]], SyncOps(s, kind, ks[1..]);
            var ttl := row.expires - s.now;
            var first := if kind.Agent? then [SetIndex(SlotOf(k, row.hash.secret), k, ttl)] + rest else rest;
            SyncOps(s, kind, ks) == [Put(k)] + ([Extend(k, ttl)] + first)
  {
  }

  lemma {:induction false} TokenSynced(s: State, o: State, es: seq<Event>, a: State, p: nat, ks: seq<Key>)
    returns (b: State)
    requires Run(o, es) == a && ks != [] && Syncs(s, a, p, Agent, ks) && ks[0].kind.Agent? && LiveRow(s, ks[0])
    ensures b == Run(o, es + Executes(p, 3)) && Syncs(s, b, p, Agent, ks[1..])
    ensures FirstWritten(s, a.redis, b.redis, a.index, b.index, ks[0])
  {
    SyncOpsCons(s, Agent, ks);
    b := AllThree(o, es, a, p, ks[0], s.rows[ks[0]].expires - s.now, SyncOps(s, Agent, ks[1..]));
  }

  lemma {:induction false} SessionSynced(s: State, o: State, es: seq<Event>, a: State, p: nat, ks: seq<Key>)
    returns (b: State)
    requires Run(o, es) == a && ks != [] && Syncs(s, a, p, Oauth, ks) && ks[0].kind.Oauth? && LiveRow(s, ks[0])
    ensures b == Run(o, es + Executes(p, 2)) && Syncs(s, b, p, Oauth, ks[1..])
    ensures FirstWritten(s, a.redis, b.redis, a.index, b.index, ks[0])
  {
    SyncOpsCons(s, Oauth, ks);
    b := PutAndExtend(o, es, a, p, ks[0], s.rows[ks[0]].expires - s.now, SyncOps(s, Oauth, ks[1..]));
    ExecutesAre(es, p);
  }

  lemma {:induction false} ExecutesJoin(es: seq<Event>, p: nat, m: nat, n: nat)
    ensures es + Executes(p, m) + Executes(p, n) == es + Executes(p, m + n)
    ensures es + Executes(p, 0) == es
  {
  }

  /** The stores once the listed keys are written, one after the other. */
  ghost function RedisAfter(s: State, redis: Redis, kind: Kind, ks: seq<Key>): Redis
    decreases |ks|
  {
    if ks == [] then redis
    else if ks[0].kind == kind && LiveRow(s, ks[0]) then
      RedisAfter(s, redis[ks[0] := StoredEntry(ks[0], s.rows[ks[0]], s.rows[ks[0]].expires)], kind, ks[1..])
    else RedisAfter(s, redis, kind, ks[1..])
  }

  ghost function IndexAfter(s: State, index: map<Slot, IndexEntry>, kind: Kind, ks: seq<Key>): map<Slot, IndexEntry>
    decreases |ks|
  {
    if ks == [] then index
    else if ks[0].kind == kind && LiveRow(s, ks[0]) && kind.Agent? then
      var row := s.rows[ks[0]];
      IndexAfter(s, index[SlotOf(ks[0], row.hash.secret) := IndexEntry(ks[0], row.expires)], kind, ks[1..])
    else IndexAfter(s, index, kind, ks[1..])
  }

  lemma {:induction false} SyncRuns(s: State, o: State, es: seq<Event>, a: State, p: nat, kind: Kind, ks: seq<Key>)
    returns (n: nat, t: State)
    requires Run(o, es) == a && Syncs(s, a, p, kind, ks)
    ensures t == Run(o, es + Executes(p, n)) && t.now == s.now
    ensures t.redis == RedisAfter(s, a.redis, kind, ks) && t.index == IndexAfter(s, a.index, kind, ks)
    decreases |ks|
  {
    if ks == [] {
      n, t := 0, a;
      ExecutesJoin(es, p, 0, 0);
    } else if ks[0].kind == kind && LiveRow(s, ks[0]) {
      var m := if kind.Agent? then 3 else 2;
      var b, later;
      if kind.Agent? {
        b := TokenSynced(s, o, es, a, p, ks);
      } else {
        b := SessionSynced(s, o, es, a, p, ks);
      }
      later, t := SyncRuns(s, o, es + Executes(p, m), b, p, kind, ks[1..]);
      n := m + later;
      ExecutesJoin(es, p, m, later);
    } else {
      assert [] + SyncOps(s, kind, ks[1..]) == SyncOps(s, kind, ks[1..]);
      n, t := SyncRuns(s, o, es, a, p, kind, ks[1..]);
    }
  }

  lemma {:induction false} WrittenCons(s: State, kind: Kind, ks: seq<Key>)
    requires ks != []
    ensures Written(s, kind, ks)
         == Written(s, kind, ks[1..]) + (if ks[0].kind == kind && LiveRow(s, ks[0]) then {ks[0]} else {})
  {
  }

  lemma {:induction false} AllWritten(s: State, redis: Redis, index: map<Slot, IndexEntry>, kind: Kind, ks: seq<Key>)
    ensures SyncedEntries(s, redis, RedisAfter(s, redis, kind, ks), Written(s, kind, ks))
    ensures SyncedIndex(s, index, IndexAfter(s, index, kind, ks), Written(s, kind, ks))
    decreases |ks|
  {
    if ks != [] {
      WrittenCons(s, kind, ks);
      var k, later := ks[0], Written(s, kind, ks[1..]);
      if k.kind == kind && LiveRow(s, k) {
        var row := s.rows[k];
        var redis' := redis[k := StoredEntry(k, row, row.expires)];
        var index' := if kind.Agent? then index[SlotOf(k, row.hash.secret) := IndexEntry(k, row.expires)] else index;
        AllWritten(s, redis', index', kind, ks[1..]);
        FirstEntry(s, redis, redis', RedisAfter(s, redis', kind, ks[1..]), k, later);
        FirstIndex(s, index, index', IndexAfter(s, index', kind, ks[1..]), k, later);
      } else {
        AllWritten(s, redis, index, kind, ks[1..]);
      }
    }
  }

  lemma {:induction false} FirstEntry(s: State, a: Redis, b: Redis, t: Redis, k: Key, written: set<Key>)
    requires k in s.rows && written <= s.rows.Keys
    requires b == a[k := StoredEntry(k, s.rows[k], s.rows[k].expires)] && SyncedEntries(s, b, t, written)
    ensures SyncedEntries(s, a, t, written + {k})
  {
  }

  lemma {:induction false} FirstIndex(s: State, a: map<Slot, IndexEntry>, b: map<Slot, IndexEntry>,
          t: map<Slot, IndexEntry>, k: Key, written: set<Key>)
    requires k in s.rows && written <= s.rows.Keys && SyncedIndex(s, b, t, written)
    requires b == if k.kind.Agent? then a[SlotOf(k, s.rows[k].hash.secret) := IndexEntry(k, s.rows[k].expires)] else a
    ensures SyncedIndex(s, a, t, written + {k})
  {
    forall slot | slot in t && !(exists j :: j in written + {k} && LeadsTo(s, slot, t[slot], j))
      ensures slot in a && t[slot] == a[slot]
      ensures forall j :: j in written + {k} && j.kind.Agent? ==> SlotOf(j, s.rows[j].hash.secret) != slot
    {
      assert forall j :: j in written ==> j in written + {k};
      assert k in written + {k} && !LeadsTo(s, slot, t[slot], k);
    }
  }

  /** A startup sync that nothing disturbs leaves every live row that it read in Redis until
      the row expires, and touches nothing else. */
  lemma {:induction false} SyncStores(s: State, p: nat, kind: Kind, ks: seq<Key>) returns (n: nat, t: State)
    requires p !in s.procs
    ensures t == Run(s, [StartSync(p, kind, ks)] + Executes(p, n)) && t.now == s.now
    ensures SyncedEntries(s, s.redis, t.redis, Written(s, kind, ks))
    ensures SyncedIndex(s, s.index, t.index, Written(s, kind, ks))
  {
    RunOne(s, StartSync(p, kind, ks));
    n, t := SyncRuns(s, s, [StartSync(p, kind, ks)], Step(s, StartSync(p, kind, ks)), p, kind, ks);
    AllWritten(s, s.redis, s.index, kind, ks);
  }

  // ---- an undisturbed use ----

  ghost predicate IndexedAs(s: State, secret: string, k: Key) {
    SlotOf(k, secret) in s.index && s.index[SlotOf(k, secret)].key == k
  }

  /** The entry carries the hash of the secret. */
  ghost predicate Genuine(s: State, secret: string, k: Key) {
    HasHash(s.redis, k) && Verifies(secret, s.redis[k].hash.value)
  }

  ghost predicate Expired(s: State, k: Key)
    requires k in s.redis
  {
    k.kind.Agent? && s.redis[k].expires.Some? && s.redis[k].expires.value <= s.now
  }

  /** The idle timeout of an entry, one hour if it has none. */
  function IdleOf(e: Entry): int {
    match e.idle
    case Some(idle) => idle
    case None => 3600
  }

  /** What an accepted validation leaves: of an agent token nothing but an index entry with
      the remaining lifetime, if there was none; of a session, entry and index entry renewed
      for its idle timeout. */
  ghost predicate Used(s: State, t: State, secret: string, k: Key)
    requires k in s.redis
  {
    var e, slot := s.redis[k], SlotOf(k, secret);
    match k.kind
    case Agent =>
      && t.redis == s.redis
      && t.index == if !IndexedAs(s, secret, k) && e.deadline.Some? && e.deadline.value > s.now
                    then s.index[slot := IndexEntry(k, e.deadline.value)] else s.index
    case Oauth =>
      IdleOf(e) > 0 ==>
        && t.redis == s.redis[k := e.(deadline := Some(s.now + IdleOf(e)))]
        && t.index == s.index[slot := IndexEntry(k, s.now + IdleOf(e))]
  }

  /** No index of the kind leads to an entry with the hash of the secret. */
  ghost predicate Passed(s: State, secret: string, kind: Kind) {
    forall j: Key :: j.kind == kind && IndexedAs(s, secret, j) ==> !Genuine(s, secret, j)
  }

  ghost predicate PassedBoth(s: State, secret: string) {
    Passed(s, secret, Agent) && Passed(s, secret, Oauth)
  }

  /** How the validation came to the key. */
  ghost predicate ViaOk(s: State, secret: string, k: Key, via: Via) {
    match via
    case ByIndex => IndexedAs(s, secret, k) && (k.kind.Oauth? ==> Passed(s, secret, Agent))
    case ByScan(_) => PassedBoth(s, secret)
  }

  /** What a point before the match, or a refusal, tells about the state at the start. */
  ghost predicate Knows(s: State, secret: string, point: Point) {
    match point
    case AtIndex(kind) => kind.Oauth? ==> Passed(s, secret, Agent)
    case AtEntry(k, via) => ViaOk(s, secret, k, via)
    case AtCheck(k, e, via) => ViaOk(s, secret, k, via) && k in s.redis && e == s.redis[k]
    case AtScan(_, _) => PassedBoth(s, secret)
    case Rejected => PassedBoth(s, secret) || exists j :: Genuine(s, secret, j) && Expired(s, j)
    case Unavailable => false
    case Matched(_, _, _, _) => false
    case Accepted(_, _) => false
  }

  /** The writes of an accepted validation that are done, by those that are left. */
  ghost predicate Progress(s: State, t: State, secret: string, k: Key, via: Via, todo: seq<Op>)
    requires k in s.redis
  {
    var e, slot := s.redis[k], SlotOf(k, secret);
    var idle := IdleOf(e);
    match k.kind
    case Agent =>
      && t.redis == s.redis
      && (|| (todo == UsageOps(secret, k, e, via) && t.index == s.index)
          || (via.ByScan? && e.deadline.Some? && e.deadline.value > s.now && t.index == s.index
              && todo == [SetIndex(slot, k, e.deadline.value - s.now), Touch(k)])
          || ((todo == [Touch(k)] || todo == []) && Used(s, t, secret, k)))
    case Oauth =>
      idle > 0 ==>
        || (todo == UsageOps(secret, k, e, via) && t.redis == s.redis && t.index == s.index)
        || (todo == UsageOps(secret, k, e, via)[1..] && t.index == s.index
            && t.redis == s.redis[k := e.(deadline := Some(s.now + idle))])
        || ((todo == [Touch(k)] || todo == []) && Used(s, t, secret, k))
  }

  /** Only the validation has moved since `s`, and this is what its point means. */
  ghost predicate Alone(s: State, t: State, p: nat, secret: string) {
    && t.now == s.now && p in t.procs && t.procs[p].Validating? && t.procs[p].secret == secret
    && match t.procs[p].point
       case Matched(k, at, via, todo) =>
         at == s.now && Genuine(s, secret, k) && ViaOk(s, secret, k, via) && Progress(s, t, secret, k, via, todo)
       case Accepted(k, at) => at == s.now && Genuine(s, secret, k) && Used(s, t, secret, k)
       case _ => t.redis == s.redis && t.index == s.index && Knows(s, secret, t.procs[p].point)
  }

  ghost predicate KindsMatch(s: State) {
    forall slot :: slot in s.index ==> s.index[slot].key.kind == slot.kind
  }

  lemma {:induction false} IndexRead(s: State, secret: string, kind: Kind)
    requires KindsMatch(s) && Knows(s, secret, AtIndex(kind))
    ensures Knows(s, secret, Advance(s, secret, AtIndex(kind), None))
  {
    var slot := Slot(kind, Prefix(secret));
    if slot !in s.index {
      assert forall j: Key :: j.kind == kind ==> !IndexedAs(s, secret, j);
    } else {
      var k := s.index[slot].key;
      assert k.kind == kind && SlotOf(k, secret) == slot && IndexedAs(s, secret, k);
    }
  }

  /** A key that does not match rules its index out. */
  lemma {:induction false} MissKnows(s: State, secret: string, k: Key, via: Via)
    requires ViaOk(s, secret, k, via) && !Genuine(s, secret, k)
    ensures Knows(s, secret, Missed(k.kind, via))
  {
    if via.ByIndex? {
      forall j: Key | j.kind == k.kind && IndexedAs(s, secret, j) ensures !Genuine(s, secret, j) {
        assert j == k;
      }
    }
  }

  lemma {:induction false} EntryRead(s: State, secret: string, k: Key, via: Via)
    requires Knows(s, secret, AtEntry(k, via))
    ensures Knows(s, secret, Advance(s, secret, AtEntry(k, via), None))
  {
    if k !in s.redis { MissKnows(s, secret, k, via); }
  }

  lemma {:induction false} EntryChecked(s: State, secret: string, k: Key, e: Entry, via: Via)
    requires Knows(s, secret, AtCheck(k, e, via))
    ensures var point := Advance(s, secret, AtCheck(k, e, via), None);
            if point.Matched? then point == Matched(k, s.now, via, UsageOps(secret, k, e, via)) && Genuine(s, secret, k)
            else Knows(s, secret, point)
  {
    if Genuine(s, secret, k) {
      assert Expired(s, k) ==> Knows(s, secret, Rejected);
    } else {
      MissKnows(s, secret, k, via);
    }
  }

  lemma {:induction false} ScanRead(s: State, secret: string, kind: Kind, n: nat, scanned: Option<Key>)
    requires Knows(s, secret, AtScan(kind, n))
    ensures Knows(s, secret, Advance(s, secret, AtScan(kind, n), scanned))
  {
  }

  /** The next point, as far as it is none of acceptance. */
  lemma {:induction false} ReadKnows(s: State, secret: string, point: Point, scanned: Option<Key>)
    requires KindsMatch(s) && Knows(s, secret, point)
    ensures var next := Advance(s, secret, point, scanned);
            match next
            case Matched(k, at, via, todo) =>
              && at == s.now && Genuine(s, secret, k) && ViaOk(s, secret, k, via)
              && todo == UsageOps(secret, k, s.redis[k], via)
            case Accepted(_, _) => false
            case _ => Knows(s, secret, next)
  {
    match point
    case AtIndex(kind) => IndexRead(s, secret, kind);
    case AtEntry(k, via) => EntryRead(s, secret, k, via);
    case AtCheck(k, e, via) => EntryChecked(s, secret, k, e, via);
    case AtScan(kind, n) => ScanRead(s, secret, kind, n, scanned);
    case Rejected =>
  }

  lemma {:induction false} AdvanceReads(s: State, t: State, secret: string, point: Point, scanned: Option<Key>)
    requires t.redis == s.redis && t.index == s.index && t.now == s.now
    ensures Advance(t, secret, point, scanned) == Advance(s, secret, point, scanned)
  {
  }

  lemma {:induction false} ContinueAlone(s: State, t: State, p: nat, secret: string, scanned: Option<Key>)
    requires KindsMatch(s) && Alone(s, t, p, secret)
    ensures Alone(s, Step(t, Continue(p, scanned)), p, secret)
  {
    var v := t.procs[p];
    var u := Step(t, Continue(p, scanned));
    var next := Advance(t, secret, v.point, scanned);
    assert u.redis == t.redis && u.index == t.index && u.now == t.now && u.procs == t.procs[p := v.(point := next)];
    match v.point
    case Matched(_, _, _, _) =>
    case Accepted(_, _) =>
    case _ =>
      AdvanceReads(s, t, secret, v.point, scanned);
      ReadKnows(s, secret, v.point, scanned);
  }

  lemma {:induction false} UsageWrites(s: State, secret: string, k: Key, via: Via)
    requires k in s.redis
    ensures var e, slot := s.redis[k], SlotOf(k, secret);
            var idle := IdleOf(e);
            UsageOps(secret, k, e, via)
            == match k.kind
               case Agent => if via.ByIndex? then [Touch(k)] else [Backfill(slot, k), Touch(k)]
               case Oauth =>
                 [Extend(k, idle), if via.ByIndex? then ExtendIndex(slot, idle) else SetIndex(slot, k, idle), Touch(k)]
  {
  }

  /** One write of an accepted validation. */
  lemma {:induction false} WriteProgress(s: State, t: State, secret: string, k: Key, via: Via, todo: seq<Op>)
    requires t.now == s.now && Genuine(s, secret, k) && ViaOk(s, secret, k, via)
    requires Progress(s, t, secret, k, via, todo) && todo != []
    requires k.kind.Agent? || IdleOf(s.redis[k]) > 0
    ensures var u := Perform(t, todo[0]);
            u.now == t.now && Progress(s, u, secret, k, via, FollowUp(t, todo[0]) + todo[1..])
  {
    UsageWrites(s, secret, k, via);
    if k.kind.Agent? {
      AgentProgress(s, t, secret, k, via, todo);
    } else {
      SessionProgress(s, t, secret, k, via, todo);
    }
  }

  lemma {:induction false} AgentProgress(s: State, t: State, secret: string, k: Key, via: Via, todo: seq<Op>)
    requires t.now == s.now && Genuine(s, secret, k) && ViaOk(s, secret, k, via) && k.kind.Agent?
    requires Progress(s, t, secret, k, via, todo) && todo != []
    requires UsageOps(secret, k, s.redis[k], via)
             == if via.ByIndex? then [Touch(k)] else [Backfill(SlotOf(k, secret), k), Touch(k)]
    ensures var u := Perform(t, todo[0]);
            u.now == t.now && Progress(s, u, secret, k, via, FollowUp(t, todo[0]) + todo[1..])
  {
    var e, slot := s.redis[k], SlotOf(k, secret);
    assert EntryOf(t, k) == e && s.redis[k := e] == s.redis;
    assert via.ByScan? ==> !IndexedAs(s, secret, k);
    if todo == [Touch(k)] {
      assert [Touch(k)][1..] == [] && [] + [] == FollowUp(t, Touch(k)) + todo[1..];
    } else if todo == [Backfill(slot, k), Touch(k)] {
      assert todo[1..] == [Touch(k)];
    } else {
      assert todo[1..] == [Touch(k)] && [] + [Touch(k)] == [Touch(k)];
    }
  }

  lemma {:induction false} SessionProgress(s: State, t: State, secret: string, k: Key, via: Via, todo: seq<Op>)
    requires t.now == s.now && Genuine(s, secret, k) && ViaOk(s, secret, k, via)
    requires k.kind.Oauth? && IdleOf(s.redis[k]) > 0
    requires Progress(s, t, secret, k, via, todo) && todo != []
    requires var slot, idle := SlotOf(k, secret), IdleOf(s.redis[k]);
             UsageOps(secret, k, s.redis[k], via)
             == [Extend(k, idle), if via.ByIndex? then ExtendIndex(slot, idle) else SetIndex(slot, k, idle), Touch(k)]
    ensures var u := Perform(t, todo[0]);
            u.now == t.now && Progress(s, u, secret, k, via, FollowUp(t, todo[0]) + todo[1..])
  {
    var slot, idle := SlotOf(k, secret), IdleOf(s.redis[k]);
    var renewed := s.redis[k].(deadline := Some(s.now + idle));
    var second := if via.ByIndex? then ExtendIndex(slot, idle) else SetIndex(slot, k, idle);
    assert FollowUp(t, todo[0]) == [] && [] + todo[1..] == todo[1..];
    if todo == [Extend(k, idle), second, Touch(k)] {
      assert todo[1..] == UsageOps(secret, k, s.redis[k], via)[1..];
    } else if todo == [Touch(k)] {
      assert EntryOf(t, k) == renewed && t.redis[k := renewed] == t.redis;
    } else {
      assert UsageOps(secret, k, s.redis[k], via)[1..] == [second, Touch(k)] == todo;
      assert todo[1..] == [Touch(k)];
    }
  }

  lemma {:induction false} ExecuteAlone(s: State, t: State, p: nat, secret: string)
    requires Alone(s, t, p, secret)
    ensures Alone(s, Step(t, Execute(p)), p, secret)
  {
    var point := t.procs[p].point;
    if point.Matched? && point.todo != [] {
      var todo, k := point.todo, point.key;
      var more := FollowUp(t, todo[0]);
      PerformIsClean(t, todo[0]);
      if k.kind.Agent? || IdleOf(s.redis[k]) > 0 {
        WriteProgress(s, t, secret, k, point.via, todo);
      }
      assert Step(t, Execute(p)).procs[p] == t.procs[p].(point := point.(todo := more + todo[1..]));
    }
  }

  lemma {:induction false} AloneRun(s: State, t: State, p: nat, secret: string, es: seq<Event>)
    requires KindsMatch(s) && Alone(s, t, p, secret) && Own(es, p)
    ensures Alone(s, Run(t, es), p, secret)
    decreases |es|
  {
    if es != [] {
      assert es[0] in es && forall e :: e in es[1..] ==> e in es;
      match es[0] {
        case StartValidate(_, _) => assert Step(t, es[0]) == t;
        case Continue(_, scanned) => ContinueAlone(s, t, p, secret, scanned);
        case Execute(_) => ExecuteAlone(s, t, p, secret);
      }
      AloneRun(s, Step(t, es[0]), p, secret, es[1..]);
    }
  }

  /** A validation of the secret, with the given steps and nothing in between. */
  function Use(p: nat, secret: string, steps: seq<Event>): seq<Event> {
    [StartValidate(p, secret)] + steps
  }

  lemma {:induction false} UseAlone(s: State, p: nat, secret: string, steps: seq<Event>)
    requires KindsMatch(s) && p !in s.procs && Own(steps, p)
    ensures Alone(s, Run(s, Use(p, secret, steps)), p, secret)
  {
    ValidationStarts(s, p, secret);
    RunCons(s, StartValidate(p, secret), steps);
    AloneRun(s, Reached(s, p, secret, AtIndex(Agent)), p, secret, steps);
  }

  /** Whatever way an undisturbed validation takes: if it accepts a key, the key's entry
      carries the hash of the secret, and Redis is left as `Used` says. */
  lemma {:induction false} UseRenews(before: seq<Event>, p: nat, secret: string, steps: seq<Event>, k: Key, at: int)
    requires p !in Run(INIT, before).procs && Own(steps, p)
    requires AcceptedAt(Run(INIT, before + Use(p, secret, steps)), p, k, at)
    ensures var s, t := Run(INIT, before), Run(INIT, before + Use(p, secret, steps));
            at == s.now == t.now && Genuine(s, secret, k) && Used(s, t, secret, k)
  {
    KindsRun(INIT, before);
    RunSplit(INIT, before, Use(p, secret, steps));
    UseAlone(Run(INIT, before), p, secret, steps);
  }

  /** And there is always a way to get there, by an index or by scans that yield any other
      keys first, up to 25 of each kind. */
  lemma {:induction false} CompletesAndRenews(before: seq<Event>, p: nat, secret: string, k: Key,
          agents: seq<Key>, sessions: seq<Key>)
    returns (steps: seq<Event>)
    requires p !in Run(INIT, before).procs && Valuable(Run(INIT, before), secret, k)
    requires YieldsUpTo(k, agents, sessions)
    ensures Own(steps, p) && (Yields(steps) == [] || Yields(steps) == agents + sessions + [k])
    ensures var s, t := Run(INIT, before), Run(INIT, before + Use(p, secret, steps));
            AcceptedAt(t, p, k, s.now) && Genuine(s, secret, k) && Used(s, t, secret, k)
  {
    var es := ValidationCompletes(before, p, secret, k, agents, sessions);
    steps := es[1..];
    assert es == [StartValidate(p, secret)] + steps && forall e :: e in steps ==> e in es;
    YieldsCons(StartValidate(p, secret), steps);
    assert [] + Yields(steps) == Yields(steps);
    RunSplit(INIT, before, es);
    UseRenews(before, p, secret, steps, k, Run(INIT, before).now);
  }

  ghost predicate Ended(t: State, p: nat) {
    p in t.procs && t.procs[p].Validating? && (t.procs[p].point.Accepted? || t.procs[p].point.Rejected?)
  }

  /** An undisturbed validation that comes to an end has accepted the key, if the index
      leads to it and its entry is valuable. */
  lemma {:induction false} IndexedAccepted(s: State, p: nat, secret: string, steps: seq<Event>, k: Key)
    requires Inv(s) && KindsMatch(s) && p !in s.procs && Own(steps, p)
    requires Valuable(s, secret, k) && IndexedAs(s, secret, k)
    requires Ended(Run(s, Use(p, secret, steps)), p)
    ensures AcceptedAt(Run(s, Use(p, secret, steps)), p, k, s.now)
  {
    UseAlone(s, p, secret, steps);
    CoherentSole(s, secret, k);
    assert Genuine(s, secret, k);
  }

  // ---- Redis calls that raise ----

  lemma {:induction false} UnavailableStays(t: State, p: nat, secret: string, es: seq<Event>)
    requires p in t.procs && t.procs[p] == Validating(secret, Unavailable)
    ensures p in Run(t, es).procs && Run(t, es).procs[p] == Validating(secret, Unavailable)
    decreases |es|
  {
    if es != [] {
      if es[0].Execute? && Enabled(t, es[0]) { PerformIsClean(t, Todo(t.procs[es[0].p])[0]); }
      UnavailableStays(Step(t, es[0]), p, secret, es[1..]);
    }
  }

  /** A Redis call that raises writes nothing. A look-up that raises ends the validation
      without an answer, for good; the write of the usage time that raises does not keep it
      from accepting; after a renewal that raises it looks on, as after a key that does not
      match. */
  lemma {:induction false} RaisedCall(t: State, p: nat, es: seq<Event>)
    requires p in t.procs && t.procs[p].Validating?
    ensures var u, point := Step(t, Raise(p)), t.procs[p].point;
            && u.redis == t.redis && u.index == t.index && u.rows == t.rows
            && (point.AtIndex? || point.AtEntry? || point.AtScan? ==>
                  p in Run(u, es).procs && Run(u, es).procs[p] == Validating(t.procs[p].secret, Unavailable))
            && (point.Matched? && point.todo == [Touch(point.key)] ==>
                  AcceptedAt(Run(t, [Raise(p), Continue(p, None)]), p, point.key, point.at))
            && (point.Matched? && point.todo != [] && !point.todo[0].Touch? ==>
                  u.procs[p].point == if point.via.ByScan? then AtScan(point.key.kind, point.via.n)
                                      else if point.key.kind.Agent? then AtIndex(Oauth) else AtScan(Agent, 0))
  {
    var u, point := Step(t, Raise(p)), t.procs[p].point;
    if point.AtIndex? || point.AtEntry? || point.AtScan? {
      UnavailableStays(u, p, t.procs[p].secret, es);
    }
    if point.Matched? && point.todo == [Touch(point.key)] {
      assert [Touch(point.key)][1..] == [];
      RunTwo(t, Raise(p), Continue(p, None), u, Step(u, Continue(p, None)));
    }
  }

  // ---- runs of uses ----

  /** What happens between two moments: some event, or a whole use of the secret. */
  datatype Move = Pass(e: Event) | Present(p: nat, steps: seq<Event>)

  function Events(secret: string, move: Move): seq<Event> {
    match move
    case Pass(e) => [e]
    case Present(p, steps) => Use(p, secret, steps)
  }

  /** Neither the entry nor its index entry is touched, except by time. */
  ghost predicate Spares(s: State, e: Event, secret: string, k: Key) {
    var t, slot := Step(s, e), SlotOf(k, secret);
    e.Tick? || (Get(t.redis, k, EMPTY_ENTRY) == Get(s.redis, k, EMPTY_ENTRY) && (k in t.redis <==> k in s.redis)
                && (slot in t.index <==> slot in s.index) && (slot in s.index ==> t.index[slot] == s.index[slot]))
  }

  /** No key loss, failure or revocation gets between, and every use comes to an end. */
  ghost predicate Quiet(s: State, secret: string, k: Key, moves: seq<Move>)
    decreases |moves|
  {
    moves != [] ==>
      && (match moves[0]
          case Pass(e) => Spares(s, e, secret, k)
          case Present(p, steps) => p !in s.procs && Own(steps, p) && Ended(Run(s, Use(p, secret, steps)), p))
      && Quiet(Run(s, Events(secret, moves[0])), secret, k, moves[1..])
  }

  /** When the secret is presented. */
  ghost function UseTimes(s: State, secret: string, moves: seq<Move>): seq<int>
    decreases |moves|
  {
    if moves == [] then []
    else
      (if moves[0].Present? then [s.now] else []) + UseTimes(Run(s, Events(secret, moves[0])), secret, moves[1..])
  }

  ghost predicate AllAccepted(s: State, secret: string, k: Key, moves: seq<Move>)
    decreases |moves|
  {
    moves != [] ==>
      var t := Run(s, Events(secret, moves[0]));
      && (moves[0].Present? ==> AcceptedAt(t, moves[0].p, k, s.now))
      && AllAccepted(t, secret, k, moves[1..])
  }

  /** The entry and its index entry were last renewed at `last`. */
  ghost predicate Renewed(s: State, secret: string, k: Key, last: int, idle: int) {
    var slot := SlotOf(k, secret);
    && Genuine(s, secret, k) && IdleOf(s.redis[k]) == idle
    && s.redis[k].deadline == Some(last + idle)
    && slot in s.index && s.index[slot] == IndexEntry(k, last + idle)
  }

  /** It is there until the timeout has passed, and no longer. */
  ghost predicate Kept(s: State, secret: string, k: Key, last: int, idle: int) {
    last <= s.now && if s.now < last + idle then Renewed(s, secret, k, last, idle) else !HasHash(s.redis, k)
  }

  lemma {:induction false} OnlyTicksTellTime(s: State, e: Event)
    requires !e.Tick?
    ensures Step(s, e).now == s.now
  {
    if e.Execute? && Enabled(s, e) { PerformIsClean(s, Todo(s.procs[e.p])[0]); }
  }

  lemma {:induction false} SparedKept(s: State, e: Event, secret: string, k: Key, last: int, idle: int)
    requires Kept(s, secret, k, last, idle) && Spares(s, e, secret, k)
    ensures Kept(Step(s, e), secret, k, last, idle)
  {
    if !e.Tick? { OnlyTicksTellTime(s, e); }
  }

  /** A use in time is accepted and renews. */
  lemma {:induction false} UsedKept(s: State, p: nat, secret: string, steps: seq<Event>, k: Key, last: int, idle: int)
    requires Inv(s) && KindsMatch(s) && p !in s.procs && Own(steps, p) && k.kind.Oauth? && idle > 0
    requires Kept(s, secret, k, last, idle) && s.now < last + idle && Ended(Run(s, Use(p, secret, steps)), p)
    ensures var t := Run(s, Use(p, secret, steps));
            AcceptedAt(t, p, k, s.now) && t.now == s.now && Kept(t, secret, k, s.now, idle)
  {
    IndexedAccepted(s, p, secret, steps, k);
    UseAlone(s, p, secret, steps);
  }

  /** A use of what has expired is not accepted. */
  lemma {:induction false} LateRefused(s: State, p: nat, secret: string, steps: seq<Event>, k: Key)
    requires KindsMatch(s) && p !in s.procs && Own(steps, p) && !HasHash(s.redis, k)
    ensures !AcceptedAt(Run(s, Use(p, secret, steps)), p, k, s.now)
  {
    UseAlone(s, p, secret, steps);
  }

  /** A use splits the gaps. */
  lemma {:induction false} FirstGap(s: State, secret: string, last: int, idle: int, moves: seq<Move>)
    requires moves != []
    ensures var later := UseTimes(Run(s, Events(secret, moves[0])), secret, moves[1..]);
            GapsBelow(last, UseTimes(s, secret, moves), idle)
            <==> if moves[0].Present? then s.now - last < idle && GapsBelow(s.now, later, idle)
                 else GapsBelow(last, later, idle)
  {
    var later := UseTimes(Run(s, Events(secret, moves[0])), secret, moves[1..]);
    assert [] + later == later && ([s.now] + later)[1..] == later;
  }

  /** Redis keeps a session by its use alone: in every state in which it was last renewed at
      `last`, all uses of it are accepted exactly when each comes sooner than the idle timeout
      after the one before, whatever else happens as long as it leaves the session alone. */
  lemma {:induction false} RedisSliding(s: State, secret: string, k: Key, last: int, idle: int, moves: seq<Move>)
    requires Inv(s) && KindsOk(s) && k.kind.Oauth? && idle > 0
    requires Kept(s, secret, k, last, idle) && Quiet(s, secret, k, moves)
    ensures AllAccepted(s, secret, k, moves) <==> GapsBelow(last, UseTimes(s, secret, moves), idle)
    decreases |moves|
  {
    if moves != [] {
      var es := Events(secret, moves[0]);
      RunInv(s, es);
      KindsRun(s, es);
      FirstGap(s, secret, last, idle, moves);
      match moves[0]
      case Pass(e) =>
        RunOne(s, e);
        SparedKept(s, e, secret, k, last, idle);
        RedisSliding(Run(s, es), secret, k, last, idle, moves[1..]);
      case Present(p, steps) =>
        if s.now < last + idle {
          UsedKept(s, p, secret, steps, k, last, idle);
          RedisSliding(Run(s, es), secret, k, s.now, idle, moves[1..]);
        } else {
          LateRefused(s, p, secret, steps, k);
        }
    }
  }

  /** From its exchange on: a session of which every use comes in time is accepted each time,
      and one that pauses for its idle timeout is not. */
  lemma {:induction false} ExchangedSlides(before: seq<Event>, e: Event, moves: seq<Move>)
    requires Enabled(Run(INIT, before), e) && e.CommitExchange? && e.ttl == e.row.idle && e.row.idle > 0
    requires Quiet(Run(INIT, before + ([e] + Executes(e.p, 3))), e.row.hash.secret, e.k, moves)
    ensures var s, t := Run(INIT, before), Run(INIT, before + ([e] + Executes(e.p, 3)));
            var secret := e.row.hash.secret;
            AllAccepted(t, secret, e.k, moves) <==> GapsBelow(s.now, UseTimes(t, secret, moves), e.row.idle)
  {
    var s, es := Run(INIT, before), [e] + Executes(e.p, 3);
    RunSplit(INIT, before, es);
    var t := NewIsStored(s, e);
    ReachableInv(before + es);
    KindsRun(INIT, before + es);
    RedisSliding(t, e.row.hash.secret, e.k, s.now, e.row.idle, moves);
  }
}
