/** What every interleaving keeps: the two stores stay coherent except for keys whose
    revocation overlapped a write or lost its deletion. */
module AgentCoherence {
  import opened AgentProtocol
  import opened Credentials
  import opened Prelude

  // ---- the invariant ----

  type Rows = map<Key, Row>

  type Redis = map<Key, Entry>

  ghost predicate HasHash(redis: Redis, k: Key) {
    k in redis && redis[k].hash.Some?
  }

  ghost predicate PendingDel(procs: Procs, k: Key) {
    exists p :: p in procs && Del(k) in Todo(procs[p])
  }

  ghost predicate SecretsUnique(rows: Rows) {
    forall j, k :: j in rows && k in rows && rows[j].hash.secret == rows[k].hash.secret ==> j == k
  }

  /** The fields that validation trusts are those of the row. */
  ghost predicate Mirrors(k: Key, e: Entry, rows: Rows) {
    e.hash.Some? ==>
      && k in rows && e.hash.value == rows[k].hash
      && (k.kind.Agent? ==> e.expires == Some(rows[k].expires))
      && (k.kind.Oauth? ==> e.idle == Some(rows[k].idle))
  }

  ghost predicate CoherentAt(s: State, k: Key) {
    HasHash(s.redis, k) ==>
      && Mirrors(k, s.redis[k], s.rows)
      && (s.rows[k].revoked ==> PendingDel(s.procs, k) || k in s.tainted)
  }

  /** Cache coherence: an entry that carries a hash belongs to a row with that hash, and
      the row is unrevoked unless its deletion is on the way or there was trouble. */
  ghost predicate Coherent(s: State) {
    forall k :: CoherentAt(s, k)
  }

  /** A hash that a running revocation must still meet, or that taints the key. */
  ghost predicate Met(redis: Redis, tainted: set<Key>, todo: seq<Op>, k: Key) {
    HasHash(redis, k) ==> Del(k) in todo || k in tainted
  }

  ghost predicate OpOk(rows: Rows, redis: Redis, tainted: set<Key>, todo: seq<Op>, op: Op) {
    match op
    case Put(k) => k in rows && (rows[k].revoked ==> k in tainted)
    case Revoke(_, ks) => forall k :: k in ks ==> k in rows && Met(redis, tainted, todo, k)
    case _ => true
  }

  /** Deletions come before the commit. */
  ghost predicate Ordered(todo: seq<Op>) {
    todo != [] ==> Ordered(todo[1..]) && (todo[0].Revoke? ==> forall k :: Del(k) !in todo)
  }

  /** Operations that neither write a hash nor take part in a revocation. */
  predicate Plain(op: Op) {
    !op.Put? && !op.Del? && !op.Revoke?
  }

  ghost predicate ProcOk(rows: Rows, redis: Redis, tainted: set<Key>, proc: Proc) {
    && Ordered(Todo(proc))
    && forall op :: op in Todo(proc) ==> (proc.Validating? ==> Plain(op)) && OpOk(rows, redis, tainted, Todo(proc), op)
  }

  ghost predicate ProcsOk(rows: Rows, redis: Redis, tainted: set<Key>, procs: Procs) {
    forall p :: p in procs ==> ProcOk(rows, redis, tainted, procs[p])
  }

  /** Nobody writes the hash of a key whose revocation is running, or the key is tainted. */
  ghost predicate Apart(tainted: set<Key>, writing: seq<Op>, closing: seq<Op>) {
    forall k, op :: Put(k) in writing && op in closing && Closes(op, k) ==> k in tainted
  }

  ghost predicate AllApart(tainted: set<Key>, procs: Procs) {
    forall p, q :: p in procs && q in procs ==> Apart(tainted, Todo(procs[p]), Todo(procs[q]))
  }

  /** What a match establishes about the row behind the key. */
  ghost predicate Proven(rows: Rows, secret: string, k: Key, at: int) {
    k in rows && Verifies(secret, rows[k].hash) && (k.kind.Agent? ==> at < rows[k].expires)
  }

  ghost predicate PointOk(rows: Rows, secret: string, point: Point) {
    match point
    case AtCheck(k, e, _) => Mirrors(k, e, rows)
    case Matched(k, at, _, _) => Proven(rows, secret, k, at)
    case Accepted(k, at) => Proven(rows, secret, k, at)
    case _ => true
  }

  ghost predicate SightOk(rows: Rows, proc: Proc) {
    proc.Validating? ==> PointOk(rows, proc.secret, proc.point)
  }

  ghost predicate SightsOk(rows: Rows, procs: Procs) {
    forall p :: p in procs ==> SightOk(rows, procs[p])
  }

  ghost predicate Inv(s: State) {
    && SecretsUnique(s.rows)
    && Coherent(s)
    && ProcsOk(s.rows, s.redis, s.tainted, s.procs)
    && AllApart(s.tainted, s.procs)
    && SightsOk(s.rows, s.procs)
  }

  lemma {:induction false} InitInv()
    ensures Inv(INIT)
  {
  }

  // ---- forgetting, and trouble ----

  /** No hash appears or changes. */
  ghost predicate Forgets(redis: Redis, redis': Redis) {
    forall k :: HasHash(redis', k) ==>
      && HasHash(redis, k)
      && redis'[k].hash == redis[k].hash && redis'[k].expires == redis[k].expires && redis'[k].idle == redis[k].idle
  }

  lemma {:induction false} ForgettingProc(rows: Rows, redis: Redis, redis': Redis, tainted: set<Key>, proc: Proc)
    requires ProcOk(rows, redis, tainted, proc) && Forgets(redis, redis')
    ensures ProcOk(rows, redis', tainted, proc)
  {
    forall op | op in Todo(proc) ensures OpOk(rows, redis', tainted, Todo(proc), op) {
      assert OpOk(rows, redis, tainted, Todo(proc), op);
    }
  }

  /** The stores may forget at any moment. */
  lemma {:induction false} ForgettingInv(s: State, redis: Redis)
    requires Inv(s) && Forgets(s.redis, redis)
    ensures Inv(s.(redis := redis))
  {
    var t := s.(redis := redis);
    forall p | p in t.procs ensures ProcOk(t.rows, t.redis, t.tainted, t.procs[p]) {
      ForgettingProc(s.rows, s.redis, t.redis, s.tainted, s.procs[p]);
    }
    forall k ensures CoherentAt(t, k) {
      assert CoherentAt(s, k);
    }
  }

  /** Nothing in the invariant looks at the clock or the prefix index. */
  lemma {:induction false} ClockInv(s: State, now: int, index: map<Slot, IndexEntry>)
    requires Inv(s)
    ensures Inv(s.(now := now, index := index))
  {
    var t := s.(now := now, index := index);
    forall k ensures CoherentAt(t, k) {
      assert CoherentAt(s, k);
    }
  }

  lemma {:induction false} TaintedProc(rows: Rows, redis: Redis, tainted: set<Key>, more: set<Key>, proc: Proc)
    requires ProcOk(rows, redis, tainted, proc) && tainted <= more
    ensures ProcOk(rows, redis, more, proc)
  {
    forall op | op in Todo(proc) ensures OpOk(rows, redis, more, Todo(proc), op) {
      assert OpOk(rows, redis, tainted, Todo(proc), op);
    }
  }

  /** Recording more trouble is always sound. */
  lemma {:induction false} TaintedInv(s: State, ks: set<Key>)
    requires Inv(s)
    ensures Inv(Tainted(s, ks))
  {
    var t := Tainted(s, ks);
    forall p | p in t.procs ensures ProcOk(t.rows, t.redis, t.tainted, t.procs[p]) {
      TaintedProc(s.rows, s.redis, s.tainted, t.tainted, s.procs[p]);
    }
    forall k ensures CoherentAt(t, k) {
      assert CoherentAt(s, k);
    }
    forall p, q | p in t.procs && q in t.procs ensures Apart(t.tainted, Todo(t.procs[p]), Todo(t.procs[q])) {
      assert Apart(s.tainted, Todo(s.procs[p]), Todo(s.procs[q]));
    }
  }

  lemma {:induction false} UntaintedProc(rows: Rows, redis: Redis, tainted: set<Key>, k: Key, proc: Proc)
    requires ProcOk(rows, redis, tainted, proc) && !HasHash(redis, k) && Put(k) !in Todo(proc)
    ensures ProcOk(rows, redis, tainted - {k}, proc)
  {
    forall op | op in Todo(proc) ensures OpOk(rows, redis, tainted - {k}, Todo(proc), op) {
      assert OpOk(rows, redis, tainted, Todo(proc), op);
      if op.Revoke? {
        forall j | j in op.keys ensures Met(redis, tainted - {k}, Todo(proc), j) {
          assert Met(redis, tainted, Todo(proc), j);
        }
      }
    }
  }

  /** A key without a hash, and without one to be written, is clean again. */
  lemma {:induction false} UntaintedInv(s: State, k: Key)
    requires Inv(s) && !HasHash(s.redis, k) && !PendingPut(s.procs, k)
    ensures Inv(s.(tainted := s.tainted - {k}))
  {
    var t := s.(tainted := s.tainted - {k});
    forall p | p in t.procs ensures ProcOk(t.rows, t.redis, t.tainted, t.procs[p]) {
      assert Put(k) !in Todo(s.procs[p]);
      UntaintedProc(s.rows, s.redis, s.tainted, k, s.procs[p]);
    }
    forall j ensures CoherentAt(t, j) {
      assert CoherentAt(s, j);
    }
    forall p, q | p in t.procs && q in t.procs ensures Apart(t.tainted, Todo(t.procs[p]), Todo(t.procs[q])) {
      assert Apart(s.tainted, Todo(s.procs[p]), Todo(s.procs[q]));
      assert Put(k) !in Todo(s.procs[p]);
    }
  }

  lemma {:induction false} DelInv(s: State, k: Key)
    requires Inv(s)
    ensures Inv(Perform(s, Del(k)))
  {
    var t := s.(redis := s.redis - {k});
    ForgettingInv(s, t.redis);
    if !PendingPut(t.procs, k) {
      UntaintedInv(t, k);
    }
  }

  // ---- a process goes on with less, or with plain operations ----

  lemma {:induction false} PlainOrdered(todo: seq<Op>)
    requires forall op :: op in todo ==> Plain(op)
    ensures Ordered(todo)
  {
    if todo != [] {
      PlainOrdered(todo[1..]);
      assert Plain(todo[0]);
    }
  }

  /** What a process may turn into: nothing new but plain operations; a deletion that is no
      longer to come has been done or taints. */
  ghost predicate Continues(s: State, proc: Proc, proc': Proc) {
    && Ordered(Todo(proc'))
    && (forall op :: op in Todo(proc') ==> op in Todo(proc) || Plain(op))
    && (proc'.Validating? ==> forall op :: op in Todo(proc') ==> Plain(op))
    && (forall k :: Del(k) in Todo(proc) && Del(k) !in Todo(proc') && HasHash(s.redis, k) ==> k in s.tainted)
  }

  lemma {:induction false} ContinuingProc(s: State, proc: Proc, proc': Proc)
    requires ProcOk(s.rows, s.redis, s.tainted, proc) && Continues(s, proc, proc')
    ensures ProcOk(s.rows, s.redis, s.tainted, proc')
  {
    var todo, todo' := Todo(proc), Todo(proc');
    forall op | op in todo' ensures OpOk(s.rows, s.redis, s.tainted, todo', op) {
      if op in todo {
        assert OpOk(s.rows, s.redis, s.tainted, todo, op);
        if op.Revoke? {
          forall k | k in op.keys ensures Met(s.redis, s.tainted, todo', k) {
            assert Met(s.redis, s.tainted, todo, k);
          }
        }
      }
    }
  }

  lemma {:induction false} ContinuingCoherent(s: State, p: nat, proc': Proc)
    requires Coherent(s) && p in s.procs && Continues(s, s.procs[p], proc')
    ensures Coherent(Spawn(s, p, proc'))
  {
    var n := Spawn(s, p, proc');
    forall k ensures CoherentAt(n, k) {
      assert CoherentAt(s, k);
      if HasHash(s.redis, k) && PendingDel(s.procs, k) {
        var q :| q in s.procs && Del(k) in Todo(s.procs[q]);
        assert q != p ==> q in n.procs && n.procs[q] == s.procs[q];
        assert p in n.procs && n.procs[p] == proc';
      }
    }
  }

  lemma {:induction false} ContinuingApart(tainted: set<Key>, procs: Procs, p: nat, proc': Proc)
    requires AllApart(tainted, procs) && p in procs
    requires forall op :: op in Todo(proc') ==> op in Todo(procs[p]) || Plain(op)
    ensures AllApart(tainted, procs[p := proc'])
  {
    var procs' := procs[p := proc'];
    forall a, b | a in procs' && b in procs' ensures Apart(tainted, Todo(procs'[a]), Todo(procs'[b])) {
      assert Apart(tainted, Todo(procs[a]), Todo(procs[b]));
    }
  }

  lemma {:induction false} ContinuingInv(s: State, p: nat, proc': Proc)
    requires Inv(s) && p in s.procs && Continues(s, s.procs[p], proc')
    requires SightOk(s.rows, proc')
    ensures Inv(Spawn(s, p, proc'))
  {
    assert ProcOk(s.rows, s.redis, s.tainted, s.procs[p]);
    ContinuingProc(s, s.procs[p], proc');
    ContinuingCoherent(s, p, proc');
    ContinuingApart(s.tainted, s.procs, p, proc');
  }

  // ---- validation ----

  lemma {:induction false} PointInv(s: State, p: nat, point: Point)
    requires Inv(s) && p in s.procs && s.procs[p].Validating?
    requires PointOk(s.rows, s.procs[p].secret, point)
    requires point.Matched? ==> forall op :: op in point.todo ==> Plain(op)
    ensures Inv(Spawn(s, p, s.procs[p].(point := point)))
  {
    var v := s.procs[p];
    assert ProcOk(s.rows, s.redis, s.tainted, v) && SightOk(s.rows, v);
    PlainOrdered(Todo(v.(point := point)));
    ContinuingInv(s, p, v.(point := point));
  }

  lemma {:induction false} CheckIsSound(rows: Rows, now: int, secret: string, at: Point)
    requires at.AtCheck? && PointOk(rows, secret, at)
    ensures var point := CheckEntry(now, secret, at.key, at.entry, at.via);
            PointOk(rows, secret, point) && (point.Matched? ==> forall op :: op in point.todo ==> Plain(op))
  {
  }

  lemma {:induction false} ContinueInv(s: State, p: nat, scanned: Option<Key>)
    requires Inv(s) && Enabled(s, Continue(p, scanned))
    ensures Inv(Effect(s, Continue(p, scanned)))
  {
    var v := s.procs[p];
    assert SightOk(s.rows, v) && ProcOk(s.rows, s.redis, s.tainted, v);
    if v.point.AtCheck? { CheckIsSound(s.rows, s.now, v.secret, v.point); }
    if v.point.AtEntry? { assert CoherentAt(s, v.point.key); }
    PointInv(s, p, Advance(s, v.secret, v.point, scanned));
  }

  lemma {:induction false} RaiseInv(s: State, p: nat)
    requires Inv(s) && Enabled(s, Raise(p))
    ensures Inv(Effect(s, Raise(p)))
  {
    var v := s.procs[p];
    assert SightOk(s.rows, v) && ProcOk(s.rows, s.redis, s.tainted, v);
    if v.point.Matched? && v.point.todo != [] {
      assert forall op :: op in v.point.todo[1..] ==> op in Todo(v);
    }
    PointInv(s, p, Fault(v.point));
  }

  // ---- one operation is performed ----

  lemma {:induction false} PutProc(s: State, p: nat, q: nat, k: Key, redis: Redis)
    requires Inv(s) && p in s.procs && q in s.procs && Put(k) in Todo(s.procs[p])
    requires forall j :: j != k ==> HasHash(redis, j) == HasHash(s.redis, j)
    ensures ProcOk(s.rows, redis, s.tainted, s.procs[q])
  {
    var todo := Todo(s.procs[q]);
    assert ProcOk(s.rows, s.redis, s.tainted, s.procs[q]) && Apart(s.tainted, Todo(s.procs[p]), todo);
    forall op | op in todo ensures OpOk(s.rows, redis, s.tainted, todo, op) {
      assert OpOk(s.rows, s.redis, s.tainted, todo, op);
      if op.Revoke? {
        forall j | j in op.keys ensures Met(redis, s.tainted, todo, j) {
          assert Met(s.redis, s.tainted, todo, j);
          assert j == k ==> Closes(op, k);
        }
      }
    }
  }

  lemma {:induction false} PutInv(s: State, p: nat, k: Key)
    requires Inv(s) && p in s.procs && Put(k) in Todo(s.procs[p])
    ensures Inv(Perform(s, Put(k)))
  {
    var t := Perform(s, Put(k));
    assert ProcOk(s.rows, s.redis, s.tainted, s.procs[p]);
    assert OpOk(s.rows, s.redis, s.tainted, Todo(s.procs[p]), Put(k));
    forall q | q in t.procs ensures ProcOk(t.rows, t.redis, t.tainted, t.procs[q]) {
      PutProc(s, p, q, k, t.redis);
    }
    forall j ensures CoherentAt(t, j) {
      assert CoherentAt(s, j);
    }
  }

  lemma {:induction false} MarkedProc(rows: Rows, redis: Redis, tainted: set<Key>, ks: set<Key>, proc: Proc)
    requires ProcOk(rows, redis, tainted, proc)
    requires forall k :: k in ks && Put(k) in Todo(proc) ==> k in tainted
    ensures ProcOk(Marked(rows, ks), redis, tainted, proc)
  {
    forall op | op in Todo(proc) ensures OpOk(Marked(rows, ks), redis, tainted, Todo(proc), op) {
      assert OpOk(rows, redis, tainted, Todo(proc), op);
    }
  }

  /** Marking rows as revoked in a state where nobody minds. */
  lemma {:induction false} MarkedInv(s: State, ks: set<Key>)
    requires Inv(s) && ks <= s.rows.Keys
    requires forall k :: k in ks && PendingPut(s.procs, k) ==> k in s.tainted
    requires forall k :: k in ks && HasHash(s.redis, k) ==> PendingDel(s.procs, k) || k in s.tainted
    ensures Inv(s.(rows := Marked(s.rows, ks)))
  {
    var t := s.(rows := Marked(s.rows, ks));
    forall p | p in t.procs
      ensures ProcOk(t.rows, t.redis, t.tainted, t.procs[p]) && SightOk(t.rows, t.procs[p])
    {
      assert SightOk(s.rows, s.procs[p]);
      assert forall k :: Put(k) in Todo(s.procs[p]) ==> PendingPut(s.procs, k);
      MarkedProc(s.rows, s.redis, s.tainted, ks, s.procs[p]);
    }
    forall k ensures CoherentAt(t, k) {
      assert CoherentAt(s, k);
    }
  }

  lemma {:induction false} RevokeInv(s: State, p: nat, c: nat, ks: set<Key>)
    requires Inv(s) && p in s.procs && Todo(s.procs[p]) != [] && Todo(s.procs[p])[0] == Revoke(c, ks)
    ensures Inv(Perform(s, Revoke(c, ks)))
    ensures forall k :: k in ks ==> k in s.rows && Perform(s, Revoke(c, ks)).rows[k].revoked
  {
    var mine := Todo(s.procs[p]);
    assert ProcOk(s.rows, s.redis, s.tainted, s.procs[p]);
    assert OpOk(s.rows, s.redis, s.tainted, mine, Revoke(c, ks));
    forall k | k in ks
      ensures k in s.rows && (PendingPut(s.procs, k) ==> k in s.tainted) && (HasHash(s.redis, k) ==> k in s.tainted)
    {
      assert Met(s.redis, s.tainted, mine, k);
      if PendingPut(s.procs, k) {
        var q :| q in s.procs && Put(k) in Todo(s.procs[q]);
        assert Apart(s.tainted, Todo(s.procs[q]), mine) && Closes(Revoke(c, ks), k);
      }
    }
    MarkedInv(s, ks);
    CloseInv(s.(rows := Marked(s.rows, ks)), c);
  }

  lemma {:induction false} CloseInv(s: State, c: nat)
    requires Inv(s)
    ensures Inv(s.(closed := s.closed + {c}))
  {
    var t := s.(closed := s.closed + {c});
    forall k ensures CoherentAt(t, k) {
      assert CoherentAt(s, k);
    }
  }

  lemma {:induction false} PlainPerformInv(s: State, op: Op)
    requires Inv(s) && Plain(op)
    ensures Inv(Perform(s, op))
  {
    var t := Perform(s, op);
    PlainForgets(s, op);
    ForgettingInv(s, t.redis);
    ClockInv(s.(redis := t.redis), t.now, t.index);
  }

  lemma {:induction false} PlainForgets(s: State, op: Op)
    requires Plain(op)
    ensures var t := Perform(s, op);
            Forgets(s.redis, t.redis) && t == s.(redis := t.redis).(now := t.now, index := t.index)
  {
  }

  lemma {:induction false} PerformInv(s: State, p: nat)
    requires Inv(s) && Enabled(s, Execute(p))
    ensures Inv(Perform(s, Todo(s.procs[p])[0]))
  {
    var op := Todo(s.procs[p])[0];
    match op
    case Put(k) => PutInv(s, p, k);
    case Del(k) => DelInv(s, k);
    case Revoke(c, ks) => RevokeInv(s, p, c, ks);
    case _ => PlainPerformInv(s, op);
  }

  lemma {:induction false} RestOrdered(todo: seq<Op>, more: seq<Op>)
    requires todo != [] && Ordered(todo) && (more == [] || (|more| == 1 && more[0].SetIndex?))
    ensures Ordered(more + todo[1..])
  {
    if more == [] {
      assert more + todo[1..] == todo[1..];
    } else {
      assert (more + todo[1..])[1..] == todo[1..];
    }
  }

  /** After its first operation is performed, a process goes on with the others. */
  lemma {:induction false} PopContinues(s: State, proc: Proc)
    requires Todo(proc) != [] && ProcOk(s.rows, s.redis, s.tainted, proc)
    ensures var t := Perform(s, Todo(proc)[0]);
            Continues(t, proc, WithTodo(proc, FollowUp(s, Todo(proc)[0]) + Todo(proc)[1..]))
  {
    var todo := Todo(proc);
    var op, t := todo[0], Perform(s, todo[0]);
    var rest := FollowUp(s, op) + todo[1..];
    RestOrdered(todo, FollowUp(s, op));
    assert Todo(WithTodo(proc, rest)) == rest;
    forall o | o in todo && o !in rest ensures o == op {
      assert o in todo[1..] || o == todo[0];
    }
    forall o | o in rest ensures o in todo || Plain(o) {
      assert o in FollowUp(s, op) || o in todo[1..];
    }
  }

  lemma {:induction false} ExecuteInv(s: State, p: nat)
    requires Inv(s) && Enabled(s, Execute(p))
    ensures Inv(Effect(s, Execute(p)))
  {
    var proc := s.procs[p];
    var op := Todo(proc)[0];
    assert ProcOk(s.rows, s.redis, s.tainted, proc) && OpOk(s.rows, s.redis, s.tainted, Todo(proc), op);
    PerformInv(s, p);
    PopContinues(s, proc);
    var t := Perform(s, op);
    assert SightOk(t.rows, t.procs[p]);
    ContinuingInv(t, p, WithTodo(proc, FollowUp(s, op) + Todo(proc)[1..]));
  }

  // ---- a request fails or ends half-way ----

  lemma {:induction false} ClosingsAre(todo: seq<Op>)
    requires Ordered(todo)
    ensures Ordered(Closings(todo))
    ensures forall op :: op in Closings(todo) <==> op in todo && op.Revoke?
  {
    if todo != [] {
      ClosingsAre(todo[1..]);
      var rest := Closings(todo[1..]);
      assert forall op :: op in todo <==> op == todo[0] || op in todo[1..];
      if todo[0].Revoke? {
        assert ([todo[0]] + rest)[1..] == rest;
      } else {
        assert [] + rest == rest;
      }
    }
  }

  lemma {:induction false} DroppedAre(before: seq<Op>, after: seq<Op>)
    ensures forall k :: Del(k) in before && Del(k) !in after ==> k in Dropped(before, after)
  {
    forall k | Del(k) in before && Del(k) !in after ensures k in Dropped(before, after) {
      assert Del(k).key == k;
    }
  }

  lemma {:induction false} FailInv(s: State, p: nat)
    requires Inv(s) && Enabled(s, Fail(p))
    ensures Inv(Next(s, Fail(p)))
  {
    var proc := s.procs[p];
    var todo, rest := Todo(proc), AfterFault(proc);
    var t := Tainted(s, Dropped(todo, rest));
    TaintedInv(s, Dropped(todo, rest));
    DroppedAre(todo, rest);
    assert ProcOk(s.rows, s.redis, s.tainted, proc);
    if proc.Worker? && !proc.each { ClosingsAre(todo); }
    assert Todo(WithTodo(proc, rest)) == rest;
    ContinuingInv(t, p, WithTodo(proc, rest));
  }

  lemma {:induction false} AbortInv(s: State, p: nat)
    requires Inv(s) && Enabled(s, Abort(p))
    ensures Inv(Next(s, Abort(p)))
  {
    TaintedInv(s, Dropped(Todo(s.procs[p]), []));
    DroppedAre(Todo(s.procs[p]), []);
    ContinuingInv(Tainted(s, Dropped(Todo(s.procs[p]), [])), p, ENDED);
  }

  // ---- a request arrives, or commits ----

  /** Number `p` is free, or of a request that has nothing to write yet. */
  predicate Idle(procs: Procs, p: nat) {
    p in procs ==> procs[p].Granting? || procs[p].Refreshing?
  }

  lemma {:induction false} SpawnCoherent(s: State, p: nat, proc: Proc)
    requires Coherent(s) && Idle(s.procs, p)
    ensures Coherent(Spawn(s, p, proc))
  {
    var n := Spawn(s, p, proc);
    forall k ensures CoherentAt(n, k) {
      assert CoherentAt(s, k);
      if PendingDel(s.procs, k) {
        var q :| q in s.procs && Del(k) in Todo(s.procs[q]);
        assert q != p && q in n.procs && n.procs[q] == s.procs[q];
      }
    }
  }

  /** The request's operations fit those in flight. */
  ghost predicate Fits(s: State, proc: Proc) {
    && (forall q :: q in s.procs ==>
          Apart(s.tainted, Todo(proc), Todo(s.procs[q])) && Apart(s.tainted, Todo(s.procs[q]), Todo(proc)))
    && Apart(s.tainted, Todo(proc), Todo(proc))
  }

  lemma {:induction false} SpawnInv(s: State, p: nat, proc: Proc)
    requires Inv(s) && Idle(s.procs, p) && Fits(s, proc)
    requires ProcOk(s.rows, s.redis, s.tainted, proc) && SightOk(s.rows, proc)
    ensures Inv(Spawn(s, p, proc))
  {
    var n := Spawn(s, p, proc);
    SpawnCoherent(s, p, proc);
    forall a, b | a in n.procs && b in n.procs ensures Apart(n.tainted, Todo(n.procs[a]), Todo(n.procs[b])) {
    }
  }

  lemma {:induction false} PlainSpawnInv(s: State, p: nat, proc: Proc)
    requires Inv(s) && Idle(s.procs, p) && SightOk(s.rows, proc)
    requires forall op :: op in Todo(proc) ==> Plain(op)
    ensures Inv(Spawn(s, p, proc))
  {
    PlainOrdered(Todo(proc));
    SpawnInv(s, p, proc);
  }

  lemma {:induction false} NothingNamesFresh(s: State, k: Key)
    requires Inv(s) && k !in s.rows
    ensures !HasHash(s.redis, k) && !PendingPut(s.procs, k) && !PendingClose(s.procs, k)
  {
    assert CoherentAt(s, k);
    forall q | q in s.procs ensures Put(k) !in Todo(s.procs[q])
               ensures forall op :: op in Todo(s.procs[q]) ==> !Closes(op, k)
    {
      assert ProcOk(s.rows, s.redis, s.tainted, s.procs[q]);
      forall op | op in Todo(s.procs[q]) ensures !Closes(op, k) && op != Put(k) {
        assert OpOk(s.rows, s.redis, s.tainted, Todo(s.procs[q]), op);
      }
    }
  }

  lemma {:induction false} RowAddedProc(rows: Rows, redis: Redis, tainted: set<Key>, k: Key, row: Row, proc: Proc)
    requires ProcOk(rows, redis, tainted, proc) && k !in rows
    ensures ProcOk(rows[k := row], redis, tainted, proc)
  {
    forall op | op in Todo(proc) ensures OpOk(rows[k := row], redis, tainted, Todo(proc), op) {
      assert OpOk(rows, redis, tainted, Todo(proc), op);
    }
  }

  lemma {:induction false} AddRowInv(s: State, k: Key, row: Row)
    requires Inv(s) && Fresh(s, k, row)
    ensures Inv(s.(rows := s.rows[k := row]))
  {
    var t := s.(rows := s.rows[k := row]);
    NothingNamesFresh(s, k);
    forall q | q in s.procs
      ensures ProcOk(t.rows, t.redis, t.tainted, t.procs[q]) && SightOk(t.rows, t.procs[q])
    {
      assert ProcOk(s.rows, s.redis, s.tainted, s.procs[q]) && SightOk(s.rows, s.procs[q]);
      RowAddedProc(s.rows, s.redis, s.tainted, k, row, s.procs[q]);
    }
    forall j ensures CoherentAt(t, j) {
      assert CoherentAt(s, j);
    }
  }

  /** Writing after no deletion is always in order. */
  lemma {:induction false} WritesOrdered(todo: seq<Op>)
    requires forall op :: op in todo ==> !op.Del? && !op.Revoke?
    ensures Ordered(todo)
  {
    if todo != [] {
      WritesOrdered(todo[1..]);
      assert todo[0] in todo;
    }
  }

  /** The row is committed, and its hash is to be written next. */
  lemma {:induction false} StoreInv(s: State, p: nat, k: Key, row: Row, ttl: int)
    requires Inv(s) && Idle(s.procs, p) && Fresh(s, k, row)
    ensures Inv(Spawn(s.(rows := s.rows[k := row]), p, Worker(StoreOps(k, row, ttl), false)))
  {
    NothingNamesFresh(s, k);
    AddRowInv(s, k, row);
    var t := s.(rows := s.rows[k := row]);
    var proc := Worker(StoreOps(k, row, ttl), false);
    WritesOrdered(proc.todo);
    SpawnInv(t, p, proc);
  }

  lemma {:induction false} CreateInv(s: State, p: nat, k: Key, row: Row, ttl: int)
    requires Inv(s) && Enabled(s, Create(p, k, row, ttl))
    ensures Inv(Effect(s, Create(p, k, row, ttl)))
  {
    StoreInv(s, p, k, row, ttl);
  }

  // ---- revocations ----

  lemma {:induction false} OrderedCons(op: Op, todo: seq<Op>)
    requires Ordered(todo) && !op.Revoke?
    ensures Ordered([op] + todo)
  {
    assert ([op] + todo)[1..] == todo;
  }

  lemma {:induction false} CommitOrdered(c: nat, ks: set<Key>)
    ensures Ordered([Revoke(c, ks)])
  {
    assert [Revoke(c, ks)][1..] == [];
  }

  /** A request that marks `k` and is about to delete its entry. */
  ghost predicate Revoking(todo: seq<Op>, k: Key) {
    && Ordered(todo) && Del(k) in todo
    && forall op :: op in todo ==> Plain(op) || op.Put? || op == Del(k)
  }

  lemma {:induction false} RevokingProcOk(s: State, k: Key, todo: seq<Op>)
    requires k in s.rows && Revoking(todo, k)
    requires forall j :: Put(j) in todo ==> j in s.rows && !s.rows[j].revoked && j != k
    ensures ProcOk(Marked(s.rows, {k}), s.redis, s.tainted, Worker(todo, false))
  {
    forall op | op in todo ensures OpOk(Marked(s.rows, {k}), s.redis, s.tainted, todo, op) {
    }
  }

  lemma {:induction false} RevokingApart(s: State, k: Key, todo: seq<Op>, q: nat)
    requires Revoking(todo, k) && q in s.procs
    requires PendingPut(s.procs, k) ==> k in s.tainted
    requires forall j :: Put(j) in todo ==> j != k && !PendingClose(s.procs, j)
    ensures Apart(s.tainted, todo, Todo(s.procs[q])) && Apart(s.tainted, Todo(s.procs[q]), todo)
  {
    assert forall j, op :: op in Todo(s.procs[q]) && Closes(op, j) ==> PendingClose(s.procs, j);
  }

  lemma {:induction false} RevokingCoherent(s: State, p: nat, k: Key, todo: seq<Op>)
    requires Coherent(s) && Idle(s.procs, p) && k in s.rows && Revoking(todo, k)
    ensures Coherent(Spawn(s.(rows := Marked(s.rows, {k})), p, Worker(todo, false)))
  {
    var n := Spawn(s.(rows := Marked(s.rows, {k})), p, Worker(todo, false));
    SpawnCoherent(s, p, Worker(todo, false));
    assert PendingDel(n.procs, k) by { assert p in n.procs && Del(k) in Todo(n.procs[p]); }
    forall j ensures CoherentAt(n, j) {
      assert CoherentAt(Spawn(s, p, Worker(todo, false)), j);
    }
  }

  lemma {:induction false} RevokingOthers(s: State, k: Key, q: nat)
    requires Inv(s) && q in s.procs && (PendingPut(s.procs, k) ==> k in s.tainted)
    ensures ProcOk(Marked(s.rows, {k}), s.redis, s.tainted, s.procs[q])
    ensures SightOk(Marked(s.rows, {k}), s.procs[q])
  {
    assert SightOk(s.rows, s.procs[q]);
    assert Put(k) in Todo(s.procs[q]) ==> PendingPut(s.procs, k);
    MarkedProc(s.rows, s.redis, s.tainted, {k}, s.procs[q]);
  }

  /** A row is marked revoked in the same step that starts its deletion. */
  lemma {:induction false} MarkAndSpawnInv(s: State, p: nat, k: Key, todo: seq<Op>)
    requires Inv(s) && Idle(s.procs, p) && k in s.rows && Revoking(todo, k)
    requires PendingPut(s.procs, k) ==> k in s.tainted
    requires forall j :: Put(j) in todo ==>
               j in s.rows && !s.rows[j].revoked && j != k && !PendingClose(s.procs, j)
    ensures Inv(Spawn(s.(rows := Marked(s.rows, {k})), p, Worker(todo, false)))
  {
    var n := Spawn(s.(rows := Marked(s.rows, {k})), p, Worker(todo, false));
    RevokingProcOk(s, k, todo);
    RevokingCoherent(s, p, k, todo);
    forall q | q in s.procs
      ensures ProcOk(n.rows, n.redis, n.tainted, s.procs[q]) && SightOk(n.rows, s.procs[q])
      ensures Apart(n.tainted, todo, Todo(s.procs[q])) && Apart(n.tainted, Todo(s.procs[q]), todo)
    {
      RevokingOthers(s, k, q);
      RevokingApart(s, k, todo, q);
    }
    forall a, b | a in n.procs && b in n.procs ensures Apart(n.tainted, Todo(n.procs[a]), Todo(n.procs[b])) {
      assert a != p && b != p ==> Apart(s.tainted, Todo(s.procs[a]), Todo(s.procs[b]));
    }
  }

  lemma {:induction false} RevokeTokenOps(k: Key, unindex: Op)
    requires unindex.DelIndex?
    ensures Revoking([Del(k), unindex], k)
  {
    var todo := [Del(k), unindex];
    PlainOrdered([unindex]);
    OrderedCons(Del(k), [unindex]);
    assert todo == [Del(k)] + [unindex] && todo[0] == Del(k);
  }

  lemma {:induction false} RevokeTokenInv(s: State, p: nat, k: Key)
    requires Inv(s) && Enabled(s, RevokeToken(p, k))
    ensures Inv(Next(s, RevokeToken(p, k)))
  {
    var unindex := DelIndex(Slot(Agent, Prefix(s.rows[k].hash.secret)));
    var t := Tainted(s, Overlapped(s.procs, {k}));
    TaintedInv(s, Overlapped(s.procs, {k}));
    RevokeTokenOps(k, unindex);
    MarkAndSpawnInv(t, p, k, [Del(k), unindex]);
  }

  lemma {:induction false} RefreshOps(prev: Key, k: Key, row: Row, ttl: int) returns (todo: seq<Op>)
    ensures todo == [Del(prev)] + StoreOps(k, row, ttl)
    ensures Revoking(todo, prev) && forall op :: op in todo && op.Put? ==> op == Put(k)
  {
    todo := [Del(prev)] + StoreOps(k, row, ttl);
    WritesOrdered(StoreOps(k, row, ttl));
    OrderedCons(Del(prev), StoreOps(k, row, ttl));
    assert todo[0] == Del(prev);
  }

  /** The state in which a refresh marks the old session: the new row is there. */
  function Rotated(s: State, prev: Key, k: Key, row: Row): State {
    Tainted(s, Overlapped(s.procs, {prev})).(rows := s.rows[k := row])
  }

  lemma {:induction false} RotatedInv(s: State, prev: Key, k: Key, row: Row)
    requires Inv(s) && Fresh(s, k, row)
    ensures Inv(Rotated(s, prev, k, row))
    ensures !PendingClose(s.procs, k)
  {
    var ks := Overlapped(s.procs, {prev});
    NothingNamesFresh(s, k);
    TaintedInv(s, ks);
    AddRowInv(Tainted(s, ks), k, row);
  }

  lemma {:induction false} RefreshInv(s: State, p: nat, k: Key, row: Row, ttl: int)
    requires Inv(s) && Enabled(s, CommitRefresh(p, k, row, ttl))
    ensures Inv(Next(s, CommitRefresh(p, k, row, ttl)))
  {
    var prev := s.procs[p].prev;
    var t := Rotated(s, prev, k, row);
    RotatedInv(s, prev, k, row);
    var todo := RefreshOps(prev, k, row, ttl);
    MarkAndSpawnInv(t, p, prev, todo);
    RefreshIs(s, p, k, row, ttl);
  }

  lemma {:induction false} RefreshIs(s: State, p: nat, k: Key, row: Row, ttl: int)
    requires Enabled(s, CommitRefresh(p, k, row, ttl))
    ensures var prev := s.procs[p].prev;
            var t := Rotated(s, prev, k, row);
            Next(s, CommitRefresh(p, k, row, ttl))
            == Spawn(t.(rows := Marked(t.rows, {prev})), p,
                     Worker([Del(prev)] + StoreOps(k, row, ttl), false))
  {
    var prev := s.procs[p].prev;
    assert Marked(s.rows[k := row], {prev}) == Marked(s.rows, {prev})[k := row];
  }

  lemma {:induction false} DelsAre(ks: seq<Key>)
    ensures forall op :: op in Dels(ks) <==> op.Del? && op.key in ks
  {
    if ks != [] {
      DelsAre(ks[1..]);
      assert ks == [ks[0]] + ks[1..];
    }
  }

  lemma {:induction false} DelsOrdered(ks: seq<Key>, rest: seq<Op>)
    requires Ordered(rest)
    ensures Ordered(Dels(ks) + rest)
  {
    if ks == [] {
      assert [] + rest == rest;
    } else {
      DelsOrdered(ks[1..], rest);
      OrderedCons(Del(ks[0]), Dels(ks[1..]) + rest);
      assert Dels(ks) + rest == [Del(ks[0])] + (Dels(ks[1..]) + rest);
    }
  }

  ghost predicate RevokeClientTodo(todo: seq<Op>, c: nat, ks: seq<Key>) {
    && Ordered(todo)
    && forall op :: op in todo <==> (op.Del? && op.key in ks) || op == Revoke(c, KeySet(ks))
  }

  lemma {:induction false} RevokeClientOps(c: nat, ks: seq<Key>)
    ensures RevokeClientTodo(Dels(ks) + [Revoke(c, KeySet(ks))], c, ks)
  {
    CommitOrdered(c, KeySet(ks));
    DelsAre(ks);
    DelsOrdered(ks, [Revoke(c, KeySet(ks))]);
  }

  lemma {:induction false} RevokeClientProcOk(s: State, c: nat, ks: seq<Key>, todo: seq<Op>)
    requires SessionsOf(s, c, ks) && RevokeClientTodo(todo, c, ks)
    ensures ProcOk(s.rows, s.redis, s.tainted, Worker(todo, true))
  {
    forall op | op in todo ensures OpOk(s.rows, s.redis, s.tainted, todo, op) {
    }
  }

  lemma {:induction false} RevokeClientApart(s: State, c: nat, ks: seq<Key>, todo: seq<Op>, q: nat)
    requires RevokeClientTodo(todo, c, ks) && q in s.procs && Overlapped(s.procs, KeySet(ks)) <= s.tainted
    ensures Apart(s.tainted, todo, Todo(s.procs[q])) && Apart(s.tainted, Todo(s.procs[q]), todo)
  {
    forall k, op | Put(k) in Todo(s.procs[q]) && op in todo && Closes(op, k) ensures k in s.tainted {
      assert PendingPut(s.procs, k) && k in KeySet(ks);
    }
  }

  lemma {:induction false} RevokeClientInv(s: State, p: nat, c: nat, ks: seq<Key>)
    requires Inv(s) && Enabled(s, RevokeClient(p, c, ks))
    ensures Inv(Next(s, RevokeClient(p, c, ks)))
  {
    var t := Tainted(s, Overlapped(s.procs, KeySet(ks)));
    var todo := Dels(ks) + [Revoke(c, KeySet(ks))];
    TaintedInv(s, Overlapped(s.procs, KeySet(ks)));
    RevokeClientOps(c, ks);
    RevokeClientProcOk(t, c, ks, todo);
    forall q | q in t.procs
      ensures Apart(t.tainted, todo, Todo(t.procs[q])) && Apart(t.tainted, Todo(t.procs[q]), todo)
    {
      RevokeClientApart(t, c, ks, todo, q);
    }
    SpawnInv(t, p, Worker(todo, true));
  }

  // ---- the startup sync ----

  lemma {:induction false} SyncOpsAre(s: State, kind: Kind, ks: seq<Key>)
    ensures forall op :: op in SyncOps(s, kind, ks) ==>
              && !op.Del? && !op.Revoke?
              && (op.Put? ==> op.key in ks && ToSync(s, kind, op.key))
  {
    if ks != [] { SyncOpsAre(s, kind, ks[1..]); }
  }

  lemma {:induction false} StartSyncInv(s: State, p: nat, kind: Kind, ks: seq<Key>)
    requires Inv(s) && Enabled(s, StartSync(p, kind, ks))
    ensures Inv(Next(s, StartSync(p, kind, ks)))
  {
    var more := Taints(s, StartSync(p, kind, ks));
    var t := Tainted(s, more);
    var todo := SyncOps(s, kind, ks);
    TaintedInv(s, more);
    SyncOpsAre(s, kind, ks);
    WritesOrdered(todo);
    forall q | q in t.procs
      ensures Apart(t.tainted, todo, Todo(t.procs[q])) && Apart(t.tainted, Todo(t.procs[q]), todo)
    {
      forall k, op | Put(k) in todo && op in Todo(s.procs[q]) && Closes(op, k) ensures k in t.tainted {
        assert PendingClose(s.procs, k);
      }
    }
    SpawnInv(t, p, Syncing(todo));
  }

  // ---- every step, every run ----

  lemma {:induction false} ForgettingStepInv(s: State, e: Event)
    requires Inv(s) && Enabled(s, e) && (e.Tick? || e.LoseKey? || e.LoseIndex?)
    ensures Inv(Effect(s, e))
  {
    var t := Effect(s, e);
    ForgettingInv(s, t.redis);
    ClockInv(s.(redis := t.redis), t.now, t.index);
    assert t == s.(redis := t.redis).(now := t.now, index := t.index);
  }

  /** Events that never mean trouble. */
  predicate Harmless(e: Event) {
    !e.CommitRefresh? && !e.RevokeToken? && !e.RevokeClient? && !e.StartSync? && !e.Fail? && !e.Abort?
  }

  /** Every step of every request keeps the invariant. */
  lemma {:induction false} StepInv(s: State, e: Event)
    requires Inv(s)
    ensures Inv(Step(s, e))
  {
    if Enabled(s, e) {
      if Harmless(e) {
        QuietInv(s, e);
        TaintedInv(Effect(s, e), {});
      } else {
        TroubleInv(s, e);
      }
    }
  }

  lemma {:induction false} TroubleInv(s: State, e: Event)
    requires Inv(s) && Enabled(s, e) && !Harmless(e)
    ensures Inv(Next(s, e))
  {
    match e
    case CommitRefresh(p, k, row, ttl) => RefreshInv(s, p, k, row, ttl);
    case RevokeToken(p, k) => RevokeTokenInv(s, p, k);
    case RevokeClient(p, c, ks) => RevokeClientInv(s, p, c, ks);
    case StartSync(p, kind, ks) => StartSyncInv(s, p, kind, ks);
    case Fail(p) => FailInv(s, p);
    case Abort(p) => AbortInv(s, p);
  }

  lemma {:induction false} QuietInv(s: State, e: Event)
    requires Inv(s) && Enabled(s, e)
    requires Harmless(e)
    ensures Inv(Effect(s, e)) && Taints(s, e) == {}
  {
    match e
    case Create(p, k, row, ttl) => CreateInv(s, p, k, row, ttl);
    case CommitExchange(p, k, row, ttl) => StoreInv(s, p, k, row, ttl);
    case StartExchange(p, c) => PlainSpawnInv(s, p, Granting(c));
    case StartRefresh(p, prev) => PlainSpawnInv(s, p, Refreshing(prev));
    case BackendUse(p, _, _, _, _) => PlainSpawnInv(s, p, Effect(s, e).procs[p]);
    case StartValidate(p, secret) => PlainSpawnInv(s, p, Validating(secret, AtIndex(Agent)));
    case Continue(p, scanned) => ContinueInv(s, p, scanned);
    case Execute(p) => ExecuteInv(s, p);
    case Raise(p) => RaiseInv(s, p);
    case Tick(_) => ForgettingStepInv(s, e);
    case LoseKey(_) => ForgettingStepInv(s, e);
    case LoseIndex(_) => ForgettingStepInv(s, e);
  }

  lemma {:induction false} RunInv(s: State, es: seq<Event>)
    requires Inv(s)
    ensures Inv(Run(s, es))
    decreases |es|
  {
    if es != [] {
      StepInv(s, es[0]);
      RunInv(Step(s, es[0]), es[1..]);
    }
  }
}
