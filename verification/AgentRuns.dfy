/** What holds of every run of the token protocol, exactly when a revocation is final, and
    what goes wrong when it is not. */
module AgentRuns {
  import opened AgentCoherence
  import opened AgentProtocol
  import opened Credentials
  import opened Prelude

  // ---- runs ----

  lemma {:induction false} RunCons(s: State, e: Event, es: seq<Event>)
    ensures Run(s, [e] + es) == Run(Step(s, e), es)
  {
    assert ([e] + es)[1..] == es;
  }

  lemma {:induction false} RunSplit(s: State, a: seq<Event>, b: seq<Event>)
    ensures Run(s, a + b) == Run(Run(s, a), b)
    decreases |a|
  {
    if a == [] {
      assert a + b == b;
    } else {
      assert (a + b)[0] == a[0] && (a + b)[1..] == a[1..] + b;
      RunSplit(Step(s, a[0]), a[1..], b);
    }
  }

  lemma {:induction false} RunNone(s: State) returns (es: seq<Event>)
    ensures es == [] && Run(s, es) == s
  {
    es := [];
  }

  lemma {:induction false} RunOne(s: State, e: Event)
    ensures Run(s, [e]) == Step(s, e)
  {
    assert [e] == [e] + [];
    RunCons(s, e, []);
  }

  lemma {:induction false} RunTwo(s: State, e: Event, f: Event, a: State, b: State)
    requires a == Step(s, e) && b == Step(a, f)
    ensures Run(s, [e, f]) == b
  {
    assert [e, f] == [e] + ([f] + []);
    RunCons(s, e, [f] + []);
    RunCons(a, f, []);
  }

  lemma {:induction false} ReachableInv(es: seq<Event>)
    ensures Inv(Run(INIT, es))
  {
    InitInv();
    RunInv(INIT, es);
  }

  /** A request performs its next operation. */
  lemma {:induction false} ExecuteNext(s: State, p: nat, op: Op, rest: seq<Op>, each: bool)
    requires p in s.procs && s.procs[p] == Worker([op] + rest, each) && !op.Backfill?
    ensures Step(s, Execute(p)) == Spawn(Perform(s, op), p, Worker(rest, each))
  {
    var todo := [op] + rest;
    assert todo[0] == op && todo[1..] == rest && FollowUp(s, op) == [] && [] + rest == rest;
    assert s.procs[p] == Worker(todo, each);
    assert Effect(s, Execute(p)) == Spawn(Perform(s, op), p, Worker(rest, each));
    UntaintedStep(Effect(s, Execute(p)));
  }

  lemma {:induction false} UntaintedStep(t: State)
    ensures Tainted(t, {}) == t
  {
    assert t.tainted + {} == t.tainted;
  }

  function Weight(todo: seq<Op>): nat {
    if todo == [] then 0 else (if todo[0].Backfill? then 2 else 1) + Weight(todo[1..])
  }

  lemma {:induction false} LighterTodo(todo: seq<Op>, more: seq<Op>)
    requires todo != [] && (more == [] || (todo[0].Backfill? && |more| == 1 && more[0].SetIndex?))
    ensures Weight(more + todo[1..]) < Weight(todo)
  {
    if more == [] {
      assert more + todo[1..] == todo[1..];
    } else {
      assert (more + todo[1..])[1..] == todo[1..];
    }
  }

  // ---- coherence ----

  /** In every reachable state, whatever the interleaving, failures and lost keys: a Redis
      entry with a hash is the image of a database row, and of an unrevoked one, unless its
      deletion is still pending or the key is tainted. */
  lemma {:induction false} CacheCoherence(es: seq<Event>, k: Key)
    ensures var s := Run(INIT, es);
            HasHash(s.redis, k) ==>
              && k in s.rows && s.redis[k].hash == Some(s.rows[k].hash)
              && (s.rows[k].revoked ==> PendingDel(s.procs, k) || k in s.tainted)
  {
    ReachableInv(es);
    assert CoherentAt(Run(INIT, es), k);
  }

  /** Along the run no revocation of the key starts while its hash is still to be written,
      no sync rewrites it during one, and no deletion of it is lost. */
  ghost predicate Smooth(s: State, es: seq<Event>, k: Key)
    decreases |es|
  {
    es == [] || ((Enabled(s, es[0]) ==> k !in Taints(s, es[0])) && Smooth(Step(s, es[0]), es[1..], k))
  }

  lemma {:induction false} PerformIsClean(s: State, op: Op)
    ensures Perform(s, op).tainted <= s.tainted && Perform(s, op).procs == s.procs && Perform(s, op).now == s.now
  {
  }

  lemma {:induction false} EffectIsClean(s: State, e: Event)
    requires Enabled(s, e)
    ensures Effect(s, e).tainted <= s.tainted
  {
    if e.Execute? { PerformIsClean(s, Todo(s.procs[e.p])[0]); }
  }

  lemma {:induction false} SmoothStaysClean(s: State, es: seq<Event>, k: Key)
    requires k !in s.tainted && Smooth(s, es, k)
    ensures k !in Run(s, es).tainted
    decreases |es|
  {
    if es != [] {
      if Enabled(s, es[0]) { EffectIsClean(s, es[0]); }
      SmoothStaysClean(Step(s, es[0]), es[1..], k);
    }
  }

  /** Without such trouble the stores are coherent outright, and a revoked key is dead as
      soon as no deletion of it is pending any more, be it a token, a session of a revoked
      client or one that was refreshed. */
  lemma {:induction false} SmoothIsCoherent(es: seq<Event>, k: Key)
    requires Smooth(INIT, es, k)
    ensures var s := Run(INIT, es);
            && (HasHash(s.redis, k) ==> k in s.rows && (s.rows[k].revoked ==> PendingDel(s.procs, k)))
            && (k in s.rows && s.rows[k].revoked && !PendingDel(s.procs, k) ==> Dead(s, k))
  {
    SmoothStaysClean(INIT, es, k);
    CacheCoherence(es, k);
    SettledIsDead(es, k);
  }

  // ---- the dead stay dead ----

  /** The row is revoked, Redis has no hash of it, and none is still to be written. */
  ghost predicate Dead(s: State, k: Key) {
    k in s.rows && s.rows[k].revoked && !HasHash(s.redis, k) && !PendingPut(s.procs, k)
  }

  /** A revoked key without trouble is dead once its deletion is done. */
  lemma {:induction false} SettledIsDead(es: seq<Event>, k: Key)
    ensures var s := Run(INIT, es);
            k in s.rows && s.rows[k].revoked && k !in s.tainted && !PendingDel(s.procs, k) ==> Dead(s, k)
  {
    ReachableInv(es);
    var s := Run(INIT, es);
    assert CoherentAt(s, k);
    if k in s.rows && s.rows[k].revoked && k !in s.tainted {
      forall p | p in s.procs ensures Put(k) !in Todo(s.procs[p]) {
        assert ProcOk(s.rows, s.redis, s.tainted, s.procs[p]);
        assert Put(k) in Todo(s.procs[p]) ==> OpOk(s.rows, s.redis, s.tainted, Todo(s.procs[p]), Put(k));
      }
    }
  }

  /** Nothing of the key is written by what the request still does. */
  ghost predicate Silent(proc: Proc, k: Key) {
    Put(k) !in Todo(proc)
  }

  lemma {:induction false} PerformDead(s: State, op: Op, k: Key)
    requires Dead(s, k) && op != Put(k)
    ensures Dead(Perform(s, op), k)
  {
  }

  lemma {:induction false} ExecuteDead(s: State, p: nat, k: Key)
    requires Dead(s, k) && Enabled(s, Execute(p))
    ensures Dead(Effect(s, Execute(p)), k)
  {
    var todo := Todo(s.procs[p]);
    assert Silent(s.procs[p], k);
    PerformDead(s, todo[0], k);
    PerformIsClean(s, todo[0]);
    SpawnDead(Perform(s, todo[0]), p, WithTodo(s.procs[p], FollowUp(s, todo[0]) + todo[1..]), k);
  }

  lemma {:induction false} SpawnDead(s: State, p: nat, proc: Proc, k: Key)
    requires Dead(s, k) && Silent(proc, k)
    ensures Dead(Spawn(s, p, proc), k)
  {
    var n := Spawn(s, p, proc);
    forall q | q in n.procs ensures Silent(n.procs[q], k) {
      assert q != p ==> Silent(s.procs[q], k);
    }
  }

  lemma {:induction false} FaultDead(s: State, e: Event, k: Key)
    requires Dead(s, k) && Enabled(s, e) && (e.Fail? || e.Abort? || e.Raise? || e.Continue?)
    ensures Dead(Effect(s, e), k)
  {
    assert Silent(s.procs[e.p], k);
    if e.Fail? { ClosingsSilent(Todo(s.procs[e.p]), k); }
    SpawnDead(s, e.p, Effect(s, e).procs[e.p], k);
  }

  lemma {:induction false} ClosingsSilent(todo: seq<Op>, k: Key)
    ensures Put(k) !in Closings(todo)
  {
    if todo != [] { ClosingsSilent(todo[1..], k); }
  }

  lemma {:induction false} CommitDead(s: State, e: Event, k: Key)
    requires Dead(s, k) && Enabled(s, e)
    requires e.Create? || e.CommitExchange? || e.CommitRefresh? || e.RevokeToken?
    ensures Dead(Effect(s, e), k)
  {
    var t := Effect(s, e);
    SpawnDead(s.(rows := t.rows), e.p, t.procs[e.p], k);
  }

  lemma {:induction false} StartDead(s: State, e: Event, k: Key)
    requires Dead(s, k) && Enabled(s, e)
    requires e.StartExchange? || e.StartRefresh? || e.RevokeClient? || e.StartSync? || e.BackendUse? || e.StartValidate?
    ensures Dead(Effect(s, e), k)
  {
    var t := Effect(s, e);
    if e.RevokeClient? { DelsAre(e.ks); }
    if e.StartSync? { SyncOpsAre(s, e.kind, e.ks); }
    SpawnDead(s, e.p, t.procs[e.p], k);
  }

  lemma {:induction false} DeadStep(s: State, e: Event, k: Key)
    requires Dead(s, k)
    ensures Dead(Step(s, e), k)
  {
    if Enabled(s, e) {
      match e
      case Create(_, _, _, _) => CommitDead(s, e, k);
      case CommitExchange(_, _, _, _) => CommitDead(s, e, k);
      case CommitRefresh(_, _, _, _) => CommitDead(s, e, k);
      case RevokeToken(_, _) => CommitDead(s, e, k);
      case StartExchange(_, _) => StartDead(s, e, k);
      case StartRefresh(_, _) => StartDead(s, e, k);
      case RevokeClient(_, _, _) => StartDead(s, e, k);
      case StartSync(_, _, _) => StartDead(s, e, k);
      case BackendUse(_, _, _, _, _) => StartDead(s, e, k);
      case StartValidate(_, _) => StartDead(s, e, k);
      case Continue(_, _) => FaultDead(s, e, k);
      case Raise(_) => FaultDead(s, e, k);
      case Fail(_) => FaultDead(s, e, k);
      case Abort(_) => FaultDead(s, e, k);
      case Execute(p) => ExecuteDead(s, p, k);
      case Tick(_) =>
      case LoseKey(_) =>
      case LoseIndex(_) =>
    }
  }

  lemma {:induction false} DeadRun(s: State, es: seq<Event>, k: Key)
    requires Dead(s, k)
    ensures Dead(Run(s, es), k)
    decreases |es|
  {
    if es != [] {
      DeadStep(s, es[0], k);
      DeadRun(Step(s, es[0]), es[1..], k);
    }
  }

  // ---- a write that is still to come ----

  /** What the request does up to and including its write of the key's hash. */
  lemma {:induction false} Drain(s: State, q: nat, k: Key) returns (es: seq<Event>)
    requires k in s.rows && q in s.procs && Put(k) in Todo(s.procs[q])
    ensures forall e :: e in es ==> e == Execute(q)
    ensures var t := Run(s, es);
            && HasHash(t.redis, k) && k in t.rows && (s.rows[k].revoked ==> t.rows[k].revoked) && t.now == s.now
            && t.procs.Keys == s.procs.Keys && (PendingDel(t.procs, k) ==> PendingDel(s.procs, k))
    decreases Weight(Todo(s.procs[q]))
  {
    var t := Step(s, Execute(q));
    DrainStep(s, q, k);
    if Todo(s.procs[q])[0] == Put(k) {
      es := [Execute(q)];
      RunOne(s, Execute(q));
    } else {
      var rest := Drain(t, q, k);
      es := [Execute(q)] + rest;
      RunCons(s, Execute(q), rest);
    }
  }

  lemma {:induction false} DrainStep(s: State, q: nat, k: Key)
    requires k in s.rows && q in s.procs && Put(k) in Todo(s.procs[q])
    ensures var t := Step(s, Execute(q));
            && k in t.rows && (s.rows[k].revoked ==> t.rows[k].revoked) && t.now == s.now
            && t.procs.Keys == s.procs.Keys && (PendingDel(t.procs, k) ==> PendingDel(s.procs, k))
            && if Todo(s.procs[q])[0] == Put(k) then HasHash(t.redis, k)
               else Put(k) in Todo(t.procs[q]) && Weight(Todo(t.procs[q])) < Weight(Todo(s.procs[q]))
  {
    var todo := Todo(s.procs[q]);
    var more := FollowUp(s, todo[0]);
    var u, t := Perform(s, todo[0]), Step(s, Execute(q));
    PerformIsClean(s, todo[0]);
    PerformKeepsRow(s, todo[0], k);
    LighterTodo(todo, more);
    assert t.procs == s.procs[q := WithTodo(s.procs[q], more + todo[1..])];
    assert Todo(t.procs[q]) == more + todo[1..];
    forall p | p in t.procs && Del(k) in Todo(t.procs[p]) ensures PendingDel(s.procs, k) {
      assert p in s.procs && Del(k) in Todo(s.procs[p]);
    }
  }

  lemma {:induction false} PerformKeepsRow(s: State, op: Op, k: Key)
    requires k in s.rows
    ensures var t := Perform(s, op);
            && k in t.rows && (s.rows[k].revoked ==> t.rows[k].revoked) && (op == Put(k) ==> HasHash(t.redis, k))
            && t.rows[k].client == s.rows[k].client
  {
  }

  /** In every state and for every revoked key: its hash never appears again, whatever
      happens, exactly when there is none and no request has still to write it. */
  lemma {:induction false} DeadForGood(s: State, k: Key)
    requires k in s.rows && s.rows[k].revoked
    ensures (forall es :: !HasHash(Run(s, es).redis, k)) <==> Dead(s, k)
  {
    if Dead(s, k) {
      forall es ensures !HasHash(Run(s, es).redis, k) {
        DeadRun(s, es, k);
      }
    } else if HasHash(s.redis, k) {
      var none := RunNone(s);
      assert HasHash(Run(s, none).redis, k);
    } else {
      var q :| q in s.procs && Put(k) in Todo(s.procs[q]);
      var es := Drain(s, q, k);
      assert HasHash(Run(s, es).redis, k);
    }
  }

  // ---- no resurrection ----

  /** What the point of a validation must not show. */
  ghost predicate Blind(point: Point, k: Key) {
    match point
    case AtCheck(j, e, _) => j == k ==> e.hash.None?
    case Matched(j, _, _, _) => j != k
    case Accepted(j, _) => j != k
    case _ => true
  }

  /** The validation has not seen the key's hash. */
  ghost predicate Unseen(s: State, p: nat, k: Key) {
    p in s.procs && s.procs[p].Validating? ==> Blind(s.procs[p].point, k)
  }

  lemma {:induction false} AdvanceBlind(s: State, secret: string, point: Point, scanned: Option<Key>, k: Key)
    requires !HasHash(s.redis, k) && Blind(point, k)
    ensures Blind(Advance(s, secret, point, scanned), k) && Blind(Fault(point), k)
  {
  }

  lemma {:induction false} UnseenExecute(s: State, q: nat, p: nat, k: Key)
    requires Unseen(s, p, k) && Enabled(s, Execute(q))
    ensures Unseen(Next(s, Execute(q)), p, k)
  {
    PerformIsClean(s, Todo(s.procs[q])[0]);
  }

  lemma {:induction false} UnseenElse(s: State, e: Event, p: nat, k: Key)
    requires Unseen(s, p, k) && Enabled(s, e)
    requires !e.Execute? && (e.Continue? || e.Raise? ==> e.p != p)
    ensures Unseen(Next(s, e), p, k)
  {
  }

  lemma {:induction false} UnseenStep(s: State, e: Event, p: nat, k: Key)
    requires Dead(s, k) && Unseen(s, p, k)
    ensures Unseen(Step(s, e), p, k)
  {
    if Enabled(s, e) {
      if e.Execute? {
        UnseenExecute(s, e.p, p, k);
      } else if (e.Continue? || e.Raise?) && e.p == p {
        var v := s.procs[p];
        AdvanceBlind(s, v.secret, v.point, if e.Continue? then e.scanned else None, k);
      } else {
        UnseenElse(s, e, p, k);
      }
    }
  }

  lemma {:induction false} UnseenRun(s: State, es: seq<Event>, p: nat, k: Key)
    requires Dead(s, k) && Unseen(s, p, k)
    ensures Unseen(Run(s, es), p, k)
    decreases |es|
  {
    if es != [] {
      DeadStep(s, es[0], k);
      UnseenStep(s, es[0], p, k);
      UnseenRun(Step(s, es[0]), es[1..], p, k);
    }
  }

  /** No resurrection: once a token or session is dead, no validation of its secret that
      starts later is ever accepted, however its steps interleave with usage writes, index
      back-fills, syncs, failures, expiry or key loss. */
  lemma {:induction false} RevokedNeverAccepted(before: seq<Event>, after: seq<Event>, k: Key, p: nat)
    requires var s := Run(INIT, before);
             Dead(s, k) && p !in s.procs
    requires var t := Run(INIT, before + after);
             && p in t.procs && t.procs[p].Validating?
             && k in t.rows && Verifies(t.procs[p].secret, t.rows[k].hash)
    ensures !Run(INIT, before + after).procs[p].point.Accepted?
  {
    var s := Run(INIT, before);
    var t := Run(INIT, before + after);
    ReachableInv(before + after);
    RunSplit(INIT, before, after);
    UnseenRun(s, after, p, k);
    assert SightOk(t.rows, t.procs[p]);
  }

  /** Soundness: whatever a validation accepts is a row whose secret was presented, and
      an accepted agent token had not expired when it was checked. */
  lemma {:induction false} AcceptedIsGenuine(es: seq<Event>, p: nat)
    requires var s := Run(INIT, es);
             p in s.procs && s.procs[p].Validating? && s.procs[p].point.Accepted?
    ensures var s := Run(INIT, es);
            var v := s.procs[p];
            && v.point.key in s.rows
            && Verifies(v.secret, s.rows[v.point.key].hash)
            && (v.point.key.kind.Agent? ==> v.point.at < s.rows[v.point.key].expires)
  {
    ReachableInv(es);
    var s := Run(INIT, es);
    assert SightOk(s.rows, s.procs[p]);
  }

  // ---- the revocation of a token ----

  function Unindex(s: State, k: Key): Op
    requires k in s.rows
  {
    DelIndex(Slot(Agent, Prefix(s.rows[k].hash.secret)))
  }

  lemma {:induction false} RevocationStarts(s: State, p: nat, k: Key) returns (a: State)
    requires Enabled(s, RevokeToken(p, k))
    ensures a == Step(s, RevokeToken(p, k))
    ensures a.rows == Marked(s.rows, {k}) && a.redis == s.redis && a.index == s.index && a.now == s.now
    ensures a.procs == s.procs[p := Worker([Del(k), Unindex(s, k)], false)]
    ensures a.tainted == s.tainted + Overlapped(s.procs, {k})
  {
    a := Step(s, RevokeToken(p, k));
  }

  lemma {:induction false} FirstStep(a: State, p: nat, k: Key, unindex: Op) returns (b: State)
    requires p in a.procs && a.procs[p] == Worker([Del(k), unindex], false)
    ensures b == Step(a, Execute(p))
    ensures b.rows == a.rows && b.redis == a.redis - {k} && b.index == a.index && b.now == a.now
    ensures b.procs == a.procs[p := Worker([unindex], false)]
  {
    assert [Del(k), unindex] == [Del(k)] + [unindex];
    ExecuteNext(a, p, Del(k), [unindex], false);
    b := Step(a, Execute(p));
  }

  lemma {:induction false} SecondStep(b: State, p: nat, unindex: Op) returns (t: State)
    requires p in b.procs && b.procs[p] == Worker([unindex], false) && unindex.DelIndex?
    ensures t == Step(b, Execute(p))
    ensures t.rows == b.rows && t.redis == b.redis && t.index == b.index - {unindex.slot} && t.now == b.now
    ensures t.procs == b.procs[p := ENDED]
  {
    assert [unindex] == [unindex] + [];
    ExecuteNext(b, p, unindex, [], false);
    t := Step(b, Execute(p));
  }

  /** The request from its commit to its end, with nothing in between. */
  function Revocation(p: nat, k: Key): seq<Event> {
    [RevokeToken(p, k)] + [Execute(p), Execute(p)]
  }

  lemma {:induction false} RevocationRuns(s: State, p: nat, k: Key) returns (t: State)
    requires Enabled(s, RevokeToken(p, k))
    ensures t == Run(s, Revocation(p, k))
    ensures t.rows == Marked(s.rows, {k}) && t.redis == s.redis - {k} && t.now == s.now
    ensures t.index == s.index - {Slot(Agent, Prefix(s.rows[k].hash.secret))} && t.procs == s.procs[p := ENDED]
  {
    var a := RevocationStarts(s, p, k);
    var b := FirstStep(a, p, k, Unindex(s, k));
    t := SecondStep(b, p, Unindex(s, k));
    RunTwo(a, Execute(p), Execute(p), b, t);
    RunCons(s, RevokeToken(p, k), [Execute(p), Execute(p)]);
    assert a.procs[p := b.procs[p]][p := ENDED] == s.procs[p := ENDED];
  }

  lemma {:induction false} EndedWritesNothing(procs: Procs, p: nat, k: Key)
    requires p !in procs
    ensures PendingPut(procs[p := ENDED], k) <==> PendingPut(procs, k)
    ensures PendingDel(procs[p := ENDED], k) <==> PendingDel(procs, k)
  {
    var after := procs[p := ENDED];
    assert forall q :: q in procs ==> q in after && after[q] == procs[q];
    assert forall q :: q in after && q != p ==> q in procs && after[q] == procs[q];
  }

  /** In every state, a revocation that runs through is final, so that the token's hash
      never appears again whatever happens, exactly when no request has still to write it:
      neither the generation of the token nor a startup sync. */
  lemma {:induction false} RevocationExact(s: State, p: nat, k: Key)
    requires Enabled(s, RevokeToken(p, k))
    ensures !PendingPut(s.procs, k) <==> forall es :: !HasHash(Run(s, Revocation(p, k) + es).redis, k)
    ensures Dead(Run(s, Revocation(p, k)), k) <==> !PendingPut(s.procs, k)
    ensures Slot(Agent, Prefix(s.rows[k].hash.secret)) !in Run(s, Revocation(p, k)).index
  {
    var t := RevocationRuns(s, p, k);
    EndedWritesNothing(s.procs, p, k);
    DeadForGood(t, k);
    if Dead(t, k) {
      forall es ensures !HasHash(Run(s, Revocation(p, k) + es).redis, k) {
        RunSplit(s, Revocation(p, k), es);
      }
    } else {
      var es :| HasHash(Run(t, es).redis, k);
      RunSplit(s, Revocation(p, k), es);
      assert HasHash(Run(s, Revocation(p, k) + es).redis, k);
    }
  }

  /** Otherwise the write can leave the hash of the revoked row for good: the deletion is
      over, and no other comes. */
  lemma {:induction false} OverlapLeavesRevokedHash(s: State, p: nat, k: Key) returns (es: seq<Event>)
    requires Enabled(s, RevokeToken(p, k)) && PendingPut(s.procs, k)
    ensures var t := Run(s, Revocation(p, k) + es);
            && HasHash(t.redis, k) && k in t.rows && t.rows[k].revoked && t.now == s.now
            && t.procs.Keys == s.procs.Keys + {p} && (PendingDel(t.procs, k) ==> PendingDel(s.procs, k))
  {
    var t := RevocationRuns(s, p, k);
    EndedWritesNothing(s.procs, p, k);
    var q :| q in t.procs && Put(k) in Todo(t.procs[q]);
    es := Drain(t, q, k);
    RunSplit(s, Revocation(p, k), es);
  }

  /** A deletion that fails is swallowed, and leaves the revoked hash as well. */
  lemma {:induction false} FailedDeletionLeavesRevokedHash(s: State, p: nat, k: Key)
    requires Enabled(s, RevokeToken(p, k)) && HasHash(s.redis, k)
    ensures var t := Run(s, [RevokeToken(p, k), Fail(p)]);
            && HasHash(t.redis, k) && k in t.rows && t.rows[k].revoked && t.now == s.now
            && (PendingDel(t.procs, k) ==> PendingDel(s.procs, k))
  {
    var a := RevocationStarts(s, p, k);
    var b := Step(a, Fail(p));
    NothingLeft(k, Unindex(s, k));
    assert b.procs == a.procs[p := ENDED] == s.procs[p := ENDED];
    EndedWritesNothing(s.procs, p, k);
    RunTwo(s, RevokeToken(p, k), Fail(p), a, b);
  }

  lemma {:induction false} NothingLeft(k: Key, unindex: Op)
    requires unindex.DelIndex?
    ensures Closings([Del(k), unindex]) == []
  {
    var todo := [Del(k), unindex];
    assert todo[1..] == [unindex] && [unindex][1..] == [] && Closings([]) == [];
    assert Closings([unindex]) == [] + Closings([]);
  }

  /** A startup sync that reads the rows after a client's revocation has deleted the
      entries, and before it commits, writes one of them back. */
  lemma {:induction false} SyncLeavesRevokedHash(s: State, p: nat, q: nat, c: nat, ks: set<Key>, k: Key)
    requires p in s.procs && s.procs[p] == Worker([Revoke(c, ks)], true) && k in ks
    requires q !in s.procs && ToSync(s, Oauth, k)
    ensures var t := Run(s, [StartSync(q, Oauth, [k]), Execute(q)] + [Execute(p)]);
            && HasHash(t.redis, k) && k in t.rows && t.rows[k].revoked
            && (PendingDel(t.procs, k) ==> PendingDel(s.procs, k))
  {
    var a := Step(s, StartSync(q, Oauth, [k]));
    var b := SyncedOne(s, q, k);
    RunTwo(s, StartSync(q, Oauth, [k]), Execute(q), a, b);
    RunSplit(s, [StartSync(q, Oauth, [k]), Execute(q)], [Execute(p)]);
    RunOne(b, Execute(p));
    assert [Revoke(c, ks)] == [Revoke(c, ks)] + [];
    ExecuteNext(b, p, Revoke(c, ks), [], true);
    var t := Step(b, Execute(p));
    assert t.procs == b.procs[p := Worker([], true)];
    forall r | r in t.procs && Del(k) in Todo(t.procs[r]) ensures PendingDel(s.procs, k) {
      assert r in s.procs && Del(k) in Todo(s.procs[r]);
    }
  }

  lemma {:induction false} SyncedOne(s: State, q: nat, k: Key) returns (b: State)
    requires q !in s.procs && ToSync(s, Oauth, k)
    ensures b == Step(Step(s, StartSync(q, Oauth, [k])), Execute(q))
    ensures HasHash(b.redis, k) && b.rows == s.rows
    ensures exists todo :: b.procs == s.procs[q := Syncing(todo)] && Del(k) !in todo
  {
    var ops := SyncOps(s, Oauth, [k]);
    assert [k][1..] == [] && SyncOps(s, Oauth, []) == [];
    assert ops == [Put(k), Extend(k, s.rows[k].expires - s.now)];
    var a := Step(s, StartSync(q, Oauth, [k]));
    assert a.procs == s.procs[q := Syncing(ops)] && a.rows == s.rows;
    b := Step(a, Execute(q));
    assert FollowUp(a, Put(k)) == [] && [] + ops[1..] == ops[1..];
    assert b.procs == a.procs[q := Syncing(ops[1..])] == s.procs[q := Syncing(ops[1..])];
    assert Del(k) !in ops[1..];
  }

  // ---- the revocation of a client ----

  /** The request will open a session of the client: it has checked already. */
  ghost predicate Opens(rows: Rows, proc: Proc, c: nat) {
    proc == Granting(c) || (proc.Refreshing? && proc.prev in rows && rows[proc.prev].client == Some(c))
  }

  /** Every session of the client is revoked or among `ks`, and none is being opened. */
  ghost predicate Covered(s: State, c: nat, ks: set<Key>) {
    && (forall k :: k in s.rows && s.rows[k].client == Some(c) ==> s.rows[k].revoked || k in ks)
    && (forall p :: p in s.procs ==> !Opens(s.rows, s.procs[p], c))
  }

  ghost predicate AllRevoked(s: State, c: nat) {
    forall k :: k in s.rows && s.rows[k].client == Some(c) ==> s.rows[k].revoked
  }

  /** The client is revoked, its sessions are, and none is being opened. */
  ghost predicate Sealed(s: State, c: nat) {
    c in s.closed && Covered(s, c, {})
  }

  /** The request checks the client, or a session of it, in order to open one. */
  predicate Starts(s: State, e: Event, c: nat) {
    || (e.StartExchange? && e.c == c)
    || (e.StartRefresh? && e.prev in s.rows && s.rows[e.prev].client == Some(c))
  }

  /** Rows only ever become revoked; a new one is of the client whose session it continues
      or whose exchange was granted. */
  ghost predicate RowsGrow(rows: Rows, rows': Rows) {
    forall k :: k in rows ==>
      k in rows' && rows'[k].client == rows[k].client && (rows[k].revoked ==> rows'[k].revoked)
  }

  lemma {:induction false} CoveredSpawn(s: State, rows: Rows, p: nat, proc: Proc, c: nat, ks: set<Key>)
    requires Covered(s, c, ks) && RowsGrow(s.rows, rows) && !Opens(rows, proc, c)
    requires forall k :: k in rows && k !in s.rows ==> rows[k].client != Some(c)
    ensures Covered(Spawn(s.(rows := rows), p, proc), c, ks)
  {
    var t := Spawn(s.(rows := rows), p, proc);
    forall q | q in t.procs ensures !Opens(t.rows, t.procs[q], c) {
      assert q != p ==> !Opens(s.rows, s.procs[q], c);
    }
  }

  lemma {:induction false} CoveredStep(s: State, e: Event, c: nat, ks: set<Key>)
    requires Covered(s, c, ks) && (Starts(s, e, c) ==> !Enabled(s, e))
    ensures Covered(Step(s, e), c, ks) && (c in s.closed ==> c in Step(s, e).closed)
  {
    if Enabled(s, e) {
      if e.Execute? {
        CoveredExecute(s, e.p, c, ks);
      } else if Local(e) {
        CoveredBy(s, e, c, ks);
      }
    }
  }

  /** An event of one process that performs no operation. */
  predicate Local(e: Event) {
    !e.Execute? && !e.Tick? && !e.LoseKey? && !e.LoseIndex?
  }

  lemma {:induction false} LocalRows(s: State, e: Event, c: nat)
    requires Enabled(s, e) && Local(e) && (e.p in s.procs ==> !Opens(s.rows, s.procs[e.p], c))
    ensures var t := Effect(s, e);
            && RowsGrow(s.rows, t.rows) && t.closed == s.closed
            && forall k :: k in t.rows && k !in s.rows ==> t.rows[k].client != Some(c)
  {
  }

  lemma {:induction false} LocalOpens(s: State, e: Event, c: nat)
    requires Enabled(s, e) && Local(e) && !Starts(s, e, c)
    requires e.p in s.procs ==> !Opens(s.rows, s.procs[e.p], c)
    ensures !Opens(Effect(s, e).rows, Effect(s, e).procs[e.p], c)
  {
  }

  lemma {:induction false} CoveredBy(s: State, e: Event, c: nat, ks: set<Key>)
    requires Covered(s, c, ks) && Enabled(s, e) && !Starts(s, e, c) && Local(e)
    ensures Covered(Next(s, e), c, ks) && Next(s, e).closed == s.closed
  {
    var t := Effect(s, e);
    LocalRows(s, e, c);
    LocalOpens(s, e, c);
    CoveredSpawn(s, t.rows, e.p, t.procs[e.p], c, ks);
  }

  lemma {:induction false} CoveredExecute(s: State, p: nat, c: nat, ks: set<Key>)
    requires Covered(s, c, ks) && Enabled(s, Execute(p))
    ensures Covered(Next(s, Execute(p)), c, ks) && s.closed <= Next(s, Execute(p)).closed
  {
    var op := Todo(s.procs[p])[0];
    var u := Perform(s, op);
    PerformIsClean(s, op);
    PerformRows(s, op);
    CoveredSpawn(s, u.rows, p, Next(s, Execute(p)).procs[p], c, ks);
  }

  lemma {:induction false} PerformRows(s: State, op: Op)
    ensures var t := Perform(s, op);
            && RowsGrow(s.rows, t.rows) && t.rows.Keys == s.rows.Keys && s.closed <= t.closed
            && (!op.Revoke? ==> t.rows == s.rows)
  {
  }

  lemma {:induction false} SealedRun(s: State, es: seq<Event>, c: nat)
    requires Sealed(s, c)
    ensures Sealed(Run(s, es), c)
    decreases |es|
  {
    if es != [] {
      CoveredStep(s, es[0], c, {});
      SealedRun(Step(s, es[0]), es[1..], c);
    }
  }

  /** A request that has checked goes on to open a session of the client, with its hash in
      Redis, although the client is revoked by now. */
  lemma {:induction false} StrayStaysLive(s: State, p: nat, c: nat, k: Key, row: Row, ttl: int) returns (es: seq<Event>)
    requires p in s.procs && Opens(s.rows, s.procs[p], c)
    requires Fresh(s, k, row) && k.kind.Oauth? && row.client == Some(c)
    ensures var t := Run(s, es);
            && k in t.rows && t.rows[k] == row && !row.revoked && t.closed == s.closed
            && HasHash(t.redis, k) && t.redis[k].hash == Some(row.hash)
  {
    if s.procs[p].Granting? {
      var a := Step(s, CommitExchange(p, k, row, ttl));
      var t := StoreWrites(a, p, k, row, StoreOps(k, row, ttl));
      RunTwo(s, CommitExchange(p, k, row, ttl), Execute(p), a, t);
      es := [CommitExchange(p, k, row, ttl), Execute(p)];
    } else {
      es := RefreshStaysLive(s, p, k, row, ttl);
    }
  }

  lemma {:induction false} RefreshCommits(s: State, p: nat, k: Key, row: Row, ttl: int) returns (a: State)
    requires p in s.procs && s.procs[p].Refreshing? && s.procs[p].prev in s.rows
    requires Fresh(s, k, row) && k.kind.Oauth? && row.client == s.rows[s.procs[p].prev].client
    ensures a == Step(s, CommitRefresh(p, k, row, ttl))
    ensures p in a.procs && a.procs[p] == Worker([Del(s.procs[p].prev)] + StoreOps(k, row, ttl), false)
    ensures a.rows == Marked(s.rows, {s.procs[p].prev})[k := row] && a.closed == s.closed
    ensures a.redis == s.redis && a.index == s.index && a.now == s.now
  {
    a := Step(s, CommitRefresh(p, k, row, ttl));
  }

  lemma {:induction false} RefreshStaysLive(s: State, p: nat, k: Key, row: Row, ttl: int) returns (es: seq<Event>)
    requires p in s.procs && s.procs[p].Refreshing? && s.procs[p].prev in s.rows
    requires Fresh(s, k, row) && k.kind.Oauth? && row.client == s.rows[s.procs[p].prev].client
    ensures var t := Run(s, es);
            && k in t.rows && t.rows[k] == row && t.closed == s.closed
            && HasHash(t.redis, k) && t.redis[k].hash == Some(row.hash)
  {
    var a := RefreshCommits(s, p, k, row, ttl);
    var t := RefreshWrites(a, p, s.procs[p].prev, k, row, StoreOps(k, row, ttl));
    RunCons(s, CommitRefresh(p, k, row, ttl), [Execute(p), Execute(p)]);
    es := [CommitRefresh(p, k, row, ttl)] + [Execute(p), Execute(p)];
  }

  lemma {:induction false} RefreshWrites(a: State, p: nat, prev: Key, k: Key, row: Row, ops: seq<Op>) returns (t: State)
    requires p in a.procs && a.procs[p] == Worker([Del(prev)] + ops, false) && ops != [] && ops[0] == Put(k)
    requires k in a.rows && a.rows[k] == row
    ensures t == Run(a, [Execute(p), Execute(p)]) && t.rows == a.rows && t.closed == a.closed
    ensures HasHash(t.redis, k) && t.redis[k].hash == Some(row.hash)
  {
    ExecuteNext(a, p, Del(prev), ops, false);
    var b := Step(a, Execute(p));
    t := StoreWrites(b, p, k, row, ops);
    RunTwo(a, Execute(p), Execute(p), b, t);
  }

  lemma {:induction false} StoreWrites(b: State, p: nat, k: Key, row: Row, ops: seq<Op>) returns (t: State)
    requires p in b.procs && b.procs[p] == Worker(ops, false) && ops != [] && ops[0] == Put(k)
    requires k in b.rows && b.rows[k] == row
    ensures t == Step(b, Execute(p)) && t.rows == b.rows && t.closed == b.closed
    ensures HasHash(t.redis, k) && t.redis[k].hash == Some(row.hash)
  {
    assert ops == [Put(k)] + ops[1..];
    ExecuteNext(b, p, Put(k), ops[1..], false);
    t := Step(b, Execute(p));
  }

  /** In every state, and for every revoked client: its sessions are revoked for good,
      whatever happens, exactly when they all are now and no exchange or refresh that has
      checked before is still under way. */
  lemma {:induction false} SealedForGood(s: State, c: nat, k: Key, row: Row)
    requires c in s.closed && Fresh(s, k, row) && k.kind.Oauth? && row.client == Some(c)
    ensures (forall es :: AllRevoked(Run(s, es), c)) <==> Sealed(s, c)
  {
    if Sealed(s, c) {
      forall es ensures AllRevoked(Run(s, es), c) {
        SealedRun(s, es, c);
      }
    } else if !AllRevoked(s, c) {
      var none := RunNone(s);
      assert !AllRevoked(Run(s, none), c);
    } else {
      var p :| p in s.procs && Opens(s.rows, s.procs[p], c);
      var es := StrayStaysLive(s, p, c, k, row, 0);
      assert !AllRevoked(Run(s, es), c);
    }
  }

  /** The commit of a client's revocation is final exactly when its list covers every
      session that is still unrevoked, and none is being opened. */
  lemma {:induction false} CommitSeals(s: State, p: nat, c: nat, ks: set<Key>)
    requires p in s.procs && s.procs[p] == Worker([Revoke(c, ks)], true)
    ensures Sealed(Step(s, Execute(p)), c) <==> Covered(s, c, ks)
  {
    assert [Revoke(c, ks)] == [Revoke(c, ks)] + [];
    ExecuteNext(s, p, Revoke(c, ks), [], true);
    var t := Step(s, Execute(p));
    assert t.rows == Marked(s.rows, ks) && c in t.closed && t.procs == s.procs[p := Worker([], true)];
    if Covered(s, c, ks) {
      forall q | q in t.procs ensures !Opens(t.rows, t.procs[q], c) {
        assert q != p ==> !Opens(s.rows, s.procs[q], c);
      }
    }
    if Sealed(t, c) {
      forall q | q in s.procs ensures !Opens(s.rows, s.procs[q], c) {
        assert q in t.procs && (q != p ==> t.procs[q] == s.procs[q]);
      }
      forall k | k in s.rows && s.rows[k].client == Some(c) ensures s.rows[k].revoked || k in ks {
        assert k in t.rows && t.rows[k].client == Some(c);
      }
    }
  }

  /** Each next operation is performed, or its Redis call raises. */
  predicate Tries(es: seq<Event>, p: nat) {
    forall i :: 0 <= i < |es| ==> es[i] == Execute(p) || es[i] == Fail(p)
  }

  lemma {:induction false} DeletionTried(s: State, p: nat, k: Key, rest: seq<Op>, e: Event) returns (t: State)
    requires p in s.procs && s.procs[p] == Worker([Del(k)] + rest, true) && (e == Execute(p) || e == Fail(p))
    ensures t == Step(s, e)
    ensures t.rows == s.rows && t.closed == s.closed && t.procs == s.procs[p := Worker(rest, true)]
    ensures t.redis == if e.Execute? then s.redis - {k} else s.redis
  {
    var todo := [Del(k)] + rest;
    assert todo[0] == Del(k) && todo[1..] == rest;
    if e.Execute? { ExecuteNext(s, p, Del(k), rest, true); }
    t := Step(s, e);
  }

  /** Whichever deletions fail, the others are done, and the commit is still to come. */
  lemma {:induction false} DeletionsTried(s: State, p: nat, ks: seq<Key>, commit: seq<Op>, es: seq<Event>)
    requires p in s.procs && s.procs[p] == Worker(Dels(ks) + commit, true) && |es| == |ks| && Tries(es, p)
    ensures var t := Run(s, es);
            && t.rows == s.rows && t.closed == s.closed && p in t.procs && t.procs[p] == Worker(commit, true)
            && t.redis.Keys <= s.redis.Keys
            && forall i :: 0 <= i < |ks| && es[i].Execute? ==> ks[i] !in t.redis
    decreases |ks|
  {
    if ks == [] {
      assert Dels(ks) + commit == commit;
    } else {
      assert Dels(ks) + commit == [Del(ks[0])] + (Dels(ks[1..]) + commit);
      var a := DeletionTried(s, p, ks[0], Dels(ks[1..]) + commit, es[0]);
      DeletionsTried(a, p, ks[1..], commit, es[1..]);
      assert forall i :: 1 <= i < |ks| ==> ks[i] == ks[1..][i - 1] && es[i] == es[1..][i - 1];
    }
  }

  /** Redis failures do not stop a client's revocation: whichever deletions fail, it ends
      with the client and all its sessions revoked, and the other entries deleted. */
  lemma {:induction false} RevocationCommits(s: State, p: nat, c: nat, ks: seq<Key>, es: seq<Event>)
    requires Enabled(s, RevokeClient(p, c, ks)) && |es| == |ks| && Tries(es, p)
    ensures var t := Run(s, [RevokeClient(p, c, ks)] + (es + [Execute(p)]));
            && c in t.closed && AllRevoked(t, c)
            && forall i :: 0 <= i < |ks| && es[i].Execute? ==> ks[i] !in t.redis
  {
    var a := Step(s, RevokeClient(p, c, ks));
    var commit := Revoke(c, KeySet(ks));
    RunCons(s, RevokeClient(p, c, ks), es + [Execute(p)]);
    RunSplit(a, es, [Execute(p)]);
    DeletionsTried(a, p, ks, [commit], es);
    RunOne(Run(a, es), Execute(p));
    CommitDone(Run(a, es), p, c, KeySet(ks));
    assert forall k :: k in ks ==> k in KeySet(ks);
  }

  lemma {:induction false} CommitDone(b: State, p: nat, c: nat, ks: set<Key>)
    requires p in b.procs && b.procs[p] == Worker([Revoke(c, ks)], true)
    ensures var t := Step(b, Execute(p));
            t.rows == Marked(b.rows, ks) && t.closed == b.closed + {c} && t.redis == b.redis
  {
    assert [Revoke(c, ks)] == [Revoke(c, ks)] + [];
    ExecuteNext(b, p, Revoke(c, ks), [], true);
  }

  ghost predicate NoneStarts(s: State, es: seq<Event>, c: nat)
    decreases |es|
  {
    es == [] || (!Starts(s, es[0], c) && NoneStarts(Step(s, es[0]), es[1..], c))
  }

  /** The list does cover them when no session was being opened as the revocation started,
      and no request to open one arrives until the commit. */
  lemma {:induction false} QuietRevocationCovers(s: State, p: nat, c: nat, ks: seq<Key>, es: seq<Event>)
    requires Enabled(s, RevokeClient(p, c, ks)) && forall q :: q in s.procs ==> !Opens(s.rows, s.procs[q], c)
    requires NoneStarts(s, [RevokeClient(p, c, ks)] + es, c)
    ensures Covered(Run(s, [RevokeClient(p, c, ks)] + es), c, KeySet(ks))
  {
    assert forall k :: k in ks ==> k in KeySet(ks);
    CoveredRun(s, [RevokeClient(p, c, ks)] + es, c, KeySet(ks));
  }

  lemma {:induction false} CoveredRun(s: State, es: seq<Event>, c: nat, ks: set<Key>)
    requires Covered(s, c, ks) && NoneStarts(s, es, c)
    ensures Covered(Run(s, es), c, ks)
    decreases |es|
  {
    if es != [] {
      CoveredStep(s, es[0], c, ks);
      CoveredRun(Step(s, es[0]), es[1..], c, ks);
    }
  }

  // ---- validations that succeed ----

  /** The state in which validation `p` of the secret has got to `point`. */
  function Reached(s: State, p: nat, secret: string, point: Point): State {
    Spawn(s, p, Validating(secret, point))
  }

  /** Only steps of the validation itself. */
  predicate Own(es: seq<Event>, p: nat) {
    forall e :: e in es ==>
      (e.StartValidate? && e.p == p) || (e.Continue? && e.p == p) || (e.Execute? && e.p == p)
  }

  /** The keys that the scans of the run yield. */
  function Yields(es: seq<Event>): seq<Key> {
    if es == [] then []
    else (if es[0].Continue? && es[0].scanned.Some? then [es[0].scanned.value] else []) + Yields(es[1..])
  }

  lemma {:induction false} YieldsCons(e: Event, es: seq<Event>)
    ensures Yields([e] + es) == (if e.Continue? && e.scanned.Some? then [e.scanned.value] else []) + Yields(es)
  {
    assert ([e] + es)[1..] == es;
  }

  /** Whatever usage writes are left, an undisturbed validation gets through them. */
  lemma {:induction false} UsageCompletes(s: State, p: nat) returns (es: seq<Event>)
    requires p in s.procs && s.procs[p].Validating? && s.procs[p].point.Matched?
    ensures Own(es, p) && Yields(es) == []
    ensures var t := Run(s, es);
            p in t.procs && t.procs[p].Validating?
            && t.procs[p].point == Accepted(s.procs[p].point.key, s.procs[p].point.at)
    decreases Weight(s.procs[p].point.todo)
  {
    if s.procs[p].point.todo == [] {
      es := [Continue(p, None)];
      RunOne(s, Continue(p, None));
    } else {
      UsageStep(s, p);
      var rest := UsageCompletes(Step(s, Execute(p)), p);
      es := [Execute(p)] + rest;
      RunCons(s, Execute(p), rest);
      YieldsCons(Execute(p), rest);
    }
  }

  lemma {:induction false} UsageStep(s: State, p: nat)
    requires p in s.procs && s.procs[p].Validating? && s.procs[p].point.Matched? && s.procs[p].point.todo != []
    ensures var t := Step(s, Execute(p));
            && p in t.procs && t.procs[p].Validating? && t.procs[p].point.Matched?
            && t.procs[p].point.key == s.procs[p].point.key && t.procs[p].point.at == s.procs[p].point.at
            && Weight(t.procs[p].point.todo) < Weight(s.procs[p].point.todo)
  {
    var todo := s.procs[p].point.todo;
    var more := FollowUp(s, todo[0]);
    assert Step(s, Execute(p)).procs[p] == WithTodo(s.procs[p], more + todo[1..]);
    LighterTodo(todo, more);
  }

  /** One step that only reads. */
  lemma {:induction false} ReadStep(s: State, p: nat, secret: string, point: Point, scanned: Option<Key>)
    ensures Step(Reached(s, p, secret, point), Continue(p, scanned))
         == Reached(s, p, secret, Advance(s, secret, point, scanned))
  {
  }

  /** The entry is there, carries the hash of the secret, and has not expired. */
  ghost predicate Valuable(s: State, secret: string, k: Key) {
    && HasHash(s.redis, k) && Verifies(secret, s.redis[k].hash.value)
    && (k.kind.Agent? && s.redis[k].expires.Some? ==> s.redis[k].expires.value > s.now)
  }

  ghost predicate AcceptedAt(t: State, p: nat, k: Key, at: int) {
    p in t.procs && t.procs[p].Validating? && t.procs[p].point == Accepted(k, at)
  }

  /** The steps `es` of the validation alone lead from `point` to the acceptance of `k`, and
      its scans yield `ys`. */
  ghost predicate Leads(s: State, p: nat, secret: string, point: Point, es: seq<Event>, k: Key, ys: seq<Key>) {
    Own(es, p) && Yields(es) == ys && AcceptedAt(Run(Reached(s, p, secret, point), es), p, k, s.now)
  }

  lemma {:induction false} Reads(s: State, p: nat, secret: string, point: Point, scanned: Option<Key>,
          rest: seq<Event>, k: Key, ys: seq<Key>)
    returns (es: seq<Event>)
    requires Leads(s, p, secret, Advance(s, secret, point, scanned), rest, k, ys)
    ensures Leads(s, p, secret, point, es, k, (if scanned.Some? then [scanned.value] else []) + ys)
  {
    es := [Continue(p, scanned)] + rest;
    ReadStep(s, p, secret, point, scanned);
    RunCons(Reached(s, p, secret, point), Continue(p, scanned), rest);
    YieldsCons(Continue(p, scanned), rest);
  }

  /** From the entry on, by index or by scan, to acceptance. */
  lemma {:induction false} EntryAccepted(s: State, p: nat, secret: string, k: Key, via: Via) returns (es: seq<Event>)
    requires Valuable(s, secret, k)
    ensures Leads(s, p, secret, AtEntry(k, via), es, k, [])
  {
    var matched := Matched(k, s.now, via, UsageOps(secret, k, s.redis[k], via));
    es := UsageCompletes(Reached(s, p, secret, matched), p);
    es := Reads(s, p, secret, AtCheck(k, s.redis[k], via), None, es, k, []);
    es := Reads(s, p, secret, AtEntry(k, via), None, es, k, []);
  }

  /** The key is valuable, and no other entry carries a hash of the secret. */
  ghost predicate Sole(s: State, secret: string, k: Key) {
    && Valuable(s, secret, k)
    && forall j :: HasHash(s.redis, j) && Verifies(secret, s.redis[j].hash.value) ==> j == k
  }

  lemma {:induction false} CoherentSole(s: State, secret: string, k: Key)
    requires Inv(s) && Valuable(s, secret, k)
    ensures Sole(s, secret, k)
  {
    forall j | HasHash(s.redis, j) && Verifies(secret, s.redis[j].hash.value) ensures j == k {
      assert CoherentAt(s, k) && CoherentAt(s, j);
    }
  }

  /** A look at another entry, or at one that is gone, leads on. */
  lemma {:induction false} EntryMissed(s: State, p: nat, secret: string, k: Key, j: Key, via: Via, rest: seq<Event>,
          ys: seq<Key>)
    returns (es: seq<Event>)
    requires Sole(s, secret, k) && j != k
    requires Leads(s, p, secret, Missed(j.kind, via), rest, k, ys)
    ensures Leads(s, p, secret, AtEntry(j, via), es, k, ys)
  {
    es := rest;
    assert [] + ys == ys;
    if j in s.redis {
      es := Reads(s, p, secret, AtCheck(j, s.redis[j], via), None, es, k, ys);
    }
    es := Reads(s, p, secret, AtEntry(j, via), None, es, k, ys);
  }

  // ---- the kinds of indexed keys ----

  /** The index of a kind gets keys of that kind only. */
  predicate SameKind(op: Op) {
    match op
    case SetIndex(slot, k, _) => slot.kind == k.kind
    case Backfill(slot, k) => slot.kind == k.kind
    case _ => true
  }

  ghost predicate AllSameKind(todo: seq<Op>) {
    forall op :: op in todo ==> SameKind(op)
  }

  ghost predicate KindsOk(s: State) {
    && (forall slot :: slot in s.index ==> s.index[slot].key.kind == slot.kind)
    && (forall p :: p in s.procs ==> AllSameKind(Todo(s.procs[p])))
  }

  lemma {:induction false} KindsSpawn(s: State, p: nat, proc: Proc)
    requires KindsOk(s) && AllSameKind(Todo(proc))
    ensures KindsOk(Spawn(s, p, proc))
  {
  }

  lemma {:induction false} SyncKinds(s: State, kind: Kind, ks: seq<Key>)
    ensures AllSameKind(SyncOps(s, kind, ks))
  {
    if ks != [] { SyncKinds(s, kind, ks[1..]); }
  }

  lemma {:induction false} DelKinds(ks: seq<Key>)
    ensures AllSameKind(Dels(ks))
  {
    if ks != [] { DelKinds(ks[1..]); }
  }

  lemma {:induction false} ClosingKinds(todo: seq<Op>)
    ensures AllSameKind(Closings(todo))
  {
    if todo != [] { ClosingKinds(todo[1..]); }
  }

  lemma {:induction false} AdvanceKinds(s: State, secret: string, point: Point, scanned: Option<Key>)
    requires point.Matched? ==> AllSameKind(point.todo)
    ensures var next := Advance(s, secret, point, scanned); next.Matched? ==> AllSameKind(next.todo)
    ensures Fault(point).Matched? ==> AllSameKind(Fault(point).todo)
  {
  }

  lemma {:induction false} LocalKinds(s: State, e: Event)
    requires KindsOk(s) && Enabled(s, e) && Local(e)
    ensures AllSameKind(Todo(Effect(s, e).procs[e.p]))
  {
    assert e.p in s.procs ==> AllSameKind(Todo(s.procs[e.p]));
    match e
    case RevokeClient(_, _, ks) => DelKinds(ks);
    case StartSync(_, kind, ks) => SyncKinds(s, kind, ks);
    case Fail(p) => ClosingKinds(Todo(s.procs[p]));
    case Continue(p, scanned) => AdvanceKinds(s, s.procs[p].secret, s.procs[p].point, scanned);
    case Raise(p) => AdvanceKinds(s, s.procs[p].secret, s.procs[p].point, None);
    case _ =>
  }

  lemma {:induction false} KindsLocal(s: State, e: Event)
    requires KindsOk(s) && Enabled(s, e) && Local(e)
    ensures KindsOk(Next(s, e))
  {
    LocalKinds(s, e);
    KindsSpawn(s, e.p, Effect(s, e).procs[e.p]);
  }

  lemma {:induction false} PerformKinds(s: State, op: Op)
    requires KindsOk(s) && SameKind(op)
    ensures KindsOk(Perform(s, op)) && AllSameKind(FollowUp(s, op))
  {
    PerformIsClean(s, op);
  }

  lemma {:induction false} KindsExecute(s: State, p: nat)
    requires KindsOk(s) && Enabled(s, Execute(p))
    ensures KindsOk(Next(s, Execute(p)))
  {
    var todo := Todo(s.procs[p]);
    assert SameKind(todo[0]);
    PerformKinds(s, todo[0]);
    KindsSpawn(Perform(s, todo[0]), p, WithTodo(s.procs[p], FollowUp(s, todo[0]) + todo[1..]));
  }

  lemma {:induction false} KindsStep(s: State, e: Event)
    requires KindsOk(s)
    ensures KindsOk(Step(s, e))
  {
    if Enabled(s, e) {
      if e.Execute? {
        KindsExecute(s, e.p);
      } else if Local(e) {
        KindsLocal(s, e);
      }
    }
  }

  lemma {:induction false} KindsRun(s: State, es: seq<Event>)
    requires KindsOk(s)
    ensures KindsOk(Run(s, es))
    decreases |es|
  {
    if es != [] {
      KindsStep(s, es[0]);
      KindsRun(Step(s, es[0]), es[1..]);
    }
  }

  // ---- acceptance ----

  /** The index of a kind leads to the key, or the validation goes on behind it. */
  lemma {:induction false} ThroughIndex(s: State, p: nat, secret: string, k: Key, kind: Kind, rest: seq<Event>,
          ys: seq<Key>)
    returns (es: seq<Event>, zs: seq<Key>)
    requires Sole(s, secret, k) && forall slot :: slot in s.index ==> s.index[slot].key.kind == slot.kind
    requires Leads(s, p, secret, Missed(kind, ByIndex), rest, k, ys)
    ensures Leads(s, p, secret, AtIndex(kind), es, k, zs) && (zs == ys || zs == [])
  {
    var slot := Slot(kind, Prefix(secret));
    if slot !in s.index {
      es, zs := rest, ys;
    } else if s.index[slot].key == k {
      es := EntryAccepted(s, p, secret, k, ByIndex);
      zs := [];
    } else {
      es := EntryMissed(s, p, secret, k, s.index[slot].key, ByIndex, rest, ys);
      zs := ys;
    }
    assert [] + zs == zs;
    es := Reads(s, p, secret, AtIndex(kind), None, es, k, zs);
  }

  lemma {:induction false} ScanMissed(s: State, p: nat, secret: string, k: Key, j: Key, n: nat, rest: seq<Event>,
          ys: seq<Key>)
    returns (es: seq<Event>)
    requires Sole(s, secret, k) && j != k && n < SCAN_MAX
    requires Leads(s, p, secret, AtScan(j.kind, n + 1), rest, k, ys)
    ensures Leads(s, p, secret, AtScan(j.kind, n), es, k, [j] + ys)
  {
    es := EntryMissed(s, p, secret, k, j, ByScan(n + 1), rest, ys);
    es := Reads(s, p, secret, AtScan(j.kind, n), Some(j), es, k, ys);
  }

  lemma {:induction false} FirstAndRest(js: seq<Key>, ys: seq<Key>)
    requires js != []
    ensures [js[0]] + (js[1..] + ys) == js + ys
  {
  }

  /** Other keys that a scan yields first are passed over, as long as the limit is not reached. */
  lemma {:induction false} ThroughScan(s: State, p: nat, secret: string, k: Key, kind: Kind, n: nat, js: seq<Key>,
          rest: seq<Event>, ys: seq<Key>)
    returns (es: seq<Event>)
    requires Sole(s, secret, k) && k !in js && n + |js| <= SCAN_MAX
    requires forall j :: j in js ==> j.kind == kind
    requires Leads(s, p, secret, AtScan(kind, n + |js|), rest, k, ys)
    ensures Leads(s, p, secret, AtScan(kind, n), es, k, js + ys)
    decreases |js|
  {
    if js == [] {
      es := rest;
      assert [] + ys == ys;
    } else {
      var later := ThroughScan(s, p, secret, k, kind, n + 1, js[1..], rest, ys);
      es := ScanMissed(s, p, secret, k, js[0], n, later, js[1..] + ys);
      FirstAndRest(js, ys);
    }
  }

  /** What the scans yield up to the key: other agent keys first, and for a session all the
      agent keys that are looked at, and then other sessions. */
  ghost predicate YieldsUpTo(k: Key, agents: seq<Key>, sessions: seq<Key>) {
    && k !in agents && k !in sessions
    && (forall j :: j in agents ==> j.kind.Agent?) && (forall j :: j in sessions ==> j.kind.Oauth?)
    && if k.kind.Agent? then |agents| < 25 && sessions == [] else |agents| <= 25 && |sessions| < 25
  }

  lemma {:induction false} ScanReaches(s: State, p: nat, secret: string, k: Key, before: seq<Key>)
    returns (es: seq<Event>)
    requires Sole(s, secret, k) && k !in before && |before| < SCAN_MAX
    requires forall j :: j in before ==> j.kind == k.kind
    ensures Leads(s, p, secret, AtScan(k.kind, 0), es, k, before + [k])
  {
    es := EntryAccepted(s, p, secret, k, ByScan(|before| + 1));
    es := Reads(s, p, secret, AtScan(k.kind, |before|), Some(k), es, k, []);
    assert [k] + [] == [k];
    es := ThroughScan(s, p, secret, k, k.kind, 0, before, es, [k]);
  }

  lemma {:induction false} ScanAccepts(s: State, p: nat, secret: string, k: Key, agents: seq<Key>, sessions: seq<Key>)
    returns (es: seq<Event>)
    requires Sole(s, secret, k) && YieldsUpTo(k, agents, sessions)
    ensures Leads(s, p, secret, AtScan(Agent, 0), es, k, agents + sessions + [k])
  {
    if k.kind.Agent? {
      es := ScanReaches(s, p, secret, k, agents);
      assert agents + sessions + [k] == agents + [k];
    } else {
      var ys := sessions + [k];
      es := ScanReaches(s, p, secret, k, sessions);
      assert [] + ys == ys && agents + ys == agents + sessions + [k];
      es := Reads(s, p, secret, AtScan(Agent, |agents|), None, es, k, ys);
      es := ThroughScan(s, p, secret, k, Agent, 0, agents, es, ys);
    }
  }

  /** Validation does accept: in every reachable state, and whatever the indexes hold, an
      undisturbed validation of a valuable token or session gets there, by an index or by
      scans that yield any other keys first, up to the limit of each kind. */
  lemma {:induction false} ValidationCompletes(before: seq<Event>, p: nat, secret: string, k: Key,
          agents: seq<Key>, sessions: seq<Key>)
    returns (es: seq<Event>)
    requires p !in Run(INIT, before).procs && Valuable(Run(INIT, before), secret, k)
    requires YieldsUpTo(k, agents, sessions)
    ensures Own(es, p) && AcceptedAt(Run(Run(INIT, before), es), p, k, Run(INIT, before).now)
    ensures es != [] && es[0] == StartValidate(p, secret)
    ensures Yields(es) == [] || Yields(es) == agents + sessions + [k]
  {
    var s := Run(INIT, before);
    ReachableInv(before);
    KindsRun(INIT, before);
    CoherentSole(s, secret, k);
    var ys := agents + sessions + [k];
    es := ScanAccepts(s, p, secret, k, agents, sessions);
    es, ys := ThroughIndex(s, p, secret, k, Oauth, es, ys);
    es, ys := ThroughIndex(s, p, secret, k, Agent, es, ys);
    ValidationStarts(s, p, secret);
    RunCons(s, StartValidate(p, secret), es);
    YieldsCons(StartValidate(p, secret), es);
    es := [StartValidate(p, secret)] + es;
  }

  lemma {:induction false} ValidationStarts(s: State, p: nat, secret: string)
    requires p !in s.procs
    ensures Step(s, StartValidate(p, secret)) == Reached(s, p, secret, AtIndex(Agent))
  {
    assert s.tainted + {} == s.tainted;
  }

  // ---- a stale hash is accepted ----

  /** As long as its token has not expired, a hash of a revoked row is accepted. */
  lemma {:induction false} StaleHashAccepted(before: seq<Event>, p: nat, k: Key) returns (es: seq<Event>)
    requires var s := Run(INIT, before);
             && p !in s.procs && HasHash(s.redis, k) && k in s.rows && s.rows[k].revoked
             && (k.kind.Agent? ==> s.rows[k].expires > s.now)
    ensures Own(es, p) && AcceptedAt(Run(INIT, before + es), p, k, Run(INIT, before).now)
  {
    var s := Run(INIT, before);
    ReachableInv(before);
    assert CoherentAt(s, k);
    es := ValidationCompletes(before, p, s.rows[k].hash.secret, k, [], []);
    RunSplit(INIT, before, es);
  }

  /** The overlapped run, from the start. */
  lemma {:induction false} OverlappedRun(before: seq<Event>, p: nat, v: nat, k: Key) returns (late: seq<Event>)
    requires var s := Run(INIT, before);
             && Enabled(s, RevokeToken(p, k)) && PendingPut(s.procs, k) && s.rows[k].expires > s.now
             && v !in s.procs && v != p
    ensures var t := Run(INIT, before + (Revocation(p, k) + late));
            && v !in t.procs && HasHash(t.redis, k) && k in t.rows && t.rows[k].revoked
            && t.rows[k].expires > t.now && t.now == Run(INIT, before).now
  {
    var s := Run(INIT, before);
    late := OverlapLeavesRevokedHash(s, p, k);
    RunSplit(INIT, before, Revocation(p, k) + late);
    RowKept(s, Revocation(p, k) + late, k);
  }

  /** So an unexpired token whose revocation was overlapped by the write of its hash can be
      accepted after the revocation has ended. */
  lemma {:induction false} OverlappedTokenAccepted(before: seq<Event>, p: nat, v: nat, k: Key) returns (es: seq<Event>)
    requires var s := Run(INIT, before);
             && Enabled(s, RevokeToken(p, k)) && PendingPut(s.procs, k) && s.rows[k].expires > s.now
             && v !in s.procs && v != p
    ensures AcceptedAt(Run(INIT, before + (Revocation(p, k) + es)), v, k, Run(INIT, before).now)
  {
    var late := OverlappedRun(before, p, v, k);
    var rest := StaleHashAccepted(before + (Revocation(p, k) + late), v, k);
    es := late + rest;
    SameEvents(before, Revocation(p, k), late, rest);
  }

  lemma {:induction false} SameEvents(a: seq<Event>, b: seq<Event>, c: seq<Event>, d: seq<Event>)
    ensures (a + (b + c)) + d == a + (b + (c + d))
  {
  }

  lemma {:induction false} PerformSameRow(s: State, op: Op, k: Key)
    requires k in s.rows
    ensures k in Perform(s, op).rows && Perform(s, op).rows[k].expires == s.rows[k].expires
  {
  }

  lemma {:induction false} RowKept(s: State, es: seq<Event>, k: Key)
    requires k in s.rows
    ensures var t := Run(s, es); k in t.rows && t.rows[k].expires == s.rows[k].expires
    decreases |es|
  {
    if es != [] {
      if es[0].Execute? && Enabled(s, es[0]) { PerformSameRow(s, Todo(s.procs[es[0].p])[0], k); }
      RowKept(Step(s, es[0]), es[1..], k);
    }
  }
}
