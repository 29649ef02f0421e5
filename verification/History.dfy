/** The audit trail of prompts: snapshots and field changes, retention, optimistic
    locking and rollback. */
module History {
  import opened Prelude

  /** A column value; JSON values other than numbers are compared as a whole. */
  datatype Value = Null | Num(n: int) | Json(text: string)

  /** The columns of a row or snapshot, without id and timestamps; one is the version. */
  type Columns = map<string, Value>

  const VERSION := "version"

  datatype Change = Change(before: Value, after: Value)

  datatype Action = Create | Update | Delete | Rollback

  datatype Entry = Entry(
    entity: string,
    action: Action,
    snapshot: Option<Columns>,
    changes: map<string, Change>,
    target: Option<nat>,
    at: int)

  // ---- compute_changes ----

  /** The fields whose new value differs from the snapshot's, which may lack the field. */
  function Diff(before: Columns, data: Columns): map<string, Change> {
    map f | f in data && Get(before, f, Null) != data[f] :: Change(Get(before, f, Null), data[f])
  }

  method ComputeChanges(before: Columns, data: Columns) returns (changes: map<string, Change>)
    ensures changes == Diff(before, data)
  {
    changes := map[];
    var left := data.Keys;
    while left != {}
      invariant left <= data.Keys
      invariant changes == map f | f in data && f !in left && Get(before, f, Null) != data[f]
                             :: Change(Get(before, f, Null), data[f])
      decreases left
    {
      var field :| field in left;
      if Get(before, field, Null) != data[field] {
        changes := changes[field := Change(Get(before, field, Null), data[field])];
      }
      left := left - {field};
    }
  }

  /** Writing the recorded new values over a snapshot; the version is not a client's to set. */
  function Patched(cols: Columns, changes: map<string, Change>): Columns {
    map f | f in cols.Keys + changes.Keys ::
      if f in changes && f != VERSION then changes[f].after else Get(cols, f, Null)
  }

  function VersionOf(cols: Columns): int {
    match Get(cols, VERSION, Null)
    case Num(n) => n
    case _ => 0
  }

  /** `version = (version or 0) + 1` */
  function Bumped(cols: Columns): Columns {
    cols[VERSION := Num(VersionOf(cols) + 1)]
  }

  /** The row after an update with the given fields. */
  function Updated(cols: Columns, data: Columns): Columns {
    Bumped(cols + (data - {VERSION}))
  }

  /** The recorded changes say exactly what an update did, and name no field in vain. */
  lemma {:induction false} ChangesAreFaithful(before: Columns, data: Columns)
    requires VERSION in before && data.Keys <= before.Keys
    ensures Updated(before, data) == Bumped(Patched(before, Diff(before, data)))
    ensures forall f :: f in Diff(before, data) ==>
              && Diff(before, data)[f].before == before[f]
              && (f != VERSION ==> Updated(before, data)[f] == Diff(before, data)[f].after != before[f])
  {
    var a, b := before + (data - {VERSION}), Patched(before, Diff(before, data));
    assert a.Keys == b.Keys;
    forall f | f in a ensures a[f] == b[f] {
    }
    assert a == b;
  }

  // ---- rollback ----

  /** Every snapshot field is set back, then the version is incremented. */
  function RolledBack(cols: Columns, snapshot: Columns): Columns {
    Bumped(cols + snapshot)
  }

  function Recreated(snapshot: Columns): Columns {
    snapshot[VERSION := Num(1)]
  }

  /** A snapshot set back over a row leaves nothing of the row. */
  lemma {:induction false} SetBack(cols: Columns, snapshot: Columns)
    requires cols.Keys == snapshot.Keys
    ensures RolledBack(cols, snapshot) == Bumped(snapshot)
  {
    assert cols + snapshot == snapshot;
  }

  // ---- the store and its requests ----

  datatype Event =
    | CreatePrompt(id: string, cols: Columns, at: int)
    | UpdatePrompt(id: string, data: Columns, at: int)
    | DeletePrompt(id: string, at: int)
    | RollbackTo(target: nat, at: int)

  datatype Outcome = Done | NotFound | Conflict | Invalid | NoSnapshot

  /** The prompts, and every history entry ever recorded (an entry's id is its position). */
  datatype Store = Store(prompts: map<string, Columns>, log: seq<Entry>)

  /** The columns of the prompts table. */
  predicate RowShape(cols: Columns, columns: set<string>) {
    cols.Keys == columns && VERSION in cols
  }

  /** OL-1: a version in the request must be the current one. */
  predicate Stale(cols: Columns, data: Columns) {
    VERSION in data && data[VERSION] != Null && data[VERSION] != Get(cols, VERSION, Null)
  }

  function Record(s: Store, e: Entry): Store {
    s.(log := s.log + [e])
  }

  datatype Result = Result(outcome: Outcome, store: Store)

  /** What a request does, given the columns a prompt has. */
  function Step(s: Store, e: Event, columns: set<string>): Result {
    match e
    case CreatePrompt(id, cols, at) =>
      if !RowShape(cols, columns) then Result(Invalid, s)
      else if id in s.prompts then Result(Conflict, s)
      else
        Result(Done, Record(s.(prompts := s.prompts[id := cols[VERSION := Num(1)]]),
                            Entry(id, Create, None, map[], None, at)))
    case UpdatePrompt(id, data, at) =>
      if !(data.Keys <= columns) then Result(Invalid, s)
      else if id !in s.prompts then Result(NotFound, s)
      else if Stale(s.prompts[id], data) then Result(Conflict, s)
      else
        var before := s.prompts[id];
        Result(Done, Record(s.(prompts := s.prompts[id := Updated(before, data)]),
                            Entry(id, Update, Some(before), Diff(before, data), None, at)))
    case DeletePrompt(id, at) =>
      if id !in s.prompts then Result(NotFound, s)
      else
        Result(Done, Record(s.(prompts := s.prompts - {id}),
                            Entry(id, Delete, Some(s.prompts[id]), map[], None, at)))
    case RollbackTo(target, at) =>
      if target >= |s.log| then Result(NotFound, s)
      else if s.log[target].snapshot.None? then Result(NoSnapshot, s)
      else
        var id, snapshot := s.log[target].entity, s.log[target].snapshot.value;
        if id in s.prompts then
          var before := s.prompts[id];
          Result(Done, Record(s.(prompts := s.prompts[id := RolledBack(before, snapshot)]),
                              Entry(id, Rollback, Some(before), map[], Some(target), at)))
        else
          Result(Done, Record(s.(prompts := s.prompts[id := Recreated(snapshot)]),
                              Entry(id, Rollback, None, map[], Some(target), at)))
  }

  function Run(s: Store, es: seq<Event>, columns: set<string>): Store
    decreases |es|
  {
    if es == [] then s else Run(Step(s, es[0], columns).store, es[1..], columns)
  }

  // ---- what each request does ----

  /** Exactly the given fields change, but for the version, which goes one up. */
  ghost predicate Edited(before: Columns, data: Columns, row: Columns) {
    && row.Keys == before.Keys + {"version"}
    && (forall f :: f in before && f != "version" ==> row[f] == if f in data then data[f] else before[f])
    && row["version"] == Num(1 + match Get(before, "version", Null) case Num(n) => n case Null => 0 case Json(_) => 0)
  }

  /** The changes are those of the given fields that differ, with the old and the new value. */
  ghost predicate TellsChanges(before: Columns, data: Columns, changes: map<string, Change>)
    requires data.Keys <= before.Keys
  {
    && (forall f :: f in changes <==> f in data && data[f] != before[f])
    && forall f :: f in changes ==> changes[f] == Change(before[f], data[f])
  }

  /** Nothing but prompt `id` changes, and one entry about it is recorded. */
  ghost predicate Touches(s: Store, t: Store, id: string, e: Entry) {
    && (forall other :: other != id ==> Current(t, other) == Current(s, other))
    && t.log == s.log + [e] && e.entity == id
  }

  /** An update goes through exactly for known fields of a prompt that is there, with its
      version or none; it edits those fields and records the row as it was and the changes. */
  lemma {:induction false} UpdateExact(s: Store, id: string, data: Columns, at: int, columns: set<string>)
    requires Inv(s, columns)
    ensures var r := Step(s, UpdatePrompt(id, data, at), columns);
            var current := id in s.prompts && "version" in data ==>
                             data["version"] == Null || data["version"] == Get(s.prompts[id], "version", Null);
            && r.outcome == (if !(data.Keys <= columns) then Invalid else if id !in s.prompts then NotFound
                             else if current then Done else Conflict)
            && (r.outcome != Done ==> r.store == s)
            && (r.outcome == Done ==>
                  && id in r.store.prompts && Edited(s.prompts[id], data, r.store.prompts[id])
                  && data.Keys <= s.prompts[id].Keys && |r.store.log| > |s.log|
                  && var e := r.store.log[|s.log|];
                     && Touches(s, r.store, id, e) && e.action == Update && e.snapshot == Some(s.prompts[id])
                     && e.target == None && e.at == at && TellsChanges(s.prompts[id], data, e.changes))
  {
    var r := Step(s, UpdatePrompt(id, data, at), columns);
    if r.outcome == Done {
      assert RowShape(s.prompts[id], columns);
      assert r.store.prompts[id] == Updated(s.prompts[id], data);
    }
  }

  /** A creation stores the given fields at version 1, a deletion takes the row away and
      records it; both exactly if they can, and otherwise nothing happens. */
  lemma {:induction false} CreateAndDeleteExact(s: Store, id: string, cols: Columns, at: int, columns: set<string>)
    ensures var r := Step(s, CreatePrompt(id, cols, at), columns);
            && (r.outcome == Done <==> cols.Keys == columns && "version" in cols && id !in s.prompts)
            && (r.outcome != Done ==> r.store == s)
            && (r.outcome == Done ==>
                  && Current(r.store, id) == Some(cols["version" := Num(1)])
                  && Touches(s, r.store, id, Entry(id, Create, None, map[], None, at)))
    ensures var r := Step(s, DeletePrompt(id, at), columns);
            && (r.outcome == Done <==> id in s.prompts)
            && (r.outcome != Done ==> r.store == s)
            && (r.outcome == Done ==>
                  && Current(r.store, id) == None
                  && Touches(s, r.store, id, Entry(id, Delete, Some(s.prompts[id]), map[], None, at)))
  {
  }

  /** A rollback goes through exactly for an entry with a snapshot; it sets the row to the
      snapshot, one version further, or brings it back at version 1, and records the row
      that it replaces. */
  lemma {:induction false} RollbackExact(s: Store, target: nat, at: int, columns: set<string>)
    requires Inv(s, columns)
    ensures var r := Step(s, RollbackTo(target, at), columns);
            && r.outcome == (if target >= |s.log| then NotFound else if s.log[target].snapshot.None? then NoSnapshot
                             else Done)
            && (r.outcome != Done ==> r.store == s)
            && (r.outcome == Done ==>
                  var id, snapshot := s.log[target].entity, s.log[target].snapshot.value;
                  && id in r.store.prompts
                  && Touches(s, r.store, id, Entry(id, Rollback, Current(s, id), map[], Some(target), at))
                  && if id in s.prompts then Edited(snapshot, map[], r.store.prompts[id])
                     else r.store.prompts[id] == snapshot["version" := Num(1)])
  {
    var r := Step(s, RollbackTo(target, at), columns);
    if r.outcome == Done && s.log[target].entity in s.prompts {
      SetBack(s.prompts[s.log[target].entity], s.log[target].snapshot.value);
    }
  }

  // ---- reading the trail ----

  /** What the trail alone tells about an entity. */
  datatype Known = Unknown | Gone | Is(cols: Columns)

  function AfterEntry(log: seq<Entry>, e: Entry): Known {
    match e.action
    case Create => Unknown
    case Update => if e.snapshot.Some? then Is(Bumped(Patched(e.snapshot.value, e.changes))) else Unknown
    case Delete => Gone
    case Rollback =>
      if e.target.None? || e.target.value >= |log| || log[e.target.value].snapshot.None? then Unknown
      else
        var snapshot := log[e.target.value].snapshot.value;
        if e.snapshot.Some? then Is(RolledBack(e.snapshot.value, snapshot)) else Is(Recreated(snapshot))
  }

  function Tells(log: seq<Entry>, id: string): Known {
    if log == [] then Gone
    else if log[|log| - 1].entity != id then Tells(log[..|log| - 1], id)
    else AfterEntry(log[..|log| - 1], log[|log| - 1])
  }

  ghost predicate Fits(k: Known, now: Option<Columns>) {
    match k
    case Unknown => now.Some?
    case Gone => now.None?
    case Is(cols) => now == Some(cols)
  }

  function Current(s: Store, id: string): Option<Columns> {
    if id in s.prompts then Some(s.prompts[id]) else None
  }

  ghost predicate RowsShaped(s: Store, columns: set<string>) {
    && (forall id :: id in s.prompts ==> RowShape(s.prompts[id], columns))
    && (forall i :: 0 <= i < |s.log| && s.log[i].snapshot.Some? ==> RowShape(s.log[i].snapshot.value, columns))
  }

  /** Each snapshot is what the entries before it lead to. */
  ghost predicate SnapshotsFit(log: seq<Entry>) {
    forall i :: 0 <= i < |log| && log[i].snapshot.Some? ==>
      Fits(Tells(log[..i], log[i].entity), log[i].snapshot)
  }

  ghost predicate Inv(s: Store, columns: set<string>) {
    && RowsShaped(s, columns)
    && SnapshotsFit(s.log)
    && forall id :: Fits(Tells(s.log, id), Current(s, id))
  }

  lemma {:induction false} RecordFits(s: Store, t: Store, e: Entry, columns: set<string>)
    requires Inv(s, columns) && t.log == s.log + [e] && RowsShaped(t, columns)
    requires e.snapshot.Some? ==> e.snapshot == Current(s, e.entity)
    requires Fits(AfterEntry(s.log, e), Current(t, e.entity))
    requires forall id :: id != e.entity ==> Current(t, id) == Current(s, id)
    ensures Inv(t, columns)
  {
    assert t.log[..|s.log|] == s.log;
    forall i | 0 <= i < |t.log| && t.log[i].snapshot.Some?
      ensures Fits(Tells(t.log[..i], t.log[i].entity), t.log[i].snapshot)
    {
      if i < |s.log| {
        assert t.log[..i] == s.log[..i];
      }
    }
    forall id ensures Fits(Tells(t.log, id), Current(t, id)) {
      assert Fits(Tells(s.log, id), Current(s, id));
    }
  }

  lemma {:induction false} CreateInv(s: Store, id: string, cols: Columns, at: int, columns: set<string>)
    requires Inv(s, columns)
    ensures Inv(Step(s, CreatePrompt(id, cols, at), columns).store, columns)
  {
    var t := Step(s, CreatePrompt(id, cols, at), columns).store;
    if t != s { RecordFits(s, t, Entry(id, Create, None, map[], None, at), columns); }
  }

  lemma {:induction false} UpdateInv(s: Store, id: string, data: Columns, at: int, columns: set<string>)
    requires Inv(s, columns)
    ensures Inv(Step(s, UpdatePrompt(id, data, at), columns).store, columns)
  {
    var t := Step(s, UpdatePrompt(id, data, at), columns).store;
    if t != s {
      var before := s.prompts[id];
      ChangesAreFaithful(before, data);
      RecordFits(s, t, Entry(id, Update, Some(before), Diff(before, data), None, at), columns);
    }
  }

  lemma {:induction false} DeleteInv(s: Store, id: string, at: int, columns: set<string>)
    requires Inv(s, columns)
    ensures Inv(Step(s, DeletePrompt(id, at), columns).store, columns)
  {
    var t := Step(s, DeletePrompt(id, at), columns).store;
    if t != s { RecordFits(s, t, Entry(id, Delete, Some(s.prompts[id]), map[], None, at), columns); }
  }

  lemma {:induction false} RollbackInv(s: Store, target: nat, at: int, columns: set<string>)
    requires Inv(s, columns)
    ensures Inv(Step(s, RollbackTo(target, at), columns).store, columns)
  {
    var t := Step(s, RollbackTo(target, at), columns).store;
    if t != s {
      var id := s.log[target].entity;
      RecordFits(s, t, Entry(id, Action.Rollback, Current(s, id), map[], Some(target), at), columns);
    }
  }

  lemma {:induction false} StepInv(s: Store, e: Event, columns: set<string>)
    requires Inv(s, columns)
    ensures Inv(Step(s, e, columns).store, columns)
  {
    match e
    case CreatePrompt(id, cols, at) => CreateInv(s, id, cols, at, columns);
    case UpdatePrompt(id, data, at) => UpdateInv(s, id, data, at, columns);
    case DeletePrompt(id, at) => DeleteInv(s, id, at, columns);
    case RollbackTo(target, at) => RollbackInv(s, target, at, columns);
  }

  lemma {:induction false} RunInv(s: Store, es: seq<Event>, columns: set<string>)
    requires Inv(s, columns)
    ensures Inv(Run(s, es, columns), columns)
    decreases |es|
  {
    if es != [] {
      StepInv(s, es[0], columns);
      RunInv(Step(s, es[0], columns).store, es[1..], columns);
    }
  }

  /** Faithful trace: over any run of creates, updates, deletes and rollbacks, the trail
      leads to the current row of every prompt, and each snapshot in it is the row that
      the entries before it lead to. */
  lemma {:induction false} TrailIsFaithful(es: seq<Event>, columns: set<string>, id: string)
    ensures var s := Run(Store(map[], []), es, columns);
            Fits(Tells(s.log, id), Current(s, id)) && SnapshotsFit(s.log)
  {
    RunInv(Store(map[], []), es, columns);
  }

  lemma {:induction false} QuietBetween(log: seq<Entry>, i: nat, j: nat)
    requires i < j <= |log|
    requires forall k :: i < k < j ==> log[k].entity != log[i].entity
    ensures Tells(log[..j], log[i].entity) == AfterEntry(log[..i], log[i])
    decreases j
  {
    assert log[..j][..j - 1] == log[..j - 1];
    if i + 1 < j { QuietBetween(log, i, j - 1); }
  }

  /** In particular an update's snapshot, patched with its changes and one version
      further, is the snapshot of the next entry of the same prompt. */
  lemma {:induction false} NextSnapshot(es: seq<Event>, columns: set<string>, i: nat, j: nat)
    requires var log := Run(Store(map[], []), es, columns).log;
             && i < j < |log| && log[i].action == Update && log[i].snapshot.Some?
             && log[j].entity == log[i].entity && log[j].snapshot.Some?
             && forall k :: i < k < j ==> log[k].entity != log[i].entity
    ensures var log := Run(Store(map[], []), es, columns).log;
            log[j].snapshot.value == Bumped(Patched(log[i].snapshot.value, log[i].changes))
  {
    RunInv(Store(map[], []), es, columns);
    QuietBetween(Run(Store(map[], []), es, columns).log, i, j);
  }

  // ---- what a rollback restores ----

  /** In every state that the trail fits, an entry with a snapshot brings the row back as
      it was, one version further; its own entry brings back what it replaced. A deleted
      prompt comes back at version 1, and that cannot be undone by a rollback. */
  lemma {:induction false} RollbackRestores(s: Store, target: nat, at: int, again: int, columns: set<string>)
    requires Inv(s, columns) && target < |s.log| && s.log[target].snapshot.Some?
    ensures var id, snapshot := s.log[target].entity, s.log[target].snapshot.value;
            var first := Step(s, RollbackTo(target, at), columns);
            var second := Step(first.store, RollbackTo(|s.log|, again), columns);
            && first.outcome == Done
            && (forall other :: other != id ==> Current(first.store, other) == Current(s, other))
            && if id in s.prompts
               then && Current(first.store, id) == Some(Bumped(snapshot))
                    && second.outcome == Done && Current(second.store, id) == Some(Bumped(s.prompts[id]))
               else && Current(first.store, id) == Some(snapshot[VERSION := Num(1)])
                    && second.outcome == NoSnapshot && second.store == first.store
  {
    var id, snapshot := s.log[target].entity, s.log[target].snapshot.value;
    if id in s.prompts {
      SetBack(s.prompts[id], snapshot);
      SetBack(Bumped(snapshot), s.prompts[id]);
    }
  }

  lemma {:induction false} LogGrows(s: Store, es: seq<Event>, columns: set<string>)
    ensures s.log <= Run(s, es, columns).log
    decreases |es|
  {
    if es != [] { LogGrows(Step(s, es[0], columns).store, es[1..], columns); }
  }

  /** Whatever happens after an update or a deletion, rolling back to its entry brings back
      the row that it changed. */
  lemma {:induction false} RestoredAfterRun(s: Store, e: Event, es: seq<Event>, id: string, at: int,
          columns: set<string>)
    requires Inv(s, columns) && Step(s, e, columns).outcome == Done
    requires (e.UpdatePrompt? || e.DeletePrompt?) && e.id == id
    ensures var t := Run(Step(s, e, columns).store, es, columns);
            var back := Step(t, RollbackTo(|s.log|, at), columns);
            && back.outcome == Done
            && Current(back.store, id)
               == Some(if id in t.prompts then Bumped(s.prompts[id]) else s.prompts[id][VERSION := Num(1)])
  {
    var s1 := Step(s, e, columns).store;
    var t := Run(s1, es, columns);
    StepInv(s, e, columns);
    RunInv(s1, es, columns);
    LogGrows(s1, es, columns);
    assert t.log[|s.log|] == s1.log[|s.log|];
    RollbackRestores(t, |s.log|, at, at, columns);
  }

  // ---- optimistic locking ----

  /** The request changes prompt `id`. */
  predicate Writes(s: Store, e: Event, columns: set<string>, id: string) {
    Current(Step(s, e, columns).store, id) != Current(s, id)
  }

  /** Nothing in the run deletes the prompt or rolls it back. */
  ghost predicate Undisturbed(s: Store, es: seq<Event>, columns: set<string>, id: string)
    decreases |es|
  {
    es == [] ||
    (&& !(es[0].DeletePrompt? && es[0].id == id)
     && !(es[0].RollbackTo? && es[0].target < |s.log| && s.log[es[0].target].entity == id)
     && Undisturbed(Step(s, es[0], columns).store, es[1..], columns, id))
  }

  ghost predicate SomeWrite(s: Store, es: seq<Event>, columns: set<string>, id: string)
    decreases |es|
  {
    es != [] && (Writes(s, es[0], columns, id) || SomeWrite(Step(s, es[0], columns).store, es[1..], columns, id))
  }

  function VersionIn(s: Store, id: string): int {
    if id in s.prompts then VersionOf(s.prompts[id]) else 0
  }

  lemma {:induction false} StepCountsWrite(s: Store, e: Event, columns: set<string>, id: string)
    requires id in s.prompts && RowShape(s.prompts[id], columns) && s.prompts[id][VERSION].Num?
    requires !(e.DeletePrompt? && e.id == id)
    requires !(e.RollbackTo? && e.target < |s.log| && s.log[e.target].entity == id)
    ensures var t := Step(s, e, columns).store;
            && id in t.prompts && VERSION in t.prompts[id] && t.prompts[id][VERSION].Num?
            && VersionIn(t, id) == VersionIn(s, id) + (if Writes(s, e, columns, id) then 1 else 0)
  {
  }

  lemma {:induction false} VersionsCountWrites(s: Store, es: seq<Event>, columns: set<string>, id: string)
    requires Inv(s, columns) && Undisturbed(s, es, columns, id)
    requires id in s.prompts && s.prompts[id][VERSION].Num?
    ensures var t := Run(s, es, columns);
            && id in t.prompts && VERSION in t.prompts[id] && t.prompts[id][VERSION].Num?
            && VersionIn(t, id) >= VersionIn(s, id)
            && (VersionIn(t, id) == VersionIn(s, id) <==> !SomeWrite(s, es, columns, id))
    decreases |es|
  {
    assert RowShape(s.prompts[id], columns);
    if es != [] {
      StepInv(s, es[0], columns);
      StepCountsWrite(s, es[0], columns, id);
      VersionsCountWrites(Step(s, es[0], columns).store, es[1..], columns, id);
    }
  }

  /** The lock works as long as the prompt is not rolled back: after any such run, a
      request with the version read at the start is accepted exactly when nobody wrote
      the prompt in between. */
  lemma {:induction false} LockDetectsWrites(s: Store, es: seq<Event>, columns: set<string>, id: string,
          data: Columns, at: int)
    requires Inv(s, columns) && Undisturbed(s, es, columns, id)
    requires id in s.prompts && s.prompts[id][VERSION].Num?
    requires data.Keys <= columns && VERSION in data && data[VERSION] == s.prompts[id][VERSION]
    ensures Step(Run(s, es, columns), UpdatePrompt(id, data, at), columns).outcome == Done
       <==> !SomeWrite(s, es, columns, id)
  {
    VersionsCountWrites(s, es, columns, id);
  }

  // ---- the lock over every run ----

  /** The version that an entry sets whatever it was before: a creation and the return of a
      deleted prompt set 1, a rollback the one after its snapshot's. */
  function RestartAt(log: seq<Entry>, k: nat): Option<int>
    requires k < |log|
  {
    match log[k].action
    case Create => Some(1)
    case Update => None
    case Delete => None
    case Rollback =>
      if log[k].target.None? || log[k].target.value >= k || log[log[k].target.value].snapshot.None? then None
      else if log[k].snapshot.None? then Some(1)
      else Some(VersionOf(log[log[k].target.value].snapshot.value) + 1)
  }

  /** The last entry of the prompt from `from` on that sets the version anew. */
  function LastRestart(log: seq<Entry>, from: nat, id: string): (r: Option<nat>)
    ensures r.Some? ==> from <= r.value < |log| && log[r.value].entity == id && RestartAt(log, r.value).Some?
    decreases |log|
  {
    if |log| <= from then None
    else
      var k := |log| - 1;
      if log[k].entity == id && RestartAt(log, k).Some? then Some(k)
      else
        var r := LastRestart(log[..k], from, id);
        assert r.Some? ==> RestartAt(log, r.value) == RestartAt(log[..k], r.value);
        r
  }

  /** The updates of the prompt recorded from `from` on. */
  function Updates(log: seq<Entry>, from: nat, id: string): nat
    decreases |log|
  {
    if |log| <= from then 0
    else
      var k := |log| - 1;
      Updates(log[..k], from, id) + (if log[k].entity == id && log[k].action == Update then 1 else 0)
  }

  /** The version that the entries from `from` on lead to, if it was `base` before. */
  function TrailVersion(base: int, log: seq<Entry>, from: nat, id: string): int {
    match LastRestart(log, from, id)
    case None => base + Updates(log, from, id)
    case Some(k) => RestartAt(log, k).value + Updates(log, k + 1, id)
  }

  lemma {:induction false} TrailVersionSnoc(base: int, log: seq<Entry>, e: Entry, from: nat, id: string)
    requires from <= |log|
    ensures var now := log + [e];
            TrailVersion(base, now, from, id)
            == if e.entity == id && RestartAt(now, |log|).Some? then RestartAt(now, |log|).value
               else TrailVersion(base, log, from, id) + (if e.entity == id && e.action == Update then 1 else 0)
    ensures LastRestart(log + [e], from, id)
            == if e.entity == id && RestartAt(log + [e], |log|).Some? then Some(|log|) else LastRestart(log, from, id)
  {
    var now := log + [e];
    assert now[..|log|] == log;
    var r := LastRestart(log, from, id);
    assert r.Some? ==> RestartAt(now, r.value) == RestartAt(log, r.value);
  }

  /** Every version in the table is a number. */
  ghost predicate Numbered(s: Store) {
    forall id :: id in s.prompts ==> VERSION in s.prompts[id] && s.prompts[id][VERSION].Num?
  }

  /** The trail since `from` tells the version of the prompt, and without a restart it
      holds nothing but updates of it. */
  ghost predicate VersionTold(s: Store, base: int, from: nat, id: string) {
    && from <= |s.log|
    && (id in s.prompts ==> VersionIn(s, id) == TrailVersion(base, s.log, from, id))
    && (id in s.prompts && LastRestart(s.log, from, id).None? ==>
          forall k :: from <= k < |s.log| && s.log[k].entity == id ==> s.log[k].action == Update)
  }

  lemma {:induction false} UnloggedStep(s: Store, e: Event, columns: set<string>)
    ensures var t := Step(s, e, columns).store;
            t == s || (|t.log| == |s.log| + 1 && t.log == s.log + [t.log[|s.log|]])
  {
  }

  /** How the entry of a request sets the version of its own prompt. */
  lemma {:induction false} VersionAfterStep(s: Store, e: Event, columns: set<string>)
    requires Inv(s, columns) && Numbered(s) && Step(s, e, columns).store != s
    ensures var t := Step(s, e, columns).store;
            var id := t.log[|s.log|].entity;
            && Numbered(t)
            && (forall other :: other != id ==> Current(t, other) == Current(s, other))
            && (id in t.prompts <==> t.log[|s.log|].action != Delete)
            && (id in t.prompts ==>
                  if RestartAt(t.log, |s.log|).Some? then VersionIn(t, id) == RestartAt(t.log, |s.log|).value
                  else t.log[|s.log|].action == Update && id in s.prompts && VersionIn(t, id) == VersionIn(s, id) + 1)
  {
    match e
    case CreatePrompt(id, cols, at) =>
    case UpdatePrompt(id, data, at) =>
    case DeletePrompt(id, at) =>
    case RollbackTo(target, at) =>
      var id := s.log[target].entity;
      if id in s.prompts { SetBack(s.prompts[id], s.log[target].snapshot.value); }
  }

  lemma {:induction false} StepTellsVersion(s: Store, e: Event, columns: set<string>, base: int, from: nat, id: string)
    requires Inv(s, columns) && Numbered(s) && VersionTold(s, base, from, id)
    ensures var t := Step(s, e, columns).store; Numbered(t) && VersionTold(t, base, from, id)
  {
    var t := Step(s, e, columns).store;
    if t != s {
      UnloggedStep(s, e, columns);
      VersionAfterStep(s, e, columns);
      var entry := t.log[|s.log|];
      TrailVersionSnoc(base, s.log, entry, from, id);
      assert entry.entity != id ==> Current(t, id) == Current(s, id);
    }
  }

  lemma {:induction false} RunTellsVersion(s: Store, es: seq<Event>, columns: set<string>, base: int, from: nat,
          id: string)
    requires Inv(s, columns) && Numbered(s) && VersionTold(s, base, from, id)
    ensures var t := Run(s, es, columns); Numbered(t) && VersionTold(t, base, from, id)
    decreases |es|
  {
    if es != [] {
      StepInv(s, es[0], columns);
      StepTellsVersion(s, es[0], columns, base, from, id);
      RunTellsVersion(Step(s, es[0], columns).store, es[1..], columns, base, from, id);
    }
  }

  /** The lock over every run, deletions and rollbacks included: a request with the version
      read at the start is accepted exactly when the prompt is there and the entries since
      then lead back to that version. */
  lemma {:induction false} LockExact(s: Store, es: seq<Event>, columns: set<string>, id: string, data: Columns, at: int)
    requires Inv(s, columns) && Numbered(s) && id in s.prompts
    requires data.Keys <= columns && VERSION in data && data[VERSION] == s.prompts[id][VERSION]
    ensures var t := Run(s, es, columns);
            (Step(t, UpdatePrompt(id, data, at), columns).outcome == Done
             <==> id in t.prompts && TrailVersion(VersionIn(s, id), t.log, |s.log|, id) == VersionIn(s, id))
  {
    RunTellsVersion(s, es, columns, VersionIn(s, id), |s.log|, id);
  }

  /** Something was recorded about the prompt from `from` on. */
  ghost predicate Touched(log: seq<Entry>, from: nat, id: string) {
    exists k :: from <= k < |log| && log[k].entity == id
  }

  lemma {:induction false} UpdatesCount(log: seq<Entry>, from: nat, id: string)
    requires forall k :: from <= k < |log| && log[k].entity == id ==> log[k].action == Update
    ensures Updates(log, from, id) > 0 <==> Touched(log, from, id)
    decreases |log|
  {
    if |log| > from {
      var k := |log| - 1;
      var pre := log[..k];
      assert forall j :: 0 <= j < k ==> pre[j] == log[j];
      UpdatesCount(pre, from, id);
      if log[k].entity != id && Touched(log, from, id) {
        var j :| from <= j < |log| && log[j].entity == id;
        assert pre[j].entity == id;
      }
    }
  }

  /** Exactly when the lock misses something: a rollback, or a new start after a deletion,
      set the version so far back that the updates after it lead to the version read. */
  lemma {:induction false} LockMissesExactly(s: Store, es: seq<Event>, columns: set<string>, id: string,
          data: Columns, at: int)
    requires Inv(s, columns) && Numbered(s) && id in s.prompts
    requires data.Keys <= columns && VERSION in data && data[VERSION] == s.prompts[id][VERSION]
    ensures var t := Run(s, es, columns);
            var restart := LastRestart(t.log, |s.log|, id);
            (Step(t, UpdatePrompt(id, data, at), columns).outcome == Done && Touched(t.log, |s.log|, id)
             <==> && id in t.prompts && restart.Some?
                  && RestartAt(t.log, restart.value).value + Updates(t.log, restart.value + 1, id) == VersionIn(s, id))
  {
    var t := Run(s, es, columns);
    RunTellsVersion(s, es, columns, VersionIn(s, id), |s.log|, id);
    if id in t.prompts && LastRestart(t.log, |s.log|, id).None? {
      UpdatesCount(t.log, |s.log|, id);
    }
  }

  /** Versions are not monotone across a rollback, so the lock can miss a write: here the
      text that was read at version 2 is gone, and version 2 is accepted all the same. */
  lemma {:induction false} LockMissesRollback() returns (read: Store, later: Store)
    ensures read == Run(Store(map[], []), EXAMPLE, {VERSION, "text"})
    ensures later == Step(read, RollbackTo(1, 2), {VERSION, "text"}).store
    ensures Current(read, "p") == Some(map[VERSION := Num(2), "text" := Json("b")])
    ensures Current(later, "p") == Some(map[VERSION := Num(2), "text" := Json("a")])
    ensures Step(later, UpdatePrompt("p", map[VERSION := Num(2)], 3), {VERSION, "text"}).outcome == Done
  {
    var columns := {VERSION, "text"};
    var s0 := Store(map[], []);
    var c0: Columns := map[VERSION := Num(1), "text" := Json("a")];
    assert RowShape(c0, columns);
    var s1 := Step(s0, EXAMPLE[0], columns).store;
    assert s1.prompts["p"] == c0;
    read := Step(s1, EXAMPLE[1], columns).store;
    assert read.prompts["p"] == map[VERSION := Num(2), "text" := Json("b")];
    assert read.log[1].snapshot == Some(c0);
    RunTwo(s0, EXAMPLE[0], EXAMPLE[1], columns);
    later := Step(read, RollbackTo(1, 2), columns).store;
    assert later.prompts["p"] == map[VERSION := Num(2), "text" := Json("a")];
  }

  const EXAMPLE: seq<Event> :=
    [CreatePrompt("p", map[VERSION := Num(1), "text" := Json("a")], 0),
     UpdatePrompt("p", map["text" := Json("b")], 1)]

  lemma {:induction false} RunTwo(s: Store, a: Event, b: Event, columns: set<string>)
    ensures Run(s, [a, b], columns) == Step(Step(s, a, columns).store, b, columns).store
  {
    var es := [a, b];
    assert es[1..] == [b] && es[1..][1..] == [];
    assert Run(s, es, columns) == Run(Step(s, a, columns).store, [b], columns);
    assert [b][1..] == [];
  }

  // ---- retention ----

  const MAX_PER_ENTITY := 100

  type Table = map<nat, Entry>

  function OfEntity(table: Table, id: string): set<nat> {
    set k | k in table && table[k].entity == id
  }

  /** `_prune_history`: keeps the newest hundred entries of the entity (among entries of
      the same time any may go) and everything of other entities. */
  method PruneHistory(table: Table, id: string) returns (kept: Table)
    ensures Pruned(table, kept, id)
  {
    kept := table;
    var mine := OfEntity(table, id);
    while |mine| > MAX_PER_ENTITY
      invariant kept.Keys <= table.Keys && forall k :: k in kept ==> kept[k] == table[k]
      invariant forall k :: k in table && table[k].entity != id ==> k in kept
      invariant mine == OfEntity(kept, id)
      invariant |OfEntity(table, id)| <= MAX_PER_ENTITY ==> mine == OfEntity(table, id)
      invariant |OfEntity(table, id)| > MAX_PER_ENTITY ==> |mine| >= MAX_PER_ENTITY
      invariant forall gone, k :: gone in table && gone !in kept && k in mine ==> table[gone].at <= table[k].at
      decreases |mine|
    {
      ghost var age := map k | k in kept :: kept[k].at as real;
      OldestExists(mine, age);
      assert forall k :: k in mine ==> age[k] == kept[k].at as real;
      var oldest :| oldest in mine && forall k :: k in mine ==> kept[oldest].at <= kept[k].at;
      kept := kept - {oldest};
      mine := mine - {oldest};
      assert mine == OfEntity(kept, id);
    }
  }

  /** The table holds entries of the log under their numbers. */
  ghost predicate Held(table: Table, log: seq<Entry>) {
    forall k :: k in table ==> k < |log| && table[k] == log[k]
  }

  /** Of one entity, at most a hundred entries are kept; an entry is missing only if a
      full hundred are, none of them older. */
  ghost predicate NewestKept(table: Table, log: seq<Entry>, id: string) {
    && |OfEntity(table, id)| <= 100
    && (forall k :: 0 <= k < |log| && log[k].entity == id && k !in table ==> |OfEntity(table, id)| == 100)
    && (forall k, j :: 0 <= k < |log| && log[k].entity == id && k !in table && j in OfEntity(table, id) ==>
          log[k].at <= table[j].at)
  }

  ghost predicate Retained(table: Table, log: seq<Entry>) {
    Held(table, log) && forall id :: NewestKept(table, log, id)
  }

  /** What `_prune_history` promises about the table it leaves. */
  ghost predicate Pruned(table: Table, kept: Table, id: string) {
    && kept.Keys <= table.Keys
    && (forall k :: k in kept ==> kept[k] == table[k])
    && (forall k :: k in table && table[k].entity != id ==> k in kept)
    && (var n := |OfEntity(table, id)|; |OfEntity(kept, id)| == if n <= 100 then n else 100)
    && (forall gone, k :: gone in table && gone !in kept && k in OfEntity(kept, id) ==> table[gone].at <= table[k].at)
  }

  /** Pruning one entity leaves the others as they were. */
  lemma {:induction false} OthersKept(table: Table, kept: Table, log: seq<Entry>, e: Entry, id: string)
    requires Held(table, log) && NewestKept(table, log, id) && id != e.entity
    requires Pruned(table[|log| := e], kept, e.entity)
    ensures NewestKept(kept, log + [e], id)
  {
    assert OfEntity(kept, id) == OfEntity(table, id);
  }

  lemma {:induction false} DroppedAreOlder(table: Table, kept: Table, log: seq<Entry>, e: Entry, k: nat, j: nat)
    requires Held(table, log) && NewestKept(table, log, e.entity)
    requires forall i :: 0 <= i < |log| ==> log[i].at <= e.at
    requires Pruned(table[|log| := e], kept, e.entity)
    requires k <= |log| && (log + [e])[k].entity == e.entity && k !in kept && j in OfEntity(kept, e.entity)
    ensures (log + [e])[k].at <= kept[j].at
  {
    var added := table[|log| := e];
    if k in added {
      assert added[k] == (log + [e])[k];
    } else if j != |log| {
      assert j in OfEntity(table, e.entity);
    }
  }

  lemma {:induction false} FullWhenDropped(table: Table, kept: Table, log: seq<Entry>, e: Entry, k: nat)
    requires Held(table, log) && NewestKept(table, log, e.entity)
    requires Pruned(table[|log| := e], kept, e.entity)
    requires k <= |log| && (log + [e])[k].entity == e.entity && k !in kept
    ensures |OfEntity(kept, e.entity)| == MAX_PER_ENTITY
  {
    var added := table[|log| := e];
    if k in added {
      assert added[k] == (log + [e])[k];
      DroppedOnlyWhenFull(added, kept, e.entity, k);
    } else {
      assert log[k].entity == e.entity && k !in table;
      assert OfEntity(added, e.entity) == OfEntity(table, e.entity) + {|log|};
    }
  }

  /** Pruning keeps a full hundred of the entity that has a new entry. */
  lemma {:induction false} OwnKept(table: Table, kept: Table, log: seq<Entry>, e: Entry)
    requires Held(table, log) && NewestKept(table, log, e.entity)
    requires forall k :: 0 <= k < |log| ==> log[k].at <= e.at
    requires Pruned(table[|log| := e], kept, e.entity)
    ensures NewestKept(kept, log + [e], e.entity)
  {
    var id, now := e.entity, log + [e];
    forall k | 0 <= k < |now| && now[k].entity == id && k !in kept
      ensures |OfEntity(kept, id)| == MAX_PER_ENTITY
    {
      FullWhenDropped(table, kept, log, e, k);
    }
    forall k, j | 0 <= k < |now| && now[k].entity == id && k !in kept && j in OfEntity(kept, id)
      ensures now[k].at <= kept[j].at
    {
      DroppedAreOlder(table, kept, log, e, k, j);
    }
  }

  lemma {:induction false} DroppedOnlyWhenFull(table: Table, kept: Table, id: string, k: nat)
    requires Pruned(table, kept, id) && k in OfEntity(table, id) && k !in kept
    ensures |OfEntity(kept, id)| == MAX_PER_ENTITY
  {
    if |OfEntity(table, id)| <= MAX_PER_ENTITY {
      FullSubset(OfEntity(kept, id), OfEntity(table, id));
    }
  }

  lemma {:induction false} RecordRetains(table: Table, kept: Table, log: seq<Entry>, e: Entry)
    requires Retained(table, log)
    requires forall k :: 0 <= k < |log| ==> log[k].at <= e.at
    requires Pruned(table[|log| := e], kept, e.entity)
    ensures Retained(kept, log + [e])
  {
    forall id ensures NewestKept(kept, log + [e], id) {
      assert NewestKept(table, log, id);
      if id == e.entity {
        OwnKept(table, kept, log, e);
      } else {
        OthersKept(table, kept, log, e, id);
      }
    }
  }

  // ---- what the retained table tells ----

  /** What the newest kept entry of a prompt tells, its target looked up in the table. */
  function TableAfter(table: Table, k: nat): Known
    requires k in table
  {
    var e := table[k];
    match e.action
    case Create => Unknown
    case Update => if e.snapshot.Some? then Is(Bumped(Patched(e.snapshot.value, e.changes))) else Unknown
    case Delete => Gone
    case Rollback =>
      if e.target.None? || e.target.value >= k || e.target.value !in table || table[e.target.value].snapshot.None?
      then Unknown
      else
        var snapshot := table[e.target.value].snapshot.value;
        if e.snapshot.Some? then Is(RolledBack(e.snapshot.value, snapshot)) else Is(Recreated(snapshot))
  }

  /** No two entries of the prompt have the same time. */
  ghost predicate TimesDistinct(log: seq<Entry>, id: string) {
    forall i, j :: 0 <= i < j < |log| && log[i].entity == id && log[j].entity == id ==> log[i].at < log[j].at
  }

  ghost predicate NewestOf(table: Table, id: string, k: nat) {
    k in OfEntity(table, id) && forall j :: j in OfEntity(table, id) ==> table[j].at <= table[k].at
  }

  function LastOf(log: seq<Entry>, id: string): (k: nat)
    requires exists i :: 0 <= i < |log| && log[i].entity == id
    ensures k < |log| && log[k].entity == id && forall j :: k < j < |log| ==> log[j].entity != id
  {
    if log[|log| - 1].entity == id then |log| - 1 else LastOf(log[..|log| - 1], id)
  }

  /** The newest kept entry of a prompt is the last one recorded of it. */
  lemma {:induction false} NewestIsLast(table: Table, log: seq<Entry>, id: string, k: nat)
    requires Retained(table, log) && TimesDistinct(log, id) && NewestOf(table, id, k)
    ensures k < |log| && k == LastOf(log, id)
  {
    assert NewestKept(table, log, id) && log[k].entity == id;
    var m := LastOf(log, id);
    assert k <= m && log[m].entity == id && log[k].at <= log[m].at;
    assert m in table;
    assert m in OfEntity(table, id);
  }

  lemma {:induction false} NothingKept(table: Table, log: seq<Entry>, id: string)
    requires Retained(table, log) && OfEntity(table, id) == {}
    ensures Tells(log, id) == Gone
  {
    assert NewestKept(table, log, id);
    forall k | 0 <= k < |log| ensures log[k].entity != id {
      assert k in table && table[k].entity == id ==> k in OfEntity(table, id);
    }
    NeverNamed(log, id);
  }

  lemma {:induction false} NeverNamed(log: seq<Entry>, id: string)
    requires forall k :: 0 <= k < |log| ==> log[k].entity != id
    ensures Tells(log, id) == Gone
  {
    if log != [] { NeverNamed(log[..|log| - 1], id); }
  }

  /** The retained table alone: its newest entry of a prompt fits the row, and tells it in
      full after an update, after a deletion, and after a rollback whose target is kept; a
      prompt without an entry does not exist. */
  lemma {:induction false} TableTells(s: Store, table: Table, columns: set<string>, id: string)
    requires Inv(s, columns) && Retained(table, s.log) && TimesDistinct(s.log, id)
    ensures OfEntity(table, id) == {} ==> Current(s, id) == None
    ensures forall k :: NewestOf(table, id, k) ==> Fits(TableAfter(table, k), Current(s, id))
  {
    assert Fits(Tells(s.log, id), Current(s, id));
    if OfEntity(table, id) == {} { NothingKept(table, s.log, id); }
    forall k | NewestOf(table, id, k) ensures Fits(TableAfter(table, k), Current(s, id))
    {
      NewestIsLast(table, s.log, id, k);
      QuietBetween(s.log, k, |s.log|);
      assert s.log[..|s.log|] == s.log;
      NewestTells(s, table, id, k);
    }
  }

  lemma {:induction false} NewestTells(s: Store, table: Table, id: string, k: nat)
    requires Held(table, s.log) && k in table && Fits(AfterEntry(s.log[..k], s.log[k]), Current(s, id))
    ensures Fits(TableAfter(table, k), Current(s, id))
  {
    assert table[k] == s.log[k];
  }

  // ---- setting fields ----

  /** `setattr` for each field. */
  method SetFields(cols: Columns, data: Columns) returns (row: Columns)
    ensures row == cols + data
  {
    row := cols;
    var left := data.Keys;
    while left != {}
      invariant left <= data.Keys
      invariant row == cols + (data - left)
      decreases left
    {
      var field :| field in left;
      row := row[field := data[field]];
      left := left - {field};
    }
    assert data - {} == data;
  }

  // ---- the endpoints ----

  class PromptHistory {
    const columns: set<string>
    var prompts: map<string, Columns>

    /** The history table by entry id. */
    var table: Table
    var nextId: nat

    /** Every entry ever recorded, pruned ones included. */
    ghost var log: seq<Entry>

    ghost function State(): Store
      reads this
    {
      Store(prompts, log)
    }

    /** Of each prompt the newest hundred entries are kept. */
    ghost predicate Valid()
      reads this
    {
      nextId == |log| && Retained(table, log)
    }

    /** The database clock does not run backwards. */
    ghost predicate NotBefore(at: int)
      reads this
    {
      forall k :: 0 <= k < |log| ==> log[k].at <= at
    }

    constructor (columns: set<string>)
      ensures Valid() && State() == Store(map[], []) && table == map[] && this.columns == columns
    {
      this.columns := columns;
      prompts, table, nextId, log := map[], map[], 0, [];
    }

    /** `record_change`: add, then prune. */
    method RecordChange(e: Entry)
      requires Valid() && NotBefore(e.at)
      modifies this`table, this`nextId, this`log
      ensures Valid() && log == old(log) + [e]
      ensures Pruned(old(table)[|old(log)| := e], table, e.entity)
    {
      var kept := PruneHistory(table[nextId := e], e.entity);
      RecordRetains(table, kept, log, e);
      table, nextId, log := kept, nextId + 1, log + [e];
    }

    method CreatePrompt(id: string, cols: Columns, at: int) returns (outcome: Outcome)
      requires Valid() && NotBefore(at)
      modifies this
      ensures Valid()
      ensures var r := Step(old(State()), Event.CreatePrompt(id, cols, at), columns);
              outcome == r.outcome && State() == r.store
    {
      if cols.Keys != columns || VERSION !in cols {
        return Invalid;
      }
      if id in prompts {
        return Conflict;
      }
      prompts := prompts[id := cols[VERSION := Num(1)]];
      RecordChange(Entry(id, Create, None, map[], None, at));
      return Done;
    }

    method UpdatePrompt(id: string, data: Columns, at: int) returns (outcome: Outcome)
      requires Valid() && NotBefore(at)
      modifies this
      ensures Valid()
      ensures var r := Step(old(State()), Event.UpdatePrompt(id, data, at), columns);
              outcome == r.outcome && State() == r.store
    {
      if !(data.Keys <= columns) {
        return Invalid;
      }
      if id !in prompts {
        return NotFound;
      }
      var before := prompts[id];
      if Stale(before, data) {
        return Conflict;
      }
      var row := SetFields(before, data - {VERSION});
      row := row[VERSION := Num(VersionOf(row) + 1)];
      prompts := prompts[id := row];
      var changes := ComputeChanges(before, data);
      RecordChange(Entry(id, Update, Some(before), changes, None, at));
      return Done;
    }

    method DeletePrompt(id: string, at: int) returns (outcome: Outcome)
      requires Valid() && NotBefore(at)
      modifies this
      ensures Valid()
      ensures var r := Step(old(State()), Event.DeletePrompt(id, at), columns);
              outcome == r.outcome && State() == r.store
    {
      if id !in prompts {
        return NotFound;
      }
      RecordChange(Entry(id, Delete, Some(prompts[id]), map[], None, at));
      prompts := prompts - {id};
      return Done;
    }

    /** `rollback_change`; an entry that was pruned is not found. */
    method RollbackChange(target: nat, at: int) returns (outcome: Outcome)
      requires Valid() && NotBefore(at)
      modifies this
      ensures Valid()
      ensures var r := Step(old(State()), RollbackTo(target, at), columns);
              if target in old(table) then outcome == r.outcome && State() == r.store
              else outcome == NotFound && State() == old(State()) && table == old(table)
    {
      if target !in table {
        return NotFound;
      }
      var entry := table[target];
      if entry.snapshot.None? {
        return NoSnapshot;
      }
      var id, snapshot := entry.entity, entry.snapshot.value;
      if id in prompts {
        var before := prompts[id];
        var row := SetFields(before, snapshot);
        row := row[VERSION := Num(VersionOf(row) + 1)];
        prompts := prompts[id := row];
        RecordChange(Entry(id, Action.Rollback, Some(before), map[], Some(target), at));
      } else {
        prompts := prompts[id := snapshot[VERSION := Num(1)]];
        RecordChange(Entry(id, Action.Rollback, None, map[], Some(target), at));
      }
      return Done;
    }
  }
}
