/** Tools and their parameters under update and rollback: a tool's snapshot carries its
    parameters, but the snapshot of a rollback entry does not. */
module ToolHistory {
  import opened History
  import opened Prelude

  /** A parameter row; `body` stands for all its columns but the ids. */
  datatype Param = Param(id: nat, body: string)

  datatype Tool = Tool(cols: Columns, params: seq<Param>)

  /** `model_to_dict`, with the parameters if `_tool_snapshot` put them in. */
  datatype Snapshot = Snapshot(cols: Columns, params: Option<seq<Param>>)

  function Bodies(params: seq<Param>): (r: seq<string>)
    ensures |r| == |params| && forall i :: 0 <= i < |params| ==> r[i] == params[i].body
  {
    if params == [] then [] else [params[0].body] + Bodies(params[1..])
  }

  function ToolSnapshot(t: Tool): Snapshot {
    Snapshot(t.cols, Some(t.params))
  }

  /** The tool is back, but for ids and the version. */
  ghost predicate SameTool(t: Tool, was: Tool) {
    t.cols == Bumped(was.cols) && Bodies(t.params) == Bodies(was.params)
  }

  /** New rows for the given parameters, with ids from `base` on. */
  function Rows(bodies: seq<string>, base: nat): (r: seq<Param>)
    ensures |r| == |bodies| && forall i :: 0 <= i < |bodies| ==> r[i] == Param(base + i, bodies[i])
  {
    if bodies == [] then [] else [Param(base, bodies[0])] + Rows(bodies[1..], base + 1)
  }

  lemma {:induction false} RowsKeepBodies(bodies: seq<string>, base: nat)
    ensures Bodies(Rows(bodies, base)) == bodies
  {
  }

  /** The tool after an update; given parameters replace all the old ones. */
  function UpdatedTool(t: Tool, data: Columns, given: Option<seq<string>>, base: nat): Tool {
    Tool(Updated(t.cols, data), if given.Some? then Rows(given.value, base) else t.params)
  }

  /** The tool after a rollback; a snapshot without parameters leaves them alone. */
  function RolledBackTool(t: Tool, s: Snapshot, base: nat): Tool {
    Tool(RolledBack(t.cols, s.cols), if s.params.Some? then Rows(Bodies(s.params.value), base) else t.params)
  }

  /** What the rollback of a deleted tool makes of the snapshot. */
  function RecreatedTool(s: Snapshot, base: nat): Tool {
    Tool(Recreated(s.cols), if s.params.Some? then Rows(Bodies(s.params.value), base) else [])
  }

  // ---- the endpoints on one tool ----

  class ToolRow {
    var cols: Columns
    var params: seq<Param>

    /** Ids not used so far. */
    var nextParam: nat

    ghost function State(): Tool
      reads this
    {
      Tool(cols, params)
    }

    /** Parameter ids are distinct and used. */
    ghost predicate Valid()
      reads this
    {
      && (forall i :: 0 <= i < |params| ==> params[i].id < nextParam)
      && (forall i, j :: 0 <= i < j < |params| ==> params[i].id != params[j].id)
    }

    /** Clears the collection and fills it again, one row at a time. */
    method ReplaceParams(bodies: seq<string>)
      modifies this`params, this`nextParam
      ensures params == Rows(bodies, old(nextParam)) && nextParam == old(nextParam) + |bodies|
    {
      params := [];
      ghost var base := nextParam;
      for i := 0 to |bodies|
        invariant nextParam == base + i && |params| == i
        invariant forall j :: 0 <= j < i ==> params[j] == Param(base + j, bodies[j])
      {
        params := params + [Param(nextParam, bodies[i])];
        nextParam := nextParam + 1;
      }
    }

    /** `update_tool`: what it records is the tool as it was, parameters included. */
    method Update(data: Columns, given: Option<seq<string>>) returns (outcome: Outcome, recorded: Option<Snapshot>)
      requires Valid()
      modifies this
      ensures Valid()
      ensures outcome == if Stale(old(cols), data) then Conflict else Done
      ensures State() == if outcome == Conflict then old(State())
                         else UpdatedTool(old(State()), data, given, old(nextParam))
      ensures recorded == if outcome == Conflict then None else Some(ToolSnapshot(old(State())))
    {
      if Stale(cols, data) {
        return Conflict, None;
      }
      recorded := Some(Snapshot(cols, Some(params)));
      if given.Some? {
        ReplaceParams(given.value);
      }
      var row := SetFields(cols, data - {VERSION});
      cols := row[VERSION := Num(VersionOf(row) + 1)];
      outcome := Done;
    }

    /** `rollback_change` of an existing tool: what it records lacks the parameters. */
    method Rollback(s: Snapshot) returns (recorded: Snapshot)
      requires Valid()
      modifies this
      ensures Valid()
      ensures State() == RolledBackTool(old(State()), s, old(nextParam))
      ensures recorded == Snapshot(old(cols), None)
    {
      recorded := Snapshot(cols, None);
      if s.params.Some? {
        ReplaceParams(Bodies(s.params.value));
      }
      var row := SetFields(cols, s.cols);
      cols := row[VERSION := Num(VersionOf(row) + 1)];
    }
  }

  // ---- what a rollback restores ----

  /** Rolling back to a tool's own snapshot brings back columns and parameters, whatever
      the tool has become. */
  lemma {:induction false} RollbackRestoresTool(was: Tool, now: Tool, base: nat)
    requires now.cols.Keys == was.cols.Keys && VERSION in was.cols
    ensures SameTool(RolledBackTool(now, ToolSnapshot(was), base), was)
  {
    SetBack(now.cols, was.cols);
    RowsKeepBodies(Bodies(was.params), base);
  }

  /** A deleted tool comes back from its own snapshot with its parameters at version 1,
      and from a rollback's snapshot with none. */
  lemma {:induction false} RecreatedWithParameters(was: Tool, base: nat)
    ensures Bodies(RecreatedTool(ToolSnapshot(was), base).params) == Bodies(was.params)
    ensures Bodies(RecreatedTool(Snapshot(was.cols, None), base).params) == Bodies(was.params) <==> was.params == []
    ensures RecreatedTool(ToolSnapshot(was), base).cols == was.cols[VERSION := Num(1)]
  {
    RowsKeepBodies(Bodies(was.params), base);
  }

  // ---- over every run ----

  datatype ToolEntry = ToolEntry(entity: string, snapshot: Option<Snapshot>)

  /** The tools, every entry recorded about one, and the first unused parameter id. */
  datatype ToolStore = ToolStore(tools: map<string, Tool>, log: seq<ToolEntry>, nextParam: nat)

  datatype ToolEvent =
    | CreateTool(id: string, cols: Columns, params: seq<string>)
    | UpdateTool(id: string, data: Columns, given: Option<seq<string>>)
    | DeleteTool(id: string)
    | RollbackTool(target: nat)

  /** The store with the tool set and an entry recorded, after using up `used` parameter ids. */
  function Saved(s: ToolStore, id: string, t: Tool, e: ToolEntry, used: nat): ToolStore {
    ToolStore(s.tools[id := t], s.log + [e], s.nextParam + used)
  }

  function SizeOf(params: Option<seq<Param>>): nat {
    if params.Some? then |params.value| else 0
  }

  function ToolStep(s: ToolStore, e: ToolEvent, columns: set<string>): ToolStore {
    match e
    case CreateTool(id, cols, params) =>
      if !RowShape(cols, columns) || id in s.tools then s
      else
        Saved(s, id, Tool(cols[VERSION := Num(1)], Rows(params, s.nextParam)), ToolEntry(id, None), |params|)
    case UpdateTool(id, data, given) =>
      if !(data.Keys <= columns) || id !in s.tools || Stale(s.tools[id].cols, data) then s
      else
        Saved(s, id, UpdatedTool(s.tools[id], data, given, s.nextParam),
              ToolEntry(id, Some(ToolSnapshot(s.tools[id]))), if given.Some? then |given.value| else 0)
    case DeleteTool(id) =>
      if id !in s.tools then s
      else
        ToolStore(s.tools - {id}, s.log + [ToolEntry(id, Some(ToolSnapshot(s.tools[id])))], s.nextParam)
    case RollbackTool(target) =>
      if target >= |s.log| || s.log[target].snapshot.None? then s
      else
        var id, snapshot := s.log[target].entity, s.log[target].snapshot.value;
        if id in s.tools then
          Saved(s, id, RolledBackTool(s.tools[id], snapshot, s.nextParam),
                ToolEntry(id, Some(Snapshot(s.tools[id].cols, None))), SizeOf(snapshot.params))
        else
          Saved(s, id, RecreatedTool(snapshot, s.nextParam), ToolEntry(id, None), SizeOf(snapshot.params))
  }

  function ToolRun(s: ToolStore, es: seq<ToolEvent>, columns: set<string>): ToolStore
    decreases |es|
  {
    if es == [] then s else ToolRun(ToolStep(s, es[0], columns), es[1..], columns)
  }

  /** Rows and snapshots have the table's columns. */
  ghost predicate Shaped(s: ToolStore, columns: set<string>) {
    && (forall id :: id in s.tools ==> RowShape(s.tools[id].cols, columns))
    && (forall k :: 0 <= k < |s.log| && s.log[k].snapshot.Some? ==> RowShape(s.log[k].snapshot.value.cols, columns))
  }

  lemma {:induction false} StepShaped(s: ToolStore, e: ToolEvent, columns: set<string>)
    requires Shaped(s, columns)
    ensures Shaped(ToolStep(s, e, columns), columns) && s.log <= ToolStep(s, e, columns).log
  {
    match e
    case CreateTool(id, cols, params) =>
    case UpdateTool(id, data, given) =>
      if id in s.tools && data.Keys <= columns {
        assert Updated(s.tools[id].cols, data).Keys == columns;
      }
    case DeleteTool(id) =>
    case RollbackTool(target) =>
      if target < |s.log| && s.log[target].snapshot.Some? && s.log[target].entity in s.tools {
        SetBack(s.tools[s.log[target].entity].cols, s.log[target].snapshot.value.cols);
      }
  }

  lemma {:induction false} RunShaped(s: ToolStore, es: seq<ToolEvent>, columns: set<string>)
    requires Shaped(s, columns)
    ensures Shaped(ToolRun(s, es, columns), columns) && s.log <= ToolRun(s, es, columns).log
    decreases |es|
  {
    if es != [] {
      StepShaped(s, es[0], columns);
      RunShaped(ToolStep(s, es[0], columns), es[1..], columns);
    }
  }

  /** New rows with the given contents, none of them under an id used before. */
  ghost predicate Replaced(params: seq<Param>, given: seq<string>, base: nat) {
    && |params| == |given| && (forall i :: 0 <= i < |given| ==> params[i].body == given[i] && params[i].id >= base)
    && forall i, j :: 0 <= i < j < |params| ==> params[i].id != params[j].id
  }

  /** An update goes through exactly for known fields of a tool that is there, with its
      version or none; it edits those fields, stores the given parameters as new rows or
      leaves the old ones, and records the tool as it was. */
  lemma {:induction false} UpdateToolExact(s: ToolStore, id: string, data: Columns, given: Option<seq<string>>,
          columns: set<string>)
    requires Shaped(s, columns)
    ensures var t := ToolStep(s, UpdateTool(id, data, given), columns);
            var accepted :=
              && data.Keys <= columns && id in s.tools
              && ("version" in data ==>
                    data["version"] == Null || data["version"] == Get(s.tools[id].cols, "version", Null));
            && (!accepted ==> t == s)
            && (accepted ==>
                  && t.tools == s.tools[id := t.tools[id]] && Edited(s.tools[id].cols, data, t.tools[id].cols)
                  && (given.None? ==> t.tools[id].params == s.tools[id].params && t.nextParam == s.nextParam)
                  && (given.Some? ==>
                        && Replaced(t.tools[id].params, given.value, s.nextParam)
                        && t.nextParam == s.nextParam + |given.value|)
                  && t.log == s.log + [ToolEntry(id, Some(Snapshot(s.tools[id].cols, Some(s.tools[id].params))))])
  {
    if id in s.tools && data.Keys <= columns && !Stale(s.tools[id].cols, data) {
      assert RowShape(s.tools[id].cols, columns);
      assert ToolStep(s, UpdateTool(id, data, given), columns).tools[id]
          == UpdatedTool(s.tools[id], data, given, s.nextParam);
    }
  }

  /** A creation stores the given fields at version 1 and the parameters as new rows. */
  lemma {:induction false} CreateToolExact(s: ToolStore, id: string, cols: Columns, params: seq<string>,
          columns: set<string>)
    ensures var t := ToolStep(s, CreateTool(id, cols, params), columns);
            var accepted := cols.Keys == columns && "version" in cols && id !in s.tools;
            && (!accepted ==> t == s)
            && (accepted ==>
                  && id in t.tools && t.tools == s.tools[id := t.tools[id]]
                  && t.tools[id].cols == cols["version" := Num(1)] && Replaced(t.tools[id].params, params, s.nextParam)
                  && t.log == s.log + [ToolEntry(id, None)] && t.nextParam == s.nextParam + |params|)
  {
  }

  /** The entry recorded by a request is still there, the same, after any run. */
  lemma {:induction false} EntryStays(s: ToolStore, e: ToolEvent, es: seq<ToolEvent>, columns: set<string>)
    requires Shaped(s, columns) && |ToolStep(s, e, columns).log| > |s.log|
    ensures var now, t := ToolStep(s, e, columns), ToolRun(ToolStep(s, e, columns), es, columns);
            Shaped(t, columns) && |s.log| < |t.log| && t.log[|s.log|] == now.log[|s.log|]
  {
    StepShaped(s, e, columns);
    RunShaped(ToolStep(s, e, columns), es, columns);
  }

  /** Whatever happens after an update or a deletion, rolling back to its entry brings the
      tool back with its parameters, one version further, or at version 1 if it was gone. */
  lemma {:induction false} ToolRestoredAfterRun(s: ToolStore, e: ToolEvent, es: seq<ToolEvent>, id: string,
                                                columns: set<string>)
    requires Shaped(s, columns) && ToolStep(s, e, columns) != s
    requires (e.UpdateTool? || e.DeleteTool?) && e.id == id
    ensures var was, t := s.tools[id], ToolRun(ToolStep(s, e, columns), es, columns);
            var back := ToolStep(t, RollbackTool(|s.log|), columns);
            && id in back.tools && Bodies(back.tools[id].params) == Bodies(was.params)
            && back.tools[id].cols == if id in t.tools then Bumped(was.cols) else was.cols[VERSION := Num(1)]
  {
    var was, t := s.tools[id], ToolRun(ToolStep(s, e, columns), es, columns);
    EntryStays(s, e, es, columns);
    assert t.log[|s.log|] == ToolEntry(id, Some(ToolSnapshot(was)));
    if id in t.tools {
      RollbackRestoresTool(was, t.tools[id], t.nextParam);
    } else {
      RecreatedWithParameters(was, t.nextParam);
    }
  }

  /** Undoing a rollback brings back the columns it replaced, whatever happened since, but
      the parameters exactly when they are already what they were; a tool deleted since
      comes back without any. */
  lemma {:induction false} RollbackUndoneAfterRun(s: ToolStore, target: nat, es: seq<ToolEvent>, columns: set<string>)
    requires Shaped(s, columns) && target < |s.log| && s.log[target].snapshot.Some? && s.log[target].entity in s.tools
    ensures var id := s.log[target].entity;
            var was, t := s.tools[id], ToolRun(ToolStep(s, RollbackTool(target), columns), es, columns);
            var undone := ToolStep(t, RollbackTool(|s.log|), columns);
            && id in undone.tools
            && undone.tools[id].cols == (if id in t.tools then Bumped(was.cols) else was.cols[VERSION := Num(1)])
            && (Bodies(undone.tools[id].params) == Bodies(was.params)
                <==> Bodies(if id in t.tools then t.tools[id].params else []) == Bodies(was.params))
  {
    var id := s.log[target].entity;
    var was, t := s.tools[id], ToolRun(ToolStep(s, RollbackTool(target), columns), es, columns);
    EntryStays(s, RollbackTool(target), es, columns);
    assert t.log[|s.log|] == ToolEntry(id, Some(Snapshot(was.cols, None)));
    if id in t.tools {
      SetBack(t.tools[id].cols, was.cols);
    }
  }
}
