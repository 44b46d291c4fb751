/** Federated plans: the validator that makes them, and the tables that hold one plan per run. */
module FederationPlan {
  import opened Common
  import opened Responses
  import opened KeyedJoin
  import opened Merger

  datatype Shape = ScalarShaped | RowShaped | SeriesShaped

  /** `native` tells whether the native-query pattern matches the question or its purpose. */
  datatype TaskDraft = TaskDraft(datasource: string, question: string, shape: Shape, native: bool)

  datatype Draft = Draft(tasks: seq<TaskDraft>, merge: MergePlan)

  datatype TaskStatus = Planned | Running | Completed | Failed | WaitingUser | Skipped

  datatype SourceTask = SourceTask(draft: TaskDraft, id: string, runId: string, ordinal: nat, status: TaskStatus,
                                   attempt: nat, response: Option<Response>, failureCode: Option<string>,
                                   retryable: bool, revision: nat)

  datatype Plan = Plan(runId: string, tasks: seq<SourceTask>, merge: MergePlan, scope: Scope)

  // ---- Validation ----

  function SourceId(index: nat): string {
    "source_" + Digits(index + 1)
  }

  function SourceIds(n: nat): seq<string> {
    seq(n, i requires 0 <= i < n => SourceId(i))
  }

  lemma SourceIdsDiffer(i: nat, j: nat)
    requires i != j
    ensures SourceId(i) != SourceId(j)
  {
    if SourceId(i) == SourceId(j) {
      assert SourceId(i)[7..] == Digits(i + 1) && SourceId(j)[7..] == Digits(j + 1);
      DigitsInjective(i + 1, j + 1);
    }
  }

  function ShapeOf(operation: Operation): Shape {
    match operation
    case CompareScalars => ScalarShaped
    case CombineScalars => ScalarShaped
    case UnionRows => RowShaped
    case AlignTimeSeries => SeriesShaped
    case Keyed => RowShaped
  }

  function Sources(draft: Draft): seq<string> {
    seq(|draft.tasks|, i requires 0 <= i < |draft.tasks| => draft.tasks[i].datasource)
  }

  predicate AllDistinct(s: seq<string>) {
    forall i, j :: 0 <= i < j < |s| ==> s[i] != s[j]
  }

  /** The rules on the join part of a draft; `mapping` is what the governance finds executable. */
  function CheckMapping(draft: Draft, scope: Scope, mapping: Result<Mapping>): Result<()> {
    var merge := draft.merge;
    if merge.operation == Keyed then
      if !scope.allowJoin || merge.mappingId.None? then Err("unconfirmed_mapping")
      else if |draft.tasks| != 2 || merge.joinMode.None? then Err("invalid_join_plan")
      else
        match mapping
        case Err(code) => Err(code)
        case Ok(m) =>
          if Sources(draft) != [m.left.datasource, m.right.datasource] then Err("join_mapping_source_mismatch")
          else Ok(())
    else if merge.mappingId.Some? || merge.joinMode.Some? then Err("unexpected_join_mapping")
    else Ok(())
  }

  function CheckScalars(merge: MergePlan): Result<()> {
    if merge.operation == CombineScalars && merge.scalarOperation.None? then Err("missing_scalar_operation")
    else if merge.operation == CombineScalars && merge.scalarOperation == Some(PercentageDifference) then
      Err("unsupported_scalar_operation")
    else if merge.operation != CompareScalars && merge.operation != CombineScalars && merge.scalarOperation.Some? then
      Err("unexpected_scalar_operation")
    else Ok(())
  }

  function PlannedTasks(draft: Draft, runId: string): seq<SourceTask> {
    seq(|draft.tasks|, i requires 0 <= i < |draft.tasks| =>
      SourceTask(draft.tasks[i], SourceId(i), runId, i, Planned, 0, None, None, false, 0))
  }

  /** `FederatedPlanValidator.validate`. */
  function Validate(draft: Draft, scope: Scope, runId: string, now: int, mapping: Result<Mapping>): Result<Plan> {
    var n := |draft.tasks|;
    if now >= scope.deadline then Err("federation_deadline_exceeded")
    else if !(2 <= n <= scope.maxSources) then Err("federation_source_limit")
    else if n * scope.maxRowsPerSource > scope.maxTotalRows then Err("federation_budget_exceeded")
    else if exists t :: t in draft.tasks && t.datasource !in scope.allowed then Err("forbidden_datasource")
    else if !AllDistinct(Sources(draft)) then Err("duplicate_source_task")
    else if exists t :: t in draft.tasks && t.native then Err("native_query_forbidden")
    else if draft.merge.options then Err("unsupported_merge_options")
    else if draft.merge.inputTaskIds != [] && draft.merge.inputTaskIds != SourceIds(n) then
      Err("unknown_source_task_reference")
    else
      var joined := CheckMapping(draft, scope, mapping);
      if joined.Err? then Err(joined.code)
      else if exists t :: t in draft.tasks && t.shape != ShapeOf(draft.merge.operation) then Err("merge_shape_mismatch")
      else
        var scalars := CheckScalars(draft.merge);
        if scalars.Err? then Err(scalars.code)
        else Ok(Plan(runId, PlannedTasks(draft, runId), draft.merge.(inputTaskIds := SourceIds(n)), scope))
  }

  /** What the coordinator and the merger rely on. */
  ghost predicate WellFormed(p: Plan) {
    && 2 <= |p.tasks| <= p.scope.maxSources && |p.tasks| * p.scope.maxRowsPerSource <= p.scope.maxTotalRows
    && p.merge.inputTaskIds == SourceIds(|p.tasks|)
    && (forall i :: 0 <= i < |p.tasks| ==>
          p.tasks[i].id == SourceId(i) && p.tasks[i].ordinal == i && p.tasks[i].runId == p.runId)
    && (forall i :: 0 <= i < |p.tasks| ==>
          p.tasks[i].draft.datasource in p.scope.allowed && p.tasks[i].draft.shape == ShapeOf(p.merge.operation))
    && (forall i, j :: 0 <= i < j < |p.tasks| ==> p.tasks[i].draft.datasource != p.tasks[j].draft.datasource)
    && (p.merge.operation == Keyed ==> |p.tasks| == 2 && p.merge.mappingId.Some? && p.merge.joinMode.Some?)
  }

  lemma ValidatedPlan(draft: Draft, scope: Scope, runId: string, now: int, mapping: Result<Mapping>)
    requires Validate(draft, scope, runId, now, mapping).Ok?
    ensures
      var p := Validate(draft, scope, runId, now, mapping).value;
      && WellFormed(p) && p.runId == runId && p.scope == scope
      && |p.tasks| == |draft.tasks|
      && (forall i :: 0 <= i < |p.tasks| ==>
            p.tasks[i]
            == SourceTask(draft.tasks[i], "source_" + Digits(i + 1), runId, i, Planned, 0, None, None, false, 0))
      && p.merge == draft.merge.(inputTaskIds := p.merge.inputTaskIds)
      && (p.merge.operation == Keyed ==>
            mapping.Ok? && p.tasks[0].draft.datasource == mapping.value.left.datasource
            && p.tasks[1].draft.datasource == mapping.value.right.datasource)
  {
    var p := Validate(draft, scope, runId, now, mapping).value;
    assert forall i :: 0 <= i < |draft.tasks| ==> draft.tasks[i] in draft.tasks;
    forall i, j | 0 <= i < j < |p.tasks| ensures p.tasks[i].draft.datasource != p.tasks[j].draft.datasource {
      assert Sources(draft)[i] != Sources(draft)[j];
    }
    if p.merge.operation == Keyed {
      assert Sources(draft)[0] == mapping.value.left.datasource && Sources(draft)[1] == mapping.value.right.datasource;
    }
  }

  // ---- What a draft must satisfy ----

  ghost predicate SourcesFit(draft: Draft, scope: Scope) {
    && 2 <= |draft.tasks| <= scope.maxSources
    && |draft.tasks| * scope.maxRowsPerSource <= scope.maxTotalRows
    && (forall t :: t in draft.tasks ==> t.datasource in scope.allowed && !t.native)
    && forall i, j :: 0 <= i < j < |draft.tasks| ==> draft.tasks[i].datasource != draft.tasks[j].datasource
  }

  /** No options, and no input names but the sources' own numbers in order. */
  ghost predicate InputsNamed(draft: Draft) {
    && !draft.merge.options
    && (draft.merge.inputTaskIds != [] ==>
          && |draft.merge.inputTaskIds| == |draft.tasks|
          && forall i :: 0 <= i < |draft.tasks| ==> draft.merge.inputTaskIds[i] == "source_" + Digits(i + 1))
  }

  /** A keyed join, and only that, names a mapping and a mode: an executable mapping of the two sources in order. */
  ghost predicate JoinGoverned(draft: Draft, scope: Scope, mapping: Result<Mapping>) {
    if draft.merge.operation != Keyed then draft.merge.mappingId.None? && draft.merge.joinMode.None?
    else
      && scope.allowJoin && draft.merge.mappingId.Some? && draft.merge.joinMode.Some? && |draft.tasks| == 2
      && mapping.Ok? && draft.tasks[0].datasource == mapping.value.left.datasource
      && draft.tasks[1].datasource == mapping.value.right.datasource
  }

  /** Every source is planned in the shape the operation merges. */
  ghost predicate ShapesFit(draft: Draft) {
    forall t :: t in draft.tasks ==>
      match draft.merge.operation
      case CompareScalars => t.shape == ScalarShaped
      case CombineScalars => t.shape == ScalarShaped
      case UnionRows => t.shape == RowShaped
      case Keyed => t.shape == RowShaped
      case AlignTimeSeries => t.shape == SeriesShaped
  }

  /** A combination names a calculation other than a difference in percent, a comparison may name any, no other one. */
  ghost predicate ScalarsFit(merge: MergePlan) {
    && (merge.operation == CombineScalars ==>
          merge.scalarOperation.Some? && merge.scalarOperation.value != PercentageDifference)
    && (merge.operation != CompareScalars && merge.operation != CombineScalars ==> merge.scalarOperation.None?)
  }

  lemma SourcesExactly(draft: Draft)
    ensures AllDistinct(Sources(draft))
            <==> forall i, j :: 0 <= i < j < |draft.tasks| ==> draft.tasks[i].datasource != draft.tasks[j].datasource
    ensures forall i :: 0 <= i < |draft.tasks| ==> Sources(draft)[i] == draft.tasks[i].datasource
  {
    if AllDistinct(Sources(draft)) {
      forall i, j | 0 <= i < j < |draft.tasks| ensures draft.tasks[i].datasource != draft.tasks[j].datasource {
        assert Sources(draft)[i] != Sources(draft)[j];
      }
    }
  }

  lemma NamesExactly(draft: Draft)
    ensures !draft.merge.options
            && (draft.merge.inputTaskIds == [] || draft.merge.inputTaskIds == SourceIds(|draft.tasks|))
            <==> InputsNamed(draft)
  {
    var ids := draft.merge.inputTaskIds;
    if InputsNamed(draft) && ids != [] {
      assert ids == SourceIds(|draft.tasks|);
    }
  }

  lemma MappingExactly(draft: Draft, scope: Scope, mapping: Result<Mapping>)
    ensures CheckMapping(draft, scope, mapping).Ok? <==> JoinGoverned(draft, scope, mapping)
  {
    SourcesExactly(draft);
    if draft.merge.operation == Keyed && mapping.Ok? && |draft.tasks| == 2 {
      assert Sources(draft) == [draft.tasks[0].datasource, draft.tasks[1].datasource];
    }
  }

  /** A draft is accepted before its deadline exactly when it satisfies every rule. */
  lemma ValidatedExactly(draft: Draft, scope: Scope, runId: string, now: int, mapping: Result<Mapping>)
    ensures Validate(draft, scope, runId, now, mapping).Ok?
            <==> && now < scope.deadline && SourcesFit(draft, scope) && InputsNamed(draft)
                 && JoinGoverned(draft, scope, mapping) && ShapesFit(draft) && ScalarsFit(draft.merge)
  {
    SourcesExactly(draft);
    NamesExactly(draft);
    MappingExactly(draft, scope, mapping);
  }

  /** What is wrong with the sources is named first, in this order. */
  lemma SourceRefusals(draft: Draft, scope: Scope, runId: string, now: int, mapping: Result<Mapping>)
    ensures
      var r := Validate(draft, scope, runId, now, mapping);
      if now >= scope.deadline then r == Err("federation_deadline_exceeded")
      else if |draft.tasks| < 2 || |draft.tasks| > scope.maxSources then r == Err("federation_source_limit")
      else if |draft.tasks| * scope.maxRowsPerSource > scope.maxTotalRows then r == Err("federation_budget_exceeded")
      else if exists t :: t in draft.tasks && t.datasource !in scope.allowed then r == Err("forbidden_datasource")
      else if exists i, j :: 0 <= i < j < |draft.tasks| && draft.tasks[i].datasource == draft.tasks[j].datasource then
        r == Err("duplicate_source_task")
      else if exists t :: t in draft.tasks && t.native then r == Err("native_query_forbidden")
      else SourcesFit(draft, scope)
  {
    SourcesExactly(draft);
  }

  /** Once the sources fit, what is wrong with the merge is named, in this order. */
  lemma MergeRefusals(draft: Draft, scope: Scope, runId: string, now: int, mapping: Result<Mapping>)
    requires now < scope.deadline && SourcesFit(draft, scope)
    ensures
      var r := Validate(draft, scope, runId, now, mapping);
      if draft.merge.options then r == Err("unsupported_merge_options")
      else if !InputsNamed(draft) then r == Err("unknown_source_task_reference")
      else if draft.merge.operation != Keyed && !JoinGoverned(draft, scope, mapping) then
        r == Err("unexpected_join_mapping")
      else if draft.merge.operation == Keyed && (!scope.allowJoin || draft.merge.mappingId.None?) then
        r == Err("unconfirmed_mapping")
      else if draft.merge.operation == Keyed && (|draft.tasks| != 2 || draft.merge.joinMode.None?) then
        r == Err("invalid_join_plan")
      else if draft.merge.operation == Keyed && mapping.Err? then r == Err(mapping.code)
      else if !JoinGoverned(draft, scope, mapping) then r == Err("join_mapping_source_mismatch")
      else if !ShapesFit(draft) then r == Err("merge_shape_mismatch")
      else if ScalarsFit(draft.merge) then r.Ok?
      else if draft.merge.operation != CombineScalars then r == Err("unexpected_scalar_operation")
      else if draft.merge.scalarOperation.None? then r == Err("missing_scalar_operation")
      else r == Err("unsupported_scalar_operation")
  {
    SourcesExactly(draft);
    NamesExactly(draft);
    MappingExactly(draft, scope, mapping);
  }

  // ---- Tables ----

  /** All runs' plans, and their task rows under the primary key `task_id`. */
  datatype Store = Store(plans: map<string, Plan>, tasks: map<string, SourceTask>)

  predicate SamePlace(a: SourceTask, b: SourceTask) {
    a.runId == b.runId && a.ordinal == b.ordinal
  }

  /** The table's keys accept the rows. */
  predicate Insertable(tasks: map<string, SourceTask>, rows: seq<SourceTask>) {
    && (forall i, j :: 0 <= i < j < |rows| ==> rows[i].id != rows[j].id && !SamePlace(rows[i], rows[j]))
    && (forall i :: 0 <= i < |rows| ==>
          rows[i].id !in tasks && forall k :: k in tasks ==> !SamePlace(tasks[k], rows[i]))
  }

  function Added(tasks: map<string, SourceTask>, rows: seq<SourceTask>): map<string, SourceTask> {
    if rows == [] then tasks
    else
      var last := rows[|rows| - 1];
      Added(tasks, rows[..|rows| - 1])[last.id := last]
  }

  /** `create_plan`, one transaction: the run's plan if there is one, else the new plan with all its rows. */
  function Create(s: Store, p: Plan): (Store, Result<Plan>) {
    if p.runId in s.plans then (s, Ok(s.plans[p.runId]))
    else if !Insertable(s.tasks, p.tasks) then (s, Err("IntegrityError"))
    else (Store(s.plans[p.runId := p], Added(s.tasks, p.tasks)), Ok(p))
  }

  /**
   * `save_task`: the row that still carries the revision is replaced. The statement leaves the columns
   * `run_id` and `ordinal` as they are.
   */
  function Save(s: Store, t: SourceTask): (Store, Result<SourceTask>) {
    if t.id in s.tasks && s.tasks[t.id].revision == t.revision then
      var stored := t.(runId := s.tasks[t.id].runId, ordinal := s.tasks[t.id].ordinal, revision := t.revision + 1);
      (s.(tasks := s.tasks[t.id := stored]), Ok(stored))
    else (s, Err("source task revision conflict"))
  }

  /** Deleting a conversation deletes its runs' plans and rows. */
  function Forget(s: Store, run: string): Store {
    Store(s.plans - {run}, map k | k in s.tasks && s.tasks[k].runId != run :: s.tasks[k])
  }

  /** Two rows may not share their name, nor a run and place, with each other or with a row of the table. */
  lemma CreateExactly(s: Store, p: Plan)
    ensures p.runId in s.plans ==> Create(s, p) == (s, Ok(s.plans[p.runId]))
    ensures p.runId !in s.plans ==>
              (Create(s, p).1.Err?
               <==> || (exists i, j :: 0 <= i < j < |p.tasks|
                                       && (p.tasks[i].id == p.tasks[j].id
                                           || (p.tasks[i].runId == p.tasks[j].runId
                                               && p.tasks[i].ordinal == p.tasks[j].ordinal)))
                    || (exists i :: 0 <= i < |p.tasks| && p.tasks[i].id in s.tasks)
                    || (exists i, k :: 0 <= i < |p.tasks| && k in s.tasks && s.tasks[k].runId == p.tasks[i].runId
                                       && s.tasks[k].ordinal == p.tasks[i].ordinal))
    ensures Create(s, p).1.Err? ==> Create(s, p) == (s, Err("IntegrityError"))
  {
  }

  predicate HasId(rows: seq<SourceTask>, k: string) {
    exists i :: 0 <= i < |rows| && rows[i].id == k
  }

  lemma HasIdLast(rows: seq<SourceTask>, k: string)
    requires rows != []
    ensures HasId(rows, k) <==> HasId(rows[..|rows| - 1], k) || rows[|rows| - 1].id == k
  {
    var init := rows[..|rows| - 1];
    assert forall i :: 0 <= i < |init| ==> init[i] == rows[i];
    if i :| 0 <= i < |rows| && rows[i].id == k {
      assert i < |init| ==> init[i].id == k;
    }
  }

  lemma {:induction false} AddedRows(tasks: map<string, SourceTask>, rows: seq<SourceTask>)
    requires forall i, j :: 0 <= i < j < |rows| ==> rows[i].id != rows[j].id
    ensures forall k :: k in Added(tasks, rows) <==> k in tasks || HasId(rows, k)
    ensures forall i :: 0 <= i < |rows| ==>
              rows[i].id in Added(tasks, rows) && Added(tasks, rows)[rows[i].id] == rows[i]
    ensures forall k :: k in tasks && !HasId(rows, k) ==> Added(tasks, rows)[k] == tasks[k]
  {
    if rows != [] {
      var init := rows[..|rows| - 1];
      AddedRows(tasks, init);
      assert forall i :: 0 <= i < |init| ==> init[i] == rows[i];
      forall k ensures HasId(rows, k) <==> HasId(init, k) || rows[|init|].id == k {
        HasIdLast(rows, k);
      }
    }
  }

  lemma AddedNext(tasks: map<string, SourceTask>, rows: seq<SourceTask>, i: nat)
    requires i < |rows|
    ensures Added(tasks, rows[..i + 1]) == Added(tasks, rows[..i])[rows[i].id := rows[i]]
  {
    assert rows[..i + 1][..i] == rows[..i];
  }

  class FederationPlans {
    var plans: map<string, Plan>
    var tasks: map<string, SourceTask>

    function Contents(): Store
      reads this
    {
      Store(plans, tasks)
    }

    constructor ()
      ensures Contents() == Store(map[], map[])
    {
      plans, tasks := map[], map[];
    }

    /** A row the keys refuse rolls the whole transaction back. */
    method CreatePlan(plan: Plan) returns (r: Result<Plan>)
      modifies this
      ensures Contents() == Create(old(Contents()), plan).0 && r == Create(old(Contents()), plan).1
    {
      if plan.runId in plans {
        return Ok(plans[plan.runId]);
      }
      var rows := tasks;
      for i := 0 to |plan.tasks|
        invariant Contents() == old(Contents()) && plan.runId !in plans
        invariant Insertable(tasks, plan.tasks[..i]) && rows == Added(tasks, plan.tasks[..i])
      {
        AddedNext(tasks, plan.tasks, i);
        var t := plan.tasks[i];
        if t.id in rows || exists k :: k in rows && SamePlace(rows[k], t) {
          RefusedRow(tasks, plan.tasks, i, rows);
          assert !Insertable(tasks, plan.tasks);
          return Err("IntegrityError");
        }
        AcceptedRow(tasks, plan.tasks, i, rows);
        rows := rows[t.id := t];
      }
      assert plan.tasks[..|plan.tasks|] == plan.tasks;
      plans, tasks := plans[plan.runId := plan], rows;
      r := Ok(plan);
    }

    method SaveTask(t: SourceTask) returns (r: Result<SourceTask>)
      modifies this`tasks
      ensures Contents() == Save(old(Contents()), t).0 && r == Save(old(Contents()), t).1
    {
      if t.id !in tasks || tasks[t.id].revision != t.revision {
        return Err("source task revision conflict");
      }
      var stored := t.(runId := tasks[t.id].runId, ordinal := tasks[t.id].ordinal, revision := t.revision + 1);
      tasks := tasks[t.id := stored];
      r := Ok(stored);
    }
  }

  lemma AcceptedRow(tasks: map<string, SourceTask>, rows: seq<SourceTask>, i: nat, added: map<string, SourceTask>)
    requires i < |rows| && Insertable(tasks, rows[..i]) && added == Added(tasks, rows[..i])
    requires rows[i].id !in added && forall k :: k in added ==> !SamePlace(added[k], rows[i])
    ensures Insertable(tasks, rows[..i + 1])
  {
    AddedRows(tasks, rows[..i]);
    var more := rows[..i + 1];
    assert forall j :: 0 <= j < i ==> rows[..i][j] == more[j];
    forall a, b | 0 <= a < b < |more| ensures more[a].id != more[b].id && !SamePlace(more[a], more[b]) {
      if b == i {
        assert rows[..i][a].id in added && added[rows[..i][a].id] == more[a];
      } else {
        assert rows[..i][a].id != rows[..i][b].id && !SamePlace(rows[..i][a], rows[..i][b]);
      }
    }
    forall k | k in tasks ensures !SamePlace(tasks[k], rows[i]) {
      assert k in added && added[k] == tasks[k];
    }
  }

  lemma RefusedRow(tasks: map<string, SourceTask>, rows: seq<SourceTask>, i: nat, added: map<string, SourceTask>)
    requires i < |rows| && Insertable(tasks, rows[..i]) && added == Added(tasks, rows[..i])
    requires rows[i].id in added || exists k :: k in added && SamePlace(added[k], rows[i])
    ensures !Insertable(tasks, rows)
  {
    AddedRows(tasks, rows[..i]);
    var k :| k in added && (k == rows[i].id || SamePlace(added[k], rows[i]));
    if j :| 0 <= j < i && rows[..i][j].id == k {
      assert added[k] == rows[..i][j];
      assert rows[j].id == rows[i].id || SamePlace(rows[j], rows[i]);
    } else {
      assert added[k] == tasks[k];
    }
  }

  // ---- One plan per run ----

  datatype Call = CreateCall(plan: Plan) | SaveCall(task: SourceTask) | ForgetCall(run: string)

  function Step(s: Store, c: Call): Store {
    match c
    case CreateCall(p) => Create(s, p).0
    case SaveCall(t) => Save(s, t).0
    case ForgetCall(run) => Forget(s, run)
  }

  /** Deleting a run takes its plan and its rows, and nothing of another run. */
  lemma ForgetExactly(s: Store, run: string)
    ensures
      var after := Step(s, ForgetCall(run));
      && run !in after.plans && (forall k :: k in after.tasks ==> after.tasks[k].runId != run)
      && (forall r :: r in s.plans && r != run ==> r in after.plans && after.plans[r] == s.plans[r])
      && (forall k :: k in s.tasks && s.tasks[k].runId != run ==> k in after.tasks && after.tasks[k] == s.tasks[k])
      && after.plans.Keys <= s.plans.Keys && after.tasks.Keys <= s.tasks.Keys
  {
  }

  function Run(s: Store, calls: seq<Call>): Store {
    if calls == [] then s else Step(Run(s, calls[..|calls| - 1]), calls[|calls| - 1])
  }

  /** What the i-th of a series of calls, a creation, returns. */
  function Returned(s: Store, calls: seq<Call>, i: nat): Result<Plan>
    requires i < |calls| && calls[i].CreateCall?
  {
    Create(Run(s, calls[..i]), calls[i].plan).1
  }

  /** Every row belongs to a stored run, and the rows of a run are, by name and place, its plan's tasks. */
  ghost predicate RowsMatch(s: Store) {
    && (forall k :: k in s.tasks ==> s.tasks[k].id == k && s.tasks[k].runId in s.plans)
    && (forall r :: r in s.plans ==> s.plans[r].runId == r && OwnRows(s.plans[r]) && RowsOf(s, s.plans[r]))
  }

  ghost predicate SameTask(a: SourceTask, b: SourceTask) {
    a.id == b.id && SamePlace(a, b)
  }

  ghost predicate RowsOf(s: Store, p: Plan) {
    && (forall i :: 0 <= i < |p.tasks| ==> p.tasks[i].id in s.tasks && SameTask(s.tasks[p.tasks[i].id], p.tasks[i]))
    && (forall k :: k in s.tasks && s.tasks[k].runId == p.runId ==> IsTaskOf(p, s.tasks[k]))
  }

  ghost predicate IsTaskOf(p: Plan, t: SourceTask) {
    exists i :: 0 <= i < |p.tasks| && SameTask(t, p.tasks[i])
  }

  ghost predicate OwnRows(p: Plan) {
    forall i :: 0 <= i < |p.tasks| ==> p.tasks[i].runId == p.runId
  }

  ghost predicate OwnCall(c: Call) {
    c.CreateCall? ==> OwnRows(c.plan)
  }

  lemma CreateMatches(s: Store, p: Plan)
    requires RowsMatch(s) && OwnRows(p)
    ensures RowsMatch(Create(s, p).0)
  {
    if p.runId !in s.plans && Insertable(s.tasks, p.tasks) {
      var after := Create(s, p).0;
      AddedRows(s.tasks, p.tasks);
      forall k | k in after.tasks ensures after.tasks[k].id == k && after.tasks[k].runId in after.plans {
        if i :| 0 <= i < |p.tasks| && p.tasks[i].id == k {
          assert after.tasks[k] == p.tasks[i];
        }
      }
      forall r | r in after.plans
        ensures after.plans[r].runId == r && OwnRows(after.plans[r]) && RowsOf(after, after.plans[r])
      {
        if r == p.runId {
          NewRows(s, p);
        } else {
          OldRows(s, p, r);
        }
      }
    }
  }

  lemma NewRows(s: Store, p: Plan)
    requires RowsMatch(s) && OwnRows(p) && p.runId !in s.plans && Insertable(s.tasks, p.tasks)
    ensures RowsOf(Create(s, p).0, p)
  {
    AddedRows(s.tasks, p.tasks);
    var after := Create(s, p).0;
    forall k | k in after.tasks && after.tasks[k].runId == p.runId ensures IsTaskOf(p, after.tasks[k]) {
      var i :| 0 <= i < |p.tasks| && p.tasks[i].id == k;
      assert SameTask(after.tasks[k], p.tasks[i]);
    }
  }

  lemma OldRows(s: Store, p: Plan, r: string)
    requires RowsMatch(s) && OwnRows(p) && p.runId !in s.plans && Insertable(s.tasks, p.tasks) && r in s.plans
    ensures RowsOf(Create(s, p).0, s.plans[r])
  {
    AddedRows(s.tasks, p.tasks);
    var q, after := s.plans[r], Create(s, p).0;
    assert RowsOf(s, q);
    forall i | 0 <= i < |q.tasks|
      ensures q.tasks[i].id in after.tasks && SameTask(after.tasks[q.tasks[i].id], q.tasks[i])
    {
      assert q.tasks[i].id in s.tasks;
    }
    forall k | k in after.tasks && after.tasks[k].runId == q.runId ensures IsTaskOf(q, after.tasks[k]) {
      assert forall i :: 0 <= i < |p.tasks| ==> after.tasks[p.tasks[i].id] == p.tasks[i] && p.tasks[i].runId != q.runId;
      assert after.tasks[k] == s.tasks[k];
    }
  }

  /** A saved task is still the same task of the same run. */
  lemma SaveMatches(s: Store, t: SourceTask)
    requires RowsMatch(s)
    ensures RowsMatch(Save(s, t).0)
  {
    var after := Save(s, t).0;
    forall r | r in after.plans ensures OwnRows(after.plans[r]) && RowsOf(after, after.plans[r]) {
      SameRowsMatch(s, after, s.plans[r]);
    }
  }

  /** A table with the same tasks under the same keys holds the same rows of a plan. */
  lemma SameRowsMatch(s: Store, after: Store, p: Plan)
    requires RowsOf(s, p) && after.tasks.Keys == s.tasks.Keys
    requires forall k :: k in s.tasks ==> SameTask(after.tasks[k], s.tasks[k])
    ensures RowsOf(after, p)
  {
    forall k | k in after.tasks && after.tasks[k].runId == p.runId ensures IsTaskOf(p, after.tasks[k]) {
      var i :| 0 <= i < |p.tasks| && SameTask(s.tasks[k], p.tasks[i]);
      assert SameTask(after.tasks[k], p.tasks[i]);
    }
  }

  lemma ForgetMatches(s: Store, run: string)
    requires RowsMatch(s)
    ensures RowsMatch(Forget(s, run))
  {
    var after := Forget(s, run);
    forall r | r in after.plans ensures OwnRows(after.plans[r]) && RowsOf(after, after.plans[r]) {
      assert RowsOf(s, s.plans[r]);
    }
  }

  lemma StepMatches(s: Store, c: Call)
    requires RowsMatch(s) && OwnCall(c)
    ensures RowsMatch(Step(s, c))
  {
    match c
    case CreateCall(p) => CreateMatches(s, p);
    case SaveCall(t) => SaveMatches(s, t);
    case ForgetCall(run) => ForgetMatches(s, run);
  }

  /** Whatever is created, saved and deleted, in any order, the rows stay those of the stored plans. */
  lemma {:induction false} RunMatches(s: Store, calls: seq<Call>)
    requires RowsMatch(s) && forall i :: 0 <= i < |calls| ==> OwnCall(calls[i])
    ensures RowsMatch(Run(s, calls))
  {
    if calls != [] {
      RunMatches(s, calls[..|calls| - 1]);
      StepMatches(Run(s, calls[..|calls| - 1]), calls[|calls| - 1]);
    }
  }

  /** A stored plan is never replaced while its run is not deleted. */
  lemma {:induction false} PlanStays(s: Store, calls: seq<Call>, i: nat, run: string)
    requires i <= |calls| && run in Run(s, calls[..i]).plans
    requires forall j :: i <= j < |calls| ==> calls[j] != ForgetCall(run)
    ensures run in Run(s, calls).plans && Run(s, calls).plans[run] == Run(s, calls[..i]).plans[run]
    decreases |calls|
  {
    if i == |calls| {
      assert calls[..i] == calls;
    } else {
      assert calls[..|calls| - 1][..i] == calls[..i];
      PlanStays(s, calls[..|calls| - 1], i, run);
    }
  }

  /**
   * However creations, saves and deletions interleave, every creation that succeeds for a run not deleted
   * since returned the one stored plan, and the run's rows are exactly that plan's tasks.
   */
  lemma OnePlanPerRun(s: Store, calls: seq<Call>, i: nat)
    requires RowsMatch(s) && forall j :: 0 <= j < |calls| ==> OwnCall(calls[j])
    requires i < |calls| && calls[i].CreateCall? && Returned(s, calls, i).Ok?
    requires forall j :: i < j < |calls| ==> calls[j] != ForgetCall(calls[i].plan.runId)
    ensures
      var end, run := Run(s, calls), calls[i].plan.runId;
      run in end.plans && Returned(s, calls, i).value == end.plans[run] && RowsOf(end, end.plans[run])
  {
    RunMatches(s, calls);
    assert calls[..i + 1][..i] == calls[..i];
    PlanStays(s, calls, i + 1, calls[i].plan.runId);
  }

  lemma FirstAccepted(p: Plan)
    requires WellFormed(p)
    ensures Insertable(map[], p.tasks)
  {
    forall i, j | 0 <= i < j < |p.tasks| ensures p.tasks[i].id != p.tasks[j].id && !SamePlace(p.tasks[i], p.tasks[j]) {
      SourceIdsDiffer(i, j);
    }
  }

  lemma OtherRefused(s: Store, p: Plan, r: string)
    requires RowsMatch(s) && WellFormed(p) && r in s.plans && WellFormed(s.plans[r])
    ensures !Insertable(s.tasks, p.tasks)
  {
    assert RowsOf(s, s.plans[r]);
    assert s.plans[r].tasks[0].id == SourceId(0) == p.tasks[0].id;
  }

  /**
   * Validated plans all number their tasks alike and the number is the table's key, so a run's first plan
   * is accepted exactly when no other run's plan is stored, whatever its tasks have become.
   */
  lemma FirstPlanOnly(s: Store, p: Plan)
    requires RowsMatch(s) && WellFormed(p) && forall r :: r in s.plans ==> WellFormed(s.plans[r])
    ensures Create(s, p).1.Ok? <==> p.runId in s.plans || s.plans == map[]
  {
    if s.plans == map[] {
      assert s.tasks == map[];
      FirstAccepted(p);
    } else if p.runId !in s.plans {
      var r :| r in s.plans;
      OtherRefused(s, p, r);
    }
  }

  ghost predicate AllWellFormed(s: Store) {
    forall r :: r in s.plans ==> WellFormed(s.plans[r])
  }

  lemma {:induction false} RunWellFormed(s: Store, calls: seq<Call>)
    requires AllWellFormed(s) && forall i :: 0 <= i < |calls| && calls[i].CreateCall? ==> WellFormed(calls[i].plan)
    ensures AllWellFormed(Run(s, calls))
  {
    if calls != [] {
      RunWellFormed(s, calls[..|calls| - 1]);
    }
  }

  /**
   * From empty tables, in every history of validated plans, saves and deletions: a run without a plan is
   * given one exactly when no other run's plan is stored. So no two plans are ever stored at once.
   */
  lemma SecondRunRefused(calls: seq<Call>, p: Plan)
    requires WellFormed(p) && forall i :: 0 <= i < |calls| && calls[i].CreateCall? ==> WellFormed(calls[i].plan)
    ensures
      var s := Run(Store(map[], map[]), calls);
      && (Create(s, p).1.Ok? <==> p.runId in s.plans || s.plans == map[])
      && forall a, b :: a in s.plans && b in s.plans ==> a == b
  {
    var s := Store(map[], map[]);
    forall i | 0 <= i < |calls| ensures OwnCall(calls[i]) {
      if calls[i].CreateCall? {
        assert WellFormed(calls[i].plan);
      }
    }
    RunMatches(s, calls);
    RunWellFormed(s, calls);
    FirstPlanOnly(Run(s, calls), p);
    OnlyOnePlan(Run(s, calls));
  }

  lemma OnlyOnePlan(s: Store)
    requires RowsMatch(s) && AllWellFormed(s)
    ensures forall a, b :: a in s.plans && b in s.plans ==> a == b
  {
    forall a, b | a in s.plans && b in s.plans ensures a == b {
      assert RowsOf(s, s.plans[a]) && RowsOf(s, s.plans[b]);
      assert s.plans[a].tasks[0].id == SourceId(0) == s.plans[b].tasks[0].id;
      assert SameTask(s.tasks[SourceId(0)], s.plans[a].tasks[0]) && SameTask(s.tasks[SourceId(0)], s.plans[b].tasks[0]);
    }
  }
}
