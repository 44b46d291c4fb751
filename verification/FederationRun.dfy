/**
 * The federated coordinator: durable source tasks, each one Ask, merged when all have completed.
 *
 * Every durable write may be preceded by the end of the process, cancellation may arrive at any test of
 * it, and the planner, the Ask and the mapping governance may answer anything.
 */
module FederationRun {
  import opened Common
  import opened Responses
  import opened KeyedJoin
  import opened Merger
  import opened FederationPlan
  import opened FederationBudget
  import opened FederationAsks

  datatype Clause = PlanStored | ResultsStored | TotalsHeld

  ghost predicate Holds(c: Clause, plan: Option<Plan>, tasks: seq<SourceTask>, size: Size) {
    match plan
    case None => tasks == []
    case Some(p) =>
      match c
      case PlanStored => WellFormed(p) && StoredTasks(p, tasks)
      case ResultsStored => ResultsKept(p.scope, tasks)
      case TotalsHeld => WithinTotals(p.scope, tasks, size)
  }

  /** What every stored state of a run satisfies. */
  ghost predicate Sound(plan: Option<Plan>, tasks: seq<SourceTask>, size: Size) {
    forall c :: Holds(c, plan, tasks, size)
  }

  ghost predicate CompletedKept(before: seq<SourceTask>, after: seq<SourceTask>) {
    forall i :: 0 <= i < |before| && before[i].status == Completed ==> i < |after| && after[i] == before[i]
  }

  lemma ChangeSound(p: Plan, tasks: seq<SourceTask>, size: Size, i: nat, t: SourceTask)
    requires Sound(Some(p), tasks, size) && i < |tasks| && tasks[i].status != Completed
    requires t.id == tasks[i].id && t.draft == tasks[i].draft && ResultKept(p.scope, t)
    requires t.status == Completed ==>
               && CompletedRows(tasks) + |ResultRows(t)| <= p.scope.maxTotalRows
               && CompletedBytes(tasks, size) + size(ResultRows(t)) <= p.scope.maxIntermediateBytes
    ensures Sound(Some(p), tasks[i := t], size) && CompletedKept(tasks, tasks[i := t])
  {
    OneTaskChanged(tasks, i, t, size);
    var after := tasks[i := t];
    forall c ensures Holds(c, Some(p), after, size) {
      assert Holds(c, Some(p), tasks, size);
    }
  }

  lemma NewPlanSound(p: Plan, size: Size)
    requires WellFormed(p) && p.scope.maxTotalRows >= 0 && p.scope.maxIntermediateBytes >= 0
    requires forall i :: 0 <= i < |p.tasks| ==> p.tasks[i].status == Planned
    ensures Sound(Some(p), p.tasks, size)
  {
    NothingCompleted(p.tasks, size);
    forall c ensures Holds(c, Some(p), p.tasks, size) {
    }
  }

  // ---- Repository ----

  /** The plan and rows of one run, in ordinal order, beside those the tables hold for `others`. */
  class FederationRepository {
    var plan: Option<Plan>
    var tasks: seq<SourceTask>
    var others: Store

    constructor ()
      ensures plan == None && tasks == [] && others == Store(map[], map[])
    {
      plan, tasks, others := None, [], Store(map[], map[]);
    }

    /** `create_plan` for this run: its plan if there is one, else what the tables make of the new plan. */
    method CreatePlan(p: Plan) returns (r: Result<Plan>)
      requires p.runId !in others.plans
      modifies this`plan, this`tasks
      ensures old(plan).Some? ==> r == Ok(old(plan).value)
      ensures old(plan).None? ==> r == Create(others, p).1
      ensures old(plan).None? && r.Ok? ==> plan == Some(p) && tasks == p.tasks
      ensures old(plan).Some? || r.Err? ==> plan == old(plan) && tasks == old(tasks)
    {
      if plan.Some? {
        return Ok(plan.value);
      }
      if !Insertable(others.tasks, p.tasks) {
        return Err("IntegrityError");
      }
      plan, tasks := Some(p), p.tasks;
      r := Ok(p);
    }

    /** Replaces the row that still carries the identifier and revision of `t`, if there is one. */
    method SaveTask(t: SourceTask) returns (r: Result<SourceTask>)
      modifies this`tasks
      ensures r.Ok? ==>
                && r.value == t.(revision := t.revision + 1)
                && exists i :: 0 <= i < |old(tasks)| && old(tasks)[i].id == t.id && old(tasks)[i].revision == t.revision
                               && tasks == old(tasks)[i := r.value]
      ensures r.Err? ==>
                && tasks == old(tasks) && r.code == "source task revision conflict"
                && forall i :: 0 <= i < |tasks| ==> !(tasks[i].id == t.id && tasks[i].revision == t.revision)
    {
      var i := 0;
      while i < |tasks| && !(tasks[i].id == t.id && tasks[i].revision == t.revision)
        invariant 0 <= i <= |tasks|
        invariant forall j :: 0 <= j < i ==> !(tasks[j].id == t.id && tasks[j].revision == t.revision)
      {
        i := i + 1;
      }
      if i == |tasks| {
        return Err("source task revision conflict");
      }
      var updated := t.(revision := t.revision + 1);
      tasks := tasks[i := updated];
      r := Ok(updated);
    }
  }

  // ---- Coordinator ----

  /** The planner's draft, if it gave one, the time it was validated, and the mapping found executable then. */
  datatype Proposal = Proposal(draft: Option<Draft>, now: int, mapping: Result<Mapping>)

  datatype FederationBudgetLimits = FederationBudgetLimits(maxSources: nat, maxRowsPerSource: nat, maxTotalRows: nat,
                                                          maxIntermediateBytes: nat, seconds: nat)

  class FederatedQuestionCapability {
    const runId: string
    const limits: FederationBudgetLimits
    const env: Environment
    const hasModel: bool
    const repository: FederationRepository
    var cancelled: bool
    /** How often the process ended before a write. */
    ghost var lost: nat

    ghost predicate Valid()
      reads repository
    {
      Sound(repository.plan, repository.tasks, env.size)
    }

    /** The tables hold other runs only, each with a validated plan and its own rows. */
    ghost predicate OthersSound()
      reads repository`others
    {
      RowsMatch(repository.others) && AllWellFormed(repository.others) && runId !in repository.others.plans
    }

    constructor (runId: string, limits: FederationBudgetLimits, env: Environment, hasModel: bool)
      ensures Valid() && OthersSound() && fresh(repository)
    {
      this.runId, this.limits, this.env, this.hasModel := runId, limits, env, hasModel;
      repository := new FederationRepository();
      cancelled, lost := false, 0;
    }

    method IsCancelled() returns (r: bool)
      modifies this`cancelled
      ensures r == cancelled && (old(cancelled) ==> cancelled)
    {
      if * {
        cancelled := true;
      }
      r := cancelled;
    }

    /** Neither the request nor the budget is exceeded, and there are no more sources than allowed datasources. */
    function ScopeFor(workspace: string, allowed: seq<string>, maxRows: int): (r: Scope)
      ensures r.allowed == allowed && r.allowJoin && r.workspace == workspace
      ensures r.maxSources <= |allowed| && r.maxSources <= limits.maxSources
      ensures r.maxSources == |allowed| || r.maxSources == limits.maxSources
      ensures r.maxRowsPerSource <= maxRows && r.maxRowsPerSource <= limits.maxRowsPerSource
      ensures r.maxRowsPerSource == maxRows || r.maxRowsPerSource == limits.maxRowsPerSource
      ensures r.maxTotalRows == limits.maxTotalRows && r.maxIntermediateBytes == limits.maxIntermediateBytes
      ensures r.deadline - env.now == limits.seconds
    {
      Scope(workspace, allowed, Min(limits.maxSources, |allowed|), Min(maxRows, limits.maxRowsPerSource),
            limits.maxTotalRows, limits.maxIntermediateBytes, env.now + limits.seconds, true)
    }

    /** A task write, unless the process ends first. No revision conflict is possible. */
    method WriteTask(t: SourceTask, ghost i: nat) returns (saved: Option<SourceTask>)
      requires Valid() && repository.plan.Some? && i < |repository.tasks|
      requires t.id == repository.tasks[i].id && t.revision == repository.tasks[i].revision
      requires Sound(repository.plan, repository.tasks[i := t.(revision := t.revision + 1)], env.size)
      modifies repository`tasks, this`lost
      ensures lost == old(lost) + (if saved.None? then 1 else 0)
      ensures Valid()
      ensures saved.Some? ==>
                && saved.value == t.(revision := t.revision + 1)
                && repository.tasks == old(repository.tasks)[i := saved.value]
      ensures saved.None? ==> repository.tasks == old(repository.tasks)
    {
      if * {
        lost := lost + 1;
        return None;
      }
      assert Holds(PlanStored, repository.plan, repository.tasks, env.size);
      forall j | 0 <= j < |repository.tasks| && j != i ensures repository.tasks[j].id != t.id {
        SourceIdsDiffer(i, j);
      }
      var r := repository.SaveTask(t);
      saved := Some(r.value);
    }

    /** Restart: every task left RUNNING becomes a retryable failure. */
    method RecoverRunning() returns (crashed: bool)
      requires Valid()
      modifies repository`tasks, this`lost
      ensures lost == old(lost) + (if crashed then 1 else 0)
      ensures Valid() && CompletedKept(old(repository.tasks), repository.tasks)
      ensures |repository.tasks| == |old(repository.tasks)|
      ensures forall i :: 0 <= i < |repository.tasks| && old(repository.tasks)[i].status != Running ==>
                repository.tasks[i] == old(repository.tasks)[i]
      ensures !crashed ==> forall i :: 0 <= i < |repository.tasks| && old(repository.tasks)[i].status == Running ==>
                             repository.tasks[i] == Restarted(old(repository.tasks)[i])
    {
      var rows := repository.tasks;
      assert Holds(PlanStored, repository.plan, repository.tasks, env.size);
      for i := 0 to |rows|
        invariant Valid() && |repository.tasks| == |rows| && repository.tasks[i..] == rows[i..]
        invariant CompletedKept(rows, repository.tasks) && lost == old(lost)
        invariant forall j :: 0 <= j < i ==>
                    repository.tasks[j] == if rows[j].status == Running then Restarted(rows[j]) else rows[j]
      {
        assert repository.tasks[i] == rows[i];
        if rows[i].status == Running {
          var t := rows[i].(status := Failed, failureCode := Some("task_interrupted"), retryable := true);
          ChangeSound(repository.plan.value, repository.tasks, env.size, i, t.(revision := t.revision + 1));
          var saved := WriteTask(t, i);
          if saved.None? {
            return true;
          }
        }
      }
      crashed := false;
    }

    /** No row but row i has changed, completed rows not at all. */
    ghost predicate OnlyRow(before: seq<SourceTask>, i: nat)
      reads repository
    {
      && i < |before| == |repository.tasks| && repository.tasks == before[i := repository.tasks[i]]
      && (before[i].status == Completed ==> repository.tasks[i] == before[i])
    }

    /** A write that leaves the task incomplete. */
    method Leave(t: SourceTask, ghost i: nat, outcome: Outcome) returns (end: Outcome)
      requires Valid() && repository.plan.Some? && i < |repository.tasks|
      requires repository.tasks[i].status != Completed && t.status != Completed
      requires t.id == repository.tasks[i].id && t.revision == repository.tasks[i].revision
      requires t.draft == repository.tasks[i].draft && outcome != Crashed
      modifies repository`tasks, this`lost
      ensures lost == old(lost) + Losses(Some(end))
      ensures Valid() && OnlyRow(old(repository.tasks), i)
      ensures (end == outcome || end == Crashed) && repository.tasks[i].status != Completed
      ensures repository.tasks[i] == if end == Crashed then old(repository.tasks)[i] else t.(revision := t.revision + 1)
    {
      ChangeSound(repository.plan.value, repository.tasks, env.size, i, t.(revision := t.revision + 1));
      var saved := WriteTask(t, i);
      end := if saved.Some? then outcome else Crashed;
    }

    method Fail(t: SourceTask, ghost i: nat, code: string) returns (end: Outcome)
      requires Valid() && repository.plan.Some? && i < |repository.tasks|
      requires repository.tasks[i].status == Running && t == repository.tasks[i]
      modifies repository`tasks, this`lost
      ensures lost == old(lost) + Losses(Some(end))
      ensures Valid() && OnlyRow(old(repository.tasks), i)
      ensures if end == Crashed then repository.tasks[i] == t else FailedWith(t, repository.tasks[i], Some(end), code)
    {
      end := Leave(t.(status := Failed, failureCode := Some(code), retryable := IsTransient(code)), i,
                   Failure(code, IsTransient(code), false));
    }

    /** The rows and bytes of the completed tasks, read back from the table. */
    method CompletedTotals() returns (rows: nat, bytes: nat)
      ensures rows == CompletedRows(repository.tasks) && bytes == CompletedBytes(repository.tasks, env.size)
    {
      rows, bytes := 0, 0;
      for i := 0 to |repository.tasks|
        invariant rows == CompletedRows(repository.tasks[..i])
        invariant bytes == CompletedBytes(repository.tasks[..i], env.size)
      {
        assert repository.tasks[..i + 1][..i] == repository.tasks[..i];
        if Counts(repository.tasks[i]) {
          rows := rows + |ResultRows(repository.tasks[i])|;
          bytes := bytes + env.size(ResultRows(repository.tasks[i]));
        }
      }
      assert repository.tasks[..|repository.tasks|] == repository.tasks;
    }

    lemma RowsCounted(i: nat, rows: seq<Row>)
      requires Valid() && repository.plan.Some? && i < |repository.tasks| && repository.tasks[i].status != Completed
      ensures
        var scope := repository.plan.value.scope;
        CompletedRows(repository.tasks) + |rows| > scope.maxTotalRows ==>
          |rows| > scope.maxRowsPerSource || !RowsFit(scope, repository.tasks)
    {
      assert Holds(PlanStored, repository.plan, repository.tasks, env.size);
      assert Holds(ResultsStored, repository.plan, repository.tasks, env.size);
      TotalRowsNeverRefused(repository.plan.value, repository.tasks, i, rows);
    }

    /** A verified answer completes the task if it fits its own limit and the run's totals. */
    method Complete(t: SourceTask, ghost i: nat, data: Response) returns (end: Option<Outcome>)
      requires Valid() && repository.plan.Some? && i < |repository.tasks|
      requires data.result.Some? && data.source == Some(t.draft.datasource)
      requires repository.tasks[i].status == Running && t == repository.tasks[i]
      modifies repository`tasks, this`lost
      ensures lost == old(lost) + Losses(end)
      ensures Valid() && OnlyRow(old(repository.tasks), i)
      ensures if end == Some(Crashed) then repository.tasks[i] == t
              else Accepted(repository.plan.value.scope, old(repository.tasks), env.size, t, data, repository.tasks[i],
                            end)
      ensures end.None? || end.value == Crashed || end.value.Failure?
    {
      var scope, result := repository.plan.value.scope, data.result.value;
      var failed: Outcome;
      if result.rowCount > scope.maxRowsPerSource || env.size(result.rows) > scope.maxIntermediateBytes {
        failed := Fail(t, i, "result_limit");
        return Some(failed);
      }
      var rows, bytes := CompletedTotals();
      if rows + |result.rows| > scope.maxTotalRows || bytes + env.size(result.rows) > scope.maxIntermediateBytes {
        failed := Fail(t, i, "result_limit");
        return Some(failed);
      }
      var completed := t.(status := Completed, response := Some(data));
      ChangeSound(repository.plan.value, repository.tasks, env.size, i, completed.(revision := t.revision + 1));
      var saved := WriteTask(completed, i);
      end := if saved.Some? then None else Some(Crashed);
    }

    /**
     * A result that fits its own limits is refused for the totals only by its bytes, or when it or a completed
     * one holds more rows than one source may.
     */
    lemma RefusedForTotals(i: nat, result: QueryResult)
      requires Valid() && repository.plan.Some? && i < |repository.tasks| && repository.tasks[i].status != Completed
      requires !Fits(repository.plan.value.scope, repository.tasks, env.size, result)
      ensures
        var scope := repository.plan.value.scope;
        || result.rowCount > scope.maxRowsPerSource || env.size(result.rows) > scope.maxIntermediateBytes
        || |result.rows| > scope.maxRowsPerSource || !RowsFit(scope, repository.tasks)
        || CompletedBytes(repository.tasks, env.size) + env.size(result.rows) > scope.maxIntermediateBytes
    {
      RowsCounted(i, result.rows);
    }

    /** What an ended Ask leaves to do: the branches of `_execute_task` after its record loop. */
    method Conclude(t: SourceTask, ghost i: nat, ended: Option<AskResponse>, failure: Option<string>)
      returns (end: Option<Outcome>)
      requires Valid() && repository.plan.Some? && i < |repository.tasks|
      requires repository.tasks[i].status == Running && t == repository.tasks[i]
      modifies repository`tasks, this`lost
      ensures lost == old(lost) + Losses(end)
      ensures Valid() && OnlyRow(old(repository.tasks), i)
      ensures AttemptEnds(repository.plan.value.scope, old(repository.tasks), env.size, t, Some(Heard(ended, failure)),
                          repository.tasks[i], end)
    {
      var failed: Outcome;
      if failure.Some? || ended.None? {
        failed := Fail(t, i, if failure.Some? then failure.value else "ask_failed");
        return Some(failed);
      }
      var response := ended.value;
      if response.status == ClarificationRequired {
        failed := Leave(t.(status := WaitingUser, response := Some(response.data)), i, WaitingForUser);
        return Some(failed);
      }
      if response.status != AskCompleted || response.data.result.None?
         || response.data.source != Some(t.draft.datasource) {
        failed := Fail(t, i, if response.error.Some? then response.error.value else "source_unverified_result");
        return Some(failed);
      }
      end := Complete(t, i, response.data);
    }

    /** What an attempt of the task that stood in row i before made of the row. */
    ghost predicate Attempted(before: seq<SourceTask>, i: nat, heard: Option<Heard>, end: Option<Outcome>)
      reads repository
      requires repository.plan.Some? && i < |before| == |repository.tasks|
    {
      || (end == Some(Crashed) && heard.None? && repository.tasks[i] == before[i])
      || AttemptEnds(repository.plan.value.scope, before[i := Begun(before[i])], env.size, Begun(before[i]), heard,
                     repository.tasks[i], end)
    }

    /** The Ask of a started attempt: set aside as SKIPPED once cancelled, else concluded. */
    method AwaitAnswer(t: SourceTask, ghost i: nat) returns (end: Option<Outcome>, ghost heard: Option<Heard>)
      requires Valid() && repository.plan.Some? && i < |repository.tasks|
      requires repository.tasks[i].status == Running && t == repository.tasks[i]
      modifies repository`tasks, this`cancelled, this`lost
      ensures lost == old(lost) + Losses(end)
      ensures Valid() && OnlyRow(old(repository.tasks), i)
      ensures old(cancelled) ==> cancelled
      ensures AttemptEnds(repository.plan.value.scope, old(repository.tasks), env.size, t, heard,
                          repository.tasks[i], end)
      ensures heard.None? <==> cancelled
    {
      var ended: Option<AskResponse>, failure: Option<string> := *, *;
      var stop := IsCancelled();
      if stop {
        var set_aside := Leave(t.(status := Skipped, failureCode := Some("cancelled")), i, WaitingForUser);
        return if set_aside == Crashed then Some(Crashed) else None, None;
      }
      heard := Some(Heard(ended, failure));
      end := Conclude(t, i, ended, failure);
    }

    /** `_execute_task`: one complete Ask attempt. */
    method ExecuteTask(task: SourceTask, ghost i: nat) returns (end: Option<Outcome>, ghost heard: Option<Heard>)
      requires Valid() && repository.plan.Some? && i < |repository.tasks|
      requires repository.tasks[i] == task && task.status != Completed
      modifies repository`tasks, this`cancelled, this`lost
      ensures lost == old(lost) + Losses(end)
      ensures Valid() && OnlyRow(old(repository.tasks), i)
      ensures old(cancelled) ==> cancelled
      ensures Attempted(old(repository.tasks), i, heard, end)
      ensures end != Some(Crashed) ==> (heard.None? <==> cancelled)
    {
      var t := task.(status := Running, attempt := task.attempt + 1, failureCode := None, retryable := false);
      var begun := Leave(t, i, WaitingForUser);
      if begun == Crashed {
        return Some(Crashed), None;
      }
      t := t.(revision := t.revision + 1);
      assert t == Begun(task) && repository.tasks == old(repository.tasks)[i := Begun(task)];
      end, heard := AwaitAnswer(t, i);
    }

    /** What the governance answers for the plan's mapping, if it names one. */
    method Executable(plan: Plan) returns (r: Result<Option<Mapping>>)
      ensures plan.merge.mappingId.None? ==> r == Ok(None)
      ensures plan.merge.mappingId.Some? ==> r.Err? || r.value.Some?
    {
      if plan.merge.mappingId.None? {
        return Ok(None);
      }
      var m: Mapping := *;
      if * {
        return Ok(Some(m));
      }
      var code: string := *;
      r := Err(code);
    }

    /** What a stored plan is resumed to: refused for a datasource no longer allowed, or by the governance. */
    ghost predicate Resumed(allowed: seq<string>, end: Option<Outcome>)
      reads repository
      requires repository.plan.Some?
    {
      var plan := repository.plan.value;
      if exists i :: 0 <= i < |plan.tasks| && plan.tasks[i].draft.datasource !in allowed then
        end == Some(Failure("forbidden_datasource", false, true))
      else
        && (end.Some? ==> plan.merge.mappingId.Some? && end.value.Failure? && !end.value.retryable && end.value.blocked)
    }

    /** What the planner proposed, when, and what the governance said of its mapping. */
    ghost predicate NewlyPlanned(workspace: string, allowed: seq<string>, maxRows: int, proposal: Proposal,
                                 end: Option<Outcome>)
      reads this, repository
    {
      if !hasModel || proposal.draft.None? then
        end == Some(Failure("federation_planner_unavailable", false, true)) && repository.plan.None?
      else
        match Validate(proposal.draft.value, ScopeFor(workspace, allowed, maxRows), runId, proposal.now,
                       proposal.mapping)
        case Err(code) =>
          && repository.plan.None?
          && end == Some(Failure(code, false, code != "federation_deadline_exceeded"))
        case Ok(plan) =>
          if end.None? then repository.plan == Some(plan) && repository.tasks == plan.tasks
          else repository.plan.None? && (end == Some(Crashed) || end == Some(KeyConflict))
    }

    /** Reuses the stored plan, or has the planner's draft validated and stored. */
    method PlanRun(workspace: string, allowed: seq<string>, maxRows: int)
      returns (end: Option<Outcome>, ghost proposal: Proposal)
      requires Valid() && OthersSound()
      modifies repository`plan, repository`tasks, this`lost
      ensures lost == old(lost) + Losses(end)
      ensures Valid()
      ensures old(repository.plan).None? && repository.others.plans != map[] ==> end.Some?
      ensures end == Some(KeyConflict) ==> old(repository.plan).None? && repository.others.plans != map[]
      ensures old(repository.plan).Some? ==>
                repository.plan == old(repository.plan) && repository.tasks == old(repository.tasks)
      ensures end.None? ==> repository.plan.Some? && forall i :: 0 <= i < |repository.tasks| ==>
                              repository.tasks[i].draft.datasource in allowed
      ensures end.Some? ==> end.value == Crashed || end.value.Failure? || end.value == KeyConflict
      ensures end.Some? && old(repository.plan).None? ==> repository.plan.None?
      ensures old(repository.plan).Some? ==> Resumed(allowed, end)
      ensures old(repository.plan).None? ==> NewlyPlanned(workspace, allowed, maxRows, proposal, end)
    {
      proposal := Proposal(None, 0, Err(""));
      if repository.plan.Some? {
        assert Holds(PlanStored, repository.plan, repository.tasks, env.size);
        var plan := repository.plan.value;
        if exists t :: t in plan.tasks && t.draft.datasource !in allowed {
          return Some(Failure("forbidden_datasource", false, true)), proposal;
        }
        assert forall i :: 0 <= i < |plan.tasks| ==> plan.tasks[i] in plan.tasks;
        var executable := Executable(plan);
        return if executable.Err? then Some(Failure(executable.code, false, true)) else None, proposal;
      }
      var draft: Option<Draft>, mapping: Result<Mapping>, now: int := *, *, *;
      proposal := Proposal(draft, now, mapping);
      end := PlanNew(workspace, allowed, maxRows, draft, now, mapping);
    }

    /** A new plan from the planner's draft, if it is valid and the tables take it. */
    method PlanNew(workspace: string, allowed: seq<string>, maxRows: int, draft: Option<Draft>, now: int,
                   mapping: Result<Mapping>) returns (end: Option<Outcome>)
      requires Valid() && OthersSound() && repository.plan.None?
      modifies repository`plan, repository`tasks, this`lost
      ensures lost == old(lost) + Losses(end)
      ensures Valid()
      ensures repository.others.plans != map[] ==> end.Some?
      ensures end == Some(KeyConflict) ==> repository.others.plans != map[]
      ensures end.None? ==> repository.plan.Some? && forall i :: 0 <= i < |repository.tasks| ==>
                              repository.tasks[i].draft.datasource in allowed
      ensures NewlyPlanned(workspace, allowed, maxRows, Proposal(draft, now, mapping), end)
    {
      if !hasModel || draft.None? {
        return Some(Failure("federation_planner_unavailable", false, true));
      }
      var scope := ScopeFor(workspace, allowed, maxRows);
      var validated := Validate(draft.value, scope, runId, now, mapping);
      if validated.Err? {
        return Some(Failure(validated.code, false, validated.code != "federation_deadline_exceeded"));
      }
      var plan := validated.value;
      ValidatedPlan(draft.value, scope, runId, now, mapping);
      NewPlanSound(plan, env.size);
      if * {
        lost := lost + 1;
        return Some(Crashed);
      }
      FirstPlanOnly(repository.others, plan);
      var stored := repository.CreatePlan(plan);
      end := if stored.Ok? then None else Some(KeyConflict);
    }

    /** What ended the task loop is on record: the task that failed with the code, or the one that waits. */
    ghost predicate Told(o: Outcome, clock: int)
      reads this`cancelled, repository
    {
      match o
      case Crashed => true
      case Cancelled => cancelled
      case WaitingForUser => exists t :: t in repository.tasks && t.status == WaitingUser
      case Failure(code, retryable, blocked) =>
        && !blocked
        && ((code == "federation_deadline_exceeded" && !retryable && repository.plan.Some?
             && clock >= repository.plan.value.scope.deadline)
            || exists t :: t in repository.tasks && t.status == Failed && t.retryable == retryable
                           && (t.failureCode == Some(code) || (t.failureCode.None? && code == "source_task_failed")))
      case _ => false
    }

    /**
     * What the loop does with one task: nothing once cancelled, late or completed; a waiting task waits on unless
     * the user has answered, a lasting failure is raised again, and any other task is asked.
     */
    ghost predicate TurnOf(before: seq<SourceTask>, i: nat, clarified: bool, clock: int, heard: Option<Heard>,
                           asked: nat, end: Option<Outcome>)
      reads this`cancelled, repository
      requires repository.plan.Some? && i < |before| == |repository.tasks|
    {
      var task := before[i];
      if end == Some(Cancelled) then cancelled && asked == 0 && repository.tasks == before
      else if clock >= repository.plan.value.scope.deadline then
        asked == 0 && repository.tasks == before && end == Some(Failure("federation_deadline_exceeded", false, false))
      else if task.status == Completed then asked == 0 && repository.tasks == before && end.None?
      else if task.status == WaitingUser && !clarified then
        asked == 0 && repository.tasks == before && end == Some(WaitingForUser)
      else if task.status == Failed && !task.retryable then
        && asked == 0 && repository.tasks == before
        && end == Some(Failure(if task.failureCode.Some? then task.failureCode.value else "source_task_failed",
                               false, false))
      else asked == 1 && Attempted(before, i, heard, end)
    }

    /** The ending of an attempt is on record. */
    lemma AttemptTold(before: seq<SourceTask>, i: nat, heard: Option<Heard>, end: Option<Outcome>, clock: int)
      requires repository.plan.Some? && i < |before| == |repository.tasks|
      requires Attempted(before, i, heard, end)
      ensures end.Some? ==> Told(end.value, clock)
      ensures end.None? ==> heard.None? || repository.tasks[i].status == Completed
    {
      assert repository.tasks[i] in repository.tasks;
    }

    /** One turn of the task loop: what ends the run before the Ask, or the Ask itself. */
    method RunTask(task: SourceTask, clarified: bool, ghost i: nat)
      returns (end: Option<Outcome>, ghost asked: nat, ghost heard: Option<Heard>, ghost clock: int)
      requires Valid() && repository.plan.Some? && i < |repository.tasks| && repository.tasks[i] == task
      modifies repository`tasks, this`cancelled, this`lost
      ensures lost == old(lost) + Losses(end)
      ensures Valid() && OnlyRow(old(repository.tasks), i) && (old(cancelled) ==> cancelled)
      ensures asked <= 1 && (asked == 1 ==> task.status != Completed)
      ensures end.None? ==> cancelled || repository.tasks[i].status == Completed
      ensures end.Some? ==> Told(end.value, clock)
      ensures TurnOf(old(repository.tasks), i, clarified, clock, heard, asked, end)
    {
      end, asked, heard := None, 0, None;
      var time: int := *;
      clock := time;
      var stop := IsCancelled();
      if stop {
        return Some(Cancelled), 0, None, clock;
      }
      if time >= repository.plan.value.scope.deadline {
        return Some(Failure("federation_deadline_exceeded", false, false)), 0, None, clock;
      }
      if task.status != Completed {
        if task.status == WaitingUser && !clarified {
          end := Some(WaitingForUser);
        } else if task.status == Failed && !task.retryable {
          var code := if task.failureCode.Some? then task.failureCode.value else "source_task_failed";
          end := Some(Failure(code, false, false));
        } else {
          asked := 1;
          ghost var before := repository.tasks;
          end, heard := ExecuteTask(task, i);
          AttemptTold(before, i, heard, end, clock);
        }
      }
    }

    /** The tasks in order; completed ones are passed over, so a resumed run never asks them again. */
    method RunTasks(clarified: bool) returns (end: Option<Outcome>, ghost asks: nat, ghost clock: int)
      requires Valid() && repository.plan.Some?
      modifies repository`tasks, this`cancelled, this`lost
      ensures lost == old(lost) + Losses(end)
      ensures Valid() && CompletedKept(old(repository.tasks), repository.tasks)
      ensures asks + CompletedNumber(old(repository.tasks)) <= |repository.tasks| == |old(repository.tasks)|
      ensures end.None? ==>
                cancelled || forall i :: 0 <= i < |repository.tasks| ==> repository.tasks[i].status == Completed
      ensures end.Some? ==> Told(end.value, clock)
    {
      var rows := repository.tasks;
      end, asks, clock := None, 0, 0;
      for i := 0 to |rows|
        invariant Valid() && repository.plan == old(repository.plan)
        invariant Turns(repository.tasks, rows, i, cancelled) && AsksPaid(rows, i, asks)
        invariant end.None? && lost == old(lost)
      {
        ghost var before, was, asked, heard := repository.tasks, cancelled, 0, None;
        end, asked, heard, clock := RunTask(rows[i], clarified, i);
        AsksStep(rows, i, asks, asked);
        asks := asks + asked;
        RowDone(before, repository.tasks, rows, i, was, cancelled);
        if end.Some? {
          return;
        }
      }
      assert rows[..|rows|] == rows;
    }

    /**
     * A merge that was reached had every task completed, each with evidence of its own datasource. At the
     * deadline it is refused; with a result of more rows than one source may hold the input check refuses it;
     * otherwise only its own size can. The mapping is the one the governance gave, or none where none is named.
     */
    ghost predicate MergedAsPlanned(outcome: Outcome, mapping: Option<Mapping>, clock: int)
      reads repository
    {
      outcome.Merged? || outcome.MergeRefused? ==>
        && repository.plan.Some? && AllCompleted(repository.tasks)
        && OwnEvidence(repository.plan.value, repository.tasks)
        && (mapping.Some? <==> repository.plan.value.merge.mappingId.Some?)
        && if clock >= repository.plan.value.scope.deadline then outcome == MergeRefused("federation_deadline_exceeded")
           else if !RowsFit(repository.plan.value.scope, repository.tasks) then outcome == MergeRefused("result_limit")
           else MergeOnlyTooLarge(env.validDay, env.size, repository.plan.value, ResponsesOf(repository.tasks),
                                  mapping, ResultOf(outcome))
    }

    lemma AllDone()
      requires Valid() && repository.plan.Some?
      requires forall i :: 0 <= i < |repository.tasks| ==> repository.tasks[i].status == Completed
      ensures AllCompleted(repository.tasks) && OwnEvidence(repository.plan.value, repository.tasks)
    {
      assert Holds(PlanStored, repository.plan, repository.tasks, env.size);
      assert Holds(ResultsStored, repository.plan, repository.tasks, env.size);
      assert forall i :: 0 <= i < |repository.tasks| ==> ResultKept(repository.plan.value.scope, repository.tasks[i]);
    }

    /** What the merger returns on the stored results, at some time. */
    lemma MergeBounded(env: Environment, mapping: Option<Mapping>, r: Result<KeyedJoin.Merged>)
      requires Valid() && repository.plan.Some? && AllCompleted(repository.tasks)
      requires env.size == this.env.size
      requires MergeOutcome(env, repository.plan.value.merge, ResponsesOf(repository.tasks),
                            repository.plan.value.scope, mapping, r)
      ensures RowsFit(repository.plan.value.scope, repository.tasks) ==>
                MergeOnlyTooLarge(env.validDay, env.size, repository.plan.value, ResponsesOf(repository.tasks),
                                  mapping, r)
      ensures !RowsFit(repository.plan.value.scope, repository.tasks) ==> r == Err("result_limit")
    {
      assert Holds(PlanStored, repository.plan, repository.tasks, env.size);
      assert Holds(TotalsHeld, repository.plan, repository.tasks, env.size);
      BudgetsCompose(env, repository.plan.value, repository.tasks, mapping, r);
    }

    /** The responses keyed by task, and the merger's inputs read back from them in plan order. */
    method StoredResponses() returns (responses: map<string, Response>)
      requires Valid() && repository.plan.Some? && AllCompleted(repository.tasks)
      ensures
        var ids := repository.plan.value.merge.inputTaskIds;
        && (forall i :: 0 <= i < |ids| ==> ids[i] in responses)
        && Inputs(repository.plan.value.merge, responses) == ResponsesOf(repository.tasks)
    {
      assert Holds(PlanStored, repository.plan, repository.tasks, env.size);
      responses := map[];
      for i := 0 to |repository.tasks|
        invariant forall j :: 0 <= j < i ==>
                    SourceId(j) in responses && responses[SourceId(j)] == repository.tasks[j].response.value
      {
        forall j | 0 <= j < i ensures SourceId(j) != SourceId(i) {
          SourceIdsDiffer(j, i);
        }
        responses := responses[repository.tasks[i].id := repository.tasks[i].response.value];
      }
    }

    /** The merge of a run whose tasks have all completed. */
    method MergeTasks() returns (outcome: Outcome, ghost governed: Option<Mapping>, ghost clock: int)
      requires Valid() && repository.plan.Some?
      requires forall i :: 0 <= i < |repository.tasks| ==> repository.tasks[i].status == Completed
      ensures MergedAsPlanned(outcome, governed, clock)
      ensures outcome.Merged? || outcome.MergeRefused? || outcome.Failure?
      ensures outcome.Failure? ==> outcome.blocked && !outcome.retryable && repository.plan.value.merge.mappingId.Some?
    {
      clock := 0;
      var plan := repository.plan.value;
      AllDone();
      var responses := StoredResponses();
      var mapping := Executable(plan);
      if mapping.Err? {
        return Failure(mapping.code, false, true), None, clock;
      }
      governed := mapping.value;
      var time: int := *;
      clock := time;
      var at := env.(now := time);
      var r := Merge(at, plan.merge, responses, plan.scope, mapping.value);
      outcome := if r.Ok? then Outcome.Merged(r.value) else MergeRefused(r.code);
      if time < plan.scope.deadline {
        MergeBounded(at, mapping.value, r);
        assert r == ResultOf(outcome);
      }
    }

    /** The governance no longer answers for the mapping of a merge whose tasks have all completed. */
    ghost predicate Ungoverned(o: Outcome)
      reads repository
    {
      && o.Failure? && o.blocked && !o.retryable && repository.plan.Some?
      && repository.plan.value.merge.mappingId.Some? && AllCompleted(repository.tasks)
    }

    /** The tasks, and the merge of their results once all have completed. */
    method DriveTasks(clarified: bool)
      returns (outcome: Outcome, ghost asks: nat, ghost governed: Option<Mapping>, ghost clock: int)
      requires Valid() && repository.plan.Some?
      modifies repository`tasks, this`cancelled, this`lost
      ensures lost == old(lost) + Losses(Some(outcome))
      ensures Valid() && CompletedKept(old(repository.tasks), repository.tasks)
      ensures asks + CompletedNumber(old(repository.tasks)) <= |repository.tasks|
      ensures MergedAsPlanned(outcome, governed, clock)
      ensures outcome.Merged? || outcome.MergeRefused? || Told(outcome, clock) || Ungoverned(outcome)
    {
      governed := None;
      var end;
      end, asks, clock := RunTasks(clarified);
      if end.Some? {
        outcome := end.value;
        return;
      }
      var stop := IsCancelled();
      if stop {
        outcome := Cancelled;
        return;
      }
      if exists t :: t in repository.tasks && t.status != Completed {
        outcome := Failure("source_tasks_incomplete", false, false);
        return;
      }
      assert forall i :: 0 <= i < |repository.tasks| ==> repository.tasks[i] in repository.tasks;
      AllDone();
      outcome, governed, clock := MergeTasks();
    }

    /**
     * One drive of a federated run. Completed tasks are never asked again or altered; a merge only
     * happens over a complete set of results. While another run's plan is stored no plan is stored for
     * this one, and only then can the task key refuse one.
     */
    method Drive(workspace: string, allowed: seq<string>, maxRows: int, clarified: bool)
      returns (outcome: Outcome, ghost asks: nat, ghost governed: Option<Mapping>, ghost clock: int,
               ghost proposal: Proposal)
      requires Valid() && OthersSound()
      modifies repository`plan, repository`tasks, this`cancelled, this`lost
      ensures lost == old(lost) + Losses(Some(outcome))
      ensures Valid() && OthersSound() && CompletedKept(old(repository.tasks), repository.tasks)
      ensures old(repository.plan).Some? ==> repository.plan == old(repository.plan)
      ensures asks + CompletedNumber(old(repository.tasks)) <= |repository.tasks|
      ensures MergedAsPlanned(outcome, governed, clock)
      ensures
        || outcome.Merged? || outcome.MergeRefused? || Told(outcome, clock) || Ungoverned(outcome)
        || (old(repository.plan).Some? && Resumed(allowed, Some(outcome)))
        || (old(repository.plan).None? && NewlyPlanned(workspace, allowed, maxRows, proposal, Some(outcome)))
      ensures old(repository.plan).None? && repository.others.plans != map[] ==>
                repository.plan.None? && (outcome == Crashed || outcome.Failure? || outcome == KeyConflict)
      ensures outcome == KeyConflict ==> old(repository.plan).None? && repository.others.plans != map[]
    {
      governed, asks, clock := None, 0, 0;
      Bounded(repository.tasks);
      assert Holds(PlanStored, repository.plan, repository.tasks, env.size);
      var end;
      end, proposal := PlanRun(workspace, allowed, maxRows);
      if end.Some? {
        outcome := end.value;
        return;
      }
      outcome, asks, governed, clock := DriveTasks(clarified);
    }
  }

  /** After i turns: completed rows are kept, later rows as read, earlier ones completed unless cancelled. */
  ghost predicate Turns(tasks: seq<SourceTask>, rows: seq<SourceTask>, i: nat, cancelled: bool) {
    && i <= |rows| == |tasks| && CompletedKept(rows, tasks)
    && (forall j :: i <= j < |rows| ==> tasks[j] == rows[j])
    && (cancelled || forall j :: 0 <= j < i ==> tasks[j].status == Completed)
  }

  lemma RowDone(before: seq<SourceTask>, after: seq<SourceTask>, rows: seq<SourceTask>, i: nat, was: bool,
                cancelled: bool)
    requires Turns(before, rows, i, was) && (was ==> cancelled) && i < |rows|
    requires |after| == |before| && after == before[i := after[i]]
    requires before[i].status == Completed ==> after[i] == before[i]
    ensures CompletedKept(rows, after)
    ensures cancelled || after[i].status == Completed ==> Turns(after, rows, i + 1, cancelled)
  {
  }

  /** The Asks of the first i turns were of tasks not completed before. */
  ghost predicate AsksPaid(rows: seq<SourceTask>, i: nat, asks: nat) {
    i <= |rows| && asks + CompletedNumber(rows[..i]) <= i
  }

  lemma AsksStep(rows: seq<SourceTask>, i: nat, asks: nat, asked: nat)
    requires i < |rows| && AsksPaid(rows, i, asks) && asked <= 1 && (asked == 1 ==> rows[i].status != Completed)
    ensures AsksPaid(rows, i + 1, asks + asked) && asks + asked + CompletedNumber(rows) <= |rows|
  {
    assert rows[..i + 1][..i] == rows[..i];
    NumberMonotone(rows, i + 1);
  }

  /** Every response's evidence names the datasource its task was planned for. */
  ghost predicate OwnEvidence(p: Plan, tasks: seq<SourceTask>) {
    |tasks| == |p.tasks| && forall i :: 0 <= i < |tasks| ==>
      tasks[i].response.Some? && tasks[i].response.value.source == Some(p.tasks[i].draft.datasource)
  }

  function ResultOf(outcome: Outcome): Result<KeyedJoin.Merged>
    requires outcome.Merged? || outcome.MergeRefused?
  {
    if outcome.Merged? then Ok(outcome.result) else Err(outcome.code)
  }

  lemma {:induction false} NumberMonotone(tasks: seq<SourceTask>, i: nat)
    requires i <= |tasks|
    ensures CompletedNumber(tasks[..i]) + (|tasks| - i) >= CompletedNumber(tasks)
    decreases |tasks|
  {
    if i == |tasks| {
      assert tasks[..i] == tasks;
    } else {
      assert tasks[..|tasks| - 1][..i] == tasks[..i];
      NumberMonotone(tasks[..|tasks| - 1], i);
    }
  }
}
