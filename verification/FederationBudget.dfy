/** The row and byte account of a federated run: what its completed tasks hold, and why the merger accepts it. */
module FederationBudget {
  import opened Common
  import opened Responses
  import opened KeyedJoin
  import opened Merger
  import opened MergerFacts
  import opened FederationPlan

  type Size = seq<Row> -> nat

  function ResultRows(t: SourceTask): seq<Row> {
    if t.status == Completed && t.response.Some? && t.response.value.result.Some? then
      t.response.value.result.value.rows
    else []
  }

  predicate Counts(t: SourceTask) {
    t.status == Completed && t.response.Some? && t.response.value.result.Some?
  }

  function CompletedRows(tasks: seq<SourceTask>): nat {
    if tasks == [] then 0
    else
      CompletedRows(tasks[..|tasks| - 1])
      + (if Counts(tasks[|tasks| - 1]) then |ResultRows(tasks[|tasks| - 1])| else 0)
  }

  function CompletedBytes(tasks: seq<SourceTask>, size: Size): nat {
    if tasks == [] then 0
    else
      CompletedBytes(tasks[..|tasks| - 1], size)
      + (if Counts(tasks[|tasks| - 1]) then size(ResultRows(tasks[|tasks| - 1])) else 0)
  }

  function CompletedNumber(tasks: seq<SourceTask>): nat {
    if tasks == [] then 0
    else CompletedNumber(tasks[..|tasks| - 1]) + (if tasks[|tasks| - 1].status == Completed then 1 else 0)
  }

  /** The stored tasks are the plan's, in their order. */
  ghost predicate StoredTasks(p: Plan, tasks: seq<SourceTask>) {
    && |tasks| == |p.tasks|
    && forall i :: 0 <= i < |tasks| ==> tasks[i].id == SourceId(i) && tasks[i].draft == p.tasks[i].draft
  }

  /** A completed task holds a result within the limit of one source, with evidence of its own datasource. */
  ghost predicate ResultKept(scope: Scope, t: SourceTask) {
    t.status == Completed ==>
      && Counts(t) && t.response.value.result.value.rowCount <= scope.maxRowsPerSource
      && t.response.value.source == Some(t.draft.datasource)
  }

  ghost predicate ResultsKept(scope: Scope, tasks: seq<SourceTask>) {
    forall i :: 0 <= i < |tasks| ==> ResultKept(scope, tasks[i])
  }

  /** The completed tasks together stay within the scope's totals. */
  ghost predicate WithinTotals(scope: Scope, tasks: seq<SourceTask>, size: Size) {
    CompletedRows(tasks) <= scope.maxTotalRows && CompletedBytes(tasks, size) <= scope.maxIntermediateBytes
  }

  /** Every result reports as many rows as it holds. */
  ghost predicate RowCountsHonest(tasks: seq<SourceTask>) {
    forall i :: 0 <= i < |tasks| && Counts(tasks[i]) ==>
      tasks[i].response.value.result.value.rowCount == |tasks[i].response.value.result.value.rows|
  }

  /** No completed result holds more rows than one source may. */
  ghost predicate RowsFit(scope: Scope, tasks: seq<SourceTask>) {
    forall i :: 0 <= i < |tasks| && Counts(tasks[i]) ==> |ResultRows(tasks[i])| <= scope.maxRowsPerSource
  }

  /** What was checked on completion was the reported count; where it is honest, the rows themselves fit. */
  lemma HonestRowsFit(scope: Scope, tasks: seq<SourceTask>)
    requires ResultsKept(scope, tasks) && RowCountsHonest(tasks)
    ensures RowsFit(scope, tasks)
  {
    assert forall i :: 0 <= i < |tasks| ==> ResultKept(scope, tasks[i]);
  }

  lemma {:induction false} OneTaskChanged(tasks: seq<SourceTask>, i: nat, t: SourceTask, size: Size)
    requires i < |tasks| && tasks[i].status != Completed
    ensures CompletedRows(tasks[i := t]) == CompletedRows(tasks) + (if Counts(t) then |ResultRows(t)| else 0)
    ensures CompletedBytes(tasks[i := t], size)
            == CompletedBytes(tasks, size) + (if Counts(t) then size(ResultRows(t)) else 0)
  {
    var last := |tasks| - 1;
    if i == last {
      assert tasks[i := t][..last] == tasks[..last];
    } else {
      assert tasks[i := t][..last] == tasks[..last][i := t];
      OneTaskChanged(tasks[..last], i, t, size);
    }
  }

  lemma {:induction false} NothingCompleted(tasks: seq<SourceTask>, size: Size)
    requires forall i :: 0 <= i < |tasks| ==> tasks[i].status != Completed
    ensures CompletedRows(tasks) == 0 && CompletedBytes(tasks, size) == 0
  {
    if tasks != [] {
      NothingCompleted(tasks[..|tasks| - 1], size);
    }
  }

  // ---- The total row check of a task ----

  lemma {:induction false} RowsPerTask(tasks: seq<SourceTask>, max: int)
    requires forall i :: 0 <= i < |tasks| && tasks[i].status == Completed ==>
               Counts(tasks[i]) && |ResultRows(tasks[i])| <= max
    ensures CompletedRows(tasks) <= CompletedNumber(tasks) * max
  {
    if tasks != [] {
      var init := tasks[..|tasks| - 1];
      RowsPerTask(init, max);
      if tasks[|tasks| - 1].status == Completed {
        assert (CompletedNumber(init) + 1) * max == CompletedNumber(init) * max + max;
      }
    }
  }

  lemma {:induction false} OneIncomplete(tasks: seq<SourceTask>, i: nat)
    requires i < |tasks| && tasks[i].status != Completed
    ensures CompletedNumber(tasks) <= |tasks| - 1
  {
    Bounded(tasks[..|tasks| - 1]);
    if i < |tasks| - 1 {
      OneIncomplete(tasks[..|tasks| - 1], i);
    }
  }

  lemma {:induction false} Bounded(tasks: seq<SourceTask>)
    ensures CompletedNumber(tasks) <= |tasks|
  {
    if tasks != [] {
      Bounded(tasks[..|tasks| - 1]);
    }
  }

  lemma Product(done: nat, n: nat, max: nat)
    requires done + 1 <= n
    ensures done * max + max <= n * max
  {
    assert n * max == (done + 1) * max + (n - done - 1) * max;
  }

  /**
   * On a validated plan the running total of rows can only refuse a result if that result, or one that
   * completed before it, holds more rows than one source may.
   */
  lemma TotalRowsNeverRefused(p: Plan, tasks: seq<SourceTask>, i: nat, rows: seq<Row>)
    requires WellFormed(p) && StoredTasks(p, tasks) && ResultsKept(p.scope, tasks)
    requires i < |tasks| && tasks[i].status != Completed
    ensures CompletedRows(tasks) + |rows| > p.scope.maxTotalRows ==>
              |rows| > p.scope.maxRowsPerSource || !RowsFit(p.scope, tasks)
  {
    var max := p.scope.maxRowsPerSource;
    if |rows| <= max && RowsFit(p.scope, tasks) {
      assert forall k :: 0 <= k < |tasks| ==> ResultKept(p.scope, tasks[k]);
      RowsPerTask(tasks, max);
      OneIncomplete(tasks, i);
      Product(CompletedNumber(tasks), |tasks|, max);
    }
  }

  // ---- What the merger is given ----

  function ResponsesOf(tasks: seq<SourceTask>): (inputs: seq<Response>)
    requires forall i :: 0 <= i < |tasks| ==> tasks[i].response.Some?
    ensures |inputs| == |tasks|
  {
    seq(|tasks|, i requires 0 <= i < |tasks| => tasks[i].response.value)
  }

  ghost predicate AllCompleted(tasks: seq<SourceTask>) {
    forall i :: 0 <= i < |tasks| ==> tasks[i].status == Completed && Counts(tasks[i])
  }

  lemma {:induction false} TotalsAgree(tasks: seq<SourceTask>, size: Size)
    requires AllCompleted(tasks)
    ensures SumRows(ResponsesOf(tasks)) == CompletedRows(tasks)
    ensures SumBytes(ResponsesOf(tasks), size) == CompletedBytes(tasks, size)
  {
    if tasks != [] {
      var init := tasks[..|tasks| - 1];
      TotalsAgree(init, size);
      assert ResponsesOf(tasks)[..|init|] == ResponsesOf(init);
    }
  }

  lemma FitsExact(scope: Scope, tasks: seq<SourceTask>)
    requires AllCompleted(tasks)
    ensures AllResults(ResponsesOf(tasks))
    ensures EachWithin(ResponsesOf(tasks), scope.maxRowsPerSource) <==> RowsFit(scope, tasks)
  {
    var inputs := ResponsesOf(tasks);
    assert forall i :: 0 <= i < |tasks| ==>
      inputs[i].result.Some? && inputs[i].result.value.rows == ResultRows(tasks[i]);
  }

  /**
   * When every task has completed, the merger's input checks accept the results exactly when no result
   * holds more rows than one source may.
   */
  lemma MergerAccepts(p: Plan, tasks: seq<SourceTask>, size: Size)
    requires WellFormed(p) && StoredTasks(p, tasks) && WithinTotals(p.scope, tasks, size) && AllCompleted(tasks)
    ensures InputTotals(ResponsesOf(tasks), p.scope, size).Ok? <==> RowsFit(p.scope, tasks)
    ensures !RowsFit(p.scope, tasks) ==> InputTotals(ResponsesOf(tasks), p.scope, size) == Err("result_limit")
  {
    TotalsAgree(tasks, size);
    FitsExact(p.scope, tasks);
    InputsAccepted(ResponsesOf(tasks), p.scope, size);
  }

  /** The merge of a finished run is refused for a limit only when the merged rows encode too large. */
  ghost predicate MergeOnlyTooLarge(validDay: string -> bool, size: Size, p: Plan, inputs: seq<Response>,
                                    mapping: Option<Mapping>, r: Result<Merged>)
  {
    exists o ::
      && OperationOutcome(validDay, p.merge, inputs, mapping, o)
      && (o.Err? ==> r == o)
      && (o.Ok? ==> (r.Err? <==> size(o.value.rows) > p.scope.maxIntermediateBytes)
                    && (r.Err? ==> r == Err("result_limit"))
                    && (r.Ok? ==> r.value.rows == o.value.rows && r.value.rowCount == o.value.rowCount))
  }

  /**
   * The merge of a finished run, in both cases: with results that fit one source's limit nothing but the
   * size of the outcome can be refused, and with any other the input check refuses.
   */
  lemma BudgetsCompose(env: Environment, p: Plan, tasks: seq<SourceTask>, mapping: Option<Mapping>, r: Result<Merged>)
    requires WellFormed(p) && StoredTasks(p, tasks) && WithinTotals(p.scope, tasks, env.size) && AllCompleted(tasks)
    requires MergeOutcome(env, p.merge, ResponsesOf(tasks), p.scope, mapping, r)
    ensures RowsFit(p.scope, tasks) ==> MergeOnlyTooLarge(env.validDay, env.size, p, ResponsesOf(tasks), mapping, r)
    ensures !RowsFit(p.scope, tasks) ==> r == Err("result_limit")
  {
    MergerAccepts(p, tasks, env.size);
    if RowsFit(p.scope, tasks) {
      InputsAccepted(ResponsesOf(tasks), p.scope, env.size);
      OnlyOutputBytesCanFail(env, p.merge, ResponsesOf(tasks), p.scope, mapping, r);
    }
  }
}
