/** What a federated run hears from an Ask, and what each ending means for its source task and the drive. */
module FederationAsks {
  import opened Common
  import opened Responses
  import opened KeyedJoin
  import opened Merger
  import opened FederationPlan
  import opened FederationBudget

  datatype AskStatus = AskCompleted | ClarificationRequired | AskFailed

  /** The last response of an Ask: its status, its error if any, and its data with the source of its evidence. */
  datatype AskResponse = AskResponse(status: AskStatus, error: Option<string>, data: Response)

  /** All an Ask stream leaves behind: the last response and the last exception seen. */
  datatype Heard = Heard(response: Option<AskResponse>, failure: Option<string>)

  /** `KeyConflict`: the key of the task table refused the rows of a new plan. */
  datatype Outcome =
    | Crashed
    | Cancelled
    | WaitingForUser
    | Failure(code: string, retryable: bool, blocked: bool)
    | KeyConflict
    | MergeRefused(code: string)
    | Merged(result: KeyedJoin.Merged)

  predicate IsTransient(code: string) {
    code in {"model_invocation_failed", "graph_unavailable", "datasource_unavailable", "timeout",
             "temporary_unavailable", "rate_limited", "transient_network", "task_interrupted", "run_interrupted"}
  }

  /** How often the process ended before the outcome. */
  ghost function Losses(end: Option<Outcome>): nat {
    if end == Some(Crashed) then 1 else 0
  }

  // ---- What an ending means ----

  /** The task keeps the code, and the drive raises it. */
  ghost predicate FailedWith(t: SourceTask, row: SourceTask, end: Option<Outcome>, code: string) {
    && end == Some(Failure(code, IsTransient(code), false))
    && row == t.(status := Failed, failureCode := Some(code), retryable := IsTransient(code),
                 revision := t.revision + 1)
  }

  /** The response is a result, and its evidence names the datasource the task was planned for. */
  ghost predicate VerifiedFor(t: SourceTask, heard: Heard) {
    && heard.failure.None? && heard.response.Some? && heard.response.value.status == AskCompleted
    && heard.response.value.data.result.Some? && heard.response.value.data.source == Some(t.draft.datasource)
  }

  /** The result fits its own limits, and what the completed tasks have left of the run's. */
  ghost predicate Fits(scope: Scope, tasks: seq<SourceTask>, size: Size, result: QueryResult) {
    && result.rowCount <= scope.maxRowsPerSource && size(result.rows) <= scope.maxIntermediateBytes
    && CompletedRows(tasks) + |result.rows| <= scope.maxTotalRows
    && CompletedBytes(tasks, size) + size(result.rows) <= scope.maxIntermediateBytes
  }

  /** What a result of the right source makes of its task. */
  ghost predicate Accepted(scope: Scope, tasks: seq<SourceTask>, size: Size, t: SourceTask, data: Response,
                           row: SourceTask, end: Option<Outcome>)
    requires data.result.Some?
  {
    if Fits(scope, tasks, size, data.result.value) then
      end.None? && row == t.(status := Completed, response := Some(data), revision := t.revision + 1)
    else FailedWith(t, row, end, "result_limit")
  }

  /** What an Ask that ended makes of its task, case by case of what was heard. */
  ghost predicate Verdict(scope: Scope, tasks: seq<SourceTask>, size: Size, t: SourceTask, heard: Heard,
                          row: SourceTask, end: Option<Outcome>)
  {
    && (heard.failure.Some? ==> FailedWith(t, row, end, heard.failure.value))
    && (heard.failure.None? && heard.response.None? ==> FailedWith(t, row, end, "ask_failed"))
    && (heard.failure.None? && heard.response.Some? ==>
          var r := heard.response.value;
          && (r.status == ClarificationRequired ==>
                && end == Some(WaitingForUser)
                && row == t.(status := WaitingUser, response := Some(r.data), revision := t.revision + 1))
          && (r.status != ClarificationRequired && !VerifiedFor(t, heard) ==>
                && (r.error.Some? ==> FailedWith(t, row, end, r.error.value))
                && (r.error.None? ==> FailedWith(t, row, end, "source_unverified_result")))
          && (VerifiedFor(t, heard) ==> Accepted(scope, tasks, size, t, r.data, row, end)))
  }

  /** What an attempt makes of its task; nothing is heard of a cancelled one. A lost write leaves it as it was. */
  ghost predicate AttemptEnds(scope: Scope, tasks: seq<SourceTask>, size: Size, t: SourceTask, heard: Option<Heard>,
                              row: SourceTask, end: Option<Outcome>)
  {
    if end == Some(Crashed) then row == t
    else
      match heard
      case None =>
        end.None? && row == t.(status := Skipped, failureCode := Some("cancelled"), revision := t.revision + 1)
      case Some(h) => Verdict(scope, tasks, size, t, h, row, end)
  }

  /** The task as an attempt starts it: one more attempt, running, its last failure forgotten. */
  function Begun(t: SourceTask): SourceTask {
    t.(status := Running, attempt := t.attempt + 1, failureCode := None, retryable := false, revision := t.revision + 1)
  }

  /** A task found RUNNING at a restart. */
  function Restarted(t: SourceTask): SourceTask {
    t.(status := Failed, failureCode := Some("task_interrupted"), retryable := true, revision := t.revision + 1)
  }

  // ---- What follows ----

  /** A task is completed exactly by a fitting result whose evidence names its own datasource, and holds it. */
  lemma CompletedExactly(scope: Scope, tasks: seq<SourceTask>, size: Size, t: SourceTask, heard: Heard,
                         row: SourceTask, end: Option<Outcome>)
    requires Verdict(scope, tasks, size, t, heard, row, end)
    ensures row.status == Completed <==> end.None?
    ensures end.None? <==>
              && heard.failure.None? && heard.response.Some? && heard.response.value.status == AskCompleted
              && heard.response.value.data.source == Some(t.draft.datasource)
              && heard.response.value.data.result.Some?
              && Fits(scope, tasks, size, heard.response.value.data.result.value)
    ensures row.status == Completed ==> row.response == Some(heard.response.value.data)
    ensures end == Some(WaitingForUser) <==>
              heard.failure.None? && heard.response.Some? && heard.response.value.status == ClarificationRequired
  {
  }

  /** The codes after which a source may be asked again are the nine of the list. */
  lemma TransientCodes(code: string)
    ensures IsTransient(code) <==>
              || code == "model_invocation_failed" || code == "graph_unavailable" || code == "datasource_unavailable"
              || code == "timeout" || code == "temporary_unavailable" || code == "rate_limited"
              || code == "transient_network" || code == "run_interrupted" || code == "task_interrupted"
  {
  }

  /** A restart's failures may be retried; a verdict on the evidence or its size may not. */
  lemma RetriedCodes()
    ensures IsTransient("task_interrupted") && !IsTransient("source_unverified_result")
    ensures !IsTransient("result_limit") && !IsTransient("ask_failed")
  {
    assert |"source_unverified_result"| == 24 && |"result_limit"| == 12 && |"ask_failed"| == 10;
    assert "result_limit"[0] == 'r' && "rate_limited"[1] == 'a';
  }
}
