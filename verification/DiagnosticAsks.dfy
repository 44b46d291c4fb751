/** What the diagnostic loop hears from an Ask, and what each ending means for the task and the drive. */
module DiagnosticAsks {
  import opened Common
  import opened DiagnosticState

  /** Evidence names its datasource: the field is validated to be non-empty. */
  type SourceId = s: string | s != "" witness "s"

  datatype AskStatus = AskCompleted | ClarificationRequired | AskFailedStatus

  /** `missing` and `options` describe the clarification: a missing-data marker, offered options. */
  datatype AskResponse = AskResponse(status: AskStatus, missing: bool, options: bool, error: Option<string>,
                                     evidence: Option<SourceId>, hasResult: bool)

  /** All an Ask stream leaves behind: it raised, or it ended with the last response and exception seen. */
  datatype Attempt = Raised(code: string) | Ended(response: Option<AskResponse>, failure: Option<string>)

  datatype Outcome =
    | Crashed
    | Cancelled
    | WaitingForUser
    | Failure(code: string, retryable: bool, blocked: bool)
    | Concluded(refs: seq<string>, deterministic: bool)

  /** How often the process ended before the outcome. */
  ghost function Losses(end: Option<Outcome>): nat {
    if end == Some(Crashed) then 1 else 0
  }

  // ---- What an ending means ----

  /** The task keeps the code and what was answered, and the drive raises the code. */
  ghost predicate FailedWith(task: Task, row: Task, end: Option<Outcome>, code: string, retryable: bool, blocked: bool,
                             answer: Option<Answer>)
  {
    && end == Some(Failure(code, retryable, blocked))
    && row == task.(status := Failed, answer := answer, failureCode := Some(code), retryable := retryable,
                    revision := task.revision + 1)
  }

  /** The task is completed and reported: one more answer, no task pending. */
  ghost predicate CompletedWith(task: Task, cp: Checkpoint, row: Task, next: Checkpoint, end: Option<Outcome>,
                                answer: Answer)
  {
    && end.None? && row.status == Completed && row.answer == Some(answer)
    && row == task.(status := Completed, answer := row.answer, evidenceRef := row.evidenceRef,
                    revision := task.revision + 1)
    && next.questionsCompleted == cp.questionsCompleted + 1
    && next == cp.(revision := cp.revision + 1, questionsCompleted := next.questionsCompleted, pending := None,
                   source := next.source, refs := next.refs)
  }

  /** Without data: nothing is cited, and the source stays as it was. */
  ghost predicate WithoutEvidence(task: Task, cp: Checkpoint, row: Task, next: Checkpoint) {
    row.evidenceRef == task.evidenceRef && next.source == cp.source && next.refs == cp.refs
  }

  /** With evidence: the run's and task's reference is stored, appended to the report, and the source recorded. */
  ghost predicate WithEvidence(runId: string, task: Task, cp: Checkpoint, row: Task, next: Checkpoint,
                               source: string)
  {
    && row.evidenceRef == Some("evidence:" + runId + ":" + task.id)
    && next.source == Some(source) && next.refs == cp.refs + ["evidence:" + runId + ":" + task.id]
  }

  /** What an Ask that ended makes of its task, case by case of what the last response says. */
  ghost predicate Verdict(runId: string, task: Task, cp: Checkpoint, ended: Option<AskResponse>,
                          failure: Option<string>, row: Task, next: Checkpoint, end: Option<Outcome>)
  {
    && (ended.None? ==> FailedWith(task, row, end, "ask_failed", false, false, task.answer))
    && (ended.Some? ==>
          var r := ended.value;
          && (r.status == ClarificationRequired && r.missing && !r.options ==>
                CompletedWith(task, cp, row, next, end, Clarification(true)) && WithoutEvidence(task, cp, row, next))
          && (r.status == ClarificationRequired && (!r.missing || r.options) ==>
                && end == Some(WaitingForUser)
                && row == task.(status := WaitingUser, answer := Some(Clarification(false)),
                                revision := task.revision + 1))
          && (r.status == AskFailedStatus || (r.status == AskCompleted && failure.Some?) ==>
                exists code :: Raises(r, failure, code)
                               && FailedWith(task, row, end, code, IsTransient(code), false, Some(Refused(code))))
          && (r.status == AskCompleted && failure.None? && (r.evidence.None? || !r.hasResult) ==>
                FailedWith(task, row, end, "diagnostic_unverified_result", false, false, Some(Unverified)))
          && (r.status == AskCompleted && failure.None? && r.evidence.Some? && r.hasResult ==>
                var source := r.evidence.value;
                if cp.source.Some? && cp.source.value != "" && cp.source.value != source then
                  FailedWith(task, row, end, "diagnostic_datasource_mismatch", false, true, Some(Verified(source)))
                else
                  && CompletedWith(task, cp, row, next, end, Verified(source))
                  && WithEvidence(runId, task, cp, row, next, source)))
  }

  /** The code of a failed response: its own, else that of the exception seen, else a general one. */
  ghost predicate Raises(r: AskResponse, failure: Option<string>, code: string) {
    && (r.error.Some? ==> r.error.value == code)
    && (r.error.None? && failure.Some? ==> failure.value == code)
    && (r.error.None? && failure.None? ==> code == "ask_failed")
  }

  /** What is left when the process ends on the way: the row untouched, or written and not yet reported. */
  ghost predicate Interrupted(runId: string, task: Task, cp: Checkpoint, ended: Option<AskResponse>,
                              failure: Option<string>, row: Task, checkpoint: Checkpoint)
  {
    checkpoint == cp && (row == task || exists next :: Verdict(runId, task, cp, ended, failure, row, next, None))
  }

  /** What an attempt makes of its task; nothing is heard of a cancelled one. */
  ghost predicate AttemptEnds(runId: string, task: Task, cp: Checkpoint, heard: Option<Attempt>, row: Task,
                              checkpoint: Checkpoint, next: Checkpoint, end: Option<Outcome>)
  {
    match heard
    case None =>
      && checkpoint == cp
      && if end == Some(Crashed) then row == task
         else end.None? && next == cp && row == task.(status := Skipped, revision := task.revision + 1)
    case Some(Raised(code)) =>
      && checkpoint == cp
      && if end == Some(Crashed) then row == task
         else FailedWith(task, row, end, code, IsTransient(code), false, task.answer)
    case Some(Ended(response, failure)) =>
      if end == Some(Crashed) then Interrupted(runId, task, cp, response, failure, row, checkpoint)
      else Verdict(runId, task, cp, response, failure, row, next, end) && (end.None? ==> checkpoint == next)
  }

  /** The task as an attempt starts it: one more attempt, running, its last failure forgotten. */
  function Begun(task: Task): Task {
    task.(status := Running, attempt := task.attempt + 1, failureCode := None, retryable := false,
          revision := task.revision + 1)
  }

  function Pending(cp: Checkpoint, task: Task): Checkpoint {
    cp.(pending := Some(task.id), revision := cp.revision + 1)
  }

  // ---- What follows ----

  /** A task is completed exactly by an answer that the data is missing, or by admissible evidence with a result. */
  lemma CompletedExactly(runId: string, task: Task, cp: Checkpoint, ended: Option<AskResponse>,
                         failure: Option<string>, row: Task, next: Checkpoint, end: Option<Outcome>)
    requires Verdict(runId, task, cp, ended, failure, row, next, end)
    ensures row.status == Completed <==> end.None?
    ensures end.None? <==>
              && ended.Some?
              && var r := ended.value;
                 || (r.status == ClarificationRequired && r.missing && !r.options)
                 || (r.status == AskCompleted && failure.None? && r.evidence.Some? && r.hasResult
                     && (!Locked(cp) || cp.source == Some(r.evidence.value)))
    ensures end == Some(WaitingForUser) <==>
              ended.Some? && ended.value.status == ClarificationRequired
              && !(ended.value.missing && !ended.value.options)
    ensures row.status == Completed && row.answer != Some(Clarification(true)) ==>
              row.answer == Some(Verified(ended.value.evidence.value))
  {
  }

  /** An interrupted attempt may be retried after the restart; what was decided about evidence may not. */
  lemma RetriedCodes(task: Task)
    ensures Recovered(task).failureCode.Some? && IsTransient(Recovered(task).failureCode.value)
    ensures Recovered(task).status == Failed && Recovered(task).retryable
    ensures Recovered(task) == task.(status := Failed, failureCode := Recovered(task).failureCode, retryable := true)
    ensures !IsTransient("ask_failed") && !IsTransient("diagnostic_unverified_result")
    ensures !IsTransient("diagnostic_datasource_mismatch") && !IsTransient("diagnostic_task_failed")
  {
    assert |"ask_failed"| == 10 && |"diagnostic_unverified_result"| == 28;
    assert |"diagnostic_datasource_mismatch"| == 30 && |"diagnostic_task_failed"| == 22;
  }

  /** The codes after which a task may be asked again are the ten of the list. */
  lemma TransientCodes(code: string)
    ensures IsTransient(code) <==>
              || code == "model_invocation_failed" || code == "graph_unavailable" || code == "datasource_unavailable"
              || code == "timeout" || code == "temporary_unavailable" || code == "rate_limited"
              || code == "transient_network" || code == "execution_failed" || code == "run_interrupted"
              || code == "task_interrupted"
  {
  }
}
