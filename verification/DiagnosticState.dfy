/**
 * The durable diagnostic loop as a state machine.
 *
 * One event is one durable write, one read that refreshes the driver's copies, or a crash. The
 * driver's copies live in memory and are lost by a crash; the two tables are not. Every write is
 * guarded by the tests the coordinator makes on its own copies and by the revision it read.
 */
module DiagnosticState {
  import opened Common
  import opened QuestionPolicy

  datatype Status = Planned | Running | Completed | WaitingUser | Failed | Skipped

  /** What an Ask attempt left behind, as far as the loop reads it back. */
  datatype Answer =
    | Clarification(missingData: bool)
    | Verified(source: string)
    | Unverified
    | Refused(code: string)

  datatype Task = Task(id: string, round: nat, ordinal: nat, question: string, purpose: string, status: Status,
                       attempt: nat, answer: Option<Answer>, evidenceRef: Option<string>,
                       failureCode: Option<string>, retryable: bool, revision: nat)

  datatype Checkpoint = Checkpoint(currentRound: nat, questionsPlanned: nat, questionsCompleted: nat,
                                   remainingBudget: int, source: Option<string>, pending: Option<string>,
                                   refs: seq<string>, revision: nat)

  /** The rows of one run: its checkpoint, and its tasks in (round, ordinal) order. */
  datatype Db = Db(checkpoint: Checkpoint, tasks: seq<Task>)

  datatype Config = Config(runId: string, budget: Budget, scope: seq<string>, key: KeyFunction)

  datatype Driver =
    | Down
    | Opened(cp: Checkpoint)
    | Ready(cp: Checkpoint)
    | Started(cp: Checkpoint, i: nat, task: Task)
    | Asking(cp: Checkpoint, i: nat, task: Task)
    | Answered(cp: Checkpoint, next: Checkpoint)

  datatype State = State(db: Db, driver: Driver)

  datatype Event =
    | Crash
    | Recover(i: nat)
    | Open
    | Repair
    | InitBudget
    | Plan(decision: Decision, ids: seq<string>)
    | Begin(i: nat)
    | MarkPending
    | AskCancelled
    | AskFailed(code: string, answer: Option<Answer>)
    | AskWaits
    | AskUnavailable
    | AskVerified(source: string)
    | Settle

  // ---- Rows ----

  predicate Finished(t: Task) { t.status == Completed || t.status == Skipped }

  predicate IsTransient(code: string) {
    code in {"model_invocation_failed", "graph_unavailable", "datasource_unavailable", "timeout",
             "temporary_unavailable", "rate_limited", "transient_network", "execution_failed",
             "run_interrupted", "task_interrupted"}
  }

  function EvidenceRef(runId: string, taskId: string): string {
    "evidence:" + runId + ":" + taskId
  }

  predicate HasEvidence(t: Task) { t.status == Completed && t.evidenceRef.Some? }

  /** The evidence references of the completed tasks, in (round, ordinal) order. */
  function Refs(tasks: seq<Task>): seq<string> {
    if tasks == [] then []
    else
      var last := tasks[|tasks| - 1];
      Refs(tasks[..|tasks| - 1]) + (if HasEvidence(last) then [last.evidenceRef.value] else [])
  }

  function CompletedCount(tasks: seq<Task>): nat {
    if tasks == [] then 0
    else CompletedCount(tasks[..|tasks| - 1]) + (if tasks[|tasks| - 1].status == Completed then 1 else 0)
  }

  /** The source recorded in the answer of the first completed task that carries evidence. */
  function FirstSource(tasks: seq<Task>): Option<string> {
    if tasks == [] then None
    else if HasEvidence(tasks[0]) then
      match tasks[0].answer
      case Some(Verified(source)) => Some(source)
      case _ => None
    else FirstSource(tasks[1..])
  }

  function SeenKeys(key: KeyFunction, tasks: seq<Task>): set<string> {
    set t | t in tasks :: key(t.question)
  }

  predicate RoundDone(db: Db) {
    forall t :: t in db.tasks && t.round == db.checkpoint.currentRound ==> Finished(t)
  }

  /** `bool(checkpoint.diagnostic_datasource_id)`: an empty identifier does not lock. */
  predicate Locked(cp: Checkpoint) {
    cp.source.Some? && cp.source.value != ""
  }

  function InitialCheckpoint(): Checkpoint {
    Checkpoint(0, 0, 0, 0, None, None, [], 0)
  }

  function Initial(): State {
    State(Db(InitialCheckpoint(), []), Down)
  }

  // ---- Guarded writes ----

  /** `save_checkpoint`: accepted only on the revision the writer read. */
  function SaveCheckpoint(db: Db, cp: Checkpoint): Option<Db> {
    if db.checkpoint.revision == cp.revision then Some(db.(checkpoint := cp.(revision := cp.revision + 1))) else None
  }

  /** `save_task` on row i: accepted only on the row and revision the writer read. */
  function SaveTask(db: Db, i: nat, t: Task): Option<Db> {
    if i < |db.tasks| && db.tasks[i].id == t.id && db.tasks[i].revision == t.revision then
      Some(db.(tasks := db.tasks[i := t.(revision := t.revision + 1)]))
    else None
  }

  function PlannedTask(round: nat, ordinal: nat, id: string, q: Question, status: Status): Task {
    Task(id, round, ordinal, q.question, q.purpose, status, 0, None, None, None, false, 0)
  }

  /** The batch of a round: the selected questions, then the repeats, numbered from one. */
  function Batch(round: nat, ids: seq<string>, s: Selection): seq<Task>
    requires |ids| == |s.selected| + |s.duplicates|
  {
    seq(|ids|, i requires 0 <= i < |ids| =>
      if i < |s.selected| then PlannedTask(round, i + 1, ids[i], s.selected[i], Planned)
      else PlannedTask(round, i + 1, ids[i], s.duplicates[i - |s.selected|], Skipped))
  }

  /** Identifiers the primary key accepts: distinct, and not in the table. */
  predicate NewIds(tasks: seq<Task>, ids: seq<string>) {
    && (forall i, j :: 0 <= i < j < |ids| ==> ids[i] != ids[j])
    && forall i, t :: 0 <= i < |ids| && t in tasks ==> t.id != ids[i]
  }

  /** `plan_round`: the batch and its budget in one transaction. */
  function PlanRound(db: Db, cp: Checkpoint, batch: seq<Task>, planned: nat): Option<Db> {
    if db.checkpoint.revision == cp.revision then
      Some(Db(cp.(revision := cp.revision + 1, currentRound := cp.currentRound + 1,
                  questionsPlanned := cp.questionsPlanned + planned,
                  remainingBudget := cp.remainingBudget - planned),
              db.tasks + batch))
    else None
  }

  // ---- Steps ----

  function OnDown(db: Db, driver: Option<Db>): Option<State> {
    if driver.Some? then Some(State(driver.value, Down)) else None
  }

  function Recovered(t: Task): Task {
    t.(status := Failed, failureCode := Some("task_interrupted"), retryable := true)
  }

  function Repaired(db: Db, cp: Checkpoint): Checkpoint {
    cp.(questionsCompleted := CompletedCount(db.tasks), refs := Refs(db.tasks),
        source := if Refs(db.tasks) != [] && cp.source.None? then FirstSource(db.tasks) else cp.source)
  }

  predicate NeedsRepair(db: Db, cp: Checkpoint) {
    cp.questionsCompleted != CompletedCount(db.tasks) || cp.refs != Refs(db.tasks)
  }

  function Saved(db: Option<Db>): Option<State> {
    if db.Some? then Some(State(db.value, Ready(db.value.checkpoint))) else None
  }

  function StepRepair(s: State): Option<State>
    requires s.driver.Opened?
  {
    var cp := s.driver.cp;
    if NeedsRepair(s.db, cp) then Saved(SaveCheckpoint(s.db, Repaired(s.db, cp))) else Some(State(s.db, Ready(cp)))
  }

  function StepInit(cfg: Config, s: State): Option<State>
    requires s.driver.Ready?
  {
    var cp := s.driver.cp;
    if cp.currentRound == 0 && cp.remainingBudget == 0 then
      Saved(SaveCheckpoint(s.db, cp.(remainingBudget := cfg.budget.maxQuestions,
                                     source := if cfg.scope == [] then None else Some(cfg.scope[0]))))
    else None
  }

  function StepPlan(cfg: Config, s: State, decision: Decision, ids: seq<string>): Option<State>
    requires s.driver.Ready?
  {
    var cp := s.driver.cp;
    if !RoundDone(Db(cp, s.db.tasks)) || cp.currentRound >= cfg.budget.maxRounds || cp.remainingBudget <= 0
       || decision.action == Clarify then None
    else
      match SelectionOf(cfg.key, decision, SeenKeys(cfg.key, s.db.tasks), cp.remainingBudget, cfg.budget)
      case Err(_) => None
      case Ok(sel) =>
        if |ids| != |sel.selected| + |sel.duplicates| || !NewIds(s.db.tasks, ids) then None
        else Saved(PlanRound(s.db, cp, Batch(cp.currentRound + 1, ids, sel), |sel.selected|))
  }

  function StepBegin(s: State, i: nat): Option<State>
    requires s.driver.Ready?
  {
    var cp := s.driver.cp;
    if i >= |s.db.tasks| then None
    else
      var t := s.db.tasks[i];
      if t.round != cp.currentRound || Finished(t) || (t.status == Failed && !t.retryable)
         || (exists j :: 0 <= j < i && s.db.tasks[j].round == cp.currentRound && !Finished(s.db.tasks[j])) then None
      else
        var running := t.(status := Running, attempt := t.attempt + 1, failureCode := None, retryable := false);
        match SaveTask(s.db, i, running)
        case None => None
        case Some(db) => Some(State(db, Started(cp, i, db.tasks[i])))
  }

  function StepMarkPending(s: State): Option<State>
    requires s.driver.Started?
  {
    match SaveCheckpoint(s.db, s.driver.cp.(pending := Some(s.driver.task.id)))
    case None => None
    case Some(db) => Some(State(db, Asking(db.checkpoint, s.driver.i, s.driver.task)))
  }

  /** A failed or waiting attempt ends the drive: the exception or the early return leaves it. */
  function StepAskEnds(s: State, t: Task): Option<State>
    requires s.driver.Asking?
  {
    OnDown(s.db, SaveTask(s.db, s.driver.i, t))
  }

  function StepCancelled(s: State): Option<State>
    requires s.driver.Asking?
  {
    match SaveTask(s.db, s.driver.i, s.driver.task.(status := Skipped))
    case None => None
    case Some(db) => Some(State(db, Ready(s.driver.cp)))
  }

  function StepUnavailable(s: State): Option<State>
    requires s.driver.Asking?
  {
    var cp := s.driver.cp;
    match SaveTask(s.db, s.driver.i, s.driver.task.(status := Completed, answer := Some(Clarification(true))))
    case None => None
    case Some(db) =>
      Some(State(db, Answered(cp, cp.(pending := None, questionsCompleted := cp.questionsCompleted + 1))))
  }

  function StepVerified(cfg: Config, s: State, source: string): Option<State>
    requires s.driver.Asking?
  {
    var cp, t := s.driver.cp, s.driver.task;
    // Evidence always names its datasource: the identifier is validated to be non-empty.
    if source == "" || (Locked(cp) && source != cp.source.value) then None
    else
      var ref := EvidenceRef(cfg.runId, t.id);
      match SaveTask(s.db, s.driver.i,
                     t.(status := Completed, answer := Some(Verified(source)), evidenceRef := Some(ref)))
      case None => None
      case Some(db) =>
        Some(State(db, Answered(cp, cp.(source := Some(source), pending := None,
                                        questionsCompleted := cp.questionsCompleted + 1,
                                        refs := cp.refs + [ref]))))
  }

  function StepSettle(s: State): Option<State>
    requires s.driver.Answered?
  {
    Saved(SaveCheckpoint(s.db, s.driver.next))
  }

  /** The state after one event, or None where the coordinator cannot take it. */
  function Apply(cfg: Config, s: State, e: Event): Option<State> {
    match e
    case Crash => Some(s.(driver := Down))
    case Recover(i) =>
      if s.driver.Down? && i < |s.db.tasks| && s.db.tasks[i].status == Running then
        OnDown(s.db, SaveTask(s.db, i, Recovered(s.db.tasks[i])))
      else None
    case Open => if s.driver.Down? then Some(s.(driver := Opened(s.db.checkpoint))) else None
    case Repair => if s.driver.Opened? then StepRepair(s) else None
    case InitBudget => if s.driver.Ready? then StepInit(cfg, s) else None
    case Plan(decision, ids) => if s.driver.Ready? then StepPlan(cfg, s, decision, ids) else None
    case Begin(i) => if s.driver.Ready? then StepBegin(s, i) else None
    case MarkPending => if s.driver.Started? then StepMarkPending(s) else None
    case AskCancelled => if s.driver.Asking? then StepCancelled(s) else None
    case AskFailed(code, answer) =>
      if s.driver.Asking? then
        StepAskEnds(s, s.driver.task.(status := Failed, answer := if answer.Some? then answer else s.driver.task.answer,
                                      failureCode := Some(code), retryable := IsTransient(code)))
      else None
    case AskWaits =>
      if s.driver.Asking? then
        StepAskEnds(s, s.driver.task.(status := WaitingUser, answer := Some(Clarification(false))))
      else None
    case AskUnavailable => if s.driver.Asking? then StepUnavailable(s) else None
    case AskVerified(source) => if s.driver.Asking? then StepVerified(cfg, s, source) else None
    case Settle => if s.driver.Answered? then StepSettle(s) else None
  }

  /** The state a run reaches, crashes and restarts included; None when some event was not possible. */
  function Replay(cfg: Config, events: seq<Event>): Option<State> {
    if events == [] then Some(Initial())
    else
      match Replay(cfg, events[..|events| - 1])
      case None => None
      case Some(s) => Apply(cfg, s, events[|events| - 1])
  }

  /** The states a run went through, one more than its events. */
  ghost predicate Traced(cfg: Config, events: seq<Event>, states: seq<State>, last: State) {
    && |states| == |events| + 1 && states[0] == Initial() && states[|events|] == last
    && forall i :: 0 <= i < |events| ==> Apply(cfg, states[i], events[i]) == Some(states[i + 1])
  }

  lemma {:induction false} TracedReplay(cfg: Config, events: seq<Event>, states: seq<State>, last: State)
    requires Traced(cfg, events, states, last)
    ensures Replay(cfg, events) == Some(last)
  {
    if events != [] {
      var n := |events| - 1;
      TracedReplay(cfg, events[..n], states[..n + 1], states[n]);
      assert Apply(cfg, states[n], events[n]) == Some(states[n + 1]);
    }
  }

  /** The events lead to the state. */
  ghost predicate Reaches(cfg: Config, events: seq<Event>, s: State) {
    exists states :: Traced(cfg, events, states, s)
  }

  lemma {:induction false} ReplayTraced(cfg: Config, events: seq<Event>) returns (states: seq<State>)
    requires Replay(cfg, events).Some?
    ensures Traced(cfg, events, states, Replay(cfg, events).value)
  {
    if events == [] {
      states := [Initial()];
    } else {
      var n := |events| - 1;
      var init := ReplayTraced(cfg, events[..n]);
      states := init + [Replay(cfg, events).value];
      forall i | 0 <= i < |events| ensures Apply(cfg, states[i], events[i]) == Some(states[i + 1]) {
        if i < n {
          assert Apply(cfg, init[i], events[..n][i]) == Some(init[i + 1]);
        }
      }
    }
  }

  /** A state is reached by a run exactly when replaying the run gives it. */
  lemma ReachesReplays(cfg: Config, events: seq<Event>, s: State)
    ensures Reaches(cfg, events, s) <==> Replay(cfg, events) == Some(s)
  {
    if Replay(cfg, events) == Some(s) {
      var states := ReplayTraced(cfg, events);
    }
    if Reaches(cfg, events, s) {
      var states :| Traced(cfg, events, states, s);
      TracedReplay(cfg, events, states, s);
    }
  }
}
