/**
 * The diagnostic repository and coordinator, statement by statement.
 *
 * Every durable write may be preceded by the end of the process, cancellation may arrive at any test
 * of it, and the planner and the Ask may answer anything. The coordinator's ghost history records the
 * events its writes amount to, so everything proved of runs holds of this code.
 */
module DiagnosticCoordinator {
  import opened Common
  import opened PlainText
  import opened QuestionPolicy
  import opened DiagnosticState
  import opened DiagnosticRuns
  import opened DiagnosticTheorems
  import opened DiagnosticAsks

  // ---- Repository ----

  /** The tables' keys accept a batch: new identifiers, new (round, ordinal) pairs. */
  predicate Insertable(tasks: seq<Task>, batch: seq<Task>) {
    && (forall i, j :: 0 <= i < j < |batch| ==> batch[i].id != batch[j].id && !SamePlace(batch[i], batch[j]))
    && (forall i, t :: 0 <= i < |batch| && t in tasks ==> t.id != batch[i].id && !SamePlace(t, batch[i]))
  }

  predicate SamePlace(a: Task, b: Task) {
    a.round == b.round && a.ordinal == b.ordinal
  }

  function PlannedIn(batch: seq<Task>): nat {
    if batch == [] then 0
    else PlannedIn(batch[..|batch| - 1]) + (if batch[|batch| - 1].status == Planned then 1 else 0)
  }

  /** The rows of one run, updated in place. */
  class DiagnosticRepository {
    var checkpoint: Checkpoint
    var tasks: seq<Task>

    function Contents(): Db
      reads this
    {
      Db(checkpoint, tasks)
    }

    constructor ()
      ensures Contents() == Initial().db
    {
      checkpoint, tasks := InitialCheckpoint(), [];
    }

    method SaveCheckpoint(state: Checkpoint) returns (r: Result<Checkpoint>)
      modifies this`checkpoint
      ensures match DiagnosticState.SaveCheckpoint(old(Contents()), state)
              case Some(db) => Contents() == db && r == Ok(db.checkpoint)
              case None => checkpoint == old(checkpoint) && r == Err("diagnostic checkpoint revision conflict")
    {
      if checkpoint.revision != state.revision {
        return Err("diagnostic checkpoint revision conflict");
      }
      checkpoint := state.(revision := state.revision + 1);
      r := Ok(checkpoint);
    }

    /** Replaces the row that still carries the identifier and revision of `t`, if there is one. */
    method SaveTask(t: Task) returns (r: Result<Task>)
      modifies this`tasks
      ensures r.Ok? ==>
                && r.value == t.(revision := t.revision + 1)
                && exists i :: 0 <= i < |old(tasks)|
                               && DiagnosticState.SaveTask(old(Contents()), i, t) == Some(Contents())
      ensures r.Err? ==>
                && tasks == old(tasks) && r.code == "diagnostic task revision conflict"
                && forall i: nat :: DiagnosticState.SaveTask(old(Contents()), i, t).None?
    {
      var i := 0;
      while i < |tasks| && !(tasks[i].id == t.id && tasks[i].revision == t.revision)
        invariant 0 <= i <= |tasks|
        invariant forall j: nat :: j < i ==> DiagnosticState.SaveTask(Contents(), j, t).None?
      {
        i := i + 1;
      }
      if i == |tasks| {
        return Err("diagnostic task revision conflict");
      }
      var updated := t.(revision := t.revision + 1);
      tasks := tasks[i := updated];
      assert DiagnosticState.SaveTask(old(Contents()), i, t) == Some(Contents());
      r := Ok(updated);
    }

    /** One transaction: the batch and its budget are both written, or neither is. */
    method PlanRound(cp: Checkpoint, batch: seq<Task>) returns (r: Result<Checkpoint>)
      modifies this`checkpoint, this`tasks
      ensures r.Ok? <==> old(checkpoint).revision == cp.revision && Insertable(old(tasks), batch)
      ensures r.Ok? ==> PlanRoundOf(old(Contents()), cp, batch) == Some(Contents()) && r.value == checkpoint
      ensures r.Err? ==> Contents() == old(Contents())
      ensures r.Err? ==> r.code == if old(checkpoint).revision == cp.revision then "IntegrityError"
                                   else "diagnostic checkpoint revision conflict"
    {
      if checkpoint.revision != cp.revision {
        return Err("diagnostic checkpoint revision conflict");
      }
      if !Insertable(tasks, batch) {
        return Err("IntegrityError");
      }
      var planned := PlannedIn(batch);
      checkpoint := cp.(revision := cp.revision + 1, currentRound := cp.currentRound + 1,
                        questionsPlanned := cp.questionsPlanned + planned,
                        remainingBudget := cp.remainingBudget - planned);
      tasks := tasks + batch;
      r := Ok(checkpoint);
    }

    method TasksOfRound(round: nat) returns (items: seq<Task>)
      ensures items == OfRound(tasks, round)
    {
      items := [];
      for i := 0 to |tasks|
        invariant items == OfRound(tasks[..i], round)
      {
        assert tasks[..i + 1][..i] == tasks[..i];
        if tasks[i].round == round {
          items := items + [tasks[i]];
        }
      }
      assert tasks[..|tasks|] == tasks;
    }
  }

  function PlanRoundOf(db: Db, cp: Checkpoint, batch: seq<Task>): Option<Db> {
    PlanRound(db, cp, batch, PlannedIn(batch))
  }

  function OfRound(tasks: seq<Task>, round: nat): seq<Task> {
    if tasks == [] then []
    else
      var last := tasks[|tasks| - 1];
      OfRound(tasks[..|tasks| - 1], round) + (if last.round == round then [last] else [])
  }

  /** Where the current round starts in the table. */
  function RoundStart(tasks: seq<Task>, round: nat): (first: nat)
    ensures first <= |tasks|
  {
    if tasks == [] || tasks[|tasks| - 1].round != round then |tasks| else RoundStart(tasks[..|tasks| - 1], round)
  }

  /** Rows before the start of the round are of earlier rounds, the others of the round. */
  lemma {:induction false} StartSplits(tasks: seq<Task>, round: nat)
    requires forall i, j :: 0 <= i < j < |tasks| ==> tasks[i].round <= tasks[j].round
    requires forall i :: 0 <= i < |tasks| ==> tasks[i].round <= round
    ensures forall i :: 0 <= i < RoundStart(tasks, round) ==> tasks[i].round < round
    ensures forall i :: RoundStart(tasks, round) <= i < |tasks| ==> tasks[i].round == round
  {
    if tasks != [] {
      var n := |tasks| - 1;
      var init, first := tasks[..n], RoundStart(tasks, round);
      if tasks[n].round == round {
        StartSplits(init, round);
        forall i | 0 <= i < first ensures tasks[i].round < round {
          assert init[i] == tasks[i];
        }
        forall i | first <= i < |tasks| ensures tasks[i].round == round {
          assert i < n ==> init[i] == tasks[i];
        }
      } else {
        forall i | 0 <= i < |tasks| ensures tasks[i].round < round {
          assert i < n ==> tasks[i].round <= tasks[n].round;
        }
      }
    }
  }

  /** Selecting a suffix that is all of the round, after a prefix that has none of it, gives the suffix. */
  lemma {:induction false} SuffixIsRound(tasks: seq<Task>, round: nat, first: nat)
    requires first <= |tasks|
    requires forall i :: 0 <= i < first ==> tasks[i].round < round
    requires forall i :: first <= i < |tasks| ==> tasks[i].round == round
    ensures OfRound(tasks, round) == tasks[first..]
    decreases |tasks|
  {
    if first == |tasks| {
      NoneOfRound(tasks, round);
    } else {
      var n := |tasks| - 1;
      SuffixIsRound(tasks[..n], round, first);
      assert tasks[first..] == tasks[..n][first..] + [tasks[n]];
    }
  }

  /** The current round is the tail of the table. */
  lemma RoundIsTail(tasks: seq<Task>, round: nat)
    requires forall i, j :: 0 <= i < j < |tasks| ==> tasks[i].round <= tasks[j].round
    requires forall i :: 0 <= i < |tasks| ==> tasks[i].round <= round
    ensures OfRound(tasks, round) == tasks[RoundStart(tasks, round)..]
    ensures forall i :: 0 <= i < RoundStart(tasks, round) ==> tasks[i].round < round
    ensures forall i :: RoundStart(tasks, round) <= i < |tasks| ==> tasks[i].round == round
  {
    StartSplits(tasks, round);
    SuffixIsRound(tasks, round, RoundStart(tasks, round));
  }

  lemma {:induction false} NoneOfRound(tasks: seq<Task>, round: nat)
    requires forall i :: 0 <= i < |tasks| ==> tasks[i].round < round
    ensures OfRound(tasks, round) == []
  {
    if tasks != [] {
      NoneOfRound(tasks[..|tasks| - 1], round);
    }
  }

  lemma {:induction false} PlannedInBatch(tasks: seq<Task>, n: nat)
    requires n <= |tasks|
    requires forall i :: 0 <= i < |tasks| ==> (tasks[i].status == Planned <==> i < n)
    ensures PlannedIn(tasks) == n
  {
    if tasks != [] {
      PlannedInBatch(tasks[..|tasks| - 1], if n == |tasks| then n - 1 else n);
    }
  }

  lemma {:induction false} PlannedPrefix(tasks: seq<Task>, k: nat)
    requires k <= |tasks|
    ensures PlannedCount(tasks[..k]) <= PlannedCount(tasks)
    decreases |tasks|
  {
    if k < |tasks| {
      PlannedPrefix(tasks[..|tasks| - 1], k);
      assert tasks[..|tasks| - 1][..k] == tasks[..k];
    } else {
      assert tasks[..k] == tasks;
    }
  }

  // ---- Verified observations ----

  predicate IsVerified(t: Task) {
    t.status == Completed && t.answer.Some? && t.answer.value.Verified?
  }

  /** The evidence references of the verified observations. */
  function VerifiedRefs(tasks: seq<Task>): seq<string> {
    if tasks == [] then []
    else
      var last := tasks[|tasks| - 1];
      VerifiedRefs(tasks[..|tasks| - 1])
      + (if IsVerified(last) && last.evidenceRef.Some? then [last.evidenceRef.value] else [])
  }

  lemma {:induction false} VerifiedAreRefs(cfg: Config, tasks: seq<Task>)
    requires TasksOk(cfg, tasks)
    ensures VerifiedRefs(tasks) == Refs(tasks)
    ensures Refs(tasks) != [] <==> exists i :: 0 <= i < |tasks| && IsVerified(tasks[i])
  {
    if tasks != [] {
      var last := |tasks| - 1;
      assert TaskOk(cfg, tasks[last]);
      VerifiedAreRefs(cfg, tasks[..last]);
      if i :| 0 <= i < |tasks| && IsVerified(tasks[i]) {
        assert i < last ==> IsVerified(tasks[..last][i]);
      }
      if i :| 0 <= i < last && IsVerified(tasks[..last][i]) {
        assert IsVerified(tasks[i]);
      }
      if IsVerified(tasks[last]) {
        assert HasEvidence(tasks[last]);
      }
    }
  }

  // ---- Coordinator ----

  /** Whether the planner was asked in a turn of the loop, and what it proposed. */
  datatype Planner = NotAsked | Asked(decision: Option<Decision>)

  class DiagnosticCoordinator {
    const cfg: Config
    const hasModel: bool
    const repository: DiagnosticRepository
    var cancelled: bool
    /** How often the process ended before a write. */
    ghost var lost: nat
    ghost var history: seq<Event>
    ghost var trace: seq<State>
    ghost var driver: Driver

    ghost function Here(): State
      reads this, repository
    {
      State(repository.Contents(), driver)
    }

    /** The stored rows and the driver's copies are where the recorded events lead. */
    ghost predicate Valid()
      reads this, repository
    {
      Traced(cfg, history, trace, Here())
    }

    /** The recorded events are a run, and it leads to the stored rows. */
    lemma Reached()
      requires Valid()
      ensures Reaches(cfg, history, Here()) && Replay(cfg, history) == Some(Here())
    {
      TracedReplay(cfg, history, trace, Here());
    }

    lemma Holds()
      requires Valid()
      ensures Inv(cfg, Here())
    {
      Reached();
      RunKeeps(cfg, history);
    }

    lemma Ordered()
      requires Valid()
      ensures Table(repository.Contents())
    {
      Holds();
    }

    constructor (cfg: Config, hasModel: bool)
      ensures Valid() && fresh(repository) && driver == Down && this.cfg == cfg && history == []
    {
      this.cfg, this.hasModel := cfg, hasModel;
      repository := new DiagnosticRepository();
      cancelled, lost, history, trace, driver := false, 0, [], [Initial()], Down;
    }

    /** One more event: the rows already hold what it writes. */
    ghost method Record(e: Event, before: State, next: Driver)
      requires Traced(cfg, history, trace, before)
      requires Apply(cfg, before, e) == Some(State(repository.Contents(), next))
      modifies this`history, this`trace, this`driver
      ensures Valid() && driver == next && history == old(history) + [e]
    {
      history := history + [e];
      driver := next;
      trace := trace + [Here()];
    }

    /** The process ends, or the drive returns or raises: its copies are gone. */
    ghost method Leave()
      requires Valid()
      modifies this`history, this`trace, this`driver
      ensures Valid() && driver == Down && old(history) <= history
    {
      Record(Crash, Here(), Down);
    }

    /** Cancellation, once requested, stays requested. */
    method IsCancelled() returns (r: bool)
      modifies this`cancelled
      ensures r == cancelled && (old(cancelled) ==> cancelled)
    {
      if * {
        cancelled := true;
      }
      r := cancelled;
    }

    /** A checkpoint write, unless the process ends first. No revision conflict is possible. */
    method WriteCheckpoint(state: Checkpoint, ghost e: Event) returns (saved: Option<Checkpoint>)
      requires Valid() && state.revision == repository.checkpoint.revision
      requires
        var next := state.(revision := state.revision + 1);
        Apply(cfg, Here(), e) == Some(State(Db(next, repository.tasks), Driving(driver, next)))
      modifies this`history, this`trace, this`driver, this`lost, repository`checkpoint
      ensures lost == old(lost) + (if saved.None? then 1 else 0)
      ensures Valid() && old(history) <= history
      ensures saved.Some? ==>
                && saved.value == state.(revision := state.revision + 1) == repository.checkpoint
                && driver == Driving(old(driver), saved.value)
      ensures saved.None? ==> driver == Down && repository.checkpoint == old(repository.checkpoint)
    {
      if * {
        lost := lost + 1;
        Leave();
        return None;
      }
      ghost var before := Here();
      var r := repository.SaveCheckpoint(state);
      saved := Some(r.value);
      Record(e, before, Driving(driver, r.value));
    }

    /** A task write, unless the process ends first. No revision conflict is possible. */
    method WriteTask(t: Task, ghost i: nat, ghost e: Event, ghost next: Driver) returns (saved: Option<Task>)
      requires Valid() && i < |repository.tasks|
      requires t.id == repository.tasks[i].id && t.revision == repository.tasks[i].revision
      requires
        var stored := t.(revision := t.revision + 1);
        Apply(cfg, Here(), e) == Some(State(Db(repository.checkpoint, repository.tasks[i := stored]), next))
      modifies this`history, this`trace, this`driver, this`lost, repository`tasks
      ensures lost == old(lost) + (if saved.None? then 1 else 0)
      ensures Valid() && old(history) <= history
      ensures saved.Some? ==>
                && saved.value == t.(revision := t.revision + 1)
                && repository.tasks == old(repository.tasks)[i := saved.value]
                && driver == next
      ensures saved.None? ==> driver == Down && repository.tasks == old(repository.tasks)
    {
      if * {
        lost := lost + 1;
        Leave();
        return None;
      }
      ghost var before := Here();
      Ordered();
      assert DiagnosticState.SaveTask(repository.Contents(), i, t).Some?;
      var r := repository.SaveTask(t);
      saved := Some(r.value);
      Record(e, before, next);
    }

    /** Restart: every task left RUNNING becomes a retryable failure, one write at a time. */
    method RecoverRunning() returns (crashed: bool)
      requires Valid() && driver == Down
      modifies this`history, this`trace, this`driver, this`lost, repository`tasks
      ensures lost == old(lost) + (if crashed then 1 else 0)
      ensures Valid() && driver == Down && old(history) <= history
      ensures |repository.tasks| == |old(repository.tasks)|
      ensures forall i :: 0 <= i < |repository.tasks| && old(repository.tasks)[i].status != Running ==>
                repository.tasks[i] == old(repository.tasks)[i]
      ensures !crashed ==> forall i :: 0 <= i < |repository.tasks| && old(repository.tasks)[i].status == Running ==>
                             repository.tasks[i] == Restarted(old(repository.tasks)[i])
    {
      var rows := repository.tasks;
      for i := 0 to |rows|
        invariant Valid() && driver == Down && old(history) <= history && lost == old(lost)
        invariant |repository.tasks| == |rows| && repository.tasks[i..] == rows[i..]
        invariant forall j :: 0 <= j < i ==>
                    repository.tasks[j] == if rows[j].status == Running then Restarted(rows[j]) else rows[j]
      {
        assert repository.tasks[i] == rows[i];
        if rows[i].status == Running {
          var saved := WriteTask(Recovered(rows[i]), i, Recover(i), Down);
          if saved.None? {
            return true;
          }
        }
      }
      crashed := false;
    }

    /** Opens a drive: re-derives the checkpoint's report and lock from the task table if they differ. */
    method Reconcile() returns (cp: Option<Checkpoint>)
      requires Valid() && driver == Down
      modifies this`history, this`trace, this`driver, this`lost, repository`checkpoint
      ensures lost == old(lost) + (if cp.None? then 1 else 0)
      ensures Valid() && old(history) <= history
      ensures cp.None? ==> driver == Down && repository.checkpoint == old(repository.checkpoint)
      ensures cp.Some? ==>
                && driver == Ready(cp.value) && repository.checkpoint == cp.value && Exact(repository.Contents())
                && cp.value.currentRound == old(repository.checkpoint).currentRound
                && cp.value.remainingBudget == old(repository.checkpoint).remainingBudget
    {
      var checkpoint := repository.checkpoint;
      Record(Open, Here(), Opened(checkpoint));
      var completed, refs := CompletedCount(repository.tasks), Refs(repository.tasks);
      if checkpoint.questionsCompleted != completed || checkpoint.refs != refs {
        var source := checkpoint.source;
        if refs != [] && source.None? {
          source := FirstSource(repository.tasks);
        }
        cp := WriteCheckpoint(checkpoint.(questionsCompleted := completed, refs := refs, source := source), Repair);
      } else {
        Record(Repair, Here(), Ready(checkpoint));
        cp := Some(checkpoint);
      }
      Holds();
    }

    /** Sets the budget and the scope's lock, once. */
    method InitialiseBudget(cp: Checkpoint) returns (next: Option<Checkpoint>)
      requires Valid() && driver == Ready(cp)
      modifies this`history, this`trace, this`driver, this`lost, repository`checkpoint
      ensures lost == old(lost) + (if next.None? then 1 else 0)
      ensures Valid() && old(history) <= history
      ensures next.None? ==> driver == Down && repository.checkpoint == cp
      ensures next.Some? ==> driver == Ready(next.value) && repository.checkpoint == next.value
      ensures next.Some? && (cp.currentRound > 0 || cp.remainingBudget != 0) ==> next.value == cp
      ensures next.Some? && cp.currentRound == 0 && cp.remainingBudget == 0 ==>
                next.value == cp.(remainingBudget := cfg.budget.maxQuestions, revision := cp.revision + 1,
                                  source := if |cfg.scope| == 0 then None else Some(cfg.scope[0]))
    {
      Holds();
      next := Some(cp);
      if cp.currentRound == 0 && cp.remainingBudget == 0 {
        var source := if cfg.scope == [] then None else Some(cfg.scope[0]);
        next := WriteCheckpoint(cp.(remainingBudget := cfg.budget.maxQuestions, source := source), InitBudget);
      }
    }

    /** The task is under way: its row is RUNNING and the checkpoint names it. */
    ghost predicate Attempting(cp: Checkpoint, i: nat, task: Task)
      reads this, repository
    {
      && driver == Asking(cp, i, task) && repository.checkpoint == cp
      && i < |repository.tasks| && repository.tasks[i] == task
    }

    /** No row but row i has changed, and its attempts were not lost. */
    ghost predicate OnlyRow(before: seq<Task>, i: nat)
      reads repository
    {
      && i < |before| == |repository.tasks| && repository.tasks == before[i := repository.tasks[i]]
      && repository.tasks[i].attempt >= before[i].attempt
    }

    /** The attempt fails: the task keeps the code, and the drive raises it. */
    method Fail(task: Task, cp: Checkpoint, ghost i: nat, code: string, answer: Option<Answer>, blocked: bool)
      returns (end: Outcome)
      requires Valid() && Attempting(cp, i, task)
      modifies this`history, this`trace, this`driver, this`lost, repository`tasks
      ensures lost == old(lost) + Losses(Some(end))
      ensures OnlyRow(old(repository.tasks), i)
      ensures Valid() && driver == Down && old(history) <= history
      ensures repository.checkpoint == cp && end in {Failure(code, IsTransient(code), blocked), Crashed}
      ensures if end == Crashed then repository.tasks[i] == task
              else FailedWith(task, repository.tasks[i], Some(end), code, IsTransient(code), blocked,
                              if answer.Some? then answer else task.answer)
    {
      var failed := task.(status := Failed, answer := if answer.Some? then answer else task.answer,
                          failureCode := Some(code), retryable := IsTransient(code));
      var saved := WriteTask(failed, i, AskFailed(code, answer), Down);
      end := if saved.Some? then Failure(code, IsTransient(code), blocked) else Crashed;
    }

    /** The Ask needs an answer from the user: the task waits, and the drive returns. */
    method Wait(task: Task, cp: Checkpoint, ghost i: nat) returns (end: Outcome)
      requires Valid() && Attempting(cp, i, task)
      modifies this`history, this`trace, this`driver, this`lost, repository`tasks
      ensures lost == old(lost) + Losses(Some(end))
      ensures OnlyRow(old(repository.tasks), i)
      ensures Valid() && driver == Down && old(history) <= history
      ensures repository.checkpoint == cp && (end == WaitingForUser || end == Crashed)
      ensures repository.tasks[i]
              == if end == Crashed then task
                 else task.(status := WaitingUser, answer := Some(Clarification(false)), revision := task.revision + 1)
    {
      var saved := WriteTask(task.(status := WaitingUser, answer := Some(Clarification(false))), i, AskWaits, Down);
      end := if saved.Some? then WaitingForUser else Crashed;
    }

    /** The two writes before the Ask: the task turns RUNNING, then the checkpoint names it. */
    method BeginAttempt(task: Task, cp: Checkpoint, ghost i: nat) returns (begun: Option<(Task, Checkpoint)>)
      requires Valid() && driver == Ready(cp) && MayRun(repository.tasks, i, task, cp)
      modifies this`history, this`trace, this`driver, this`lost, repository`tasks, repository`checkpoint
      ensures lost == old(lost) + (if begun.None? then 1 else 0)
      ensures OnlyRow(old(repository.tasks), i)
      ensures Valid() && old(history) <= history
      ensures begun.None? ==> driver == Down
      ensures begun.None? ==> repository.checkpoint == cp && repository.tasks[i] in [task, Begun(task)]
      ensures begun.Some? ==>
                && begun.value == (Begun(task), Pending(cp, task)) && Attempting(Pending(cp, task), i, Begun(task))
    {
      Holds();
      var running := task.(status := Running, attempt := task.attempt + 1, failureCode := None, retryable := false);
      assert DiagnosticState.SaveTask(repository.Contents(), i, running).Some?;
      var saved := WriteTask(running, i, Begin(i), Started(cp, i, running.(revision := running.revision + 1)));
      if saved.None? {
        return None;
      }
      var next := WriteCheckpoint(cp.(pending := Some(saved.value.id)), MarkPending);
      begun := if next.Some? then Some((saved.value, next.value)) else None;
    }

    /** The two writes of a completion, with the end of the process possible between them. */
    method Complete(t: Task, state: Checkpoint, ghost e: Event) returns (next: Option<Checkpoint>)
      requires Valid() && driver.Asking? && Attempting(driver.cp, driver.i, driver.task)
      requires t.id == driver.task.id && t.revision == driver.task.revision
      requires state.revision == driver.cp.revision
      requires
        var stored := t.(revision := t.revision + 1);
        Apply(cfg, Here(), e)
        == Some(State(Db(repository.checkpoint, repository.tasks[driver.i := stored]), Answered(driver.cp, state)))
      modifies this`history, this`trace, this`driver, this`lost, repository`tasks, repository`checkpoint
      ensures lost == old(lost) + (if next.None? then 1 else 0)
      ensures Valid() && old(history) <= history
      ensures repository.tasks == old(repository.tasks)[old(driver).i := t.(revision := t.revision + 1)]
              || (next.None? && repository.tasks == old(repository.tasks))
      ensures next.None? ==> driver == Down && repository.checkpoint == old(repository.checkpoint)
      ensures next.Some? ==>
                && driver == Ready(next.value) && next.value == state.(revision := state.revision + 1)
                && repository.checkpoint == next.value
    {
      var saved := WriteTask(t, driver.i, e, Answered(driver.cp, state));
      if saved.None? {
        return None;
      }
      next := WriteCheckpoint(state, Settle);
    }

    /** The cancelled attempt is set aside as SKIPPED. */
    method Abandon(task: Task, cp: Checkpoint, ghost i: nat) returns (end: Option<Outcome>)
      requires Valid() && Attempting(cp, i, task)
      modifies this`history, this`trace, this`driver, this`lost, repository`tasks
      ensures lost == old(lost) + Losses(end)
      ensures OnlyRow(old(repository.tasks), i)
      ensures Valid() && old(history) <= history
      ensures end.None? ==> driver == Ready(cp)
                            && repository.tasks[i] == task.(status := Skipped, revision := task.revision + 1)
      ensures end.Some? ==> driver == Down && end == Some(Crashed) && repository.tasks[i] == task
      ensures repository.checkpoint == cp
    {
      var saved := WriteTask(task.(status := Skipped), i, AskCancelled, Ready(cp));
      end := if saved.Some? then None else Some(Crashed);
    }

    /** The attempt completed the task: control returns to the round with the row and checkpoint written. */
    ghost predicate Finishing(before: seq<Task>, task: Task, cp: Checkpoint, i: nat, next: Checkpoint)
      reads this, repository
    {
      && driver == Ready(next) && next.currentRound == cp.currentRound
      && OnlyRow(before, i) && repository.tasks[i].status == Completed
    }

    /** The row and checkpoint after a completion, of which the second write may be lost. */
    ghost predicate Settling(task: Task, cp: Checkpoint, i: nat, answer: Answer, next: Option<Checkpoint>)
      reads repository
    {
      && i < |repository.tasks|
      && match next
         case None =>
           && repository.checkpoint == cp
           && (repository.tasks[i] == task
               || exists n :: CompletionOf(task, cp, repository.tasks[i], n, answer))
         case Some(n) => repository.checkpoint == n && CompletionOf(task, cp, repository.tasks[i], n, answer)
    }

    ghost predicate CompletionOf(task: Task, cp: Checkpoint, row: Task, next: Checkpoint, answer: Answer) {
      && CompletedWith(task, cp, row, next, None, answer)
      && (answer == Clarification(true) ==> WithoutEvidence(task, cp, row, next))
      && (answer.Verified? ==> WithEvidence(cfg.runId, task, cp, row, next, answer.source))
    }

    /** The data does not exist: the task completes without evidence. */
    method CompleteWithout(task: Task, cp: Checkpoint, ghost i: nat) returns (next: Option<Checkpoint>)
      requires Valid() && Attempting(cp, i, task)
      modifies this`history, this`trace, this`driver, this`lost, repository`tasks, repository`checkpoint
      ensures lost == old(lost) + (if next.None? then 1 else 0)
      ensures OnlyRow(old(repository.tasks), i)
      ensures Valid() && old(history) <= history
      ensures next.None? ==> driver == Down
      ensures next.Some? ==> Finishing(old(repository.tasks), task, cp, i, next.value)
      ensures Settling(task, cp, i, Clarification(true), next)
    {
      var state := cp.(pending := None, questionsCompleted := cp.questionsCompleted + 1);
      next := Complete(task.(status := Completed, answer := Some(Clarification(true))), state, AskUnavailable);
      if repository.tasks[i] != task {
        assert CompletionOf(task, cp, repository.tasks[i], state.(revision := cp.revision + 1), Clarification(true));
      }
    }

    /** Verified evidence from an admissible source: the task completes and locks the source. */
    method CompleteWith(task: Task, cp: Checkpoint, ghost i: nat, source: SourceId) returns (next: Option<Checkpoint>)
      requires Valid() && Attempting(cp, i, task) && (Locked(cp) ==> source == cp.source.value)
      modifies this`history, this`trace, this`driver, this`lost, repository`tasks, repository`checkpoint
      ensures lost == old(lost) + (if next.None? then 1 else 0)
      ensures OnlyRow(old(repository.tasks), i)
      ensures Valid() && old(history) <= history
      ensures next.None? ==> driver == Down
      ensures next.Some? ==> Finishing(old(repository.tasks), task, cp, i, next.value)
      ensures Settling(task, cp, i, Verified(source), next)
    {
      var ref := EvidenceRef(cfg.runId, task.id);
      var state := cp.(source := Some(source), pending := None,
                       questionsCompleted := cp.questionsCompleted + 1, refs := cp.refs + [ref]);
      next := Complete(task.(status := Completed, answer := Some(Verified(source)), evidenceRef := Some(ref)), state,
                       AskVerified(source));
      if repository.tasks[i] != task {
        assert CompletionOf(task, cp, repository.tasks[i], state.(revision := cp.revision + 1), Verified(source));
      }
    }

    /** What an ended Ask leaves to do: the branches of `_execute_task` after its record loop. */
    method Conclude(task: Task, cp: Checkpoint, ghost i: nat, ended: Option<AskResponse>, failure: Option<string>)
      returns (end: Option<Outcome>, next: Checkpoint)
      requires Valid() && Attempting(cp, i, task)
      modifies this`history, this`trace, this`driver, this`lost, repository`tasks, repository`checkpoint
      ensures lost == old(lost) + Losses(end)
      ensures OnlyRow(old(repository.tasks), i)
      ensures Valid() && old(history) <= history
      ensures end.None? ==> Finishing(old(repository.tasks), task, cp, i, next)
      ensures end.Some? ==> driver == Down && !end.value.Concluded?
      ensures AttemptEnds(cfg.runId, task, cp, Some(Ended(ended, failure)), repository.tasks[i],
                          repository.checkpoint, next, end)
    {
      next := cp;
      var failed: Outcome;
      if ended.None? {
        failed := Fail(task, cp, i, "ask_failed", None, false);
        return Some(failed), next;
      }
      var response := ended.value;
      if response.status == ClarificationRequired && response.missing && !response.options {
        var settled := CompleteWithout(task, cp, i);
        Settled(task, cp, i, response, failure, Clarification(true), settled);
        return if settled.None? then Some(Crashed) else None, if settled.None? then cp else settled.value;
      }
      if response.status == ClarificationRequired {
        failed := Wait(task, cp, i);
        return Some(failed), next;
      }
      if response.status != AskCompleted || failure.Some? {
        var code := if response.error.Some? then response.error.value
                    else if failure.Some? then failure.value else "ask_failed";
        failed := Fail(task, cp, i, code, Some(Refused(code)), false);
        assert Raises(response, failure, code);
        return Some(failed), next;
      }
      end, next := Weigh(task, cp, i, response);
    }

    /** A completion whose answer is what the response calls for is its verdict, reported or not. */
    lemma Settled(task: Task, cp: Checkpoint, i: nat, response: AskResponse, failure: Option<string>, answer: Answer,
                  next: Option<Checkpoint>)
      requires Settling(task, cp, i, answer, next)
      requires forall row, n :: CompletionOf(task, cp, row, n, answer) ==>
                 Verdict(cfg.runId, task, cp, Some(response), failure, row, n, None)
      ensures AttemptEnds(cfg.runId, task, cp, Some(Ended(Some(response), failure)), repository.tasks[i],
                          repository.checkpoint, if next.None? then cp else next.value,
                          if next.None? then Some(Crashed) else None)
    {
      if next.None? && repository.tasks[i] != task {
        var n :| CompletionOf(task, cp, repository.tasks[i], n, answer);
        assert Verdict(cfg.runId, task, cp, Some(response), failure, repository.tasks[i], n, None);
      }
    }

    /** The evidence of a completed Ask: it must be there, with a result, and from the source that is locked. */
    method Weigh(task: Task, cp: Checkpoint, ghost i: nat, response: AskResponse)
      returns (end: Option<Outcome>, next: Checkpoint)
      requires Valid() && Attempting(cp, i, task) && response.status == AskCompleted
      modifies this`history, this`trace, this`driver, this`lost, repository`tasks, repository`checkpoint
      ensures lost == old(lost) + Losses(end)
      ensures OnlyRow(old(repository.tasks), i)
      ensures Valid() && old(history) <= history
      ensures end.None? ==> Finishing(old(repository.tasks), task, cp, i, next)
      ensures end.Some? ==> driver == Down && !end.value.Concluded?
      ensures AttemptEnds(cfg.runId, task, cp, Some(Ended(Some(response), None)), repository.tasks[i],
                          repository.checkpoint, next, end)
    {
      next := cp;
      var failed: Outcome;
      if response.evidence.None? || !response.hasResult {
        failed := Fail(task, cp, i, "diagnostic_unverified_result", Some(Unverified), false);
        return Some(failed), next;
      }
      var source := response.evidence.value;
      if Locked(cp) && source != cp.source.value {
        failed := Fail(task, cp, i, "diagnostic_datasource_mismatch", Some(Verified(source)), true);
        return Some(failed), next;
      }
      var settled := CompleteWith(task, cp, i, source);
      Settled(task, cp, i, response, None, Verified(source), settled);
      end := if settled.None? then Some(Crashed) else None;
      next := if settled.None? then cp else settled.value;
    }

    /** The attempt returned control: row i is finished and nothing else moved. */
    ghost predicate Returned(before: seq<Task>, i: nat, cp: Checkpoint, next: Checkpoint)
      reads this, repository
    {
      && driver == Ready(next) && next.currentRound == cp.currentRound
      && OnlyRow(before, i) && BornPlanned(repository.tasks[i]) && Finished(repository.tasks[i])
    }

    /** The Ask stream of a started attempt: it may be cancelled, raise, or end with a response. */
    method AwaitAnswer(task: Task, cp: Checkpoint, ghost i: nat)
      returns (end: Option<Outcome>, next: Checkpoint, ghost heard: Option<Attempt>)
      requires Valid() && Attempting(cp, i, task) && task.attempt >= 1
      modifies this`history, this`trace, this`driver, this`lost, this`cancelled, repository`tasks, repository`checkpoint
      ensures lost == old(lost) + Losses(end)
      ensures OnlyRow(old(repository.tasks), i)
      ensures Valid() && old(history) <= history
      ensures old(cancelled) ==> cancelled
      ensures end.None? ==> Returned(old(repository.tasks), i, cp, next)
      ensures end.Some? ==> driver == Down && !end.value.Concluded?
      ensures heard.None? <==> cancelled
      ensures AttemptEnds(cfg.runId, task, cp, heard, repository.tasks[i], repository.checkpoint, next, end)
    {
      next, heard := cp, None;
      var attempt: Attempt := *;
      var stop := IsCancelled();
      if stop {
        end := Abandon(task, cp, i);
      } else {
        heard := Some(attempt);
        match attempt
        case Raised(code) =>
          var failed := Fail(task, cp, i, code, None, false);
          end := Some(failed);
        case Ended(response, failure) =>
          end, next := Conclude(task, cp, i, response, failure);
      }
    }

    /** How an attempt of a task stood at `before` went: not begun, or begun and ended as its Ask did. */
    ghost predicate Attempted(before: Task, cp: Checkpoint, i: nat, heard: Option<Attempt>, asked: nat,
                              next: Checkpoint, end: Option<Outcome>)
      reads this, repository
    {
      && i < |repository.tasks|
      && if asked == 1 then
           AttemptEnds(cfg.runId, Begun(before), Pending(cp, before), heard, repository.tasks[i],
                       repository.checkpoint, next, end)
         else
           && repository.checkpoint == cp
           && if end.None? then cancelled && next == cp && repository.tasks[i] == before
              else end == Some(Crashed) && repository.tasks[i] in [before, Begun(before)]
    }

    /** `_execute_task`: one complete Ask attempt, or none once the run is cancelled. */
    method ExecuteTask(task: Task, cp: Checkpoint, ghost i: nat)
      returns (end: Option<Outcome>, next: Checkpoint, ghost asked: nat, ghost heard: Option<Attempt>)
      requires Valid() && driver == Ready(cp) && MayRun(repository.tasks, i, task, cp)
      modifies this`history, this`trace, this`driver, this`lost, this`cancelled, repository`tasks, repository`checkpoint
      ensures lost == old(lost) + Losses(end)
      ensures OnlyRow(old(repository.tasks), i)
      ensures Valid() && old(history) <= history
      ensures old(cancelled) ==> cancelled
      ensures asked <= 1 && (asked == 1 ==> BornPlanned(repository.tasks[i]))
      ensures end.None? && asked == 1 ==> Returned(old(repository.tasks), i, cp, next)
      ensures end.None? && asked == 0 ==>
                cancelled && repository.tasks == old(repository.tasks) && driver == Ready(next) && next == cp
      ensures end.Some? ==> driver == Down && !end.value.Concluded?
      ensures Attempted(task, cp, i, heard, asked, next, end)
      ensures asked == 1 ==> (heard.None? <==> cancelled)
    {
      next, asked, heard := cp, 0, None;
      Holds();
      var stop := IsCancelled();
      if stop {
        return None, next, 0, None;
      }
      var begun := BeginAttempt(task, cp, i);
      if begun.None? {
        return Some(Crashed), next, 0, None;
      }
      var (running, current) := begun.value;
      asked := 1;
      end, next, heard := AwaitAnswer(running, current, i);
    }

    /** Every row is finished, so the next step of the loop is to plan. */
    ghost predicate AllFinished()
      reads repository
    {
      forall i :: 0 <= i < |repository.tasks| ==> Finished(repository.tasks[i])
    }

    /** What ended a round is on record: the task that failed with the code, or the one that waits. */
    ghost predicate Told(o: Outcome)
      reads this, repository
    {
      match o
      case Crashed => true
      case Cancelled => cancelled
      case WaitingForUser => exists t :: t in repository.tasks && t.status == WaitingUser
      case Failure(code, retryable, _) =>
        exists t :: t in repository.tasks && t.status == Failed && t.retryable == retryable
                    && (t.failureCode == Some(code) || (t.failureCode.None? && code == "diagnostic_task_failed"))
      case Concluded(_, _) => false
    }

    /** What the loop does with one task: nothing once cancelled or finished, a lasting failure raised again. */
    ghost predicate TurnOf(before: seq<Task>, task: Task, cp: Checkpoint, i: nat, heard: Option<Attempt>, asked: nat,
                           next: Checkpoint, end: Option<Outcome>)
      reads this, repository
    {
      if end == Some(Cancelled) then cancelled && asked == 0 && repository.tasks == before
      else if task.status == Completed || task.status == Skipped then
        end.None? && asked == 0 && next == cp && repository.tasks == before
      else if task.status == Failed && !task.retryable then
        && asked == 0 && repository.tasks == before
        && end == Some(Failure(if task.failureCode.Some? then task.failureCode.value else "diagnostic_task_failed",
                               false, false))
      else Attempted(task, cp, i, heard, asked, next, end)
    }

    /** The ending of an attempt is on record. */
    lemma AttemptTold(task: Task, cp: Checkpoint, i: nat, heard: Option<Attempt>, asked: nat, next: Checkpoint,
                      end: Option<Outcome>)
      requires Attempted(task, cp, i, heard, asked, next, end) && end.Some?
      ensures Told(end.value)
    {
      assert repository.tasks[i] in repository.tasks;
    }

    /** One turn of the loop over a round's tasks. */
    method RunTask(task: Task, cp: Checkpoint, ghost i: nat)
      returns (end: Option<Outcome>, next: Checkpoint, ghost asked: nat, ghost heard: Option<Attempt>)
      requires Valid() && driver == Ready(cp) && i < |repository.tasks| && repository.tasks[i] == task
      requires task.round == cp.currentRound
      requires cancelled || forall j :: 0 <= j < i ==> Finished(repository.tasks[j])
      modifies this`history, this`trace, this`driver, this`lost, this`cancelled, repository`tasks, repository`checkpoint
      ensures lost == old(lost) + Losses(end)
      ensures OnlyRow(old(repository.tasks), i)
      ensures Valid() && old(history) <= history
      ensures old(cancelled) ==> cancelled
      ensures asked <= 1 && (asked == 1 ==> BornPlanned(repository.tasks[i]))
      ensures end.None? ==> driver == Ready(next) && next.currentRound == cp.currentRound
      ensures end.None? ==> cancelled || Finished(repository.tasks[i])
      ensures end.Some? ==> Told(end.value)
      ensures TurnOf(old(repository.tasks), task, cp, i, heard, asked, next, end)
    {
      heard := None;
      end, next, asked := None, cp, 0;
      var stop := IsCancelled();
      if stop {
        end := Some(Cancelled);
      } else if !Finished(task) {
        if task.status == Failed && !task.retryable {
          var code := if task.failureCode.Some? then task.failureCode.value else "diagnostic_task_failed";
          end := Some(Failure(code, false, false));
        } else {
          end, next, asked, heard := ExecuteTask(task, cp, i);
          if end.Some? {
            AttemptTold(task, cp, i, heard, asked, next, end);
          }
        }
      }
    }

    /** After j turns of a round: the listed rows are run and counted so far. */
    ghost predicate InRound(items: seq<Task>, cp: Checkpoint, first: nat, j: nat, counted: nat)
      reads this, repository
    {
      Valid() && driver == Ready(cp) && Turns(repository.tasks, items, first, j, cancelled, counted)
    }

    /** One turn keeps the account of the round, or ends the drive with the account settled. */
    method RunTurn(items: seq<Task>, cp: Checkpoint, j: nat, ghost first: nat, ghost counted: nat)
      returns (end: Option<Outcome>, next: Checkpoint, ghost asked: nat)
      requires InRound(items, cp, first, j, counted) && j < |items| && items[j].round == cp.currentRound
      modifies this`history, this`trace, this`driver, this`lost, this`cancelled, repository`tasks, repository`checkpoint
      ensures lost == old(lost) + Losses(end)
      ensures Valid() && old(history) <= history && (old(cancelled) ==> cancelled)
      ensures |repository.tasks| == |old(repository.tasks)| && counted + asked <= PlannedCount(repository.tasks)
      ensures end.None? ==> InRound(items, next, first, j + 1, counted + asked) && next.currentRound == cp.currentRound
      ensures end.Some? ==> Told(end.value)
    {
      ghost var before, was := repository.tasks, cancelled;
      ghost var heard;
      end, next, asked, heard := RunTask(items[j], cp, first + j);
      RowAdvances(before, repository.tasks, items, first, j, counted, asked);
      if end.None? {
        TurnDone(before, repository.tasks, items, first, j, counted, asked, was, cancelled);
      }
    }

    /** The tasks of one round, in order. */
    method RunRound(items: seq<Task>, cp: Checkpoint, ghost first: nat)
      returns (end: Option<Outcome>, next: Checkpoint, ghost asked: nat)
      requires Valid() && driver == Ready(cp)
      requires first <= |repository.tasks| && repository.tasks[first..] == items
      requires forall i :: 0 <= i < first ==> Finished(repository.tasks[i])
      requires forall i :: 0 <= i < |items| ==> items[i].round == cp.currentRound
      modifies this`history, this`trace, this`driver, this`lost, this`cancelled, repository`tasks, repository`checkpoint
      ensures lost == old(lost) + Losses(end)
      ensures Valid() && old(history) <= history && |repository.tasks| == |old(repository.tasks)|
      ensures old(cancelled) ==> cancelled
      ensures PlannedCount(old(repository.tasks)[..first]) + asked <= PlannedCount(repository.tasks)
      ensures end.None? ==>
                driver == Ready(next) && next.currentRound == cp.currentRound && (cancelled || AllFinished())
      ensures end.Some? ==> Told(end.value)
    {
      end, next, asked := None, cp, 0;
      ghost var start := PlannedCount(repository.tasks[..first]);
      for j := 0 to |items|
        invariant InRound(items, next, first, j, start + asked) && next.currentRound == cp.currentRound
        invariant old(history) <= history && (old(cancelled) ==> cancelled) && end.None? && lost == old(lost)
      {
        ghost var once: nat;
        end, next, once := RunTurn(items, next, j, first, start + asked);
        asked := asked + once;
        if end.Some? {
          return;
        }
      }
      assert repository.tasks[..|repository.tasks|] == repository.tasks;
    }

    /** There is no model, it gave no decision, or it proposed a question that may not be asked. */
    ghost predicate Unusable(decision: Option<Decision>) {
      || !hasModel || decision.None?
      || (decision.value.action == Query
          && exists q :: q in decision.value.questions && (q.native || Blank(q.question) || Blank(q.purpose)))
    }

    /** What planning one round comes to, by the planner's answer. */
    ghost predicate PlanningOf(before: Db, cp: Checkpoint, decision: Option<Decision>, end: Option<Outcome>,
                               planned: bool, failed: bool, next: Checkpoint)
      reads this, repository
    {
      if Unusable(decision) then
        && repository.Contents() == before && !planned && next == cp && failed == (Refs(before.tasks) != [])
        && end == if failed then None else Some(Failure("diagnostic_model_unavailable", false, true))
      else
        && !failed
        && (decision.value.action == Clarify ==> end == Some(WaitingForUser))
        && (decision.value.action != Clarify ==>
              end.None? || end == Some(Crashed) || end == Some(Failure("IntegrityError", false, false)))
        && (end.Some? ==> repository.Contents() == before)
        && (end.None? ==> next == repository.checkpoint && Planning(before, cp, decision.value, planned))
    }

    /** The selected round is stored; tasks came of it if the planner asked for evidence and some is new. */
    ghost predicate Planning(before: Db, cp: Checkpoint, decision: Decision, planned: bool)
      reads this, repository
    {
      exists ids, sel ::
        && SelectionOf(cfg.key, decision, SeenKeys(cfg.key, before.tasks), cp.remainingBudget, cfg.budget) == Ok(sel)
        && RoundStored(before, ids, sel) && (planned <==> decision.action == Query && sel.selected != [])
    }

    /** The stored rows are those before and the selected round under new identifiers. */
    ghost predicate RoundStored(before: Db, ids: seq<string>, sel: Selection)
      reads repository
    {
      && |ids| == |sel.selected| + |sel.duplicates| && NewIds(before.tasks, ids)
      && repository.Contents() == PlannedDb(before, ids, sel)
    }

    /** The planner's answer for one round, selected and written; `planned` tells if tasks came of it. */
    method PlanNext(cp: Checkpoint)
      returns (end: Option<Outcome>, planned: bool, failed: bool, next: Checkpoint, ghost decision: Option<Decision>)
      requires Valid() && driver == Ready(cp) && RoundDone(repository.Contents())
      requires cp.currentRound < cfg.budget.maxRounds && cp.remainingBudget > 0
      modifies this`history, this`trace, this`driver, this`lost, repository`tasks, repository`checkpoint
      ensures lost == old(lost) + Losses(end)
      ensures Valid() && old(history) <= history
      ensures old(repository.tasks) <= repository.tasks
      ensures end.None? ==> driver == Ready(next)
      ensures end.None? && planned ==> next.currentRound == cp.currentRound + 1
      ensures end.None? && !planned ==> cp.currentRound <= next.currentRound
      ensures end.Some? ==> !planned
      ensures PlanningOf(old(repository.Contents()), cp, decision, end, planned, failed, next)
    {
      end, planned, failed, next := None, false, false, cp;
      Holds();
      var answer: Option<Decision> := *;
      decision := answer;
      var selection := Select(cp, answer);
      if selection.Err? {
        VerifiedAreRefs(cfg, repository.tasks);
        if VerifiedRefs(repository.tasks) != [] {
          failed := true;
        } else {
          end := Some(Failure("diagnostic_model_unavailable", false, true));
        }
        return;
      }
      if answer.value.action == Clarify {
        end := Some(WaitingForUser);
        return;
      }
      end, planned, next := StoreRound(cp, answer.value, selection.value);
    }

    /** The questions of a decision, or a refusal if there is no decision to follow. */
    method Select(cp: Checkpoint, answer: Option<Decision>) returns (selection: Result<Selection>)
      ensures selection.Err? <==> Unusable(answer)
      ensures selection.Ok? ==> answer.Some?
      ensures selection.Ok? ==>
                selection
                == SelectionOf(cfg.key, answer.value, SeenKeys(cfg.key, repository.tasks), cp.remainingBudget,
                               cfg.budget)
    {
      selection := Err("unavailable");
      if hasModel && answer.Some? {
        SelectionRefused(cfg.key, answer.value, SeenKeys(cfg.key, repository.tasks), cp.remainingBudget, cfg.budget);
        selection := SelectQuestions(cfg.key, answer.value, SeenKeys(cfg.key, repository.tasks),
                                     cp.remainingBudget, cfg.budget);
      }
    }

    /** The round of a usable decision, under new identifiers. */
    method StoreRound(cp: Checkpoint, decision: Decision, sel: Selection)
      returns (end: Option<Outcome>, planned: bool, next: Checkpoint)
      requires Valid() && MayCommit(cp, decision, sel)
      modifies this`history, this`trace, this`driver, this`lost, repository`tasks, repository`checkpoint
      ensures lost == old(lost) + Losses(end)
      ensures Valid() && old(history) <= history && old(repository.tasks) <= repository.tasks
      ensures end.Some? ==>
                && repository.Contents() == old(repository.Contents())
                && !planned && (end.value == Crashed || end.value == Failure("IntegrityError", false, false))
      ensures end.None? ==>
                && driver == Ready(next) && next == repository.checkpoint && next.currentRound == cp.currentRound + 1
                && Planning(old(repository.Contents()), cp, decision, planned)
    {
      end, planned, next := None, false, cp;
      var n := |sel.selected| + |sel.duplicates|;
      assert |seq(n, _ => "")| == n;
      var ids: seq<string> :| |ids| == n;
      var saved := CommitRound(cp, decision, sel, ids);
      if saved.None? || saved.value.Err? {
        end := Some(if saved.None? then Crashed else Failure(saved.value.code, false, false));
        return;
      }
      assert RoundStored(old(repository.Contents()), ids, sel);
      next := saved.value.value;
      SelectionRefused(cfg.key, decision, old(SeenKeys(cfg.key, repository.tasks)), cp.remainingBudget, cfg.budget);
      planned := decision.action != Stop && sel.selected != [];
    }

    /** The round `decision` selects can be written now. */
    ghost predicate MayCommit(cp: Checkpoint, decision: Decision, sel: Selection)
      reads this, repository
    {
      && driver == Ready(cp) && cp == repository.checkpoint && RoundDone(repository.Contents())
      && cp.currentRound < cfg.budget.maxRounds && cp.remainingBudget > 0 && decision.action != Clarify
      && SelectionOf(cfg.key, decision, SeenKeys(cfg.key, repository.tasks), cp.remainingBudget, cfg.budget) == Ok(sel)
    }

    /** The rows now hold the round just planned. */
    ghost method RecordPlan(before: State, decision: Decision, ids: seq<string>, sel: Selection)
      requires Traced(cfg, history, trace, before)
      requires |ids| == |sel.selected| + |sel.duplicates|
      requires
        Apply(cfg, before, Plan(decision, ids))
        == Some(State(PlannedDb(before.db, ids, sel), Ready(PlannedDb(before.db, ids, sel).checkpoint)))
      requires repository.Contents() == PlannedDb(before.db, ids, sel)
      modifies this`history, this`trace, this`driver
      ensures Valid() && old(history) <= history && driver == Ready(repository.checkpoint)
    {
      Record(Plan(decision, ids), before, Ready(repository.checkpoint));
    }

    /** `plan_round` with the batch of a selection. */
    method WriteRound(cp: Checkpoint, ids: seq<string>, sel: Selection) returns (r: Result<Checkpoint>)
      requires Valid() && cp == repository.checkpoint && |ids| == |sel.selected| + |sel.duplicates|
      modifies repository`tasks, repository`checkpoint
      ensures r.Ok? <==> NewIds(old(repository.tasks), ids)
      ensures r.Ok? ==> repository.Contents() == PlannedDb(old(repository.Contents()), ids, sel)
                        && r.value == repository.checkpoint
      ensures r.Err? ==> repository.Contents() == old(repository.Contents()) && r.code == "IntegrityError"
    {
      var batch := NewBatch(cp.currentRound + 1, ids, sel);
      Ordered();
      BatchInsertable(repository.Contents(), ids, sel);
      r := repository.PlanRound(cp, batch);
    }

    /** Writes the round the planner's answer selects. Only identifiers already in use are refused. */
    method CommitRound(cp: Checkpoint, decision: Decision, sel: Selection, ids: seq<string>)
      returns (saved: Option<Result<Checkpoint>>)
      requires Valid() && MayCommit(cp, decision, sel) && |ids| == |sel.selected| + |sel.duplicates|
      modifies this`history, this`trace, this`driver, this`lost, repository`tasks, repository`checkpoint
      ensures lost == old(lost) + (if saved.None? then 1 else 0)
      ensures Valid() && old(history) <= history
      ensures saved.Some? && saved.value.Ok? ==>
                && driver == Ready(saved.value.value)
                && repository.Contents() == PlannedDb(old(repository.Contents()), ids, sel)
                && saved.value.value == repository.checkpoint
      ensures saved.None? || saved.value.Err? ==> repository.Contents() == old(repository.Contents())
      ensures saved.Some? ==> (saved.value.Ok? <==> NewIds(old(repository.tasks), ids))
      ensures saved.Some? && saved.value.Err? ==> saved.value.code == "IntegrityError"
    {
      if * {
        lost := lost + 1;
        Leave();
        return None;
      }
      ghost var before := Here();
      var r := WriteRound(cp, ids, sel);
      if r.Ok? {
        PlanPossible(cfg, before, decision, ids, sel);
        RecordPlan(before, decision, ids, sel);
      } else {
        Leave();
      }
      saved := Some(r);
    }

    /** Between rounds: the driver holds the stored checkpoint, and the Asks so far are paid for. */
    ghost predicate AtRound(cp: Checkpoint, asks: nat)
      reads this, repository
    {
      && Valid() && driver == Ready(cp)
      && asks <= PlannedCount(repository.tasks) && (asks == 0 || cancelled || AllFinished())
    }

    /** The rows of the current round end the table, and everything before them is finished. */
    lemma CurrentIsTail(cp: Checkpoint)
      requires Valid() && driver == Ready(cp)
      ensures
        var first := RoundStart(repository.tasks, cp.currentRound);
        && repository.checkpoint == cp
        && OfRound(repository.tasks, cp.currentRound) == repository.tasks[first..]
        && (forall i :: 0 <= i < first ==> Finished(repository.tasks[i]))
        && (forall i :: first <= i < |repository.tasks| ==> repository.tasks[i].round == cp.currentRound)
        && (forall i :: 0 <= i < |repository.tasks| ==> repository.tasks[i].round <= cp.currentRound)
        && ((forall t :: t in OfRound(repository.tasks, cp.currentRound) ==> Finished(t)) <==> AllFinished())
    {
      Holds();
      TableTail(repository.Contents());
    }

    lemma PlannedAfter(before: seq<Task>, cp: Checkpoint)
      requires Valid() && driver == Ready(cp) && before <= repository.tasks
      requires forall i :: 0 <= i < |before| ==> before[i].round < cp.currentRound
      ensures PlannedCount(before) <= PlannedCount(repository.tasks[..RoundStart(repository.tasks, cp.currentRound)])
    {
      Holds();
      NewRoundAfter(repository.Contents(), before);
    }

    /** The rows of the current round, read back and run in order. */
    method RunCurrent(cp: Checkpoint, ghost asks: nat)
      returns (end: Option<Outcome>, next: Checkpoint, ghost asked: nat)
      requires Valid() && driver == Ready(cp)
      requires asks <= PlannedCount(repository.tasks[..RoundStart(repository.tasks, cp.currentRound)])
      modifies this`history, this`trace, this`driver, this`lost, this`cancelled, repository`tasks, repository`checkpoint
      ensures lost == old(lost) + Losses(end)
      ensures Valid() && old(history) <= history && (old(cancelled) ==> cancelled)
      ensures asks + asked <= PlannedCount(repository.tasks)
      ensures end.Some? ==> Told(end.value)
      ensures end.None? ==>
                driver == Ready(next) && next.currentRound == cp.currentRound && (cancelled || AllFinished())
    {
      CurrentIsTail(cp);
      var items := repository.TasksOfRound(cp.currentRound);
      end, next, asked := RunRound(items, cp, RoundStart(repository.tasks, cp.currentRound));
    }

    /** What ended a drive within its rounds is on record, or is what the planner's answer comes to. */
    ghost predicate Explained(o: Outcome, heard: Planner)
      reads this, repository
    {
      || Told(o)
      || (o == WaitingForUser && heard.Asked? && !Unusable(heard.decision) && heard.decision.value.action == Clarify)
      || (o == Failure("diagnostic_model_unavailable", false, true)
          && heard.Asked? && Unusable(heard.decision) && Refs(repository.tasks) == [])
      || (o == Failure("IntegrityError", false, false) && heard.Asked?)
    }

    /** Why the round loop was left: the limits are reached, or the planner failed, or it planned nothing. */
    ghost predicate Left(cp: Checkpoint, heard: Planner, failed: bool)
      reads this, repository
    {
      && (failed <==> heard.Asked? && Unusable(heard.decision))
      && (failed ==> Refs(repository.tasks) != [])
      && (failed || cp.currentRound >= cfg.budget.maxRounds || cp.remainingBudget <= 0
          || (heard.Asked? && forall t :: t in repository.tasks && t.round == cp.currentRound ==> !BornPlanned(t)))
    }

    /** A round that was stored without a selected question has only repeats. */
    lemma OnlyRepeats(before: Db, cp: Checkpoint, decision: Decision)
      requires Table(before) && cp == before.checkpoint && Planning(before, cp, decision, false)
      requires forall i :: 0 <= i < |before.tasks| ==> Finished(before.tasks[i])
      ensures forall t :: t in repository.tasks && t.round == repository.checkpoint.currentRound ==> !BornPlanned(t)
      ensures AllFinished()
    {
      var ids, sel :|
        && SelectionOf(cfg.key, decision, SeenKeys(cfg.key, before.tasks), cp.remainingBudget, cfg.budget) == Ok(sel)
        && RoundStored(before, ids, sel) && (false <==> decision.action == Query && sel.selected != []);
      SelectionRefused(cfg.key, decision, SeenKeys(cfg.key, before.tasks), cp.remainingBudget, cfg.budget);
      assert sel.selected == [];
    }

    /** Planning that brought no tasks to run ends the drive or the loop, for a reason. */
    lemma PlanningEnds(before: Db, cp: Checkpoint, decision: Option<Decision>, end: Option<Outcome>, failed: bool,
                       next: Checkpoint)
      requires Table(before) && cp == before.checkpoint
      requires forall i :: 0 <= i < |before.tasks| ==> Finished(before.tasks[i])
      requires PlanningOf(before, cp, decision, end, false, failed, next)
      ensures end.Some? ==> Explained(end.value, Asked(decision))
      ensures end.None? ==> Left(next, Asked(decision), failed) && AllFinished()
    {
      if end.None? && !failed {
        OnlyRepeats(before, cp, decision.value);
      }
    }

    /** The round to come is planned, and, if it brought tasks, run. */
    method PlanAndRun(cp: Checkpoint, ghost asks: nat)
      returns (end: Option<Outcome>, more: bool, failed: bool, next: Checkpoint, ghost asked: nat,
               ghost decision: Option<Decision>)
      requires AtRound(cp, asks) && !cancelled && AllFinished()
      requires cp.currentRound < cfg.budget.maxRounds && cp.remainingBudget > 0
      modifies this`history, this`trace, this`driver, this`lost, this`cancelled, repository`tasks, repository`checkpoint
      ensures lost == old(lost) + Losses(end)
      ensures Valid() && old(history) <= history && (old(cancelled) ==> cancelled)
      ensures asks + asked <= PlannedCount(repository.tasks)
      ensures end.Some? ==> Explained(end.value, Asked(decision))
      ensures end.None? ==> driver == Ready(next) && (cancelled || AllFinished())
      ensures end.None? && more ==> next.currentRound == cp.currentRound + 1 && !failed && !Unusable(decision)
      ensures end.None? && !more ==> Left(next, Asked(decision), failed)
    {
      asked := 0;
      ghost var before := repository.Contents();
      CurrentIsTail(cp);
      Ordered();
      end, more, failed, next, decision := PlanNext(cp);
      PlannedPrefix(repository.tasks, |before.tasks|);
      assert repository.tasks[..|before.tasks|] == before.tasks;
      if end.None? && more {
        PlannedAfter(before.tasks, next);
        end, next, asked := RunCurrent(next, asks);
      } else {
        PlanningEnds(before, cp, decision, end, failed, next);
      }
    }

    /** One turn of the round loop: it ends the drive, leaves the loop, or brings the run forward. */
    method RunOnce(cp: Checkpoint, ghost asks: nat)
      returns (end: Option<Outcome>, more: bool, failed: bool, next: Checkpoint, ghost planning: nat, ghost asked: nat,
               ghost heard: Planner)
      requires AtRound(cp, asks)
      modifies this`history, this`trace, this`driver, this`lost, this`cancelled, repository`tasks, repository`checkpoint
      ensures lost == old(lost) + Losses(end)
      ensures Valid() && old(history) <= history && (old(cancelled) ==> cancelled)
      ensures asks + asked <= PlannedCount(repository.tasks)
      ensures planning <= 1 && (planning == 1 <==> heard.Asked?)
      ensures planning == 1 ==> cp.currentRound < cfg.budget.maxRounds && cp.remainingBudget > 0 && old(AllFinished())
      ensures end.Some? ==> Explained(end.value, heard)
      ensures end.None? ==> driver == Ready(next) && (cancelled || AllFinished())
      ensures end.None? && more ==> next.currentRound == cp.currentRound + planning
      ensures end.None? && more && planning == 0 ==> !old(cancelled) && !old(AllFinished())
      ensures end.None? && !more ==> Left(next, heard, failed)
    {
      end, more, failed, next, planning, asked, heard := None, false, false, cp, 0, 0, NotAsked;
      var stop := IsCancelled();
      if stop {
        end := Some(Cancelled);
        return;
      }
      CurrentIsTail(cp);
      var items := repository.TasksOfRound(cp.currentRound);
      assert (forall t :: t in items ==> Finished(t)) <==> AllFinished();
      if forall t :: t in items ==> Finished(t) {
        if cp.currentRound < cfg.budget.maxRounds && cp.remainingBudget > 0 {
          ghost var decision;
          end, more, failed, next, asked, decision := PlanAndRun(cp, asks);
          planning, heard := 1, Asked(decision);
        }
      } else {
        more := true;
        end, next, asked := RunCurrent(cp, asks);
      }
      more := more && next.currentRound < cfg.budget.maxRounds;
    }

    /** The round loop, until it ends the drive or leaves its evidence to be answered from. */
    method RunRounds(start: Checkpoint)
      returns (end: Option<Outcome>, failed: bool, ghost planning: nat, ghost asks: nat, ghost heard: Planner)
      requires Valid() && driver == Ready(start)
      modifies this`history, this`trace, this`driver, this`lost, this`cancelled, repository`tasks, repository`checkpoint
      ensures lost == old(lost) + Losses(end)
      ensures Valid() && old(history) <= history && (old(cancelled) ==> cancelled)
      ensures planning <= cfg.budget.maxRounds && asks <= PlannedCount(repository.tasks)
      ensures end.Some? ==> Explained(end.value, heard)
      ensures end.None? ==> driver.Ready? && (cancelled || AllFinished()) && Left(driver.cp, heard, failed)
    {
      var cp := start;
      failed, planning, asks, heard := false, 0, 0, NotAsked;
      Holds();
      var more := cp.currentRound <= cfg.budget.maxRounds;
      while more
        invariant Valid() && old(history) <= history && (old(cancelled) ==> cancelled) && driver == Ready(cp)
        invariant cp.currentRound <= cfg.budget.maxRounds && (more ==> planning <= cp.currentRound)
        invariant asks <= PlannedCount(repository.tasks) && lost == old(lost)
        invariant more ==> AtRound(cp, asks)
        invariant !more ==> (cancelled || AllFinished()) && Left(cp, heard, failed)
        invariant planning <= cfg.budget.maxRounds
        decreases more, cfg.budget.maxRounds - cp.currentRound, !AllFinished(), !cancelled
      {
        ghost var planned: nat, asked: nat;
        end, more, failed, cp, planned, asked, heard := RunOnce(cp, asks);
        planning, asks := planning + planned, asks + asked;
        if end.Some? {
          return;
        }
        Holds();
      }
      end := None;
    }

    /** What a drive comes to. An answer is given from the evidence there is, and only then. */
    ghost predicate Outcomes(o: Outcome, baselineUnclear: bool, heard: Planner)
      reads this, repository
    {
      || (!o.Concluded? && Explained(o, heard))
      || (o == WaitingForUser && baselineUnclear && repository.checkpoint.currentRound == 0)
      || (o == Failure("diagnostic_model_unavailable", false, true) && !hasModel && Refs(repository.tasks) == [])
      || (o == Failure("diagnostic_no_verified_evidence", false, true) && Refs(repository.tasks) == [])
      || (o.Concluded? && o.refs == Refs(repository.tasks) == repository.checkpoint.refs && o.refs != []
          && (cancelled || AllFinished()) && Left(repository.checkpoint, heard, o.deterministic))
    }

    /**
     * One drive: it always ends, within the planning and Ask budgets. An answer rests on exactly the
     * references of the completed evidence, which the checkpoint then reports without lag.
     */
    method Drive(baselineUnclear: bool)
      returns (outcome: Outcome, ghost planning: nat, ghost asks: nat, ghost heard: Planner)
      requires Valid() && driver == Down
      modifies this`history, this`trace, this`driver, this`lost, this`cancelled, repository`tasks, repository`checkpoint
      ensures lost == old(lost) + Losses(Some(outcome))
      ensures Valid() && driver == Down && old(history) <= history
      ensures planning <= cfg.budget.maxRounds && asks <= cfg.budget.maxQuestions
      ensures Outcomes(outcome, baselineUnclear, heard)
      ensures outcome.Concluded? && ScopeLocks(cfg) ==> SingleSource(repository.tasks)
    {
      planning, asks, heard := 0, 0, NotAsked;
      outcome := Crashed;
      var repaired := Reconcile();
      if repaired.Some? {
        var ready := InitialiseBudget(repaired.value);
        if ready.Some? {
          outcome, planning, asks, heard := DriveReady(ready.value, baselineUnclear);
        }
      }
      AsksPaid(asks);
      if driver != Down {
        Leave();
      }
      if outcome.Concluded? {
        OneSource();
      }
    }

    lemma AsksPaid(asks: nat)
      requires Valid() && asks <= PlannedCount(repository.tasks)
      ensures asks <= cfg.budget.maxQuestions
    {
      BudgetConserved(cfg, history, Here());
    }

    lemma OneSource()
      requires Valid()
      ensures ScopeLocks(cfg) ==> SingleSource(repository.tasks)
    {
      if ScopeLocks(cfg) {
        SingleSourceHolds(cfg, history, Here());
      }
    }

    lemma Reported(cp: Checkpoint)
      requires Valid() && driver == Ready(cp)
      ensures VerifiedRefs(repository.tasks) == Refs(repository.tasks) == repository.checkpoint.refs
      ensures cp == repository.checkpoint
    {
      Holds();
      VerifiedAreRefs(cfg, repository.tasks);
    }

    /** The drive once its checkpoint is repaired and its budget set. */
    method DriveReady(cp: Checkpoint, baselineUnclear: bool)
      returns (outcome: Outcome, ghost planning: nat, ghost asks: nat, ghost heard: Planner)
      requires Valid() && driver == Ready(cp)
      modifies this`history, this`trace, this`driver, this`lost, this`cancelled, repository`tasks, repository`checkpoint
      ensures lost == old(lost) + Losses(Some(outcome))
      ensures Valid() && old(history) <= history
      ensures planning <= cfg.budget.maxRounds && asks <= PlannedCount(repository.tasks)
      ensures Outcomes(outcome, baselineUnclear, heard)
      ensures cp.currentRound == 0 && baselineUnclear ==> planning == 0 && asks == 0 && !outcome.Concluded?
      ensures !hasModel && cp.refs == [] ==> planning == 0 && asks == 0 && !outcome.Concluded?
    {
      planning, asks, heard := 0, 0, NotAsked;
      Reported(cp);
      if !hasModel && cp.refs == [] {
        outcome := Failure("diagnostic_model_unavailable", false, true);
        return;
      }
      if cp.currentRound == 0 && baselineUnclear {
        outcome := WaitingForUser;
        return;
      }
      var end, failed;
      end, failed, planning, asks, heard := RunRounds(cp);
      if end.Some? {
        outcome := end.value;
        return;
      }
      Reported(driver.cp);
      var verified := VerifiedRefs(repository.tasks);
      if verified == [] {
        outcome := Failure("diagnostic_no_verified_evidence", false, true);
        return;
      }
      var stop := IsCancelled();
      outcome := if stop then Cancelled else Concluded(verified, failed);
    }
  }

  lemma TableTail(db: Db)
    requires Table(db) && InOrder(db)
    ensures
      var first := RoundStart(db.tasks, db.checkpoint.currentRound);
      && OfRound(db.tasks, db.checkpoint.currentRound) == db.tasks[first..]
      && (forall i :: 0 <= i < first ==> Finished(db.tasks[i]))
      && (forall i :: first <= i < |db.tasks| ==> db.tasks[i].round == db.checkpoint.currentRound)
      && ((forall t :: t in OfRound(db.tasks, db.checkpoint.currentRound) ==> Finished(t))
          <==> forall i :: 0 <= i < |db.tasks| ==> Finished(db.tasks[i]))
  {
    assert forall i, j :: 0 <= i < j < |db.tasks| ==> Before(db.tasks[i], db.tasks[j]);
    RoundIsTail(db.tasks, db.checkpoint.currentRound);
    var first := RoundStart(db.tasks, db.checkpoint.currentRound);
    forall i | first <= i < |db.tasks| ensures db.tasks[i] in db.tasks[first..] {
      assert db.tasks[first..][i - first] == db.tasks[i];
    }
  }

  lemma StartsAfter(tasks: seq<Task>, round: nat, before: seq<Task>)
    requires forall i, j :: 0 <= i < j < |tasks| ==> tasks[i].round <= tasks[j].round
    requires forall i :: 0 <= i < |tasks| ==> tasks[i].round <= round
    requires before <= tasks && forall i :: 0 <= i < |before| ==> before[i].round < round
    ensures RoundStart(tasks, round) >= |before|
  {
    RoundIsTail(tasks, round);
    assert forall i :: 0 <= i < |before| ==> tasks[i] == before[i];
  }

  /** A round just planned starts after all rows that were there before it. */
  lemma NewRoundAfter(db: Db, before: seq<Task>)
    requires Table(db) && before <= db.tasks
    requires forall i :: 0 <= i < |before| ==> before[i].round < db.checkpoint.currentRound
    ensures PlannedCount(before) <= PlannedCount(db.tasks[..RoundStart(db.tasks, db.checkpoint.currentRound)])
  {
    assert forall i, j :: 0 <= i < j < |db.tasks| ==> Before(db.tasks[i], db.tasks[j]);
    StartsAfter(db.tasks, db.checkpoint.currentRound, before);
    var done := db.tasks[..RoundStart(db.tasks, db.checkpoint.currentRound)];
    assert done[..|before|] == before;
    PlannedPrefix(done, |before|);
  }

  /** The tasks of a round, numbered from one: the selected questions, then the repeats. */
  method NewBatch(round: nat, ids: seq<string>, sel: Selection) returns (batch: seq<Task>)
    requires |ids| == |sel.selected| + |sel.duplicates|
    ensures batch == Batch(round, ids, sel)
  {
    batch := [];
    var items := sel.selected + sel.duplicates;
    for index := 0 to |items|
      invariant |batch| == index
      invariant forall i :: 0 <= i < index ==> batch[i] == Batch(round, ids, sel)[i]
    {
      var status := if index + 1 <= |sel.selected| then Planned else Skipped;
      batch := batch + [PlannedTask(round, index + 1, ids[index], items[index], status)];
    }
  }

  /** A new round meets no row of the table: only its identifiers could. */
  lemma BatchInsertable(db: Db, ids: seq<string>, sel: Selection)
    requires |ids| == |sel.selected| + |sel.duplicates| && Table(db)
    ensures
      var batch := Batch(db.checkpoint.currentRound + 1, ids, sel);
      (Insertable(db.tasks, batch) <==> NewIds(db.tasks, ids)) && PlannedIn(batch) == |sel.selected|
  {
    InsertableIds(db, ids, sel);
    PlannedInBatch(Batch(db.checkpoint.currentRound + 1, ids, sel), |sel.selected|);
  }

  lemma InsertableIds(db: Db, ids: seq<string>, sel: Selection)
    requires |ids| == |sel.selected| + |sel.duplicates| && Table(db)
    ensures Insertable(db.tasks, Batch(db.checkpoint.currentRound + 1, ids, sel)) <==> NewIds(db.tasks, ids)
  {
    var batch := Batch(db.checkpoint.currentRound + 1, ids, sel);
    assert forall i :: 0 <= i < |ids| ==> batch[i].id == ids[i] && batch[i].round == db.checkpoint.currentRound + 1;
    forall i, t | 0 <= i < |batch| && t in db.tasks ensures !SamePlace(t, batch[i]) {
    }
    if Insertable(db.tasks, batch) {
      forall i, j | 0 <= i < j < |ids| ensures ids[i] != ids[j] {
        assert batch[i].id != batch[j].id;
      }
      forall i, t | 0 <= i < |ids| && t in db.tasks ensures t.id != ids[i] {
        assert t.id != batch[i].id;
      }
    }
  }

  /** After j turns: the later rows are as listed, the earlier ones finished and counted. */
  ghost predicate Turns(tasks: seq<Task>, items: seq<Task>, first: nat, j: nat, cancelled: bool, counted: nat) {
    && j <= |items| && |tasks| == first + |items|
    && (forall k :: j <= k < |items| ==> tasks[first + k] == items[k])
    && (cancelled || forall i :: 0 <= i < first + j ==> Finished(tasks[i]))
    && counted <= PlannedCount(tasks[..first + j])
  }

  ghost predicate RowOnly(before: seq<Task>, after: seq<Task>, i: nat) {
    i < |before| == |after| && after == before[i := after[i]]
  }

  lemma RowAdvances(before: seq<Task>, after: seq<Task>, items: seq<Task>, first: nat, j: nat, counted: nat, once: nat)
    requires j < |items| && |before| == first + |items| && RowOnly(before, after, first + j)
    requires counted <= PlannedCount(before[..first + j])
    requires once <= 1 && (once == 1 ==> BornPlanned(after[first + j]))
    ensures counted + once <= PlannedCount(after[..first + j + 1]) <= PlannedCount(after)
  {
    assert after[..first + j + 1][..first + j] == before[..first + j];
    PlannedPrefix(after, first + j + 1);
  }

  lemma TurnDone(before: seq<Task>, after: seq<Task>, items: seq<Task>, first: nat, j: nat, counted: nat, once: nat,
                 wasCancelled: bool, cancelled: bool)
    requires j < |items| && RowOnly(before, after, first + j) && Turns(before, items, first, j, wasCancelled, counted)
    requires wasCancelled ==> cancelled
    requires cancelled || Finished(after[first + j])
    requires counted + once <= PlannedCount(after[..first + j + 1])
    ensures Turns(after, items, first, j + 1, cancelled, counted + once)
  {
  }

  /** A task found RUNNING at a restart. */
  ghost function Restarted(t: Task): Task {
    t.(status := Failed, failureCode := Some("task_interrupted"), retryable := true, revision := t.revision + 1)
  }

  /** Row i holds `task`, which may be attempted, and all earlier work is finished. */
  ghost predicate MayRun(tasks: seq<Task>, i: nat, task: Task, cp: Checkpoint) {
    && i < |tasks| && tasks[i] == task && task.round == cp.currentRound
    && !Finished(task) && !(task.status == Failed && !task.retryable)
    && forall j :: 0 <= j < i ==> Finished(tasks[j])
  }

  /** Where the driver stands after a checkpoint write: asking if a task is in hand, else between tasks. */
  function Driving(driver: Driver, cp: Checkpoint): Driver {
    if driver.Started? then Asking(cp, driver.i, driver.task) else Ready(cp)
  }
}
