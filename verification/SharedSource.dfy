/**
 * When an answer may be written without mixing sources, however many drivers there are.
 *
 * The source is compared with the driver's own copy of the checkpoint, so what counts is whether that copy
 * names the source of the answers already stored.
 */
module SharedSource {
  import opened Common
  import opened QuestionPolicy
  import opened DiagnosticState
  import opened DiagnosticRuns
  import opened DiagnosticTheorems
  import opened ManyDrivers
  import opened SharedReports

  /** The copy names the source of every stored answer, or there is none yet. */
  ghost predicate Covers(cp: Checkpoint, tasks: seq<Task>) {
    Refs(tasks) == [] || (Locked(cp) && AllFrom(tasks, cp.source.value))
  }

  /** The driver waits for an answer and still holds the row it would write. */
  ghost predicate Awaits(f: Fleet, d: nat) {
    var drv := DriverOf(f, d);
    drv.Asking? && drv.i < |f.db.tasks| && f.db.tasks[drv.i] == drv.task
  }

  function AfterAnswer(cfg: Config, f: Fleet, d: nat, source: string): seq<Task> {
    Advance(cfg, f, Move(d, AskVerified(source))).db.tasks
  }

  predicate Accepts(cp: Checkpoint, source: string) {
    source != "" && (Locked(cp) ==> source == cp.source.value)
  }

  /** An answer changes the driver's row alone, and only when its own copy admits the source. */
  lemma AnswerWritten(cfg: Config, f: Fleet, d: nat, source: string)
    requires Awaits(f, d)
    ensures
      var drv, after := DriverOf(f, d), AfterAnswer(cfg, f, d, source);
      && |after| == |f.db.tasks| && after == f.db.tasks[drv.i := after[drv.i]]
      && (Accepts(drv.cp, source) ==> HasEvidence(after[drv.i]) && after[drv.i].answer == Some(Verified(source)))
      && (!Accepts(drv.cp, source) ==> after == f.db.tasks)
  {
  }

  lemma EvidenceFrom(cfg: Config, tasks: seq<Task>) returns (j: nat, source: string)
    requires TasksOk(cfg, tasks) && Refs(tasks) != [] && SingleSource(tasks)
    ensures j < |tasks| && HasEvidence(tasks[j]) && tasks[j].answer == Some(Verified(source))
    ensures AllFrom(tasks, source)
  {
    RefsFound(tasks);
    j :| 0 <= j < |tasks| && HasEvidence(tasks[j]);
    assert TaskOk(cfg, tasks[j]);
    source := tasks[j].answer.value.source;
  }

  lemma CoveredAnswer(cfg: Config, f: Fleet, d: nat, source: string)
    requires Awaits(f, d) && SingleSource(f.db.tasks) && Covers(DriverOf(f, d).cp, f.db.tasks)
    ensures SingleSource(AfterAnswer(cfg, f, d, source))
  {
    AnswerWritten(cfg, f, d, source);
    RefsFound(f.db.tasks);
    var cp, i, after := DriverOf(f, d).cp, DriverOf(f, d).i, AfterAnswer(cfg, f, d, source);
    if Accepts(cp, source) {
      forall j | 0 <= j < |after| && HasEvidence(after[j]) ensures after[j].answer == Some(Verified(source)) {
        if j != i {
          assert after[j] == f.db.tasks[j];
        }
      }
    }
  }

  /** A source the driver would accept, other than the stored one. */
  lemma OtherSource(cp: Checkpoint, stored: string) returns (source: string)
    requires !(Locked(cp) && cp.source.value == stored)
    ensures Accepts(cp, source) && source != stored
  {
    source := if Locked(cp) then cp.source.value else stored + "x";
    assert |stored + "x"| == |stored| + 1;
  }

  lemma UncoveredAnswer(cfg: Config, f: Fleet, d: nat) returns (source: string)
    requires Awaits(f, d) && TasksOk(cfg, f.db.tasks) && SingleSource(f.db.tasks)
    requires !HasEvidence(DriverOf(f, d).task) && !Covers(DriverOf(f, d).cp, f.db.tasks)
    ensures !SingleSource(AfterAnswer(cfg, f, d, source))
  {
    var i := DriverOf(f, d).i;
    var j, stored := EvidenceFrom(cfg, f.db.tasks);
    source := OtherSource(DriverOf(f, d).cp, stored);
    AnswerWritten(cfg, f, d, source);
    var after := AfterAnswer(cfg, f, d, source);
    assert after[j] == f.db.tasks[j] && HasEvidence(after[i]) && after[i].answer != after[j].answer;
  }

  /** Whatever source answers next, the run stays on one exactly when the driver's copy covers the rows. */
  lemma AnswerStaysExactly(cfg: Config, f: Fleet, d: nat)
    requires Guarded(cfg, f) && Awaits(f, d) && SingleSource(f.db.tasks)
    ensures (forall source :: SingleSource(AfterAnswer(cfg, f, d, source))) <==> Covers(DriverOf(f, d).cp, f.db.tasks)
  {
    assert CopiesOk(f.db, DriverOf(f, d));
    if Covers(DriverOf(f, d).cp, f.db.tasks) {
      forall source ensures SingleSource(AfterAnswer(cfg, f, d, source)) {
        CoveredAnswer(cfg, f, d, source);
      }
    } else {
      var source := UncoveredAnswer(cfg, f, d);
    }
  }

  // ---- Whole runs ----

  lemma RowStays(tasks: seq<Task>, i: nat, t: Task)
    requires i < |tasks| && SingleSource(tasks) && !HasEvidence(t)
    ensures SingleSource(tasks[i := t])
  {
    var after := tasks[i := t];
    forall a, b | 0 <= a < |after| && 0 <= b < |after| && HasEvidence(after[a]) && HasEvidence(after[b])
      ensures after[a].answer == after[b].answer
    {
      assert after[a] == tasks[a] && after[b] == tasks[b];
    }
  }

  lemma PlanStays(cfg: Config, db: Db, ids: seq<string>, sel: Selection)
    requires Core(cfg, db) && RoundDone(db) && SingleSource(db.tasks) && |ids| == |sel.selected| + |sel.duplicates|
    ensures SingleSource(PlannedDb(db, ids, sel).tasks)
  {
    BatchRows(cfg, db, db.checkpoint.currentRound + 1, ids, sel);
    var after := PlannedDb(db, ids, sel).tasks;
    forall a, b | 0 <= a < |after| && 0 <= b < |after| && HasEvidence(after[a]) && HasEvidence(after[b])
      ensures after[a].answer == after[b].answer
    {
      assert after[a] == db.tasks[a] && after[b] == db.tasks[b];
    }
  }

  lemma AttemptStays(cfg: Config, s: State, e: Event)
    requires Core(cfg, s.db) && CopiesOk(s.db, s.driver) && SingleSource(s.db.tasks)
    requires EndsAttempt(e) && !e.AskVerified? && Apply(cfg, s, e).Some?
    ensures SingleSource(Apply(cfg, s, e).value.db.tasks)
  {
    AttemptMoves(cfg, s, e);
    RowStays(s.db.tasks, s.driver.i, Apply(cfg, s, e).value.db.tasks[s.driver.i]);
  }

  lemma RowStepStays(cfg: Config, s: State, e: Event, i: nat)
    requires Core(cfg, s.db) && CopiesOk(s.db, s.driver) && SingleSource(s.db.tasks)
    requires (e == Recover(i) || e == Begin(i)) && Apply(cfg, s, e).Some?
    ensures SingleSource(Apply(cfg, s, e).value.db.tasks)
  {
    RowStays(s.db.tasks, i, Apply(cfg, s, e).value.db.tasks[i]);
  }

  lemma StepStays(cfg: Config, f: Fleet, d: nat, e: Event)
    requires Guarded(cfg, f) && SingleSource(f.db.tasks) && Stepped(cfg, f, d, e).Some? && !e.AskVerified?
    ensures SingleSource(Stepped(cfg, f, d, e).value.db.tasks)
  {
    var s := View(f, d);
    match e
    case Crash =>
    case Recover(i) => RowStepStays(cfg, s, e, i);
    case Open =>
    case Repair =>
    case InitBudget =>
    case Plan(decision, ids) =>
      var sel := PlanMoves(cfg, s, decision, ids);
      PlanStays(cfg, f.db, ids, sel);
    case Begin(i) => RowStepStays(cfg, s, e, i);
    case MarkPending =>
    case Settle =>
    case _ => AttemptStays(cfg, s, e);
  }

  /** The move writes a verified answer. */
  predicate Verifies(cfg: Config, f: Fleet, m: Move) {
    m.Move? && m.event.AskVerified? && Stepped(cfg, f, m.driver, m.event).Some?
  }

  lemma AdvanceStays(cfg: Config, f: Fleet, m: Move)
    requires Guarded(cfg, f) && SingleSource(f.db.tasks)
    requires Verifies(cfg, f, m) ==> Covers(View(f, m.driver).driver.cp, f.db.tasks)
    ensures SingleSource(Advance(cfg, f, m).db.tasks)
  {
    if Verifies(cfg, f, m) {
      assert CopiesOk(f.db, DriverOf(f, m.driver));
      AttemptMoves(cfg, View(f, m.driver), m.event);
      CoveredAnswer(cfg, f, m.driver, m.event.source);
    } else if m.Move? && Stepped(cfg, f, m.driver, m.event).Some? {
      StepStays(cfg, f, m.driver, m.event);
    }
  }

  /** Every verified answer is written by a driver whose copy covers the rows. */
  ghost predicate AnswersCovered(cfg: Config, h: History)
    requires IsRun(cfg, h)
  {
    forall n :: 0 <= n < |h.moves| && Verifies(cfg, h.states[n], h.moves[n]) ==>
      Covers(View(h.states[n], h.moves[n].driver).driver.cp, h.states[n].db.tasks)
  }

  /** Any number of drivers stay on one source under that condition, whatever the scope. */
  lemma {:induction false} CoveredStays(cfg: Config, h: History, n: nat)
    requires IsRun(cfg, h) && AnswersCovered(cfg, h) && n < |h.states|
    ensures SingleSource(h.states[n].db.tasks)
  {
    if n > 0 {
      CoveredStays(cfg, h, n - 1);
      EveryState(cfg, h, n - 1);
      AdvanceStays(cfg, h.states[n - 1], h.moves[n - 1]);
      assert h.states[n] == Advance(cfg, h.states[n - 1], h.moves[n - 1]);
    }
  }

  /** Answering over one's own exact checkpoint covers the rows, where the scope locks. */
  lemma OwnCovers(cfg: Config, h: History)
    requires ScopeLocks(cfg) && IsRun(cfg, h) && AnswersOverOwn(cfg, h)
    ensures AnswersCovered(cfg, h)
  {
    forall n | 0 <= n < |h.moves| && Verifies(cfg, h.states[n], h.moves[n])
      ensures Covers(View(h.states[n], h.moves[n].driver).driver.cp, h.states[n].db.tasks)
    {
      EverySource(cfg, h, n);
      assert Answers(cfg, h.states[n], h.moves[n]);
    }
  }

  lemma SingleSourceForAll(cfg: Config, h: History, n: nat)
    requires ScopeLocks(cfg) && IsRun(cfg, h) && AnswersOverOwn(cfg, h) && n < |h.states|
    ensures SingleSource(h.states[n].db.tasks)
  {
    OwnCovers(cfg, h);
    CoveredStays(cfg, h, n);
  }
}
