/**
 * What the checkpoint reports when several drivers share a run.
 *
 * The two revision guards do not cover it: a task is completed in one write and reported in another, and
 * a second driver may begin from rows the report does not know of yet.
 */
module SharedReports {
  import opened Common
  import opened QuestionPolicy
  import opened DiagnosticState
  import opened DiagnosticRuns
  import opened DiagnosticTheorems
  import opened ManyDrivers

  // ---- The report between the writes ----

  /** Two lists of rows from which a repair would write the same report. */
  predicate SameReport(a: seq<Task>, b: seq<Task>) {
    Refs(a) == Refs(b) && CompletedCount(a) == CompletedCount(b) && FirstSource(a) == FirstSource(b)
  }

  /** What a driver is about to report is exact, as long as the checkpoint is still the one it read. */
  predicate ReportOk(db: Db, drv: Driver, looked: Option<seq<Task>>) {
    match drv
    case Opened(cp) =>
      cp.revision == db.checkpoint.revision && looked.Some? && NeedsRepair(Db(cp, looked.value), cp) ==>
        SameReport(looked.value, db.tasks)
    case Answered(cp, next) =>
      cp.revision == db.checkpoint.revision ==> !Exact(db) && Exact(Db(next, db.tasks))
    case _ => true
  }

  function RowsOf(f: Fleet, d: nat): Option<seq<Task>> {
    if d in f.looked then Some(f.looked[d]) else None
  }

  ghost predicate Reported(f: Fleet) {
    AtMostOneBehind(f.db) && forall d :: d in f.drivers ==> ReportOk(f.db, f.drivers[d], RowsOf(f, d))
  }

  predicate Unreported(before: Db, after: Db) {
    after.checkpoint == before.checkpoint && SameReport(before.tasks, after.tasks)
  }

  /** The writes the other drivers' reports survive. */
  predicate Quiet(before: Db, after: Db) {
    || Unreported(before, after)
    || after.checkpoint.revision > before.checkpoint.revision
    || (after.checkpoint == before.checkpoint && Exact(before))
  }

  lemma OthersKept(before: Db, after: Db, drv: Driver, looked: Option<seq<Task>>)
    requires Quiet(before, after) && CopiesOk(before, drv) && ReportOk(before, drv, looked)
    ensures ReportOk(after, drv, looked)
  {
  }

  // ---- Each step ----

  predicate Completes(e: Event) { e.AskUnavailable? || e.AskVerified? }

  ghost predicate Reports(before: Db, s: State) {
    Quiet(before, s.db) && AtMostOneBehind(s.db) && ReportOk(s.db, s.driver, None)
  }

  lemma {:induction false} FirstSourceStays(tasks: seq<Task>, i: nat, t: Task)
    requires i < |tasks| && !HasEvidence(tasks[i]) && !HasEvidence(t)
    ensures FirstSource(tasks[i := t]) == FirstSource(tasks)
  {
    if i == 0 {
      assert tasks[i := t][1..] == tasks[1..];
    } else {
      assert tasks[i := t][1..] == tasks[1..][i - 1 := t];
      FirstSourceStays(tasks[1..], i - 1, t);
    }
  }

  /** A row that was not and is not completed. */
  lemma RowUnreported(db: Db, i: nat, t: Task)
    requires i < |db.tasks| && db.tasks[i].status != Completed && t.status != Completed
    ensures Unreported(db, Db(db.checkpoint, db.tasks[i := t]))
  {
    UpdateCounts(db.tasks, i, t);
    FirstSourceStays(db.tasks, i, t);
  }

  lemma UnreportedKeeps(before: Db, after: Db)
    requires AtMostOneBehind(before) && Unreported(before, after)
    ensures AtMostOneBehind(after)
  {
  }

  /** Completing the first unfinished row over an exact checkpoint leaves it one behind. */
  lemma CompletionBehind(cfg: Config, db: Db, i: nat, t: Task)
    requires Core(cfg, db) && i < |db.tasks| && db.tasks[i].status == Running && t.status == Completed
    ensures CompletedCount(db.tasks[i := t]) == CompletedCount(db.tasks) + 1
    ensures Refs(db.tasks[i := t]) == Refs(db.tasks) + (if t.evidenceRef.Some? then [t.evidenceRef.value] else [])
  {
    UpdateCounts(db.tasks, i, t);
    assert TaskOk(cfg, db.tasks[i]);
    if HasEvidence(t) {
      forall j | i < j < |db.tasks| ensures !HasEvidence(db.tasks[j]) {
        assert Untouched(db.tasks[j]);
      }
      CompletionAppends(db.tasks, i, t);
    }
  }

  lemma CompletionReports(cfg: Config, s: State, e: Event)
    requires Core(cfg, s.db) && CopiesOk(s.db, s.driver) && Completes(e) && Apply(cfg, s, e).Some? && Exact(s.db)
    ensures Reports(s.db, Apply(cfg, s, e).value)
  {
    AttemptMoves(cfg, s, e);
    var i, next := s.driver.i, Apply(cfg, s, e).value;
    var after := next.db;
    CompletionBehind(cfg, s.db, i, after.tasks[i]);
    var ref := after.tasks[i].evidenceRef;
    assert Refs(after.tasks) == Refs(s.db.tasks) + (if ref.Some? then [ref.value] else []);
    assert next.driver.next.refs == s.driver.cp.refs + (if ref.Some? then [ref.value] else []);
  }

  /** With two answers unreported the checkpoint is two behind. */
  lemma CompletionOverInexact(cfg: Config, s: State, e: Event)
    requires Core(cfg, s.db) && CopiesOk(s.db, s.driver) && Completes(e) && Apply(cfg, s, e).Some?
    requires AtMostOneBehind(s.db) && !Exact(s.db)
    ensures !AtMostOneBehind(Apply(cfg, s, e).value.db)
  {
    AttemptMoves(cfg, s, e);
    var i, after := s.driver.i, Apply(cfg, s, e).value.db;
    CompletionBehind(cfg, s.db, i, after.tasks[i]);
  }

  lemma AttemptEndReports(cfg: Config, s: State, e: Event)
    requires Core(cfg, s.db) && CopiesOk(s.db, s.driver) && AtMostOneBehind(s.db)
    requires EndsAttempt(e) && !Completes(e) && Apply(cfg, s, e).Some?
    ensures Reports(s.db, Apply(cfg, s, e).value)
  {
    AttemptMoves(cfg, s, e);
    var i, after := s.driver.i, Apply(cfg, s, e).value.db;
    RowUnreported(s.db, i, after.tasks[i]);
  }

  lemma RowStepReports(cfg: Config, s: State, e: Event, i: nat)
    requires Core(cfg, s.db) && CopiesOk(s.db, s.driver) && AtMostOneBehind(s.db)
    requires (e == Recover(i) || e == Begin(i)) && Apply(cfg, s, e).Some?
    ensures Reports(s.db, Apply(cfg, s, e).value)
  {
    RowUnreported(s.db, i, Apply(cfg, s, e).value.db.tasks[i]);
  }

  lemma PlannedReports(db: Db, ids: seq<string>, sel: Selection)
    requires AtMostOneBehind(db) && |ids| == |sel.selected| + |sel.duplicates|
    ensures AtMostOneBehind(PlannedDb(db, ids, sel)) && Quiet(db, PlannedDb(db, ids, sel))
  {
    BatchCounts(db.tasks, db.checkpoint.currentRound + 1, ids, sel);
  }

  lemma PlanReports(cfg: Config, s: State, decision: Decision, ids: seq<string>)
    requires Core(cfg, s.db) && CopiesOk(s.db, s.driver) && AtMostOneBehind(s.db)
    requires Apply(cfg, s, Plan(decision, ids)).Some?
    ensures Reports(s.db, Apply(cfg, s, Plan(decision, ids)).value)
  {
    var sel := PlanMoves(cfg, s, decision, ids);
    PlannedReports(s.db, ids, sel);
  }

  lemma RepairReports(cfg: Config, s: State, rows: seq<Task>)
    requires CopiesOk(s.db, s.driver) && AtMostOneBehind(s.db) && ReportOk(s.db, s.driver, Some(rows))
    requires RepairFrom(cfg, s, rows).Some?
    ensures Reports(s.db, RepairFrom(cfg, s, rows).value)
  {
  }

  lemma StepReports(cfg: Config, f: Fleet, d: nat, e: Event)
    requires Guarded(cfg, f) && Reported(f) && Stepped(cfg, f, d, e).Some? && (Completes(e) ==> Exact(f.db))
    ensures Reports(f.db, Stepped(cfg, f, d, e).value)
  {
    var s := View(f, d);
    match e
    case Crash =>
    case Recover(i) => RowStepReports(cfg, s, e, i);
    case Open =>
    case Repair => RepairReports(cfg, s, f.looked[d]);
    case InitBudget =>
    case Plan(decision, ids) => PlanReports(cfg, s, decision, ids);
    case Begin(i) => RowStepReports(cfg, s, e, i);
    case MarkPending =>
    case Settle =>
    case AskUnavailable => CompletionReports(cfg, s, e);
    case AskVerified(_) => CompletionReports(cfg, s, e);
    case _ => AttemptEndReports(cfg, s, e);
  }

  /** The move writes a completion. */
  predicate Answers(cfg: Config, f: Fleet, m: Move) {
    m.Move? && Completes(m.event) && Stepped(cfg, f, m.driver, m.event).Some?
  }

  lemma AdvanceReports(cfg: Config, f: Fleet, m: Move)
    requires Guarded(cfg, f) && Reported(f) && (Answers(cfg, f, m) ==> Exact(f.db))
    ensures Reported(Advance(cfg, f, m))
  {
    var next := Advance(cfg, f, m);
    if m.Move? && Stepped(cfg, f, m.driver, m.event).Some? {
      StepReports(cfg, f, m.driver, m.event);
      forall d | d in next.drivers ensures ReportOk(next.db, next.drivers[d], RowsOf(next, d)) {
        if d != m.driver {
          OthersKept(f.db, next.db, f.drivers[d], RowsOf(f, d));
        }
      }
    }
  }

  // ---- The lag bound, exactly ----

  /** Every answer is written while the stored checkpoint reports all earlier ones. */
  ghost predicate AnswersOverExact(cfg: Config, h: History)
    requires IsRun(cfg, h)
  {
    forall n :: 0 <= n < |h.moves| && Answers(cfg, h.states[n], h.moves[n]) ==> Exact(h.states[n].db)
  }

  lemma {:induction false} EveryReport(cfg: Config, h: History, n: nat)
    requires IsRun(cfg, h) && AnswersOverExact(cfg, h) && n < |h.states|
    ensures Reported(h.states[n])
  {
    if n > 0 {
      EveryReport(cfg, h, n - 1);
      EveryState(cfg, h, n - 1);
      AdvanceReports(cfg, h.states[n - 1], h.moves[n - 1]);
      assert h.states[n] == Advance(cfg, h.states[n - 1], h.moves[n - 1]);
    }
  }

  /**
   * With any number of drivers the stored report is never more than one answer behind exactly when every
   * answer is written over an exact one.
   */
  lemma LagBoundedExactly(cfg: Config, h: History)
    requires IsRun(cfg, h)
    ensures (forall n :: 0 <= n < |h.states| ==> AtMostOneBehind(h.states[n].db)) <==> AnswersOverExact(cfg, h)
  {
    if AnswersOverExact(cfg, h) {
      forall n | 0 <= n < |h.states| ensures AtMostOneBehind(h.states[n].db) {
        EveryReport(cfg, h, n);
      }
    } else {
      var n :| 0 <= n < |h.moves| && Answers(cfg, h.states[n], h.moves[n]) && !Exact(h.states[n].db);
      if AtMostOneBehind(h.states[n].db) {
        EveryState(cfg, h, n);
        CompletionOverInexact(cfg, View(h.states[n], h.moves[n].driver), h.moves[n].event);
        assert h.states[n + 1] == Advance(cfg, h.states[n], h.moves[n]);
        assert !AtMostOneBehind(h.states[n + 1].db);
      }
    }
  }

  // ---- One source ----

  ghost predicate LockOk(db: Db, drv: Driver) {
    drv.Answered? && drv.cp.revision == db.checkpoint.revision ==> SourceLocked(Db(drv.next, db.tasks))
  }

  ghost predicate Sourced(f: Fleet) {
    SourceLocked(f.db) && forall d :: d in f.drivers ==> LockOk(f.db, f.drivers[d])
  }

  /** The writes the other drivers' locks survive. */
  ghost predicate QuietSource(before: Db, after: Db) {
    || after.checkpoint.revision > before.checkpoint.revision
    || (after.checkpoint == before.checkpoint && Exact(before))
    || (after.checkpoint == before.checkpoint && SameSources(before.tasks, after.tasks))
  }

  ghost predicate SameSources(a: seq<Task>, b: seq<Task>) {
    forall source :: AllFrom(a, source) <==> AllFrom(b, source)
  }

  ghost predicate Sources(before: Db, s: State) {
    QuietSource(before, s.db) && SourceLocked(s.db) && LockOk(s.db, s.driver)
  }

  lemma OthersLocked(before: Db, after: Db, drv: Driver, looked: Option<seq<Task>>)
    requires QuietSource(before, after) && CopiesOk(before, drv) && ReportOk(before, drv, looked) && LockOk(before, drv)
    ensures LockOk(after, drv)
  {
  }

  lemma RowSources(before: Db, after: State, i: nat)
    requires SourceLocked(before) && RowWritten(before, after.db, i) && !after.driver.Answered?
    requires !HasEvidence(before.tasks[i]) && !HasEvidence(after.db.tasks[i])
    ensures Sources(before, after)
  {
    NoNewEvidence(before, i, after.db.tasks[i]);
  }

  /** An answer over the driver's own exact checkpoint is a step of the single-driver machine. */
  lemma AnswerSources(cfg: Config, s: State, e: Event)
    requires ScopeLocks(cfg) && Core(cfg, s.db) && CopiesOk(s.db, s.driver) && SourceLocked(s.db)
    requires Completes(e) && Apply(cfg, s, e).Some? && Exact(s.db) && s.driver.cp == s.db.checkpoint
    ensures Sources(s.db, Apply(cfg, s, e).value)
  {
    AttemptMoves(cfg, s, e);
    FirstUnfinished(cfg, s.db, s.driver.i);
    assert Inv(cfg, s);
    StepKeeps(cfg, s, e);
  }

  lemma RepairSources(cfg: Config, s: State, rows: seq<Task>)
    requires Core(cfg, s.db) && CopiesOk(s.db, s.driver) && AtMostOneBehind(s.db) && SourceLocked(s.db)
    requires ReportOk(s.db, s.driver, Some(rows)) && RepairFrom(cfg, s, rows).Some?
    ensures Sources(s.db, RepairFrom(cfg, s, rows).value)
  {
    RepairLocks(cfg, s.db, s.db.checkpoint);
  }

  lemma InitSources(cfg: Config, s: State)
    requires ScopeLocks(cfg) && Core(cfg, s.db) && CopiesOk(s.db, s.driver)
    requires AtMostOneBehind(s.db) && SourceLocked(s.db) && Apply(cfg, s, InitBudget).Some?
    ensures Sources(s.db, Apply(cfg, s, InitBudget).value)
  {
    assert s.db.tasks == [];
  }

  lemma PlannedSources(cfg: Config, db: Db, ids: seq<string>, sel: Selection)
    requires Core(cfg, db) && RoundDone(db) && SourceLocked(db) && |ids| == |sel.selected| + |sel.duplicates|
    ensures SourceLocked(PlannedDb(db, ids, sel))
  {
    BatchRows(cfg, db, db.checkpoint.currentRound + 1, ids, sel);
  }

  lemma PlanSources(cfg: Config, s: State, decision: Decision, ids: seq<string>)
    requires Core(cfg, s.db) && CopiesOk(s.db, s.driver) && SourceLocked(s.db)
    requires Apply(cfg, s, Plan(decision, ids)).Some?
    ensures Sources(s.db, Apply(cfg, s, Plan(decision, ids)).value)
  {
    var sel := PlanMoves(cfg, s, decision, ids);
    PlannedSources(cfg, s.db, ids, sel);
  }

  lemma AttemptEndSources(cfg: Config, s: State, e: Event)
    requires Core(cfg, s.db) && CopiesOk(s.db, s.driver) && SourceLocked(s.db)
    requires EndsAttempt(e) && !Completes(e) && Apply(cfg, s, e).Some?
    ensures Sources(s.db, Apply(cfg, s, e).value)
  {
    AttemptMoves(cfg, s, e);
    RowSources(s.db, Apply(cfg, s, e).value, s.driver.i);
  }

  lemma RowStepSources(cfg: Config, s: State, e: Event, i: nat)
    requires Core(cfg, s.db) && CopiesOk(s.db, s.driver) && SourceLocked(s.db)
    requires (e == Recover(i) || e == Begin(i)) && Apply(cfg, s, e).Some?
    ensures Sources(s.db, Apply(cfg, s, e).value)
  {
    if e.Recover? {
      RecoverMoves(cfg, s, i);
    } else {
      BeginMoves(cfg, s, i);
    }
    RowSources(s.db, Apply(cfg, s, e).value, i);
  }

  lemma MarkPendingSources(cfg: Config, s: State)
    requires SourceLocked(s.db) && CopiesOk(s.db, s.driver) && Apply(cfg, s, MarkPending).Some?
    ensures Sources(s.db, Apply(cfg, s, MarkPending).value)
  {
  }

  lemma SettleSources(cfg: Config, s: State)
    requires CopiesOk(s.db, s.driver) && LockOk(s.db, s.driver) && Apply(cfg, s, Settle).Some?
    ensures Sources(s.db, Apply(cfg, s, Settle).value)
  {
  }

  lemma StepSources(cfg: Config, f: Fleet, d: nat, e: Event)
    requires ScopeLocks(cfg) && Guarded(cfg, f) && Reported(f) && Sourced(f) && Stepped(cfg, f, d, e).Some?
    requires Completes(e) ==> Exact(f.db) && View(f, d).driver.cp == f.db.checkpoint
    ensures Sources(f.db, Stepped(cfg, f, d, e).value)
  {
    var s := View(f, d);
    assert CopiesOk(s.db, s.driver) && LockOk(s.db, s.driver);
    match e
    case Crash =>
    case Recover(i) => RowStepSources(cfg, s, e, i);
    case Open =>
    case Repair => RepairSources(cfg, s, f.looked[d]);
    case InitBudget => InitSources(cfg, s);
    case Plan(decision, ids) => PlanSources(cfg, s, decision, ids);
    case Begin(i) => RowStepSources(cfg, s, e, i);
    case MarkPending => MarkPendingSources(cfg, s);
    case Settle => SettleSources(cfg, s);
    case AskUnavailable => AnswerSources(cfg, s, e);
    case AskVerified(_) => AnswerSources(cfg, s, e);
    case _ => AttemptEndSources(cfg, s, e);
  }

  lemma AdvanceSources(cfg: Config, f: Fleet, m: Move)
    requires ScopeLocks(cfg) && Guarded(cfg, f) && Reported(f) && Sourced(f)
    requires Answers(cfg, f, m) ==> Exact(f.db) && View(f, m.driver).driver.cp == f.db.checkpoint
    ensures Sourced(Advance(cfg, f, m))
  {
    var next := Advance(cfg, f, m);
    if m.Move? && Stepped(cfg, f, m.driver, m.event).Some? {
      StepSources(cfg, f, m.driver, m.event);
      forall d | d in next.drivers ensures LockOk(next.db, next.drivers[d]) {
        if d != m.driver {
          OthersLocked(f.db, next.db, f.drivers[d], RowsOf(f, d));
        }
      }
    }
  }

  /** Every answer is written by a driver whose copy still is the stored checkpoint, and that is exact. */
  ghost predicate AnswersOverOwn(cfg: Config, h: History)
    requires IsRun(cfg, h)
  {
    forall n :: 0 <= n < |h.moves| && Answers(cfg, h.states[n], h.moves[n]) ==>
      Exact(h.states[n].db) && View(h.states[n], h.moves[n].driver).driver.cp == h.states[n].db.checkpoint
  }

  lemma {:induction false} EverySource(cfg: Config, h: History, n: nat)
    requires ScopeLocks(cfg) && IsRun(cfg, h) && AnswersOverOwn(cfg, h) && n < |h.states|
    ensures Sourced(h.states[n]) && Reported(h.states[n])
  {
    EveryReport(cfg, h, n);
    if n > 0 {
      EverySource(cfg, h, n - 1);
      EveryState(cfg, h, n - 1);
      AdvanceSources(cfg, h.states[n - 1], h.moves[n - 1]);
      assert h.states[n] == Advance(cfg, h.states[n - 1], h.moves[n - 1]);
    }
  }

  // ---- A single driver ----

  ghost predicate OneDriver(h: History, d: nat) {
    forall n :: 0 <= n < |h.moves| ==> h.moves[n].driver == d
  }

  ghost predicate Alone(cfg: Config, f: Fleet, d: nat) {
    Inv(cfg, View(f, d)) && (d in f.looked ==> f.looked[d] == f.db.tasks)
  }

  lemma AloneSteps(cfg: Config, f: Fleet, d: nat, e: Event)
    requires Alone(cfg, f, d) && Stepped(cfg, f, d, e).Some?
    ensures Stepped(cfg, f, d, e) == Apply(cfg, View(f, d), e) && Inv(cfg, Stepped(cfg, f, d, e).value)
  {
    assert State(Db(f.db.checkpoint, f.db.tasks), DriverOf(f, d)) == View(f, d);
    StepKeeps(cfg, View(f, d), e);
  }

  lemma AloneAdvances(cfg: Config, f: Fleet, m: Move)
    requires Alone(cfg, f, m.driver)
    ensures Alone(cfg, Advance(cfg, f, m), m.driver)
  {
    if m.Move? && Stepped(cfg, f, m.driver, m.event).Some? {
      AloneSteps(cfg, f, m.driver, m.event);
    }
  }

  lemma {:induction false} AloneThroughout(cfg: Config, h: History, d: nat, n: nat)
    requires IsRun(cfg, h) && OneDriver(h, d) && n < |h.states|
    ensures Alone(cfg, h.states[n], d)
  {
    if n == 0 {
      assert Inv(cfg, Initial());
    } else {
      AloneThroughout(cfg, h, d, n - 1);
      AloneAdvances(cfg, h.states[n - 1], h.moves[n - 1]);
      assert h.states[n] == Advance(cfg, h.states[n - 1], h.moves[n - 1]);
    }
  }

  /** One driver, restarted as often as one likes, always answers over its own exact checkpoint. */
  lemma OneDriverAnswersOverOwn(cfg: Config, h: History, d: nat)
    requires IsRun(cfg, h) && OneDriver(h, d)
    ensures AnswersOverOwn(cfg, h)
  {
    forall n | 0 <= n < |h.moves| && Answers(cfg, h.states[n], h.moves[n])
      ensures Exact(h.states[n].db) && View(h.states[n], d).driver.cp == h.states[n].db.checkpoint
    {
      AloneThroughout(cfg, h, d, n);
    }
  }
}
