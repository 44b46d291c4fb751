/**
 * Several processes driving one diagnostic run at once.
 *
 * Every driver takes the steps of the single-driver machine on the shared tables, with its own copies.
 * A write whose revision has moved on is refused and ends its driver. The repair writes what an earlier
 * reading of the rows gave; the other steps may be read and written as one, since the revision of the
 * row or of the checkpoint they replace is tested and finished rows stay finished.
 */
module ManyDrivers {
  import opened Common
  import opened QuestionPolicy
  import opened DiagnosticState
  import opened DiagnosticRuns
  import opened DiagnosticTheorems

  /** The tables, the drivers, and the rows each opening driver has read. */
  datatype Fleet = Fleet(db: Db, drivers: map<nat, Driver>, looked: map<nat, seq<Task>>)

  datatype Move = Move(driver: nat, event: Event) | Look(driver: nat)

  function DriverOf(f: Fleet, d: nat): Driver {
    if d in f.drivers then f.drivers[d] else Down
  }

  /** The run as one driver sees it. */
  function View(f: Fleet, d: nat): State {
    State(f.db, DriverOf(f, d))
  }

  /** The repair compares and reports the rows that were read, and writes the checkpoint alone. */
  function RepairFrom(cfg: Config, s: State, rows: seq<Task>): Option<State> {
    match Apply(cfg, State(Db(s.db.checkpoint, rows), s.driver), Repair)
    case None => None
    case Some(next) => Some(State(Db(next.db.checkpoint, s.db.tasks), next.driver))
  }

  function Stepped(cfg: Config, f: Fleet, d: nat, e: Event): Option<State> {
    if !e.Repair? then Apply(cfg, View(f, d), e)
    else if d in f.looked then RepairFrom(cfg, View(f, d), f.looked[d])
    else None
  }

  /** One step of one driver; a step it cannot take, or a refused write, ends it. */
  function Advance(cfg: Config, f: Fleet, m: Move): Fleet {
    match m
    case Look(d) => if DriverOf(f, d).Opened? then f.(looked := f.looked[d := f.db.tasks]) else f
    case Move(d, e) =>
      match Stepped(cfg, f, d, e)
      case Some(s) => Fleet(s.db, f.drivers[d := s.driver], f.looked - {d})
      case None => Fleet(f.db, f.drivers[d := Down], f.looked - {d})
  }

  datatype History = History(moves: seq<Move>, states: seq<Fleet>)

  ghost predicate IsRun(cfg: Config, h: History) {
    && |h.states| == |h.moves| + 1 && h.states[0] == Fleet(Initial().db, map[], map[])
    && forall i :: 0 <= i < |h.moves| ==> h.states[i + 1] == Advance(cfg, h.states[i], h.moves[i])
  }

  // ---- What the two revision guards keep together ----

  /** The part of the invariant that does not speak of what the checkpoint reports. */
  ghost predicate Core(cfg: Config, db: Db) {
    Table(db) && Conserved(cfg, db) && DistinctQuestions(cfg, db.tasks) && InOrder(db) && TasksOk(cfg, db.tasks)
  }

  /** A checkpoint read earlier: the stored one if the revision has not moved. */
  predicate CpOk(db: Db, cp: Checkpoint) {
    cp.revision <= db.checkpoint.revision && (cp.revision == db.checkpoint.revision ==> cp == db.checkpoint)
  }

  /** A row written earlier by its driver: the stored one if the revision has not moved. */
  predicate RowOk(db: Db, i: nat, t: Task) {
    && i < |db.tasks| && t.status == Running && t.attempt >= 1 && t.evidenceRef.None? && SameTask(t, db.tasks[i])
    && t.revision <= db.tasks[i].revision && (t.revision == db.tasks[i].revision ==> db.tasks[i] == t)
  }

  /** What a driver is about to write changes only what the checkpoint reports. */
  predicate ReportOnly(cp: Checkpoint, next: Checkpoint) {
    next == cp.(refs := next.refs, questionsCompleted := next.questionsCompleted, source := next.source,
                pending := next.pending)
  }

  predicate CopiesOk(db: Db, drv: Driver) {
    match drv
    case Down => true
    case Opened(cp) => CpOk(db, cp)
    case Ready(cp) => CpOk(db, cp)
    case Started(cp, i, t) => CpOk(db, cp) && RowOk(db, i, t)
    case Asking(cp, i, t) => CpOk(db, cp) && RowOk(db, i, t)
    case Answered(cp, next) => CpOk(db, cp) && ReportOnly(cp, next)
  }

  ghost predicate Guarded(cfg: Config, f: Fleet) {
    Core(cfg, f.db) && forall d :: d in f.drivers ==> CopiesOk(f.db, f.drivers[d])
  }

  /** How one step changes the tables. */
  ghost predicate SameDb(before: Db, after: Db) { after == before }

  ghost predicate RowWritten(before: Db, after: Db, i: nat) {
    && i < |before.tasks| == |after.tasks| && after == Db(before.checkpoint, before.tasks[i := after.tasks[i]])
    && SameTask(after.tasks[i], before.tasks[i]) && after.tasks[i].revision == before.tasks[i].revision + 1
  }

  ghost predicate RoundWritten(before: Db, after: Db) {
    after.checkpoint.revision == before.checkpoint.revision + 1 && before.tasks <= after.tasks
  }

  ghost predicate Written(before: Db, after: Db) {
    || SameDb(before, after) || RoundWritten(before, after)
    || exists i :: RowWritten(before, after, i)
  }

  /** Copies stay valid under every write of another driver. */
  lemma CopiesKept(before: Db, after: Db, drv: Driver)
    requires Written(before, after) && CopiesOk(before, drv)
    ensures CopiesOk(after, drv)
  {
  }

  lemma FirstUnfinished(cfg: Config, db: Db, i: nat)
    requires Core(cfg, db) && i < |db.tasks| && !Finished(db.tasks[i]) && !Untouched(db.tasks[i])
    ensures db.tasks[i].round == db.checkpoint.currentRound && forall j :: 0 <= j < i ==> Finished(db.tasks[j])
  {
  }

  /** A row write of an attempt: the row was running and still is the copy, and everything else stands. */
  lemma AttemptWrites(cfg: Config, db: Db, i: nat, t: Task, after: Task)
    requires Core(cfg, db) && RowOk(db, i, t) && db.tasks[i] == t
    requires SameTask(after, t) && after.revision == t.revision + 1 && BornPlanned(after) && TaskOk(cfg, after)
    ensures Core(cfg, Db(db.checkpoint, db.tasks[i := after]))
  {
    FirstUnfinished(cfg, db, i);
    RowChanged(cfg, db, i, after, Db(db.checkpoint, db.tasks[i := after]));
  }

  lemma ReportKeepsCore(cfg: Config, db: Db, next: Checkpoint)
    requires Core(cfg, db) && ReportOnly(db.checkpoint, next.(revision := db.checkpoint.revision))
    ensures Core(cfg, db.(checkpoint := next))
  {
  }

  ghost predicate Moved(cfg: Config, before: Db, s: State) {
    Core(cfg, s.db) && Written(before, s.db) && CopiesOk(s.db, s.driver)
  }

  lemma RecoverMoves(cfg: Config, s: State, i: nat)
    requires Core(cfg, s.db) && Apply(cfg, s, Recover(i)).Some?
    ensures RowWritten(s.db, Apply(cfg, s, Recover(i)).value.db, i)
    ensures Moved(cfg, s.db, Apply(cfg, s, Recover(i)).value)
  {
    assert RowWritten(s.db, Apply(cfg, s, Recover(i)).value.db, i);
    var t := Recovered(s.db.tasks[i]).(revision := s.db.tasks[i].revision + 1);
    assert TaskOk(cfg, s.db.tasks[i]);
    FirstUnfinished(cfg, s.db, i);
    RowChanged(cfg, s.db, i, t, Db(s.db.checkpoint, s.db.tasks[i := t]));
  }

  lemma RepairMoves(cfg: Config, s: State, rows: seq<Task>)
    requires Core(cfg, s.db) && CopiesOk(s.db, s.driver) && RepairFrom(cfg, s, rows).Some?
    ensures Moved(cfg, s.db, RepairFrom(cfg, s, rows).value)
  {
    var after := RepairFrom(cfg, s, rows).value.db;
    if after != s.db {
      ReportKeepsCore(cfg, s.db, after.checkpoint);
    }
  }

  lemma InitMoves(cfg: Config, s: State)
    requires Core(cfg, s.db) && CopiesOk(s.db, s.driver) && Apply(cfg, s, InitBudget).Some?
    ensures Moved(cfg, s.db, Apply(cfg, s, InitBudget).value)
  {
    assert s.db.tasks == [];
  }

  lemma PlanKeepsCore(cfg: Config, db: Db, ids: seq<string>, sel: Selection)
    requires Core(cfg, db) && RoundDone(db) && |ids| == |sel.selected| + |sel.duplicates| && NewIds(db.tasks, ids)
    requires db.checkpoint.currentRound < cfg.budget.maxRounds && 0 < db.checkpoint.remainingBudget
    requires |sel.selected| <= db.checkpoint.remainingBudget
    requires DistinctKeys(cfg.key, sel.selected) && KeysOf(cfg.key, sel.selected) !! SeenKeys(cfg.key, db.tasks)
    ensures Core(cfg, PlannedDb(db, ids, sel)) && RoundWritten(db, PlannedDb(db, ids, sel))
  {
    PlanTable(db, ids, sel);
    PlanQuestions(cfg, db, ids, sel);
    PlanKeepsOrder(cfg, db, ids, sel);
    BatchCounts(db.tasks, db.checkpoint.currentRound + 1, ids, sel);
  }

  lemma PlanMoves(cfg: Config, s: State, decision: Decision, ids: seq<string>) returns (sel: Selection)
    requires Core(cfg, s.db) && CopiesOk(s.db, s.driver) && Apply(cfg, s, Plan(decision, ids)).Some?
    ensures s.driver == Ready(s.db.checkpoint) && RoundDone(s.db) && |ids| == |sel.selected| + |sel.duplicates|
    ensures Apply(cfg, s, Plan(decision, ids))
            == Some(State(PlannedDb(s.db, ids, sel), Ready(PlannedDb(s.db, ids, sel).checkpoint)))
    ensures Moved(cfg, s.db, Apply(cfg, s, Plan(decision, ids)).value)
  {
    assert s.driver == Ready(s.db.checkpoint);
    sel := PlanEnabled(cfg, s, decision, ids);
    SelectionExact(cfg.key, decision, SeenKeys(cfg.key, s.db.tasks), s.db.checkpoint.remainingBudget, cfg.budget);
    PlanKeepsCore(cfg, s.db, ids, sel);
  }

  lemma BeginMoves(cfg: Config, s: State, i: nat)
    requires Core(cfg, s.db) && CopiesOk(s.db, s.driver) && Apply(cfg, s, Begin(i)).Some?
    ensures RowWritten(s.db, Apply(cfg, s, Begin(i)).value.db, i)
    ensures Moved(cfg, s.db, Apply(cfg, s, Begin(i)).value)
    ensures !Finished(s.db.tasks[i]) && forall j :: 0 <= j < i ==> Finished(s.db.tasks[j])
  {
    var after := Apply(cfg, s, Begin(i)).value.db;
    assert RowWritten(s.db, after, i);
    assert TaskOk(cfg, s.db.tasks[i]);
    assert forall j :: 0 <= j < i && s.db.tasks[j].round < s.db.checkpoint.currentRound ==> Finished(s.db.tasks[j]);
    assert forall j :: 0 <= j < i ==> s.db.tasks[j].round <= s.db.tasks[i].round by {
      assert forall j :: 0 <= j < i ==> Before(s.db.tasks[j], s.db.tasks[i]);
    }
    RowChanged(cfg, s.db, i, after.tasks[i], after);
  }

  lemma MarkPendingMoves(cfg: Config, s: State)
    requires Core(cfg, s.db) && CopiesOk(s.db, s.driver) && Apply(cfg, s, MarkPending).Some?
    ensures Moved(cfg, s.db, Apply(cfg, s, MarkPending).value)
  {
    ReportKeepsCore(cfg, s.db, Apply(cfg, s, MarkPending).value.db.checkpoint);
  }

  lemma SettleMoves(cfg: Config, s: State)
    requires Core(cfg, s.db) && CopiesOk(s.db, s.driver) && Apply(cfg, s, Settle).Some?
    ensures Moved(cfg, s.db, Apply(cfg, s, Settle).value)
  {
    ReportKeepsCore(cfg, s.db, Apply(cfg, s, Settle).value.db.checkpoint);
  }

  predicate EndsAttempt(e: Event) {
    e.AskCancelled? || e.AskFailed? || e.AskWaits? || e.AskUnavailable? || e.AskVerified?
  }

  lemma AttemptMoves(cfg: Config, s: State, e: Event)
    requires Core(cfg, s.db) && CopiesOk(s.db, s.driver) && EndsAttempt(e) && Apply(cfg, s, e).Some?
    ensures s.driver.Asking? && s.driver.i < |s.db.tasks| && s.db.tasks[s.driver.i] == s.driver.task
    ensures RowWritten(s.db, Apply(cfg, s, e).value.db, s.driver.i)
    ensures Moved(cfg, s.db, Apply(cfg, s, e).value)
  {
    var i, after := s.driver.i, Apply(cfg, s, e).value.db;
    assert RowWritten(s.db, after, i);
    assert TaskOk(cfg, s.db.tasks[i]);
    AttemptWrites(cfg, s.db, i, s.driver.task, after.tasks[i]);
  }

  /** One step of one driver keeps the tables sound and writes at most one record, or one round. */
  lemma StepMoves(cfg: Config, f: Fleet, d: nat, e: Event)
    requires Core(cfg, f.db) && CopiesOk(f.db, DriverOf(f, d)) && Stepped(cfg, f, d, e).Some?
    ensures Moved(cfg, f.db, Stepped(cfg, f, d, e).value)
  {
    var s := View(f, d);
    match e
    case Crash =>
    case Recover(i) => RecoverMoves(cfg, s, i);
    case Open =>
    case Repair => RepairMoves(cfg, s, f.looked[d]);
    case InitBudget => InitMoves(cfg, s);
    case Plan(decision, ids) => var sel := PlanMoves(cfg, s, decision, ids);
    case Begin(i) => BeginMoves(cfg, s, i);
    case MarkPending => MarkPendingMoves(cfg, s);
    case Settle => SettleMoves(cfg, s);
    case _ => AttemptMoves(cfg, s, e);
  }

  lemma AdvanceKeeps(cfg: Config, f: Fleet, m: Move)
    requires Guarded(cfg, f)
    ensures Guarded(cfg, Advance(cfg, f, m)) && Written(f.db, Advance(cfg, f, m).db)
  {
    if m.Move? && Stepped(cfg, f, m.driver, m.event).Some? {
      var next := Advance(cfg, f, m);
      StepMoves(cfg, f, m.driver, m.event);
      forall d | d in next.drivers ensures CopiesOk(next.db, next.drivers[d]) {
        if d != m.driver {
          CopiesKept(f.db, next.db, f.drivers[d]);
        }
      }
    }
  }

  lemma {:induction false} EveryState(cfg: Config, h: History, n: nat)
    requires IsRun(cfg, h) && n < |h.states|
    ensures Guarded(cfg, h.states[n])
  {
    if n == 0 {
      assert Core(cfg, Initial().db);
    } else {
      EveryState(cfg, h, n - 1);
      assert h.states[n] == Advance(cfg, h.states[n - 1], h.moves[n - 1]);
      AdvanceKeeps(cfg, h.states[n - 1], h.moves[n - 1]);
    }
  }

  /**
   * With any number of drivers the budget is conserved, the rounds and questions stay within their limits,
   * and no two planned questions share a key: these rest on the revision guards alone.
   */
  lemma BudgetConservedByAll(cfg: Config, h: History, n: nat)
    requires IsRun(cfg, h) && n < |h.states|
    ensures
      var db := h.states[n].db;
      && db.checkpoint.questionsPlanned == PlannedCount(db.tasks) <= cfg.budget.maxQuestions
      && db.checkpoint.currentRound <= cfg.budget.maxRounds && db.checkpoint.remainingBudget >= 0
      && (db.checkpoint.currentRound > 0 || db.checkpoint.remainingBudget > 0 ==>
            db.checkpoint.questionsPlanned + db.checkpoint.remainingBudget == cfg.budget.maxQuestions)
      && DistinctQuestions(cfg, db.tasks)
  {
    EveryState(cfg, h, n);
    var db := h.states[n].db;
    if db.checkpoint.currentRound == 0 {
      assert db.tasks == [];
    }
  }

  /** A step that writes a row writes one that was not completed. */
  lemma StepLeavesCompleted(cfg: Config, f: Fleet, d: nat, e: Event)
    requires Core(cfg, f.db) && CopiesOk(f.db, DriverOf(f, d)) && Stepped(cfg, f, d, e).Some?
    ensures CompletedKept(f.db, Stepped(cfg, f, d, e).value.db)
  {
    var s, after := View(f, d), Stepped(cfg, f, d, e).value.db;
    match e
    case Recover(i) => RowKeepsCompleted(f.db, i, after.tasks[i], after.checkpoint);
    case Begin(i) => RowKeepsCompleted(f.db, i, after.tasks[i], after.checkpoint);
    case Plan(decision, ids) => var sel := PlanMoves(cfg, s, decision, ids);
    case Crash =>
    case Open =>
    case Repair =>
    case InitBudget =>
    case MarkPending =>
    case Settle =>
    case _ => AttemptLeavesCompleted(cfg, s, e);
  }

  lemma AttemptLeavesCompleted(cfg: Config, s: State, e: Event)
    requires Core(cfg, s.db) && CopiesOk(s.db, s.driver) && EndsAttempt(e) && Apply(cfg, s, e).Some?
    ensures CompletedKept(s.db, Apply(cfg, s, e).value.db)
  {
    var after := Apply(cfg, s, e).value.db;
    AttemptMoves(cfg, s, e);
    RowKeepsCompleted(s.db, s.driver.i, after.tasks[s.driver.i], after.checkpoint);
  }

  lemma CompletedKeptOn(a: Db, b: Db, c: Db)
    requires CompletedKept(a, b) && CompletedKept(b, c)
    ensures CompletedKept(a, c)
  {
  }

  lemma AdvanceLeavesCompleted(cfg: Config, f: Fleet, m: Move)
    requires Guarded(cfg, f)
    ensures CompletedKept(f.db, Advance(cfg, f, m).db)
  {
    if m.Move? && Stepped(cfg, f, m.driver, m.event).Some? {
      StepLeavesCompleted(cfg, f, m.driver, m.event);
    }
  }

  /** No driver ever runs a completed task again or alters it, however many there are. */
  lemma {:induction false} CompletedIsFinalForAll(cfg: Config, h: History, m: nat, n: nat)
    requires IsRun(cfg, h) && m <= n < |h.states|
    ensures CompletedKept(h.states[m].db, h.states[n].db)
    decreases n
  {
    if m < n {
      CompletedIsFinalForAll(cfg, h, m, n - 1);
      EveryState(cfg, h, n - 1);
      AdvanceLeavesCompleted(cfg, h.states[n - 1], h.moves[n - 1]);
      assert h.states[n] == Advance(cfg, h.states[n - 1], h.moves[n - 1]);
      CompletedKeptOn(h.states[m].db, h.states[n - 1].db, h.states[n].db);
    }
  }
}
