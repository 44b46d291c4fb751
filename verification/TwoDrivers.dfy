/** Runs of several drivers in which the report and the lock are lost, though every write is guarded. */
module TwoDrivers {
  import opened Common
  import opened QuestionPolicy
  import opened DiagnosticState
  import opened DiagnosticRuns
  import opened DiagnosticTheorems
  import opened ManyDrivers
  import opened SharedReports
  import EmptyScope

  // ---- Building a run ----

  function Last(h: History): Fleet
    requires |h.states| > 0
  {
    h.states[|h.states| - 1]
  }

  function Then(cfg: Config, h: History, m: Move): History
    requires |h.states| > 0
  {
    History(h.moves + [m], h.states + [Advance(cfg, Last(h), m)])
  }

  lemma ThenRuns(cfg: Config, h: History, m: Move)
    requires IsRun(cfg, h)
    ensures IsRun(cfg, Then(cfg, h, m)) && Last(Then(cfg, h, m)) == Advance(cfg, Last(h), m)
    ensures AnswersOverExact(cfg, h) && (Answers(cfg, Last(h), m) ==> Exact(Last(h).db)) ==>
              AnswersOverExact(cfg, Then(cfg, h, m))
  {
  }

  lemma Empty(cfg: Config) returns (h: History)
    ensures IsRun(cfg, h) && Last(h) == Fleet(Initial().db, map[], map[]) && AnswersOverExact(cfg, h)
  {
    h := History([], [Fleet(Initial().db, map[], map[])]);
  }

  /** A run continued by moves of which an answer is only written over an exact checkpoint. */
  lemma Continue(cfg: Config, h: History, m: Move, after: Fleet) returns (more: History)
    requires IsRun(cfg, h) && AnswersOverExact(cfg, h) && Advance(cfg, Last(h), m) == after
    requires Answers(cfg, Last(h), m) ==> Exact(Last(h).db)
    ensures IsRun(cfg, more) && AnswersOverExact(cfg, more) && Last(more) == after
  {
    ThenRuns(cfg, h, m);
    more := Then(cfg, h, m);
  }

  // ---- The tables along the run ----

  function Budgeted(cfg: Config): Checkpoint {
    InitialCheckpoint().(remainingBudget := cfg.budget.maxQuestions, revision := 1)
  }

  function Pair(): Selection {
    Selection([EmptyScope.Ask("a"), EmptyScope.Ask("b")], [])
  }

  /** Both questions planned, revision 2. */
  function Planned(cfg: Config): Db {
    PlannedDb(Db(Budgeted(cfg), []), ["1", "2"], Pair())
  }

  function Running(t: Task): Task {
    t.(status := Status.Running, attempt := t.attempt + 1, failureCode := None, retryable := false,
       revision := t.revision + 1)
  }

  function Answer(cfg: Config, t: Task, source: string): Task {
    t.(status := Completed, answer := Some(Verified(source)), evidenceRef := Some(EvidenceRef(cfg.runId, t.id)),
       revision := t.revision + 1)
  }

  function Pending(cp: Checkpoint, id: string): Checkpoint {
    cp.(pending := Some(id), revision := cp.revision + 1)
  }

  lemma PlannedRows(cfg: Config)
    ensures
      var db := Planned(cfg);
      && db.tasks == [PlannedTask(1, 1, "1", EmptyScope.Ask("a"), Status.Planned),
                      PlannedTask(1, 2, "2", EmptyScope.Ask("b"), Status.Planned)]
      && db.checkpoint == Budgeted(cfg).(currentRound := 1, questionsPlanned := 2, revision := 2,
                                         remainingBudget := cfg.budget.maxQuestions - 2)
  {
  }

  predicate Roomy(cfg: Config) {
    cfg.scope == [] && cfg.budget.maxQuestions >= 2 && cfg.budget.maxRounds >= 1 && cfg.budget.maxPerRound >= 2
  }

  /** The first driver opens the run and plans both questions. */
  lemma Planning(cfg: Config) returns (h: History)
    requires Roomy(cfg) && cfg.key("a") != cfg.key("b")
    ensures IsRun(cfg, h) && AnswersOverExact(cfg, h)
    ensures Last(h) == Fleet(Planned(cfg), map[1 := Ready(Planned(cfg).checkpoint)], map[])
  {
    var db0, db1 := Initial().db, Db(Budgeted(cfg), []);
    h := Empty(cfg);
    h := Continue(cfg, h, Move(1, Open), Fleet(db0, map[1 := Opened(db0.checkpoint)], map[]));
    h := Continue(cfg, h, Look(1), Fleet(db0, map[1 := Opened(db0.checkpoint)], map[1 := []]));
    h := Continue(cfg, h, Move(1, Repair), Fleet(db0, map[1 := Ready(db0.checkpoint)], map[]));
    h := Continue(cfg, h, Move(1, InitBudget), Fleet(db1, map[1 := Ready(db1.checkpoint)], map[]));
    PlanBoth(cfg);
    var ask := Plan(EmptyScope.Proposal(["a", "b"]), ["1", "2"]);
    h := Continue(cfg, h, Move(1, ask), Fleet(Planned(cfg), map[1 := Ready(Planned(cfg).checkpoint)], map[]));
  }

  lemma PlanBoth(cfg: Config)
    requires Roomy(cfg) && cfg.key("a") != cfg.key("b")
    ensures
      var db := Db(Budgeted(cfg), []);
      Apply(cfg, State(db, Ready(db.checkpoint)), Plan(EmptyScope.Proposal(["a", "b"]), ["1", "2"]))
      == Some(State(Planned(cfg), Ready(Planned(cfg).checkpoint)))
  {
    var db := Db(Budgeted(cfg), []);
    EmptyScope.NothingSeen(cfg, db);
    EmptyScope.SelectTwo(cfg.key, "a", "b", db.checkpoint.remainingBudget, cfg.budget);
    PlanPossible(cfg, State(db, Ready(db.checkpoint)), EmptyScope.Proposal(["a", "b"]), ["1", "2"], Pair());
  }

  /** The first driver asks its first question, revision 3. */
  function FirstAsked(cfg: Config): Db {
    var db := Planned(cfg);
    Db(Pending(db.checkpoint, "1"), db.tasks[0 := Running(db.tasks[0])])
  }

  function FirstAnswered(cfg: Config): Db {
    var db := FirstAsked(cfg);
    db.(tasks := db.tasks[0 := Answer(cfg, db.tasks[0], "x")])
  }

  /** The second driver asks the second question, revision 4; the first answer is not reported. */
  function SecondAsked(cfg: Config): Db {
    var db := FirstAnswered(cfg);
    Db(Pending(db.checkpoint, "2"), db.tasks[1 := Running(db.tasks[1])])
  }

  function Evidence(t: Task): seq<string> {
    if HasEvidence(t) then [t.evidenceRef.value] else []
  }

  lemma TwoRowsReport(a: Task, b: Task)
    ensures Refs([a, b]) == Evidence(a) + Evidence(b)
    ensures CompletedCount([a, b])
            == (if a.status == Completed then 1 else 0) + (if b.status == Completed then 1 else 0)
  {
    assert [a, b][..1] == [a] && [a][..0] == [];
    assert Refs([a]) == Evidence(a) && CompletedCount([a]) == (if a.status == Completed then 1 else 0);
  }

  /** The rows of the run so far, and what a repair would report of them. */
  lemma RowsReport(cfg: Config)
    ensures FirstAsked(cfg).tasks == [Running(Planned(cfg).tasks[0]), Planned(cfg).tasks[1]]
    ensures Exact(FirstAsked(cfg)) && !NeedsRepair(FirstAsked(cfg), FirstAsked(cfg).checkpoint)
    ensures
      var db := SecondAsked(cfg);
      && db.tasks == [Answer(cfg, FirstAsked(cfg).tasks[0], "x"), Running(Planned(cfg).tasks[1])]
      && Refs(db.tasks) == [EvidenceRef(cfg.runId, "1")] && CompletedCount(db.tasks) == 1
      && FirstSource(db.tasks) == Some("x") && NeedsRepair(db, db.checkpoint)
  {
    PlannedRows(cfg);
    TwoRowsReport(FirstAsked(cfg).tasks[0], FirstAsked(cfg).tasks[1]);
    TwoRowsReport(SecondAsked(cfg).tasks[0], SecondAsked(cfg).tasks[1]);
    assert FirstAsked(cfg).tasks == [Running(Planned(cfg).tasks[0]), Planned(cfg).tasks[1]];
    assert SecondAsked(cfg).tasks == [Answer(cfg, FirstAsked(cfg).tasks[0], "x"), Running(Planned(cfg).tasks[1])];
  }

  function Two(db: Db, first: Driver, second: Driver): Fleet {
    Fleet(db, map[1 := first, 2 := second], map[])
  }

  /** The second driver opens the run while the first asks, and finds nothing to repair. */
  lemma Joining(cfg: Config) returns (h: History)
    requires Roomy(cfg) && cfg.key("a") != cfg.key("b")
    ensures IsRun(cfg, h) && AnswersOverExact(cfg, h)
    ensures
      var db := FirstAsked(cfg);
      Last(h) == Two(db, Asking(db.checkpoint, 0, db.tasks[0]), Ready(db.checkpoint))
  {
    h := Planning(cfg);
    PlannedRows(cfg);
    RowsReport(cfg);
    var cp, db := Planned(cfg).checkpoint, FirstAsked(cfg);
    var asking := Asking(db.checkpoint, 0, db.tasks[0]);
    h := Continue(cfg, h, Move(1, Begin(0)), Fleet(Db(cp, db.tasks), map[1 := Started(cp, 0, db.tasks[0])], map[]));
    h := Continue(cfg, h, Move(1, MarkPending), Fleet(db, map[1 := asking], map[]));
    h := Continue(cfg, h, Move(2, Open), Two(db, asking, Opened(db.checkpoint)));
    h := Continue(cfg, h, Look(2), Two(db, asking, Opened(db.checkpoint)).(looked := map[2 := db.tasks]));
    h := Continue(cfg, h, Move(2, Repair), Two(db, asking, Ready(db.checkpoint)));
  }

  /** What the first driver would report. */
  function FirstReport(cfg: Config): Checkpoint {
    var cp := FirstAsked(cfg).checkpoint;
    cp.(source := Some("x"), pending := None, questionsCompleted := 1, refs := [EvidenceRef(cfg.runId, "1")])
  }

  lemma FirstAnswers(cfg: Config)
    ensures
      var db := FirstAsked(cfg);
      Apply(cfg, State(db, Asking(db.checkpoint, 0, db.tasks[0])), AskVerified("x"))
      == Some(State(FirstAnswered(cfg), Answered(db.checkpoint, FirstReport(cfg))))
  {
    PlannedRows(cfg);
    assert FirstAsked(cfg).checkpoint.refs + [EvidenceRef(cfg.runId, "1")] == FirstReport(cfg).refs;
  }

  lemma SecondAsks(cfg: Config)
    ensures
      var cp, before, after := FirstAsked(cfg).checkpoint, FirstAnswered(cfg), SecondAsked(cfg);
      var begun := State(Db(cp, after.tasks), Started(cp, 1, after.tasks[1]));
      && Apply(cfg, State(before, Ready(cp)), Begin(1)) == Some(begun)
      && Apply(cfg, begun, MarkPending) == Some(State(after, Asking(after.checkpoint, 1, after.tasks[1])))
  {
    PlannedRows(cfg);
  }

  /** The first answer is written; before it is reported the second driver asks its question. */
  lemma Racing(cfg: Config) returns (h: History)
    requires Roomy(cfg) && cfg.key("a") != cfg.key("b")
    ensures IsRun(cfg, h) && AnswersOverExact(cfg, h)
    ensures
      var db := SecondAsked(cfg);
      Last(h) == Two(db, Answered(FirstAsked(cfg).checkpoint, FirstReport(cfg)), Asking(db.checkpoint, 1, db.tasks[1]))
  {
    h := Joining(cfg);
    RowsReport(cfg);
    var cp, first, db := FirstAsked(cfg).checkpoint, FirstAnswered(cfg), SecondAsked(cfg);
    var answered := Answered(cp, FirstReport(cfg));
    FirstAnswers(cfg);
    SecondAsks(cfg);
    h := Continue(cfg, h, Move(1, AskVerified("x")), Two(first, answered, Ready(cp)));
    h := Continue(cfg, h, Move(2, Begin(1)), Two(Db(cp, db.tasks), answered, Started(cp, 1, db.tasks[1])));
    h := Continue(cfg, h, Move(2, MarkPending), Two(db, answered, Asking(db.checkpoint, 1, db.tasks[1])));
  }

  /** Both questions answered, by two sources. */
  function BothAnswered(cfg: Config, cp: Checkpoint): Db {
    var tasks := SecondAsked(cfg).tasks;
    Db(cp, tasks[1 := Answer(cfg, tasks[1], "y")])
  }

  lemma BothReport(cfg: Config, cp: Checkpoint)
    ensures
      var db := BothAnswered(cfg, cp);
      && Refs(db.tasks) == [EvidenceRef(cfg.runId, "1"), EvidenceRef(cfg.runId, "2")]
      && CompletedCount(db.tasks) == 2 && !SingleSource(db.tasks)
  {
    PlannedRows(cfg);
    RowsReport(cfg);
    var db := BothAnswered(cfg, cp);
    assert db.tasks == [db.tasks[0], db.tasks[1]];
    TwoRowsReport(db.tasks[0], db.tasks[1]);
    EmptyScope.TwoAnswersMix(db.tasks);
  }

  lemma LostReference(cfg: Config, db: Db)
    requires Refs(db.tasks) == [EvidenceRef(cfg.runId, "1"), EvidenceRef(cfg.runId, "2")]
    requires db.checkpoint.refs == [EvidenceRef(cfg.runId, "2")]
    ensures !AtMostOneBehind(db)
  {
    assert "1"[0] != "2"[0];
    RefsDiffer(cfg.runId, "1", "2");
    forall r ensures Refs(db.tasks) != db.checkpoint.refs + [r] {
      assert (db.checkpoint.refs + [r])[0] != Refs(db.tasks)[0];
    }
  }

  /** The second driver compares the source with its own copy of the checkpoint, whatever is stored. */
  lemma SecondAnswers(cfg: Config, cp: Checkpoint)
    ensures
      var before := SecondAsked(cfg);
      var s := Apply(cfg, State(Db(cp, before.tasks), Asking(before.checkpoint, 1, before.tasks[1])), AskVerified("y"));
      && s.Some? && s.value.db == BothAnswered(cfg, cp) && s.value.driver.Answered?
      && s.value.driver.cp == before.checkpoint
      && s.value.driver.next.refs == [EvidenceRef(cfg.runId, "2")] && s.value.driver.next.source == Some("y")
      && s.value.driver.next.questionsCompleted == 1 && s.value.driver.next.revision == before.checkpoint.revision
  {
    PlannedRows(cfg);
  }

  /**
   * Two drivers: the first answer is never reported, the checkpoint ends with the second reference alone,
   * and the two answers come from two sources although the scope locks.
   */
  lemma FirstAnswerUnreported(cfg: Config) returns (h: History)
    requires Roomy(cfg) && cfg.key("a") != cfg.key("b")
    ensures IsRun(cfg, h) && ScopeLocks(cfg)
    ensures
      var db := Last(h).db;
      && Refs(db.tasks) == [EvidenceRef(cfg.runId, "1"), EvidenceRef(cfg.runId, "2")]
      && db.checkpoint.refs == [EvidenceRef(cfg.runId, "2")] && db.checkpoint.questionsCompleted == 1
      && !AtMostOneBehind(db) && !SingleSource(db.tasks) && db.checkpoint.source == Some("y")
  {
    h := Racing(cfg);
    var cp := SecondAsked(cfg).checkpoint;
    BothReport(cfg, cp);
    SecondAnswers(cfg, cp);
    ThenRuns(cfg, h, Move(1, Settle));
    h := Then(cfg, h, Move(1, Settle));
    assert Last(h) == Two(SecondAsked(cfg), Down, Asking(cp, 1, SecondAsked(cfg).tasks[1]));
    ThenRuns(cfg, h, Move(2, AskVerified("y")));
    h := Then(cfg, h, Move(2, AskVerified("y")));
    assert Last(h).db == BothAnswered(cfg, cp);
    ThenRuns(cfg, h, Move(2, Settle));
    h := Then(cfg, h, Move(2, Settle));
    LostReference(cfg, Last(h).db);
  }

  /**
   * A third driver repairs the checkpoint in time, so that every answer is written over an exact one; but the
   * second driver compares with its own copy, which knows of no source yet. Exactness alone keeps no lock.
   */
  lemma ExactIsNotEnough(cfg: Config) returns (h: History)
    requires Roomy(cfg) && cfg.key("a") != cfg.key("b")
    ensures IsRun(cfg, h) && ScopeLocks(cfg) && AnswersOverExact(cfg, h)
    ensures Last(h).db.checkpoint.source == Some("x") && !SingleSource(Last(h).db.tasks)
  {
    h := Racing(cfg);
    RowsReport(cfg);
    var db := SecondAsked(cfg);
    var cp := Repaired(db, db.checkpoint).(revision := db.checkpoint.revision + 1);
    BothReport(cfg, cp);
    SecondAnswers(cfg, cp);
    var f := Last(h);
    h := Continue(cfg, h, Move(3, Open), f.(drivers := f.drivers[3 := Opened(db.checkpoint)]));
    f := Last(h);
    h := Continue(cfg, h, Look(3), f.(looked := map[3 := db.tasks]));
    h := Continue(cfg, h, Move(3, Repair), Fleet(Db(cp, db.tasks), f.drivers[3 := Ready(cp)], map[]));
    ThenRuns(cfg, h, Move(2, AskVerified("y")));
    assert Exact(Last(h).db);
    h := Then(cfg, h, Move(2, AskVerified("y")));
    assert Last(h).db == BothAnswered(cfg, cp);
  }
}
