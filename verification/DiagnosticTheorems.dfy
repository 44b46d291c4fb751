/** The diagnostic guarantees, over every run: any outcomes, any crash points, any number of restarts. */
module DiagnosticTheorems {
  import opened Common
  import opened QuestionPolicy
  import opened DiagnosticState
  import opened DiagnosticRuns

  /** All completed tasks that carry evidence were answered by one datasource. */
  ghost predicate SingleSource(tasks: seq<Task>) {
    forall i, j :: 0 <= i < |tasks| && 0 <= j < |tasks| && HasEvidence(tasks[i]) && HasEvidence(tasks[j]) ==>
      tasks[i].answer == tasks[j].answer
  }

  lemma FewReferencesOneSource(tasks: seq<Task>)
    requires |Refs(tasks)| <= 1
    ensures SingleSource(tasks)
  {
    forall i, j | 0 <= i < |tasks| && 0 <= j < |tasks| && HasEvidence(tasks[i]) && HasEvidence(tasks[j])
      ensures tasks[i].answer == tasks[j].answer
    {
      if i < j {
        OneReference(tasks, i, j);
      } else if j < i {
        OneReference(tasks, j, i);
      }
    }
  }

  /** A scope whose first entry is not empty keeps every run on one source, wherever it crashes. */
  lemma SingleSourceHolds(cfg: Config, events: seq<Event>, s: State)
    requires ScopeLocks(cfg) && Reaches(cfg, events, s)
    ensures SingleSource(s.db.tasks)
  {
    ReachedKeeps(cfg, events, s);
    if s.db.checkpoint.source.None? {
      FewReferencesOneSource(s.db.tasks);
    }
  }

  lemma ReachedKeeps(cfg: Config, events: seq<Event>, s: State)
    requires Reaches(cfg, events, s)
    ensures Inv(cfg, s)
  {
    ReachesReplays(cfg, events, s);
    RunKeeps(cfg, events);
  }

  // ---- Checkpoint lag ----

  predicate DriverHoldsExact(s: State) {
    s.driver.Ready? || s.driver.Started? || s.driver.Asking?
  }

  lemma {:induction false} RefsDistinct(cfg: Config, tasks: seq<Task>)
    requires TasksOk(cfg, tasks)
    requires forall i, j :: 0 <= i < j < |tasks| ==> tasks[i].id != tasks[j].id
    ensures forall r :: r in Refs(tasks) ==> exists i :: 0 <= i < |tasks| && r == EvidenceRef(cfg.runId, tasks[i].id)
    ensures forall i, j :: 0 <= i < j < |Refs(tasks)| ==> Refs(tasks)[i] != Refs(tasks)[j]
  {
    if tasks != [] {
      var init, last := tasks[..|tasks| - 1], tasks[|tasks| - 1];
      RefsDistinct(cfg, init);
      forall r | r in Refs(tasks) ensures exists i :: 0 <= i < |tasks| && r == EvidenceRef(cfg.runId, tasks[i].id) {
        if r in Refs(init) {
          var i :| 0 <= i < |init| && r == EvidenceRef(cfg.runId, init[i].id);
          assert tasks[i] == init[i];
        } else {
          assert TaskOk(cfg, tasks[|init|]);
        }
      }
      if HasEvidence(last) {
        assert TaskOk(cfg, tasks[|init|]);
        forall n | 0 <= n < |Refs(init)| ensures Refs(init)[n] != last.evidenceRef.value {
          assert Refs(init)[n] in Refs(init);
          var i :| 0 <= i < |init| && Refs(init)[n] == EvidenceRef(cfg.runId, init[i].id);
          RefsDiffer(cfg.runId, tasks[i].id, last.id);
        }
      }
    }
  }

  lemma RefsDiffer(runId: string, a: string, b: string)
    requires a != b
    ensures EvidenceRef(runId, a) != EvidenceRef(runId, b)
  {
    var n := |"evidence:" + runId + ":"|;
    assert EvidenceRef(runId, a)[n..] == a && EvidenceRef(runId, b)[n..] == b;
  }

  /**
   * The stored references are always a prefix of the completed ones in order, at most one behind and
   * never repeated; after the repair, and after every later checkpoint write, they are exact.
   */
  lemma LagBounded(cfg: Config, events: seq<Event>, s: State)
    requires Reaches(cfg, events, s)
    ensures s.db.checkpoint.refs <= Refs(s.db.tasks)
    ensures |Refs(s.db.tasks)| <= |s.db.checkpoint.refs| + 1
    ensures s.db.checkpoint.questionsCompleted <= CompletedCount(s.db.tasks) <= s.db.checkpoint.questionsCompleted + 1
    ensures forall i, j :: 0 <= i < j < |Refs(s.db.tasks)| ==> Refs(s.db.tasks)[i] != Refs(s.db.tasks)[j]
    ensures DriverHoldsExact(s) ==> Exact(s.db) && s.driver.cp == s.db.checkpoint
  {
    ReachedKeeps(cfg, events, s);
    RefsDistinct(cfg, s.db.tasks);
  }

  // ---- Budget ----

  /**
   * Once set, the budget is conserved: questions ever planned and budget left add up to the maximum,
   * the balance is never negative, and the rounds stay within their limit.
   */
  lemma BudgetConserved(cfg: Config, events: seq<Event>, s: State)
    requires Reaches(cfg, events, s)
    ensures
      var db := s.db;
      && db.checkpoint.questionsPlanned == PlannedCount(db.tasks) <= cfg.budget.maxQuestions
      && db.checkpoint.currentRound <= cfg.budget.maxRounds
      && db.checkpoint.remainingBudget >= 0
      && (db.checkpoint.currentRound > 0 || db.checkpoint.remainingBudget > 0 ==>
            db.checkpoint.questionsPlanned + db.checkpoint.remainingBudget == cfg.budget.maxQuestions)
      && DistinctQuestions(cfg, db.tasks)
  {
    ReachedKeeps(cfg, events, s);
    if s.db.checkpoint.currentRound == 0 {
      assert s.db.tasks == [];
    }
  }

  // ---- Completed work is final ----

  ghost predicate CompletedKept(a: Db, b: Db) {
    && |a.tasks| <= |b.tasks|
    && forall i :: 0 <= i < |a.tasks| && a.tasks[i].status == Completed ==> b.tasks[i] == a.tasks[i]
  }

  lemma RowKeepsCompleted(db: Db, i: nat, t: Task, checkpoint: Checkpoint)
    requires i < |db.tasks| && db.tasks[i].status != Completed
    ensures CompletedKept(db, Db(checkpoint, db.tasks[i := t]))
  {
  }

  /** The steps of an attempt write one row, and that row is running. */
  lemma AttemptKeepsCompleted(cfg: Config, s: State, e: Event)
    requires DriverInv(cfg, s) && s.driver.Asking? && Apply(cfg, s, e).Some?
    ensures CompletedKept(s.db, Apply(cfg, s, e).value.db)
  {
    var after := Apply(cfg, s, e).value.db;
    if after.tasks != s.db.tasks {
      RowKeepsCompleted(s.db, s.driver.i, after.tasks[s.driver.i], after.checkpoint);
    }
  }

  lemma StepKeepsCompleted(cfg: Config, s: State, e: Event)
    requires Inv(cfg, s) && Apply(cfg, s, e).Some?
    ensures CompletedKept(s.db, Apply(cfg, s, e).value.db)
  {
    var after := Apply(cfg, s, e).value.db;
    match e
    case Plan(decision, ids) => var sel := PlanEnabled(cfg, s, decision, ids);
    case Begin(i) => RowKeepsCompleted(s.db, i, after.tasks[i], after.checkpoint);
    case Recover(i) => RowKeepsCompleted(s.db, i, after.tasks[i], after.checkpoint);
    case _ =>
      if s.driver.Asking? {
        AttemptKeepsCompleted(cfg, s, e);
      }
  }

  lemma {:induction false} ReplayKeepsCompleted(cfg: Config, events: seq<Event>, more: seq<Event>)
    requires Replay(cfg, events).Some? && Replay(cfg, events + more).Some?
    ensures CompletedKept(Replay(cfg, events).value.db, Replay(cfg, events + more).value.db)
  {
    if more == [] {
      assert events + more == events;
    } else {
      var init := more[..|more| - 1];
      assert (events + more)[..|events + more| - 1] == events + init;
      ReplayKeepsCompleted(cfg, events, init);
      RunKeeps(cfg, events + init);
      StepKeepsCompleted(cfg, Replay(cfg, events + init).value, more[|more| - 1]);
    }
  }

  /** A completed task is never run again or altered, by any continuation of the run. */
  lemma CompletedIsFinal(cfg: Config, events: seq<Event>, more: seq<Event>, s: State, t: State)
    requires Reaches(cfg, events, s) && Reaches(cfg, events + more, t)
    ensures CompletedKept(s.db, t.db)
  {
    ReachesReplays(cfg, events, s);
    ReachesReplays(cfg, events + more, t);
    ReplayKeepsCompleted(cfg, events, more);
  }

  // ---- When one source is guaranteed ----

  /** The budget admits two answered questions in one run. */
  predicate AdmitsTwo(b: Budget) {
    b.maxQuestions >= 2 && b.maxRounds >= 1 && b.maxPerRound >= 1 && (b.maxRounds >= 2 || b.maxPerRound >= 2)
  }

  ghost predicate RoundsCapped(cfg: Config, db: Db) {
    db.checkpoint.questionsPlanned <= db.checkpoint.currentRound * cfg.budget.maxPerRound
  }

  lemma OnlyPlanningSpends(cfg: Config, s: State, e: Event)
    requires Inv(cfg, s) && Apply(cfg, s, e).Some? && !e.Plan?
    ensures
      var after := Apply(cfg, s, e).value.db.checkpoint;
      && after.currentRound == s.db.checkpoint.currentRound
      && after.questionsPlanned == s.db.checkpoint.questionsPlanned
  {
  }

  lemma PlanKeepsCap(cfg: Config, s: State, decision: Decision, ids: seq<string>)
    requires s.driver == Ready(s.db.checkpoint) && Apply(cfg, s, Plan(decision, ids)).Some? && RoundsCapped(cfg, s.db)
    ensures RoundsCapped(cfg, Apply(cfg, s, Plan(decision, ids)).value.db)
  {
    var cp := s.db.checkpoint;
    var sel := PlanEnabled(cfg, s, decision, ids);
    SelectionExact(cfg.key, decision, SeenKeys(cfg.key, s.db.tasks), cp.remainingBudget, cfg.budget);
    OneMoreRound(cp.currentRound, cfg.budget.maxPerRound, cp.questionsPlanned, |sel.selected|);
  }

  lemma OneMoreRound(rounds: nat, per: nat, planned: nat, more: nat)
    requires planned <= rounds * per && more <= per
    ensures planned + more <= (rounds + 1) * per
  {
  }

  lemma StepKeepsCap(cfg: Config, s: State, e: Event)
    requires Inv(cfg, s) && Apply(cfg, s, e).Some? && RoundsCapped(cfg, s.db)
    ensures RoundsCapped(cfg, Apply(cfg, s, e).value.db)
  {
    if e.Plan? {
      PlanKeepsCap(cfg, s, e.decision, e.ids);
    } else {
      OnlyPlanningSpends(cfg, s, e);
    }
  }

  lemma {:induction false} RunKeepsCap(cfg: Config, events: seq<Event>)
    requires Replay(cfg, events).Some?
    ensures RoundsCapped(cfg, Replay(cfg, events).value.db)
  {
    if events != [] {
      RunKeepsCap(cfg, events[..|events| - 1]);
      RunKeeps(cfg, events[..|events| - 1]);
      StepKeepsCap(cfg, Replay(cfg, events[..|events| - 1]).value, events[|events| - 1]);
    }
  }

  lemma {:induction false} RefsWithinPlanned(tasks: seq<Task>)
    requires forall i :: 0 <= i < |tasks| ==> (tasks[i].status == Completed ==> tasks[i].attempt >= 1)
    ensures |Refs(tasks)| <= PlannedCount(tasks)
  {
    if tasks != [] {
      RefsWithinPlanned(tasks[..|tasks| - 1]);
    }
  }

  lemma ReachedCapped(cfg: Config, events: seq<Event>, s: State)
    requires Reaches(cfg, events, s)
    ensures RoundsCapped(cfg, s.db)
  {
    ReachesReplays(cfg, events, s);
    RunKeepsCap(cfg, events);
  }

  lemma SmallBudgetOneSource(cfg: Config, events: seq<Event>, s: State)
    requires !AdmitsTwo(cfg.budget) && Reaches(cfg, events, s)
    ensures SingleSource(s.db.tasks)
  {
    BudgetConserved(cfg, events, s);
    ReachedCapped(cfg, events, s);
    ReachedKeeps(cfg, events, s);
    var db := s.db;
    assert forall i :: 0 <= i < |db.tasks| ==> TaskOk(cfg, db.tasks[i]);
    RefsWithinPlanned(db.tasks);
    var rounds, per := db.checkpoint.currentRound, cfg.budget.maxPerRound;
    if per == 0 {
      assert rounds * per == 0;
    } else if cfg.budget.maxQuestions >= 2 {
      assert rounds <= 1 && (rounds == 1 ==> per == 1);
    }
    FewReferencesOneSource(db.tasks);
  }
}
