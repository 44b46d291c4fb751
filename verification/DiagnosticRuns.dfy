/** What every run of the diagnostic loop keeps, with a crash possible before any write. */
module DiagnosticRuns {
  import opened Common
  import opened QuestionPolicy
  import opened DiagnosticState

  // ---- The invariant ----

  /** Tasks that entered the table as PLANNED; repeats enter as SKIPPED and are never attempted. */
  predicate BornPlanned(t: Task) { !(t.status == Skipped && t.attempt == 0) }

  function PlannedCount(tasks: seq<Task>): nat {
    if tasks == [] then 0
    else PlannedCount(tasks[..|tasks| - 1]) + (if BornPlanned(tasks[|tasks| - 1]) then 1 else 0)
  }

  predicate Before(a: Task, b: Task) {
    a.round < b.round || (a.round == b.round && a.ordinal < b.ordinal)
  }

  /** The table as a list: ordered, with distinct identifiers, and no round beyond the current one. */
  ghost predicate Table(db: Db) {
    && (forall i, j :: 0 <= i < j < |db.tasks| ==> Before(db.tasks[i], db.tasks[j]) && db.tasks[i].id != db.tasks[j].id)
    && (forall i :: 0 <= i < |db.tasks| ==> 1 <= db.tasks[i].round <= db.checkpoint.currentRound)
  }

  /** Questions planned and budget left always add up to the budget, once it has been set. */
  ghost predicate Conserved(cfg: Config, db: Db) {
    var cp := db.checkpoint;
    && cp.currentRound <= cfg.budget.maxRounds
    && cp.remainingBudget >= 0
    && cp.questionsPlanned == PlannedCount(db.tasks)
    && (cp.questionsPlanned + cp.remainingBudget == cfg.budget.maxQuestions
        || (cp.currentRound == 0 && cp.remainingBudget == 0))
  }

  ghost predicate DistinctQuestions(cfg: Config, tasks: seq<Task>) {
    forall i, j :: 0 <= i < j < |tasks| && BornPlanned(tasks[i]) && BornPlanned(tasks[j]) ==>
      cfg.key(tasks[i].question) != cfg.key(tasks[j].question)
  }

  predicate Untouched(t: Task) { t.attempt == 0 && (t.status == Planned || t.status == Skipped) }

  /** Work proceeds in order: nothing after an unfinished task has been attempted. */
  ghost predicate InOrder(db: Db) {
    && (forall i, j :: 0 <= i < j < |db.tasks| && !Finished(db.tasks[i]) ==> Untouched(db.tasks[j]))
    && (forall i :: 0 <= i < |db.tasks| && db.tasks[i].round < db.checkpoint.currentRound ==> Finished(db.tasks[i]))
  }

  predicate TaskOk(cfg: Config, t: Task) {
    && (t.status == Planned ==> t.attempt == 0)
    && (t.status == Completed || t.status == Running ==> t.attempt >= 1)
    && (t.evidenceRef.Some? ==> t.status == Completed && t.evidenceRef.value == EvidenceRef(cfg.runId, t.id))
    && (HasEvidence(t) ==> t.answer.Some? && t.answer.value.Verified? && t.answer.value.source != "")
    && (t.status == Completed && t.answer.Some? && t.answer.value.Verified? ==> t.evidenceRef.Some?)
  }

  ghost predicate TasksOk(cfg: Config, tasks: seq<Task>) {
    forall i :: 0 <= i < |tasks| ==> TaskOk(cfg, tasks[i])
  }

  /** The checkpoint reports the completed tasks exactly. */
  predicate Exact(db: Db) {
    db.checkpoint.refs == Refs(db.tasks) && db.checkpoint.questionsCompleted == CompletedCount(db.tasks)
  }

  /** The checkpoint is exact, or exactly one completion behind. */
  ghost predicate AtMostOneBehind(db: Db) {
    var cp := db.checkpoint;
    || Exact(db)
    || (CompletedCount(db.tasks) == cp.questionsCompleted + 1
        && (Refs(db.tasks) == cp.refs || exists r :: Refs(db.tasks) == cp.refs + [r]))
  }

  /** A first scope entry that is not the empty string: an empty one is stored but locks nothing. */
  predicate ScopeLocks(cfg: Config) {
    cfg.scope == [] || cfg.scope[0] != ""
  }

  ghost predicate AllFrom(tasks: seq<Task>, source: string) {
    forall i :: 0 <= i < |tasks| && HasEvidence(tasks[i]) ==>
      tasks[i].answer == Some(Verified(source))
  }

  /** The recorded source is that of every completed task; with none recorded, no reference is either. */
  ghost predicate SourceLocked(db: Db) {
    match db.checkpoint.source
    case Some(source) => source != "" && AllFrom(db.tasks, source)
    case None => db.checkpoint.refs == []
  }

  ghost predicate DbInv(cfg: Config, db: Db) {
    && Table(db)
    && Conserved(cfg, db)
    && DistinctQuestions(cfg, db.tasks)
    && InOrder(db)
    && TasksOk(cfg, db.tasks)
    && AtMostOneBehind(db)
    && (ScopeLocks(cfg) ==> SourceLocked(db))
  }

  /** The task the driver holds is the stored row, running, and everything before it is finished. */
  ghost predicate Holding(db: Db, i: nat, t: Task) {
    && i < |db.tasks| && db.tasks[i] == t && t.status == Running && t.round == db.checkpoint.currentRound
    && t.evidenceRef.None?
    && (forall j :: 0 <= j < i ==> Finished(db.tasks[j]))
  }

  ghost predicate DriverInv(cfg: Config, s: State) {
    match s.driver
    case Down => true
    case Opened(cp) => cp == s.db.checkpoint
    case Ready(cp) => cp == s.db.checkpoint && Exact(s.db)
    case Started(cp, i, t) => cp == s.db.checkpoint && Exact(s.db) && Holding(s.db, i, t)
    case Asking(cp, i, t) => cp == s.db.checkpoint && Exact(s.db) && Holding(s.db, i, t)
    case Answered(cp, next) =>
      && cp == s.db.checkpoint
      && next.refs == Refs(s.db.tasks) && next.questionsCompleted == CompletedCount(s.db.tasks)
      && next == cp.(refs := next.refs, questionsCompleted := next.questionsCompleted, source := next.source,
                     pending := next.pending)
      && (ScopeLocks(cfg) ==> SourceLocked(Db(next, s.db.tasks)))
  }

  ghost predicate Inv(cfg: Config, s: State) {
    DbInv(cfg, s.db) && DriverInv(cfg, s)
  }

  // ---- Changing one row ----

  lemma {:induction false} UpdateCounts(tasks: seq<Task>, i: nat, t: Task)
    requires i < |tasks|
    ensures PlannedCount(tasks[i := t]) + (if BornPlanned(tasks[i]) then 1 else 0)
            == PlannedCount(tasks) + (if BornPlanned(t) then 1 else 0)
    ensures CompletedCount(tasks[i := t]) + (if tasks[i].status == Completed then 1 else 0)
            == CompletedCount(tasks) + (if t.status == Completed then 1 else 0)
    ensures !HasEvidence(tasks[i]) && !HasEvidence(t) ==> Refs(tasks[i := t]) == Refs(tasks)
  {
    var last := |tasks| - 1;
    if i == last {
      assert tasks[i := t][..last] == tasks[..last];
    } else {
      assert tasks[i := t][..last] == tasks[..last][i := t];
      UpdateCounts(tasks[..last], i, t);
    }
  }

  lemma {:induction false} NoEvidenceNoRefs(tasks: seq<Task>, from: nat)
    requires from <= |tasks| && forall j :: from <= j < |tasks| ==> !HasEvidence(tasks[j])
    ensures Refs(tasks) == Refs(tasks[..from])
    decreases |tasks|
  {
    if from == |tasks| {
      assert tasks[..from] == tasks;
    } else {
      assert tasks[..|tasks| - 1][..from] == tasks[..from];
      NoEvidenceNoRefs(tasks[..|tasks| - 1], from);
    }
  }

  /** Completing the first unfinished task appends its reference: later rows carry none yet. */
  lemma CompletionAppends(tasks: seq<Task>, i: nat, t: Task)
    requires i < |tasks| && !HasEvidence(tasks[i]) && HasEvidence(t)
    requires forall j :: i < j < |tasks| ==> !HasEvidence(tasks[j])
    ensures Refs(tasks[i := t]) == Refs(tasks) + [t.evidenceRef.value]
  {
    NoEvidenceNoRefs(tasks, i);
    var after := tasks[i := t];
    NoEvidenceNoRefs(after, i + 1);
    assert after[..i + 1][..i] == tasks[..i];
  }

  lemma {:induction false} AppendCounts(tasks: seq<Task>, batch: seq<Task>)
    requires forall t :: t in batch ==> t.status != Completed
    ensures Refs(tasks + batch) == Refs(tasks)
    ensures CompletedCount(tasks + batch) == CompletedCount(tasks)
    ensures PlannedCount(tasks + batch) == PlannedCount(tasks) + PlannedCount(batch)
  {
    if batch == [] {
      assert tasks + batch == tasks;
    } else {
      var init := batch[..|batch| - 1];
      assert (tasks + batch)[..|tasks + batch| - 1] == tasks + init;
      AppendCounts(tasks, init);
    }
  }

  predicate SameTask(a: Task, b: Task) {
    a.id == b.id && a.round == b.round && a.ordinal == b.ordinal && a.question == b.question
  }

  lemma RowKeepsTable(db: Db, i: nat, t: Task)
    requires i < |db.tasks| && Table(db) && SameTask(t, db.tasks[i])
    ensures Table(Db(db.checkpoint, db.tasks[i := t]))
  {
    var after := db.tasks[i := t];
    forall a, b | 0 <= a < b < |after| ensures Before(after[a], after[b]) && after[a].id != after[b].id {
      assert Before(db.tasks[a], db.tasks[b]) && db.tasks[a].id != db.tasks[b].id;
    }
  }

  lemma RowKeepsQuestions(cfg: Config, tasks: seq<Task>, i: nat, t: Task)
    requires i < |tasks| && DistinctQuestions(cfg, tasks) && SameTask(t, tasks[i]) && BornPlanned(tasks[i])
    ensures DistinctQuestions(cfg, tasks[i := t])
  {
  }

  lemma RowKeepsOrder(db: Db, i: nat, t: Task)
    requires i < |db.tasks| && InOrder(db) && !Finished(db.tasks[i]) && t.round == db.tasks[i].round
    requires db.tasks[i].round == db.checkpoint.currentRound && forall j :: 0 <= j < i ==> Finished(db.tasks[j])
    ensures InOrder(Db(db.checkpoint, db.tasks[i := t]))
  {
    var after := db.tasks[i := t];
    forall a, b | 0 <= a < b < |after| && !Finished(after[a]) ensures Untouched(after[b]) {
      assert a >= i;
      assert Untouched(db.tasks[b]);
    }
  }

  /** A table that differs in row i, where the prior row was unattempted by anything after it. */
  lemma RowChanged(cfg: Config, db: Db, i: nat, t: Task, after: Db)
    requires Table(db) && Conserved(cfg, db) && DistinctQuestions(cfg, db.tasks) && InOrder(db)
             && TasksOk(cfg, db.tasks)
    requires i < |db.tasks| && after == Db(db.checkpoint, db.tasks[i := t]) && SameTask(t, db.tasks[i])
    requires BornPlanned(t) && BornPlanned(db.tasks[i]) && TaskOk(cfg, t)
    requires !Finished(db.tasks[i]) && db.tasks[i].round == db.checkpoint.currentRound
    requires forall j :: 0 <= j < i ==> Finished(db.tasks[j])
    ensures Table(after) && Conserved(cfg, after) && DistinctQuestions(cfg, after.tasks)
    ensures InOrder(after) && TasksOk(cfg, after.tasks)
  {
    UpdateCounts(db.tasks, i, t);
    RowKeepsTable(db, i, t);
    RowKeepsQuestions(cfg, db.tasks, i, t);
    RowKeepsOrder(db, i, t);
  }

  /** A change of row i that adds no evidence leaves the references and the source lock as they were. */
  lemma NoNewEvidence(db: Db, i: nat, t: Task)
    requires i < |db.tasks| && !HasEvidence(db.tasks[i]) && !HasEvidence(t)
    ensures Refs(db.tasks[i := t]) == Refs(db.tasks)
    ensures forall source :: AllFrom(db.tasks, source) <==> AllFrom(db.tasks[i := t], source)
  {
    UpdateCounts(db.tasks, i, t);
    var after := db.tasks[i := t];
    forall source ensures AllFrom(db.tasks, source) <==> AllFrom(after, source) {
      if AllFrom(after, source) {
        forall j | 0 <= j < |db.tasks| && HasEvidence(db.tasks[j])
          ensures db.tasks[j].answer == Some(Verified(source))
        {
          assert after[j] == db.tasks[j];
        }
      }
    }
  }

  lemma RunningIsFirstUnfinished(cfg: Config, db: Db, i: nat)
    requires DbInv(cfg, db) && i < |db.tasks| && !Untouched(db.tasks[i]) && !Finished(db.tasks[i])
    ensures db.tasks[i].round == db.checkpoint.currentRound
    ensures forall j :: 0 <= j < i ==> Finished(db.tasks[j])
  {
  }

  // ---- Each step ----

  lemma RecoverKeeps(cfg: Config, s: State, i: nat)
    requires Inv(cfg, s) && Apply(cfg, s, Recover(i)).Some?
    ensures Inv(cfg, Apply(cfg, s, Recover(i)).value)
  {
    var t := Recovered(s.db.tasks[i]).(revision := s.db.tasks[i].revision + 1);
    assert Apply(cfg, s, Recover(i)) == Some(State(Db(s.db.checkpoint, s.db.tasks[i := t]), Down));
    RecoveredKeeps(cfg, s.db, i, t);
  }

  lemma RecoveredKeeps(cfg: Config, db: Db, i: nat, t: Task)
    requires DbInv(cfg, db) && i < |db.tasks| && db.tasks[i].status == Running
    requires t == Recovered(db.tasks[i]).(revision := db.tasks[i].revision + 1)
    ensures DbInv(cfg, Db(db.checkpoint, db.tasks[i := t]))
  {
    assert TaskOk(cfg, db.tasks[i]);
    RunningIsFirstUnfinished(cfg, db, i);
    RowChanged(cfg, db, i, t, Db(db.checkpoint, db.tasks[i := t]));
    NoNewEvidence(db, i, t);
    UpdateCounts(db.tasks, i, t);
  }

  lemma {:induction false} EvidenceCounted(tasks: seq<Task>, i: nat)
    requires i < |tasks| && HasEvidence(tasks[i])
    ensures |Refs(tasks)| >= 1
  {
    if i < |tasks| - 1 {
      EvidenceCounted(tasks[..|tasks| - 1], i);
    }
  }

  lemma {:induction false} OneReference(tasks: seq<Task>, i: nat, j: nat)
    requires i < j < |tasks| && HasEvidence(tasks[i]) && HasEvidence(tasks[j])
    ensures |Refs(tasks)| >= 2
  {
    var last := |tasks| - 1;
    if j == last {
      EvidenceCounted(tasks[..last], i);
    } else {
      OneReference(tasks[..last], i, j);
    }
  }

  /** Task i carries evidence, and no earlier one does. */
  ghost predicate FirstEvidence(tasks: seq<Task>, i: int) {
    0 <= i < |tasks| && HasEvidence(tasks[i]) && forall j :: 0 <= j < i ==> !HasEvidence(tasks[j])
  }

  lemma {:induction false} FirstSourceFound(cfg: Config, tasks: seq<Task>)
    requires TasksOk(cfg, tasks)
    ensures FirstSource(tasks).Some? <==> exists i :: 0 <= i < |tasks| && HasEvidence(tasks[i])
    ensures FirstSource(tasks).Some? ==>
              FirstSource(tasks).value != ""
              && exists i :: FirstEvidence(tasks, i) && tasks[i].answer == Some(Verified(FirstSource(tasks).value))
  {
    if tasks != [] {
      assert TaskOk(cfg, tasks[0]);
      if HasEvidence(tasks[0]) {
        assert FirstEvidence(tasks, 0) && tasks[0].answer == Some(Verified(FirstSource(tasks).value));
      } else {
        assert forall i :: 0 <= i < |tasks| - 1 ==> tasks[1..][i] == tasks[i + 1];
        FirstSourceFound(cfg, tasks[1..]);
        if i :| 0 <= i < |tasks| && HasEvidence(tasks[i]) {
          assert HasEvidence(tasks[1..][i - 1]);
        }
        if FirstSource(tasks).Some? {
          var i :| FirstEvidence(tasks[1..], i) && tasks[1..][i].answer == Some(Verified(FirstSource(tasks).value));
          assert tasks[i + 1] == tasks[1..][i];
          assert FirstEvidence(tasks, i + 1);
        }
      }
    }
  }

  lemma {:induction false} RefsFound(tasks: seq<Task>)
    ensures Refs(tasks) != [] <==> exists i :: 0 <= i < |tasks| && HasEvidence(tasks[i])
  {
    if tasks != [] {
      var last := |tasks| - 1;
      RefsFound(tasks[..last]);
      if i :| 0 <= i < |tasks| && HasEvidence(tasks[i]) {
        assert i < last ==> HasEvidence(tasks[..last][i]);
      }
      if i :| 0 <= i < last && HasEvidence(tasks[..last][i]) {
        assert HasEvidence(tasks[i]);
      }
    }
  }

  /** The repair re-derives the lock from the one completion the checkpoint may have missed. */
  lemma RepairLocks(cfg: Config, db: Db, cp: Checkpoint)
    requires TasksOk(cfg, db.tasks) && AtMostOneBehind(db) && SourceLocked(db) && cp == db.checkpoint
    ensures SourceLocked(Db(Repaired(db, cp), db.tasks))
  {
    RefsFound(db.tasks);
    if cp.source.None? && Refs(db.tasks) != [] {
      FirstSourceFound(cfg, db.tasks);
      var source := FirstSource(db.tasks).value;
      var i :| 0 <= i < |db.tasks| && HasEvidence(db.tasks[i]) && db.tasks[i].answer == Some(Verified(source));
      assert |Refs(db.tasks)| <= 1;
      forall j | 0 <= j < |db.tasks| && HasEvidence(db.tasks[j]) ensures j == i {
        if j < i {
          OneReference(db.tasks, j, i);
        } else if i < j {
          OneReference(db.tasks, i, j);
        }
      }
    }
  }

  lemma RepairKeeps(cfg: Config, s: State)
    requires Inv(cfg, s) && Apply(cfg, s, Repair).Some?
    ensures Inv(cfg, Apply(cfg, s, Repair).value)
  {
    if ScopeLocks(cfg) {
      RepairLocks(cfg, s.db, s.driver.cp);
    }
  }

  lemma InitKeeps(cfg: Config, s: State)
    requires Inv(cfg, s) && Apply(cfg, s, InitBudget).Some?
    ensures Inv(cfg, Apply(cfg, s, InitBudget).value)
  {
    assert s.db.tasks == [];
  }

  lemma {:induction false} BatchPlanned(tasks: seq<Task>, n: nat)
    requires n <= |tasks|
    requires forall i :: 0 <= i < |tasks| ==> (BornPlanned(tasks[i]) <==> i < n)
    ensures PlannedCount(tasks) == n
  {
    if tasks != [] {
      BatchPlanned(tasks[..|tasks| - 1], if n == |tasks| then n - 1 else n);
    }
  }

  function PlannedCheckpoint(cp: Checkpoint, planned: nat): Checkpoint {
    cp.(revision := cp.revision + 1, currentRound := cp.currentRound + 1,
        questionsPlanned := cp.questionsPlanned + planned, remainingBudget := cp.remainingBudget - planned)
  }

  function PlannedDb(db: Db, ids: seq<string>, sel: Selection): Db
    requires |ids| == |sel.selected| + |sel.duplicates|
  {
    Db(PlannedCheckpoint(db.checkpoint, |sel.selected|), db.tasks + Batch(db.checkpoint.currentRound + 1, ids, sel))
  }

  lemma PlanTable(db: Db, ids: seq<string>, sel: Selection)
    requires Table(db) && |ids| == |sel.selected| + |sel.duplicates| && NewIds(db.tasks, ids)
    ensures Table(PlannedDb(db, ids, sel))
  {
    var prior, batch := db.tasks, Batch(db.checkpoint.currentRound + 1, ids, sel);
    var all := prior + batch;
    assert forall k :: 0 <= k < |ids| ==> batch[k].id == ids[k] && batch[k].ordinal == k + 1
                                           && batch[k].round == db.checkpoint.currentRound + 1;
    forall i, j | 0 <= i < j < |all| ensures Before(all[i], all[j]) && all[i].id != all[j].id {
      if |prior| <= j && i < |prior| {
        assert prior[i] in prior;
      }
    }
  }

  lemma PlanQuestions(cfg: Config, db: Db, ids: seq<string>, sel: Selection)
    requires DistinctQuestions(cfg, db.tasks) && |ids| == |sel.selected| + |sel.duplicates|
    requires DistinctKeys(cfg.key, sel.selected) && KeysOf(cfg.key, sel.selected) !! SeenKeys(cfg.key, db.tasks)
    ensures DistinctQuestions(cfg, PlannedDb(db, ids, sel).tasks)
  {
    var prior, batch := db.tasks, Batch(db.checkpoint.currentRound + 1, ids, sel);
    var all := prior + batch;
    forall i, j | 0 <= i < j < |all| && BornPlanned(all[i]) && BornPlanned(all[j])
      ensures cfg.key(all[i].question) != cfg.key(all[j].question)
    {
      if j >= |prior| {
        var q := sel.selected[j - |prior|];
        assert all[j].question == q.question && cfg.key(q.question) in KeysOf(cfg.key, sel.selected);
        if i < |prior| {
          assert all[i] in prior && cfg.key(all[i].question) in SeenKeys(cfg.key, prior);
        } else {
          assert all[i].question == sel.selected[i - |prior|].question;
        }
      } else {
        assert all[i] == prior[i] && all[j] == prior[j];
      }
    }
  }

  /** A row of the batch: the i-th of the selected questions, to be asked, or of the repeats after them, set aside. */
  lemma BatchExactly(round: nat, ids: seq<string>, sel: Selection, i: nat)
    requires i < |ids| == |sel.selected| + |sel.duplicates|
    ensures
      var t := Batch(round, ids, sel)[i];
      && t.id == ids[i] && t.round == round && t.ordinal == i + 1 && t.attempt == 0 && t.revision == 0
      && t.answer.None? && t.evidenceRef.None? && t.failureCode.None? && !t.retryable
      && (i < |sel.selected| ==>
            t.status == Planned && t.question == sel.selected[i].question && t.purpose == sel.selected[i].purpose)
      && (i >= |sel.selected| ==>
            && t.status == Skipped && t.question == sel.duplicates[i - |sel.selected|].question
            && t.purpose == sel.duplicates[i - |sel.selected|].purpose)
  {
  }

  /** What has been seen are the keys of the run's questions, whatever became of them. */
  lemma SeenExactly(key: KeyFunction, tasks: seq<Task>, k: string)
    ensures k in SeenKeys(key, tasks) <==> exists i :: 0 <= i < |tasks| && k == key(tasks[i].question)
  {
    if t :| t in tasks && k == key(t.question) {
      var i :| 0 <= i < |tasks| && tasks[i] == t;
      assert k == key(tasks[i].question);
    }
  }

  lemma BatchRows(cfg: Config, db: Db, round: nat, ids: seq<string>, sel: Selection)
    requires |ids| == |sel.selected| + |sel.duplicates|
    requires InOrder(db) && TasksOk(cfg, db.tasks) && RoundDone(db)
    requires Table(db) && round == db.checkpoint.currentRound + 1
    ensures
      var all := db.tasks + Batch(round, ids, sel);
      && TasksOk(cfg, all)
      && (forall i :: 0 <= i < |db.tasks| ==> Finished(all[i]))
      && (forall i :: |db.tasks| <= i < |all| ==> Untouched(all[i]) && all[i].round == round && !HasEvidence(all[i]))
      && (forall source :: AllFrom(db.tasks, source) ==> AllFrom(all, source))
  {
    var batch := Batch(round, ids, sel);
    var all := db.tasks + batch;
    forall i | 0 <= i < |all|
      ensures TaskOk(cfg, all[i])
      ensures i < |db.tasks| ==> Finished(all[i])
      ensures i >= |db.tasks| ==> Untouched(all[i]) && all[i].round == round && !HasEvidence(all[i])
    {
      if i < |db.tasks| {
        assert all[i] == db.tasks[i] && db.tasks[i] in db.tasks;
      } else {
        assert all[i] == batch[i - |db.tasks|];
      }
    }
  }

  lemma BatchCounts(prior: seq<Task>, round: nat, ids: seq<string>, sel: Selection)
    requires |ids| == |sel.selected| + |sel.duplicates|
    ensures
      var all := prior + Batch(round, ids, sel);
      && Refs(all) == Refs(prior) && CompletedCount(all) == CompletedCount(prior)
      && PlannedCount(all) == PlannedCount(prior) + |sel.selected|
  {
    var batch := Batch(round, ids, sel);
    AppendCounts(prior, batch);
    BatchPlanned(batch, |sel.selected|);
  }

  /** What the tests before `plan_round` establish, and what it writes. */
  lemma PlanEnabled(cfg: Config, s: State, decision: Decision, ids: seq<string>) returns (sel: Selection)
    requires s.driver == Ready(s.db.checkpoint) && Apply(cfg, s, Plan(decision, ids)).Some?
    ensures
      var cp := s.db.checkpoint;
      && SelectionOf(cfg.key, decision, SeenKeys(cfg.key, s.db.tasks), cp.remainingBudget, cfg.budget) == Ok(sel)
      && RoundDone(s.db) && cp.currentRound < cfg.budget.maxRounds && cp.remainingBudget > 0
      && |ids| == |sel.selected| + |sel.duplicates| && NewIds(s.db.tasks, ids)
      && Apply(cfg, s, Plan(decision, ids))
         == Some(State(PlannedDb(s.db, ids, sel), Ready(PlannedDb(s.db, ids, sel).checkpoint)))
  {
    var cp := s.db.checkpoint;
    assert Db(cp, s.db.tasks) == s.db;
    sel := SelectionOf(cfg.key, decision, SeenKeys(cfg.key, s.db.tasks), cp.remainingBudget, cfg.budget).value;
  }

  /** The tests before `plan_round` are all it needs: any selection that passes them is written. */
  lemma PlanPossible(cfg: Config, s: State, decision: Decision, ids: seq<string>, sel: Selection)
    requires s.driver == Ready(s.db.checkpoint) && decision.action != Clarify
    requires
      var cp := s.db.checkpoint;
      && SelectionOf(cfg.key, decision, SeenKeys(cfg.key, s.db.tasks), cp.remainingBudget, cfg.budget) == Ok(sel)
      && RoundDone(s.db) && cp.currentRound < cfg.budget.maxRounds && cp.remainingBudget > 0
      && |ids| == |sel.selected| + |sel.duplicates| && NewIds(s.db.tasks, ids)
    ensures Apply(cfg, s, Plan(decision, ids))
            == Some(State(PlannedDb(s.db, ids, sel), Ready(PlannedDb(s.db, ids, sel).checkpoint)))
  {
    assert Db(s.db.checkpoint, s.db.tasks) == s.db;
  }

  lemma PlanKeeps(cfg: Config, s: State, decision: Decision, ids: seq<string>)
    requires Inv(cfg, s) && Apply(cfg, s, Plan(decision, ids)).Some?
    ensures Inv(cfg, Apply(cfg, s, Plan(decision, ids)).value)
  {
    var sel := PlanEnabled(cfg, s, decision, ids);
    SelectionExact(cfg.key, decision, SeenKeys(cfg.key, s.db.tasks), s.db.checkpoint.remainingBudget, cfg.budget);
    PlanKeepsDb(cfg, s.db, ids, sel);
  }

  lemma PlanKeepsDb(cfg: Config, db: Db, ids: seq<string>, sel: Selection)
    requires DbInv(cfg, db) && Exact(db) && RoundDone(db)
    requires db.checkpoint.currentRound < cfg.budget.maxRounds && db.checkpoint.remainingBudget > 0
    requires |ids| == |sel.selected| + |sel.duplicates| && NewIds(db.tasks, ids)
    requires DistinctKeys(cfg.key, sel.selected) && KeysOf(cfg.key, sel.selected) !! SeenKeys(cfg.key, db.tasks)
    requires |sel.selected| <= db.checkpoint.remainingBudget
    ensures DbInv(cfg, PlannedDb(db, ids, sel)) && Exact(PlannedDb(db, ids, sel))
  {
    PlanTable(db, ids, sel);
    PlanQuestions(cfg, db, ids, sel);
    PlanKeepsOrder(cfg, db, ids, sel);
    PlanKeepsCounts(cfg, db, ids, sel);
  }

  lemma PlanKeepsOrder(cfg: Config, db: Db, ids: seq<string>, sel: Selection)
    requires |ids| == |sel.selected| + |sel.duplicates|
    requires InOrder(db) && TasksOk(cfg, db.tasks) && RoundDone(db) && Table(db)
    ensures InOrder(PlannedDb(db, ids, sel)) && TasksOk(cfg, PlannedDb(db, ids, sel).tasks)
  {
    BatchRows(cfg, db, db.checkpoint.currentRound + 1, ids, sel);
  }

  lemma PlanKeepsCounts(cfg: Config, db: Db, ids: seq<string>, sel: Selection)
    requires |ids| == |sel.selected| + |sel.duplicates|
    requires DbInv(cfg, db) && Exact(db) && RoundDone(db)
    requires |sel.selected| <= db.checkpoint.remainingBudget && db.checkpoint.remainingBudget > 0
    requires db.checkpoint.currentRound < cfg.budget.maxRounds
    ensures Conserved(cfg, PlannedDb(db, ids, sel)) && Exact(PlannedDb(db, ids, sel))
    ensures ScopeLocks(cfg) ==> SourceLocked(PlannedDb(db, ids, sel))
  {
    BatchRows(cfg, db, db.checkpoint.currentRound + 1, ids, sel);
    BatchCounts(db.tasks, db.checkpoint.currentRound + 1, ids, sel);
  }

  lemma BeginKeeps(cfg: Config, s: State, i: nat)
    requires Inv(cfg, s) && Apply(cfg, s, Begin(i)).Some?
    ensures Inv(cfg, Apply(cfg, s, Begin(i)).value)
  {
    var after := Apply(cfg, s, Begin(i)).value.db;
    var t := after.tasks[i];
    assert TaskOk(cfg, s.db.tasks[i]);
    assert forall j :: 0 <= j < i && s.db.tasks[j].round < s.db.checkpoint.currentRound ==> Finished(s.db.tasks[j]);
    RowChanged(cfg, s.db, i, t, after);
    NoNewEvidence(s.db, i, t);
    UpdateCounts(s.db.tasks, i, t);
  }

  lemma MarkPendingKeeps(cfg: Config, s: State)
    requires Inv(cfg, s) && Apply(cfg, s, MarkPending).Some?
    ensures Inv(cfg, Apply(cfg, s, MarkPending).value)
  {
  }

  /** Leaving an attempt without completing the task. */
  lemma AttemptLeft(cfg: Config, s: State, t: Task)
    requires Inv(cfg, s) && s.driver.Asking?
    requires t == s.driver.task.(status := t.status, answer := t.answer, failureCode := t.failureCode,
                                 retryable := t.retryable, revision := t.revision)
    requires t.status == Failed || t.status == WaitingUser || t.status == Skipped
    ensures
      var after := Db(s.db.checkpoint, s.db.tasks[s.driver.i := t]);
      DbInv(cfg, after) && Exact(after)
  {
    var i := s.driver.i;
    assert TaskOk(cfg, s.db.tasks[i]);
    RowChanged(cfg, s.db, i, t, Db(s.db.checkpoint, s.db.tasks[i := t]));
    NoNewEvidence(s.db, i, t);
    UpdateCounts(s.db.tasks, i, t);
  }

  lemma AskEndsKeeps(cfg: Config, s: State, e: Event)
    requires Inv(cfg, s) && (e.AskFailed? || e.AskWaits? || e.AskCancelled?) && Apply(cfg, s, e).Some?
    ensures Inv(cfg, Apply(cfg, s, e).value)
  {
    AttemptLeft(cfg, s, Apply(cfg, s, e).value.db.tasks[s.driver.i]);
  }

  lemma UnavailableKeeps(cfg: Config, s: State)
    requires Inv(cfg, s) && Apply(cfg, s, AskUnavailable).Some?
    ensures Inv(cfg, Apply(cfg, s, AskUnavailable).value)
  {
    var i := s.driver.i;
    var after := Apply(cfg, s, AskUnavailable).value.db;
    var t := after.tasks[i];
    assert TaskOk(cfg, s.db.tasks[i]);
    RowChanged(cfg, s.db, i, t, after);
    NoNewEvidence(s.db, i, t);
    UpdateCounts(s.db.tasks, i, t);
  }

  lemma VerifiedKeeps(cfg: Config, s: State, source: string)
    requires Inv(cfg, s) && Apply(cfg, s, AskVerified(source)).Some?
    ensures Inv(cfg, Apply(cfg, s, AskVerified(source)).value)
  {
    var i, cp := s.driver.i, s.db.checkpoint;
    var after := Apply(cfg, s, AskVerified(source)).value.db;
    var t := after.tasks[i];
    assert TaskOk(cfg, s.db.tasks[i]);
    RowChanged(cfg, s.db, i, t, after);
    UpdateCounts(s.db.tasks, i, t);
    forall j | i < j < |s.db.tasks| ensures !HasEvidence(s.db.tasks[j]) {
      assert Untouched(s.db.tasks[j]);
    }
    CompletionAppends(s.db.tasks, i, t);
    if ScopeLocks(cfg) {
      RefsFound(s.db.tasks);
      forall j | 0 <= j < |after.tasks| && HasEvidence(after.tasks[j])
        ensures after.tasks[j].answer == Some(Verified(source))
      {
        assert j != i ==> after.tasks[j] == s.db.tasks[j];
      }
    }
  }

  lemma SettleKeeps(cfg: Config, s: State)
    requires Inv(cfg, s) && Apply(cfg, s, Settle).Some?
    ensures Inv(cfg, Apply(cfg, s, Settle).value)
  {
  }

  lemma StepKeeps(cfg: Config, s: State, e: Event)
    requires Inv(cfg, s) && Apply(cfg, s, e).Some?
    ensures Inv(cfg, Apply(cfg, s, e).value)
  {
    match e
    case Crash =>
    case Recover(i) => RecoverKeeps(cfg, s, i);
    case Open =>
    case Repair => RepairKeeps(cfg, s);
    case InitBudget => InitKeeps(cfg, s);
    case Plan(decision, ids) => PlanKeeps(cfg, s, decision, ids);
    case Begin(i) => BeginKeeps(cfg, s, i);
    case MarkPending => MarkPendingKeeps(cfg, s);
    case AskCancelled => AskEndsKeeps(cfg, s, e);
    case AskFailed(_, _) => AskEndsKeeps(cfg, s, e);
    case AskWaits => AskEndsKeeps(cfg, s, e);
    case AskUnavailable => UnavailableKeeps(cfg, s);
    case AskVerified(source) => VerifiedKeeps(cfg, s, source);
    case Settle => SettleKeeps(cfg, s);
  }

  lemma {:induction false} RunKeeps(cfg: Config, events: seq<Event>)
    requires Replay(cfg, events).Some?
    ensures Inv(cfg, Replay(cfg, events).value)
  {
    if events == [] {
      assert Inv(cfg, Initial());
    } else {
      RunKeeps(cfg, events[..|events| - 1]);
      StepKeeps(cfg, Replay(cfg, events[..|events| - 1]).value, events[|events| - 1]);
    }
  }
}
