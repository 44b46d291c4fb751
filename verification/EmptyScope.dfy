/**
 * Exactly when the diagnostic loop stays on one source.
 *
 * The lock is tested for truth, so a scope whose first entry is the empty string is stored as a lock
 * and never enforced; the repair then finds a recorded source and does not re-derive it either.
 */
module EmptyScope {
  import opened Common
  import opened Ordering
  import opened PlainText
  import opened QuestionPolicy
  import opened DiagnosticState
  import opened DiagnosticRuns
  import opened DiagnosticTheorems

  lemma Extend(cfg: Config, events: seq<Event>, e: Event)
    requires Replay(cfg, events).Some?
    ensures Replay(cfg, events + [e]) == Apply(cfg, Replay(cfg, events).value, e)
  {
    assert (events + [e])[..|events|] == events;
  }

  ghost predicate CanBegin(db: Db, i: nat) {
    && i < |db.tasks| && db.tasks[i].round == db.checkpoint.currentRound && db.tasks[i].status == Planned
    && forall j :: 0 <= j < i ==> Finished(db.tasks[j])
  }

  /** With no lock in force, an attempt may be answered by any source. */
  lemma CompleteFrom(cfg: Config, events: seq<Event>, i: nat, source: string) returns (more: seq<Event>)
    requires Replay(cfg, events).Some? && Replay(cfg, events).value.driver.Ready?
    requires CanBegin(Replay(cfg, events).value.db, i)
    requires Replay(cfg, events).value.db.checkpoint.source == Some("") && source != ""
    ensures Replay(cfg, more).Some?
    ensures
      var before, after := Replay(cfg, events).value.db, Replay(cfg, more).value.db;
      && |after.tasks| == |before.tasks|
      && (forall j :: 0 <= j < |before.tasks| && j != i ==> after.tasks[j] == before.tasks[j])
      && HasEvidence(after.tasks[i]) && after.tasks[i].answer == Some(Verified(source))
      && after.tasks[i].round == before.tasks[i].round
      && after.tasks[i].question == before.tasks[i].question && after.tasks[i].id == before.tasks[i].id
      && after.checkpoint.source == Some("")
      && after.checkpoint.currentRound == before.checkpoint.currentRound
      && after.checkpoint.remainingBudget == before.checkpoint.remainingBudget
  {
    RunKeeps(cfg, events);
    Extend(cfg, events, Begin(i));
    var e1 := events + [Begin(i)];
    Extend(cfg, e1, MarkPending);
    var e2 := e1 + [MarkPending];
    Extend(cfg, e2, AskVerified(source));
    more := e2 + [AskVerified(source)];
  }

  /** The process stops before the checkpoint is written; the restart repairs it without a lock. */
  lemma CrashAndRepair(cfg: Config, events: seq<Event>) returns (more: seq<Event>)
    requires Replay(cfg, events).Some? && Replay(cfg, events).value.db.checkpoint.source == Some("")
    ensures Replay(cfg, more).Some? && Replay(cfg, more).value.driver.Ready?
    ensures
      var before, after := Replay(cfg, events).value.db, Replay(cfg, more).value.db;
      && after.tasks == before.tasks && after.checkpoint.source == Some("")
      && after.checkpoint.currentRound == before.checkpoint.currentRound
      && after.checkpoint.remainingBudget == before.checkpoint.remainingBudget
  {
    Extend(cfg, events, Crash);
    var e1 := events + [Crash];
    Extend(cfg, e1, Open);
    var e2 := e1 + [Open];
    Extend(cfg, e2, Repair);
    more := e2 + [Repair];
  }

  lemma Started(cfg: Config) returns (events: seq<Event>)
    requires cfg.scope != [] && cfg.scope[0] == ""
    ensures Replay(cfg, events).Some? && Replay(cfg, events).value.driver.Ready?
    ensures
      var db := Replay(cfg, events).value.db;
      && db.tasks == [] && db.checkpoint.source == Some("") && db.checkpoint.currentRound == 0
      && db.checkpoint.remainingBudget == cfg.budget.maxQuestions
  {
    assert Replay(cfg, []) == Some(Initial());
    Extend(cfg, [], Open);
    var e1 := [] + [Open];
    Extend(cfg, e1, Repair);
    var e2 := e1 + [Repair];
    Extend(cfg, e2, InitBudget);
    events := e2 + [InitBudget];
  }

  function Ask(text: string): Question {
    Question(text, "p", 1, false)
  }

  function Proposal(texts: seq<string>): Decision {
    Decision(Query, seq(|texts|, i requires 0 <= i < |texts| => Ask(texts[i])))
  }

  lemma Askable(text: string)
    requires !Blank(text)
    ensures Valid(Ask(text))
  {
  }

  lemma OneUnseen(key: KeyFunction, q: Question, seen: set<string>, cap: int)
    requires key(q.question) !in seen
    ensures Unseen(key, [q], seen) == [q] && Repeats(key, [q], seen, cap) == []
  {
    assert [q][..0] == [];
    assert Unseen(key, [], seen) == [] && Repeats(key, [], seen, cap) == [];
    assert KeysOf(key, []) == {} && KeysOf(key, Take([], cap)) == {};
  }

  /** What a selection comes to once its questions are in order, fresh and within the cap. */
  lemma SelectAll(key: KeyFunction, texts: seq<string>, seen: set<string>, remaining: int, budget: Budget)
    requires Sort(Proposal(texts).questions, PriorityLe) == Proposal(texts).questions
    requires Unseen(key, Proposal(texts).questions, seen) == Proposal(texts).questions
    requires Repeats(key, Proposal(texts).questions, seen, Cap(remaining, budget)) == []
    requires |texts| <= Cap(remaining, budget) && forall t :: t in texts ==> !Blank(t)
    ensures SelectionOf(key, Proposal(texts), seen, remaining, budget) == Ok(Selection(Proposal(texts).questions, []))
  {
    forall q | q in Proposal(texts).questions ensures Valid(q) {
      Askable(q.question);
    }
  }

  lemma SelectOne(key: KeyFunction, text: string, seen: set<string>, remaining: int, budget: Budget)
    requires key(text) !in seen && remaining >= 1 && budget.maxPerRound >= 1 && !Blank(text)
    ensures SelectionOf(key, Proposal([text]), seen, remaining, budget) == Ok(Selection([Ask(text)], []))
  {
    assert Proposal([text]).questions == [Ask(text)];
    OneInOrder(Ask(text));
    OneUnseen(key, Ask(text), seen, Cap(remaining, budget));
    SelectAll(key, [text], seen, remaining, budget);
  }

  lemma OneInOrder(q: Question)
    ensures Sort([q], PriorityLe) == [q]
  {
    assert [q][1..] == [];
  }

  lemma KeyOfOne(key: KeyFunction, q: Question)
    ensures KeysOf(key, [q]) == {key(q.question)}
  {
    KeysGrow(key, [], q);
    assert [] + [q] == [q];
  }

  lemma TwoUnseen(key: KeyFunction, p: Question, q: Question, cap: int)
    requires key(p.question) != key(q.question)
    ensures Unseen(key, [p, q], {}) == [p, q] && Repeats(key, [p, q], {}, cap) == []
  {
    var both := [p, q];
    assert both[..|both| - 1] == [p] && both[|both| - 1] == q;
    OneUnseen(key, p, {}, cap);
    KeyOfOne(key, p);
    TakeKeys(key, [p], cap);
  }

  lemma TwoInOrder(p: Question, q: Question)
    requires PriorityLe(p, q)
    ensures Sort([p, q], PriorityLe) == [p, q]
  {
    assert [p, q][1..] == [q];
    assert Sort([q], PriorityLe) == [q];
  }

  lemma SelectTwo(key: KeyFunction, a: string, b: string, remaining: int, budget: Budget)
    requires key(a) != key(b) && remaining >= 2 && budget.maxPerRound >= 2 && !Blank(a) && !Blank(b)
    ensures SelectionOf(key, Proposal([a, b]), {}, remaining, budget) == Ok(Selection([Ask(a), Ask(b)], []))
  {
    assert Proposal([a, b]).questions == [Ask(a), Ask(b)];
    TwoInOrder(Ask(a), Ask(b));
    TwoUnseen(key, Ask(a), Ask(b), Cap(remaining, budget));
    SelectAll(key, [a, b], {}, remaining, budget);
  }

  /** The driver is between tasks with the checkpoint it just wrote or read. */
  lemma ReadyHoldsStored(cfg: Config, events: seq<Event>)
    requires Replay(cfg, events).Some? && Replay(cfg, events).value.driver.Ready?
    ensures Replay(cfg, events).value.driver == Ready(Replay(cfg, events).value.db.checkpoint)
  {
    RunKeeps(cfg, events);
  }

  /** One more round with the given questions. */
  lemma PlanSelected(cfg: Config, events: seq<Event>, texts: seq<string>, ids: seq<string>, sel: Selection)
    returns (more: seq<Event>)
    requires Replay(cfg, events).Some? && Replay(cfg, events).value.driver.Ready?
    requires
      var db := Replay(cfg, events).value.db;
      && RoundDone(db) && db.checkpoint.currentRound < cfg.budget.maxRounds && db.checkpoint.remainingBudget > 0
      && |ids| == |sel.selected| + |sel.duplicates| && NewIds(db.tasks, ids)
      && SelectionOf(cfg.key, Proposal(texts), SeenKeys(cfg.key, db.tasks), db.checkpoint.remainingBudget, cfg.budget)
         == Ok(sel)
    ensures Replay(cfg, more).Some? && Replay(cfg, more).value.driver.Ready?
    ensures Replay(cfg, more).value.db == PlannedDb(Replay(cfg, events).value.db, ids, sel)
  {
    ReadyHoldsStored(cfg, events);
    PlanPossible(cfg, Replay(cfg, events).value, Proposal(texts), ids, sel);
    Extend(cfg, events, Plan(Proposal(texts), ids));
    more := events + [Plan(Proposal(texts), ids)];
  }

  predicate OneAsked(db: Db, text: string, id: string, round: nat) {
    && |db.tasks| > 0 && db.checkpoint.currentRound == round && db.checkpoint.source == Some("")
    && db.tasks[|db.tasks| - 1] == PlannedTask(round, 1, id, Ask(text), Planned)
  }

  lemma PlanOne(cfg: Config, events: seq<Event>, text: string, id: string) returns (more: seq<Event>)
    requires Replay(cfg, events).Some? && Replay(cfg, events).value.driver.Ready?
    requires
      var db := Replay(cfg, events).value.db;
      && RoundDone(db) && db.checkpoint.currentRound < cfg.budget.maxRounds && db.checkpoint.remainingBudget >= 1
      && (forall t :: t in db.tasks ==> t.id != id) && cfg.key(text) !in SeenKeys(cfg.key, db.tasks)
      && db.checkpoint.source == Some("")
    requires cfg.budget.maxPerRound >= 1 && !Blank(text)
    ensures Replay(cfg, more).Some? && Replay(cfg, more).value.driver.Ready?
    ensures
      var before, after := Replay(cfg, events).value.db, Replay(cfg, more).value.db;
      && OneAsked(after, text, id, before.checkpoint.currentRound + 1)
      && |after.tasks| == |before.tasks| + 1 && after.tasks[..|before.tasks|] == before.tasks
      && after.checkpoint.remainingBudget == before.checkpoint.remainingBudget - 1
  {
    var db := Replay(cfg, events).value.db;
    SelectOne(cfg.key, text, SeenKeys(cfg.key, db.tasks), db.checkpoint.remainingBudget, cfg.budget);
    more := PlanSelected(cfg, events, [text], [id], Selection([Ask(text)], []));
  }

  lemma NothingSeen(cfg: Config, db: Db)
    requires db.tasks == []
    ensures SeenKeys(cfg.key, db.tasks) == {} && RoundDone(db) && NewIds(db.tasks, ["1", "2"])
  {
  }

  predicate TwoPlanned(db: Db) {
    && |db.tasks| == 2 && db.checkpoint.source == Some("")
    && db.tasks[0].round == db.tasks[1].round == db.checkpoint.currentRound
    && db.tasks[0].status == db.tasks[1].status == Planned
  }

  lemma TwoRows(db: Db, sel: Selection)
    requires db.tasks == [] && |sel.selected| == 2 && sel.duplicates == [] && db.checkpoint.source == Some("")
    ensures TwoPlanned(PlannedDb(db, ["1", "2"], sel))
  {
  }

  lemma PlanTwo(cfg: Config, events: seq<Event>, a: string, b: string) returns (more: seq<Event>)
    requires Replay(cfg, events).Some? && Replay(cfg, events).value.driver.Ready?
    requires
      var db := Replay(cfg, events).value.db;
      && db.tasks == [] && db.checkpoint.currentRound < cfg.budget.maxRounds && db.checkpoint.remainingBudget >= 2
      && db.checkpoint.source == Some("")
    requires cfg.key(a) != cfg.key(b) && cfg.budget.maxPerRound >= 2 && !Blank(a) && !Blank(b)
    ensures Replay(cfg, more).Some? && Replay(cfg, more).value.driver.Ready?
    ensures TwoPlanned(Replay(cfg, more).value.db)
  {
    var db := Replay(cfg, events).value.db;
    NothingSeen(cfg, db);
    SelectTwo(cfg.key, a, b, db.checkpoint.remainingBudget, cfg.budget);
    var sel := Selection([Ask(a), Ask(b)], []);
    more := PlanSelected(cfg, events, [a, b], ["1", "2"], sel);
    TwoRows(db, sel);
  }

  ghost predicate Mixed(cfg: Config, events: seq<Event>) {
    Replay(cfg, events).Some? && !SingleSource(Replay(cfg, events).value.db.tasks)
  }

  lemma TwoAnswersMix(tasks: seq<Task>)
    requires |tasks| == 2 && HasEvidence(tasks[0]) && HasEvidence(tasks[1]) && tasks[0].answer != tasks[1].answer
    ensures !SingleSource(tasks)
  {
  }

  /** Two tasks, the first answered by "x"; nothing locks the second. */
  ghost predicate HalfMixed(db: Db) {
    && |db.tasks| == 2 && db.checkpoint.source == Some("")
    && HasEvidence(db.tasks[0]) && db.tasks[0].answer == Some(Verified("x")) && CanBegin(db, 1)
  }

  lemma OtherSource(cfg: Config, events: seq<Event>) returns (more: seq<Event>)
    requires Replay(cfg, events).Some? && Replay(cfg, events).value.driver.Ready?
    requires HalfMixed(Replay(cfg, events).value.db)
    ensures Mixed(cfg, more)
  {
    more := CompleteFrom(cfg, events, 1, "y");
    TwoAnswersMix(Replay(cfg, more).value.db.tasks);
  }

  /** The first of two planned tasks is answered; the process stops between the two writes. */
  lemma HalfOfOneRound(cfg: Config, events: seq<Event>) returns (more: seq<Event>)
    requires Replay(cfg, events).Some? && Replay(cfg, events).value.driver.Ready?
    requires TwoPlanned(Replay(cfg, events).value.db)
    ensures Replay(cfg, more).Some? && Replay(cfg, more).value.driver.Ready?
    ensures HalfMixed(Replay(cfg, more).value.db)
  {
    more := CompleteFrom(cfg, events, 0, "x");
    more := CrashAndRepair(cfg, more);
  }

  lemma MixInOneRound(cfg: Config) returns (events: seq<Event>)
    requires !ScopeLocks(cfg) && cfg.key("a") != cfg.key("b")
    requires cfg.budget.maxQuestions >= 2 && cfg.budget.maxRounds >= 1 && cfg.budget.maxPerRound >= 2
    ensures Mixed(cfg, events)
  {
    events := Started(cfg);
    events := PlanTwo(cfg, events, "a", "b");
    events := HalfOfOneRound(cfg, events);
    events := OtherSource(cfg, events);
  }

  /** Two rounds of one question each, with the same interruption. */
  lemma MixInTwoRounds(cfg: Config) returns (events: seq<Event>)
    requires !ScopeLocks(cfg) && cfg.key("a") != cfg.key("b")
    requires cfg.budget.maxQuestions >= 2 && cfg.budget.maxRounds >= 2 && cfg.budget.maxPerRound >= 1
    ensures Mixed(cfg, events)
  {
    events := Started(cfg);
    events := PlanOne(cfg, events, "a", "1");
    events := CompleteFrom(cfg, events, 0, "x");
    events := CrashAndRepair(cfg, events);
    var db := Replay(cfg, events).value.db;
    assert forall k :: k in SeenKeys(cfg.key, db.tasks) ==> k == cfg.key("a");
    events := PlanOne(cfg, events, "b", "2");
    assert Replay(cfg, events).value.db.tasks[0] == db.tasks[0];
    events := OtherSource(cfg, events);
  }

  /**
   * Every run stays on one source exactly when the scope's first entry is not the empty string, or the
   * budget admits no second answered question. Two distinct question keys are assumed to exist.
   */
  lemma SingleSourceExactly(cfg: Config)
    requires cfg.key("a") != cfg.key("b")
    ensures (forall events :: !Mixed(cfg, events)) <==> ScopeLocks(cfg) || !AdmitsTwo(cfg.budget)
  {
    if ScopeLocks(cfg) || !AdmitsTwo(cfg.budget) {
      forall events | Replay(cfg, events).Some? ensures !Mixed(cfg, events) {
        var s := Replay(cfg, events).value;
        ReachesReplays(cfg, events, s);
        if ScopeLocks(cfg) {
          SingleSourceHolds(cfg, events, s);
        } else {
          SmallBudgetOneSource(cfg, events, s);
        }
      }
    } else {
      var events;
      if cfg.budget.maxPerRound >= 2 {
        events := MixInOneRound(cfg);
      } else {
        events := MixInTwoRounds(cfg);
      }
    }
  }
}
