/** Which proposed evidence questions a diagnostic round may ask. */
module QuestionPolicy {
  import opened Common
  import opened Ordering
  import opened PlainText

  // ---- Question keys ----

  /** The words of a question, outer space stripped and case folded. */
  function Words(folding: Folding, question: string): seq<string> {
    Split(Fold(folding, Trimmed(question)), [])
  }

  /** `question_key`. */
  function QuestionKey(folding: Folding, question: string): string {
    Join(Words(folding, question))
  }

  /** Whatever the folding, two questions share a key exactly when they read as the same words, stripped and folded. */
  lemma KeyCharacter(folding: Folding, a: string, b: string)
    ensures QuestionKey(folding, a) == QuestionKey(folding, b)
            <==> Split(Fold(folding, Trimmed(a)), []) == Split(Fold(folding, Trimmed(b)), [])
    ensures QuestionKey(folding, a) == Join(Split(Fold(folding, Trimmed(a)), []))
  {
    SplitWords(Fold(folding, Trimmed(a)), []);
    SplitWords(Fold(folding, Trimmed(b)), []);
    SplitJoin(Words(folding, a));
    SplitJoin(Words(folding, b));
  }

  /** With a folding that folded text does not change, a key is its own key. */
  lemma KeyIsOwnKey(folding: Folding, question: string)
    requires Stable(folding)
    ensures QuestionKey(folding, QuestionKey(folding, question)) == QuestionKey(folding, question)
  {
    var folded := Fold(folding, Trimmed(question));
    var words := Words(folding, question);
    FoldFolds(folding, Trimmed(question));
    WordsFolded(folding, folded, []);
    JoinFolded(folding, words);
    FoldOfFolded(folding, Join(words));
    SplitWords(folded, []);
    JoinTrimmed(words);
    SplitJoin(words);
  }

  // ---- Selection ----

  datatype Budget = Budget(maxQuestions: nat, maxRounds: nat, maxPerRound: nat)

  /** `native` tells whether the native-query pattern matches the question or its purpose. */
  datatype Question = Question(question: string, purpose: string, priority: int, native: bool)

  datatype Action = Query | Clarify | Stop

  datatype Decision = Decision(action: Action, questions: seq<Question>)

  datatype Selection = Selection(selected: seq<Question>, duplicates: seq<Question>)

  type KeyFunction = string -> string

  predicate PriorityLe(a: Question, b: Question) { a.priority <= b.priority }

  predicate Valid(q: Question) {
    !q.native && !Blank(q.question) && !Blank(q.purpose)
  }

  function KeysOf(key: KeyFunction, questions: seq<Question>): set<string> {
    set q | q in questions :: key(q.question)
  }

  /** The questions whose key is neither in `seen` nor carried by an earlier question. */
  function Unseen(key: KeyFunction, questions: seq<Question>, seen: set<string>): seq<Question> {
    if questions == [] then []
    else
      var init, last := questions[..|questions| - 1], questions[|questions| - 1];
      var kept := Unseen(key, init, seen);
      kept + (if key(last.question) in seen + KeysOf(key, kept) then [] else [last])
  }

  function Take<T>(s: seq<T>, n: int): seq<T> {
    if n <= 0 then [] else if n >= |s| then s else s[..n]
  }

  function Cap(remaining: int, budget: Budget): int {
    Min(remaining, budget.maxPerRound)
  }

  /** The questions whose key was seen before the round or selected earlier in it. */
  function Repeats(key: KeyFunction, questions: seq<Question>, seen: set<string>, cap: int): seq<Question> {
    if questions == [] then []
    else
      var init, last := questions[..|questions| - 1], questions[|questions| - 1];
      Repeats(key, init, seen, cap)
      + (if key(last.question) in seen + KeysOf(key, Take(Unseen(key, init, seen), cap)) then [last] else [])
  }

  /** The selection: the first unseen questions in stable priority order, and the repeats among the rest. */
  function SelectionOf(key: KeyFunction, decision: Decision, seen: set<string>, remaining: int, budget: Budget):
    Result<Selection>
  {
    if decision.action != Query then Ok(Selection([], []))
    else
      var ordered := Sort(decision.questions, PriorityLe);
      if !AllValid(ordered) then Err("ValueError")
      else
        var cap := Cap(remaining, budget);
        Ok(Selection(Take(Unseen(key, ordered, seen), cap), Repeats(key, ordered, seen, cap)))
  }

  predicate AllValid(questions: seq<Question>) {
    forall q :: q in questions ==> Valid(q)
  }

  datatype Part = Checked | Selected | Repeated | Known

  ghost predicate Holds(part: Part, key: KeyFunction, done: seq<Question>, seen: set<string>, cap: int,
                        selected: seq<Question>, duplicates: seq<Question>, known: set<string>)
  {
    match part
    case Checked => AllValid(done)
    case Selected => selected == Take(Unseen(key, done, seen), cap)
    case Repeated => duplicates == Repeats(key, done, seen, cap)
    case Known => known == seen + KeysOf(key, selected)
  }

  /** What the loop of `select_questions` has accumulated over the questions in `done`. */
  ghost predicate Selecting(key: KeyFunction, done: seq<Question>, seen: set<string>, cap: int,
                            selected: seq<Question>, duplicates: seq<Question>, known: set<string>)
  {
    forall part :: Holds(part, key, done, seen, cap, selected, duplicates, known)
  }

  lemma SelectingNone(key: KeyFunction, seen: set<string>, cap: int)
    ensures Selecting(key, [], seen, cap, [], [], seen)
  {
  }

  /** The next question is a repeat, is chosen, or finds the cap reached. */
  lemma SelectingStep(key: KeyFunction, done: seq<Question>, seen: set<string>, cap: int,
                      selected: seq<Question>, duplicates: seq<Question>, known: set<string>, q: Question)
    requires Selecting(key, done, seen, cap, selected, duplicates, known) && Valid(q)
    ensures key(q.question) in known ==>
              Selecting(key, done + [q], seen, cap, selected, duplicates + [q], known)
    ensures key(q.question) !in known && |selected| < cap ==>
              Selecting(key, done + [q], seen, cap, selected + [q], duplicates, known + {key(q.question)})
    ensures key(q.question) !in known && |selected| >= cap ==>
              Selecting(key, done + [q], seen, cap, selected, duplicates, known)
  {
    var repeat := key(q.question) in known;
    var chosen := !repeat && |selected| < cap;
    SelectingNext(key, done, seen, cap, selected, duplicates, known, q,
                  if chosen then selected + [q] else selected,
                  if repeat then duplicates + [q] else duplicates,
                  if chosen then known + {key(q.question)} else known);
  }

  lemma SelectingNext(key: KeyFunction, done: seq<Question>, seen: set<string>, cap: int,
                      selected: seq<Question>, duplicates: seq<Question>, known: set<string>, q: Question,
                      chosen: seq<Question>, repeats: seq<Question>, keys: set<string>)
    requires Selecting(key, done, seen, cap, selected, duplicates, known) && Valid(q)
    requires chosen == if key(q.question) !in known && |selected| < cap then selected + [q] else selected
    requires repeats == if key(q.question) in known then duplicates + [q] else duplicates
    requires keys == if key(q.question) !in known && |selected| < cap then known + {key(q.question)} else known
    ensures Selecting(key, done + [q], seen, cap, chosen, repeats, keys)
  {
    assert Holds(Known, key, done, seen, cap, selected, duplicates, known);
    assert Holds(Selected, key, done, seen, cap, selected, duplicates, known);
    SelectionStep(key, done, q, seen, cap);
    KeysGrow(key, selected, q);
    forall part ensures Holds(part, key, done + [q], seen, cap, chosen, repeats, keys) {
      assert Holds(part, key, done, seen, cap, selected, duplicates, known);
    }
  }

  /** The loop of `select_questions` over the ordered questions. */
  method SelectOrdered(key: KeyFunction, ordered: seq<Question>, seen: set<string>, cap: int)
    returns (valid: bool, selected: seq<Question>, duplicates: seq<Question>)
    ensures valid <==> AllValid(ordered)
    ensures valid ==> selected == Take(Unseen(key, ordered, seen), cap)
    ensures valid ==> duplicates == Repeats(key, ordered, seen, cap)
  {
    selected, duplicates, valid := [], [], true;
    var known := seen;
    ghost var done: seq<Question> := [];
    SelectingNone(key, seen, cap);
    for i := 0 to |ordered|
      invariant done == ordered[..i]
      invariant Selecting(key, done, seen, cap, selected, duplicates, known)
    {
      var question := ordered[i];
      if !Valid(question) {
        valid := false;
        return;
      }
      var k := key(question.question);
      SelectingStep(key, done, seen, cap, selected, duplicates, known, question);
      if k in known {
        duplicates := duplicates + [question];
      } else if |selected| < cap {
        selected := selected + [question];
        known := known + {k};
      }
      done := done + [question];
    }
    assert done == ordered;
    assert Holds(Checked, key, done, seen, cap, selected, duplicates, known);
    assert Holds(Selected, key, done, seen, cap, selected, duplicates, known);
    assert Holds(Repeated, key, done, seen, cap, selected, duplicates, known);
  }

  /** `select_questions`, for any key function. */
  method SelectQuestions(key: KeyFunction, decision: Decision, seen: set<string>, remaining: int, budget: Budget)
    returns (r: Result<Selection>)
    ensures r == SelectionOf(key, decision, seen, remaining, budget)
  {
    if decision.action != Query {
      return Ok(Selection([], []));
    }
    var ordered := Sort(decision.questions, PriorityLe);
    var valid, selected, duplicates := SelectOrdered(key, ordered, seen, Min(remaining, budget.maxPerRound));
    r := if valid then Ok(Selection(selected, duplicates)) else Err("ValueError");
  }

  lemma SelectionStep(key: KeyFunction, init: seq<Question>, q: Question, seen: set<string>, cap: int)
    ensures
      var selected := Take(Unseen(key, init, seen), cap);
      var known := seen + KeysOf(key, selected);
      && Repeats(key, init + [q], seen, cap)
         == Repeats(key, init, seen, cap) + (if key(q.question) in known then [q] else [])
      && Take(Unseen(key, init + [q], seen), cap)
         == if key(q.question) !in known && |selected| < cap then selected + [q] else selected
  {
    assert (init + [q])[..|init|] == init;
    TakeKeys(key, Unseen(key, init, seen), cap);
  }

  lemma TakeKeys(key: KeyFunction, s: seq<Question>, n: int)
    ensures KeysOf(key, Take(s, n)) <= KeysOf(key, s)
  {
    forall q | q in Take(s, n) ensures q in s {
    }
  }

  lemma KeysGrow(key: KeyFunction, s: seq<Question>, q: Question)
    ensures KeysOf(key, s + [q]) == KeysOf(key, s) + {key(q.question)}
  {
    forall p ensures p in s + [q] <==> p in s || p == q {
    }
  }

  ghost predicate DistinctKeys(key: KeyFunction, questions: seq<Question>) {
    forall i, j :: 0 <= i < j < |questions| ==> key(questions[i].question) != key(questions[j].question)
  }

  lemma {:induction false} UnseenKeys(key: KeyFunction, questions: seq<Question>, seen: set<string>)
    ensures DistinctKeys(key, Unseen(key, questions, seen))
    ensures KeysOf(key, Unseen(key, questions, seen)) !! seen
    ensures KeysOf(key, questions) <= seen + KeysOf(key, Unseen(key, questions, seen))
  {
    if questions != [] {
      var init, last := questions[..|questions| - 1], questions[|questions| - 1];
      var kept := Unseen(key, init, seen);
      UnseenKeys(key, init, seen);
      assert questions == init + [last];
      KeysGrow(key, init, last);
      KeysGrow(key, kept, last);
      if key(last.question) !in seen + KeysOf(key, kept) {
        forall i | 0 <= i < |kept| ensures key(kept[i].question) != key(last.question) {
          assert kept[i] in kept;
        }
      }
    }
  }

  lemma {:induction false} UnseenOrder(key: KeyFunction, questions: seq<Question>, seen: set<string>)
    ensures forall q :: q in Unseen(key, questions, seen) ==> q in questions
    ensures Sorted(questions, PriorityLe) ==> Sorted(Unseen(key, questions, seen), PriorityLe)
  {
    if questions != [] {
      var init, last := questions[..|questions| - 1], questions[|questions| - 1];
      UnseenOrder(key, init, seen);
      assert questions == init + [last];
      if Sorted(questions, PriorityLe) {
        forall q | q in Unseen(key, init, seen) ensures PriorityLe(q, last) {
          var i :| 0 <= i < |init| && init[i] == q;
          assert PriorityLe(questions[i], questions[|init|]);
        }
      }
    }
  }

  lemma PriorityOrder()
    ensures TotalPreorder(PriorityLe)
  {
  }

  lemma SortedByPriority(questions: seq<Question>)
    ensures Sorted(Sort(questions, PriorityLe), PriorityLe)
    ensures forall q :: q in Sort(questions, PriorityLe) <==> q in questions
  {
    PriorityOrder();
    SortSorts(questions, PriorityLe);
    forall q ensures q in Sort(questions, PriorityLe) <==> q in questions {
      assert q in multiset(Sort(questions, PriorityLe)) <==> q in multiset(questions);
    }
  }

  /** Only a query is judged, and refused exactly for a native question, or one without text or purpose. */
  lemma SelectionRefused(key: KeyFunction, decision: Decision, seen: set<string>, remaining: int, budget: Budget)
    ensures SelectionOf(key, decision, seen, remaining, budget).Err? <==>
              decision.action == Query
              && exists q :: q in decision.questions && (q.native || Blank(q.question) || Blank(q.purpose))
    ensures decision.action != Query ==>
              SelectionOf(key, decision, seen, remaining, budget) == Ok(Selection([], []))
  {
    SortedByPriority(decision.questions);
  }

  /**
   * A selection has distinct unseen keys in priority order and keeps within the budget; and it stops
   * short of the budget only when every proposed question is a repeat.
   */
  lemma SelectionExact(key: KeyFunction, decision: Decision, seen: set<string>, remaining: int, budget: Budget)
    requires SelectionOf(key, decision, seen, remaining, budget).Ok?
    ensures
      var s := SelectionOf(key, decision, seen, remaining, budget).value;
      && DistinctKeys(key, s.selected) && KeysOf(key, s.selected) !! seen
      && (forall i, j :: 0 <= i < j < |s.selected| ==> s.selected[i].priority <= s.selected[j].priority)
      && (remaining >= 0 ==> |s.selected| <= remaining) && |s.selected| <= budget.maxPerRound
      && (forall q :: q in s.selected ==> q in decision.questions && Valid(q))
      && (decision.action == Query && |s.selected| < remaining && |s.selected| < budget.maxPerRound ==>
            KeysOf(key, decision.questions) <= seen + KeysOf(key, s.selected))
  {
    if decision.action == Query {
      var ordered := Sort(decision.questions, PriorityLe);
      SortedByPriority(decision.questions);
      UnseenKeys(key, ordered, seen);
      UnseenOrder(key, ordered, seen);
      TakeKeys(key, Unseen(key, ordered, seen), Cap(remaining, budget));
      assert KeysOf(key, ordered) == KeysOf(key, decision.questions);
    }
  }

  lemma {:induction false} UnseenCovers(key: KeyFunction, questions: seq<Question>, seen: set<string>, p: Question)
    returns (u: Question)
    requires Sorted(questions, PriorityLe) && p in questions && key(p.question) !in seen
    ensures u in Unseen(key, questions, seen) && key(u.question) == key(p.question) && PriorityLe(u, p)
  {
    var init, last := questions[..|questions| - 1], questions[|questions| - 1];
    assert questions == init + [last];
    if p in init {
      u := UnseenCovers(key, init, seen, p);
    } else if key(p.question) in KeysOf(key, Unseen(key, init, seen)) {
      u :| u in Unseen(key, init, seen) && key(u.question) == key(p.question);
      UnseenOrder(key, init, seen);
      var i :| 0 <= i < |init| && init[i] == u;
      assert questions[i] == u && questions[|init|] == p;
    } else {
      u := p;
    }
  }

  /** A fresh question is passed over only when the cap is reached by questions of no lower priority. */
  lemma SelectionFirst(key: KeyFunction, decision: Decision, seen: set<string>, remaining: int, budget: Budget,
                       p: Question)
    requires decision.action == Query && SelectionOf(key, decision, seen, remaining, budget).Ok?
    requires p in decision.questions
    requires key(p.question) !in seen + KeysOf(key, SelectionOf(key, decision, seen, remaining, budget).value.selected)
    ensures
      var s := SelectionOf(key, decision, seen, remaining, budget).value;
      && (|s.selected| == remaining || |s.selected| == budget.maxPerRound || (remaining < 0 && s.selected == []))
      && forall q :: q in s.selected ==> q.priority <= p.priority
  {
    var ordered, cap := Sort(decision.questions, PriorityLe), Cap(remaining, budget);
    SortedByPriority(decision.questions);
    var unseen := Unseen(key, ordered, seen);
    UnseenOrder(key, ordered, seen);
    var u := UnseenCovers(key, ordered, seen, p);
    var n :| 0 <= n < |unseen| && unseen[n] == u;
    var taken := Take(unseen, cap);
    assert forall i :: 0 <= i < |taken| ==> unseen[i] == taken[i] && key(taken[i].question) in KeysOf(key, taken);
    assert forall i :: 0 <= i < cap ==> PriorityLe(unseen[i], unseen[n]);
  }

  /** The questions of one priority, in their order. */
  function OfPriority(questions: seq<Question>, priority: int): seq<Question> {
    if questions == [] then []
    else
      (if questions[0].priority == priority then [questions[0]] else []) + OfPriority(questions[1..], priority)
  }

  lemma {:induction false} TiesOfPriority(questions: seq<Question>, k: Question)
    ensures Ties(questions, PriorityLe, k) == OfPriority(questions, k.priority)
  {
    if questions != [] {
      TiesOfPriority(questions[1..], k);
    }
  }

  /** Among proposals of equal priority the selection considers them in the order they were proposed. */
  lemma SelectionStable(questions: seq<Question>, priority: int)
    ensures OfPriority(Sort(questions, PriorityLe), priority) == OfPriority(questions, priority)
  {
    var k := Question("", "", priority, false);
    PriorityOrder();
    SortStable(questions, PriorityLe, k);
    TiesOfPriority(Sort(questions, PriorityLe), k);
    TiesOfPriority(questions, k);
  }

  lemma {:induction false} RepeatsExactly(key: KeyFunction, questions: seq<Question>, seen: set<string>, cap: int)
    ensures forall q :: q in Repeats(key, questions, seen, cap) ==>
              q in questions && key(q.question) in seen + KeysOf(key, Take(Unseen(key, questions, seen), cap))
    ensures forall q :: q in questions && key(q.question) in seen ==> q in Repeats(key, questions, seen, cap)
  {
    if questions != [] {
      var init, last := questions[..|questions| - 1], questions[|questions| - 1];
      RepeatsExactly(key, init, seen, cap);
      assert questions == init + [last];
      SelectionStep(key, init, last, seen, cap);
      KeysGrow(key, Take(Unseen(key, init, seen), cap), last);
    }
  }

  /** The repeats are proposals already asked or selected now, and among them all that had been asked before. */
  lemma SelectionRepeats(key: KeyFunction, decision: Decision, seen: set<string>, remaining: int, budget: Budget)
    requires decision.action == Query && SelectionOf(key, decision, seen, remaining, budget).Ok?
    ensures
      var s := SelectionOf(key, decision, seen, remaining, budget).value;
      && (forall q :: q in s.duplicates ==>
            q in decision.questions && (key(q.question) in seen || key(q.question) in KeysOf(key, s.selected)))
      && forall q :: q in decision.questions && key(q.question) in seen ==> q in s.duplicates
  {
    SortedByPriority(decision.questions);
    RepeatsExactly(key, Sort(decision.questions, PriorityLe), seen, Cap(remaining, budget));
  }
}
