/** Governance over whole runs: what is final, what was current, and what a late write can undo. */
module GovernanceRuns {
  import opened Common
  import opened PlainText
  import opened Governance

  /** The steps of a run and the states it went through, one more than the steps. */
  datatype History = History(events: seq<Event>, states: seq<World>)

  ghost predicate IsRun(h: History) {
    && |h.states| == |h.events| + 1 && h.states[0] == Initial()
    && forall i :: 0 <= i < |h.events| ==> h.states[i + 1] == Apply(h.states[i], h.events[i])
  }

  function Last(h: History): World
    requires h.states != []
  {
    h.states[|h.states| - 1]
  }

  function Start(): History {
    History([], [Initial()])
  }

  function Then(h: History, e: Event): History
    requires h.states != []
  {
    History(h.events + [e], h.states + [Apply(Last(h), e)])
  }

  /** Any step may follow any run. */
  lemma ThenIsRun(h: History, e: Event)
    requires IsRun(h)
    ensures IsRun(Then(h, e)) && Last(Then(h, e)) == Apply(Last(h), e)
  {
  }

  lemma {:induction false} EveryState(h: History, n: nat)
    requires IsRun(h) && n < |h.states|
    ensures Inv(h.states[n]) && h.states[n].steps == n
  {
    if n > 0 {
      EveryState(h, n - 1);
      StepKeeps(h.states[n - 1], h.events[n - 1]);
      assert h.states[n] == Apply(h.states[n - 1], h.events[n - 1]);
    }
  }

  /** A confirmed mapping always has both scan versions and a confirmer on record. */
  lemma ConfirmedIsPinned(h: History, n: nat)
    requires IsRun(h) && n < |h.states|
    ensures
      var row := h.states[n].row;
      && (row.Some? && row.value.status == Confirmed ==>
            row.value.leftVersion.Some? && row.value.rightVersion.Some?
            && row.value.confirmedBy.Some? && row.value.confirmedBy.value != "")
      && (row.Some? ==> row.value.left != row.value.right)
  {
    EveryState(h, n);
  }

  /** Once rejected, no interleaving of calls changes the mapping; what it joins never changes at all. */
  lemma {:induction false} RejectedIsFinal(h: History, m: nat, n: nat)
    requires IsRun(h) && m <= n < |h.states| && h.states[m].row.Some?
    ensures h.states[n].row.Some?
    ensures
      var a, b := h.states[m].row.value, h.states[n].row.value;
      a.workspace == b.workspace && a.left == b.left && a.right == b.right && a.facts == b.facts
    ensures h.states[m].row.value.status == Rejected ==> h.states[n].row == h.states[m].row
    decreases n
  {
    if m < n {
      RejectedIsFinal(h, m, n - 1);
      EveryState(h, n - 1);
      StepKeeps(h.states[n - 1], h.events[n - 1]);
      assert h.states[n] == Apply(h.states[n - 1], h.events[n - 1]);
    }
  }

  // ---- What calls read and looked at ----

  /** After n steps the row was `m`. */
  ghost predicate RowAt(h: History, n: nat, m: JoinMapping) {
    n < |h.states| && h.states[n].row == Some(m)
  }

  /** After n steps the datasource had an active scan, and the version was its version. */
  ghost predicate ActiveAt(h: History, n: nat, datasource: string, version: Option<nat>) {
    && n < |h.states| && datasource in h.states[n].active
    && version == Some(h.states[n].active[datasource])
  }

  /** After n steps one of the mapping's pins was not the version of an active scan. */
  ghost predicate OutdatedAt(h: History, n: nat, m: JoinMapping) {
    n < |h.states| && (!ActiveAt(h, n, m.left, m.leftVersion) || !ActiveAt(h, n, m.right, m.rightVersion))
  }

  /** The write of a call, after n steps, found the expected status and stored the mapping. */
  ghost predicate WroteAt(h: History, n: nat, e: Event, expected: Status, m: JoinMapping) {
    && n < |h.events| && n < |h.states| && h.events[n] == e
    && h.states[n].row.Some? && h.states[n].row.value.status == expected && RowAt(h, n + 1, m)
  }

  /** The mapping was the stored, confirmed row when read, and each pin was the active version when looked at. */
  ghost predicate WasExecutable(h: History, r: Return) {
    && r.readAt < r.leftAt < r.rightAt < |h.events|
    && RowAt(h, r.readAt, r.mapping) && r.mapping.status == Confirmed
    && ActiveAt(h, r.leftAt, r.mapping.left, r.mapping.leftVersion)
    && ActiveAt(h, r.rightAt, r.mapping.right, r.mapping.rightVersion)
  }

  /**
   * The call read a candidate or stale mapping, each version it pinned was active when it looked, and its
   * write replaced a row still in the status it had read.
   */
  ghost predicate WasConfirmed(h: History, c: Confirmation) {
    && c.readAt < c.leftAt < c.rightAt < c.writtenAt
    && RowAt(h, c.readAt, c.copy) && c.copy.status in {Candidate, Stale}
    && SameMapping(c.copy, c.mapping) && c.mapping.status == Confirmed
    && ActiveAt(h, c.leftAt, c.mapping.left, c.mapping.leftVersion)
    && ActiveAt(h, c.rightAt, c.mapping.right, c.mapping.rightVersion)
    && WroteAt(h, c.writtenAt, ConfirmWrite(c.call), c.copy.status, c.mapping)
  }

  /** The call read a confirmed mapping, then found a pin outdated, and its write replaced a confirmed row. */
  ghost predicate WasOutdated(h: History, s: StaleMark) {
    && s.readAt < s.lookedAt < s.writtenAt
    && RowAt(h, s.readAt, s.copy) && s.copy.status == Confirmed && OutdatedAt(h, s.lookedAt, s.copy)
    && WroteAt(h, s.writtenAt, StaleWrite(s.call), Confirmed, s.copy.(status := Stale))
  }

  /** Where a call stands after n steps is where it read and looked. */
  ghost predicate CallWas(h: History, n: nat, call: Call) {
    match call
    case Confirming(copy, _, readAt) => readAt < n && RowAt(h, readAt, copy)
    case LeftPinned(copy, _, readAt, left, leftAt) =>
      readAt < leftAt < n && RowAt(h, readAt, copy) && ActiveAt(h, leftAt, copy.left, Some(left))
    case BothPinned(copy, _, readAt, left, leftAt, right, rightAt) =>
      && readAt < leftAt < rightAt < n && RowAt(h, readAt, copy)
      && ActiveAt(h, leftAt, copy.left, Some(left)) && ActiveAt(h, rightAt, copy.right, Some(right))
    case Rejecting(_) => true
    case Executing(copy, readAt) => readAt < n && RowAt(h, readAt, copy) && copy.status == Confirmed
    case LeftMatched(copy, readAt, leftAt) =>
      && readAt < leftAt < n && RowAt(h, readAt, copy) && copy.status == Confirmed
      && ActiveAt(h, leftAt, copy.left, copy.leftVersion)
    case FoundStale(copy, readAt, lookedAt) =>
      readAt < lookedAt < n && RowAt(h, readAt, copy) && copy.status == Confirmed && OutdatedAt(h, lookedAt, copy)
  }

  ghost predicate CallsTold(h: History, n: nat)
    requires n < |h.states|
  {
    forall c :: c in h.states[n].calls ==> CallWas(h, n, h.states[n].calls[c])
  }

  ghost predicate LogTold(h: History, log: Log) {
    && (forall i :: 0 <= i < |log.returned| ==> WasExecutable(h, log.returned[i]))
    && (forall i :: 0 <= i < |log.confirmed| ==> WasConfirmed(h, log.confirmed[i]))
    && (forall i :: 0 <= i < |log.staled| ==> WasOutdated(h, log.staled[i]))
  }

  /** Where a call stands after a step: as before, or just past a read or a look. */
  lemma CallOrigin(w: World, e: Event, c: nat)
    requires c in Apply(w, e).calls
    ensures
      var call := Apply(w, e).calls[c];
      || call.Rejecting?
      || (c in w.calls && call == w.calls[c])
      || (call.Confirming? && call.readAt == w.steps && w.row == Some(call.copy))
      || (call.LeftPinned? && c in w.calls && w.calls[c] == Confirming(call.copy, call.who, call.readAt)
          && call.leftAt == w.steps && Matches(w, call.copy.left, Some(call.left)))
      || (call.BothPinned? && c in w.calls
          && w.calls[c] == LeftPinned(call.copy, call.who, call.readAt, call.left, call.leftAt)
          && call.rightAt == w.steps && Matches(w, call.copy.right, Some(call.right)))
      || (call.Executing? && call.readAt == w.steps && w.row == Some(call.copy) && call.copy.status == Confirmed)
      || (call.LeftMatched? && c in w.calls && w.calls[c] == Executing(call.copy, call.readAt)
          && call.leftAt == w.steps && Matches(w, call.copy.left, call.copy.leftVersion))
      || (call.FoundStale? && call.lookedAt == w.steps && c in w.calls && Stood(w.calls[c], call)
          && (!Matches(w, call.copy.left, call.copy.leftVersion)
              || !Matches(w, call.copy.right, call.copy.rightVersion)))
  {
  }

  /** A call that found a pin outdated was executing with the same copy just before. */
  predicate Stood(before: Call, found: Call)
    requires found.FoundStale?
  {
    (before.Executing? || before.LeftMatched?) && before.copy == found.copy && before.readAt == found.readAt
  }

  lemma CallTold(h: History, n: nat, c: nat)
    requires IsRun(h) && n < |h.events| && CallsTold(h, n) && h.states[n].steps == n && c in h.states[n + 1].calls
    ensures CallWas(h, n + 1, h.states[n + 1].calls[c])
  {
    var w := h.states[n];
    assert h.states[n + 1] == Apply(w, h.events[n]);
    CallOrigin(w, h.events[n], c);
    if c in w.calls {
      assert CallWas(h, n, w.calls[c]);
    }
  }

  /** What a step adds to the log, if anything. */
  lemma LogOrigin(w: World, e: Event)
    ensures
      var log := Apply(w, e).log;
      || log == w.log
      || (e.ExecuteRight? && e.call in w.calls && w.calls[e.call].LeftMatched?
          && Matches(w, w.calls[e.call].copy.right, w.calls[e.call].copy.rightVersion)
          && log == w.log.(returned := w.log.returned + [ReturnOf(w.calls[e.call], w.steps)]))
      || (e.ConfirmWrite? && e.call in w.calls && w.calls[e.call].BothPinned?
          && Saves(w.row, w.calls[e.call].copy.status) && Apply(w, e).row == Some(Pinned(w.calls[e.call]))
          && log == w.log.(confirmed := w.log.confirmed + [ConfirmationOf(e.call, w.calls[e.call], w.steps)]))
      || (e.StaleWrite? && e.call in w.calls && w.calls[e.call].FoundStale? && Saves(w.row, Confirmed)
          && Apply(w, e).row == Some(w.calls[e.call].copy.(status := Stale))
          && log == w.log.(staled := w.log.staled + [StaleMarkOf(e.call, w.calls[e.call], w.steps)]))
  {
  }

  lemma ReturnTold(h: History, n: nat, call: Call)
    requires call.LeftMatched? && CallWas(h, n, call) && n < |h.events|
    requires ActiveAt(h, n, call.copy.right, call.copy.rightVersion)
    ensures WasExecutable(h, ReturnOf(call, n))
  {
  }

  lemma ConfirmationTold(h: History, n: nat, c: nat, call: Call)
    requires call.BothPinned? && CallWas(h, n, call) && call.copy.status in {Candidate, Stale}
    requires WroteAt(h, n, ConfirmWrite(c), call.copy.status, Pinned(call))
    ensures WasConfirmed(h, ConfirmationOf(c, call, n))
  {
  }

  lemma StaleMarkTold(h: History, n: nat, c: nat, call: Call)
    requires call.FoundStale? && CallWas(h, n, call)
    requires WroteAt(h, n, StaleWrite(c), Confirmed, call.copy.(status := Stale))
    ensures WasOutdated(h, StaleMarkOf(c, call, n))
  {
  }

  /** The log after a step is told of the same run. */
  lemma NextLogTold(h: History, n: nat)
    requires IsRun(h) && n < |h.events| && CallsTold(h, n) && LogTold(h, h.states[n].log)
    requires Inv(h.states[n]) && h.states[n].steps == n
    ensures LogTold(h, h.states[n + 1].log)
  {
    var w, e, next := h.states[n], h.events[n], h.states[n + 1];
    assert next == Apply(w, e);
    LogOrigin(w, e);
    if next.log != w.log {
      assert CallWas(h, n, w.calls[e.call]) && CallOk(w, w.calls[e.call]);
      NewEntryTold(h, n, w, e, next, w.calls[e.call]);
    }
  }

  lemma NewEntryTold(h: History, n: nat, w: World, e: Event, next: World, call: Call)
    requires n < |h.events| && |h.states| == |h.events| + 1 && h.states[n] == w && h.events[n] == e
             && h.states[n + 1] == next
    requires w.steps == n && LogTold(h, w.log) && CallWas(h, n, call) && CallOk(w, call)
    requires
      || (e.ExecuteRight? && call.LeftMatched? && Matches(w, call.copy.right, call.copy.rightVersion)
          && next.log == w.log.(returned := w.log.returned + [ReturnOf(call, n)]))
      || (e.ConfirmWrite? && call.BothPinned? && Saves(w.row, call.copy.status) && next.row == Some(Pinned(call))
          && next.log == w.log.(confirmed := w.log.confirmed + [ConfirmationOf(e.call, call, n)]))
      || (e.StaleWrite? && call.FoundStale? && Saves(w.row, Confirmed)
          && next.row == Some(call.copy.(status := Stale))
          && next.log == w.log.(staled := w.log.staled + [StaleMarkOf(e.call, call, n)]))
    ensures LogTold(h, next.log)
  {
    if e.ExecuteRight? {
      ReturnTold(h, n, call);
    } else if e.ConfirmWrite? {
      ConfirmationTold(h, n, e.call, call);
    } else {
      StaleMarkTold(h, n, e.call, call);
    }
  }

  lemma {:induction false} AllTold(h: History, n: nat)
    requires IsRun(h) && n < |h.states|
    ensures CallsTold(h, n) && LogTold(h, h.states[n].log)
  {
    if n > 0 {
      AllTold(h, n - 1);
      EveryState(h, n - 1);
      NextLogTold(h, n - 1);
      forall c | c in h.states[n].calls ensures CallWas(h, n, h.states[n].calls[c]) {
        CallTold(h, n - 1, c);
      }
    }
  }

  /** Everything `executable` ever returned was confirmed when read and pinned to the active scans when checked. */
  lemma ExecutableWasCurrent(h: History, n: nat, i: nat)
    requires IsRun(h) && n < |h.states| && i < |h.states[n].log.returned|
    ensures WasExecutable(h, h.states[n].log.returned[i])
  {
    AllTold(h, n);
  }

  /**
   * A stored confirmed mapping is the row some call wrote after finding each pinned version active, from a
   * candidate or stale mapping that had not changed status since it was read.
   */
  lemma ConfirmedWasCurrent(h: History, n: nat)
    requires IsRun(h) && n < |h.states|
    requires h.states[n].row.Some? && h.states[n].row.value.status == Confirmed
    ensures
      var log := h.states[n].log.confirmed;
      log != [] && log[|log| - 1].mapping == h.states[n].row.value && WasConfirmed(h, log[|log| - 1])
  {
    EveryState(h, n);
    AllTold(h, n);
  }

  /** A stored stale mapping was marked by a call that had read it confirmed and then found a pin outdated. */
  lemma StaleWasOutdated(h: History, n: nat)
    requires IsRun(h) && n < |h.states|
    requires h.states[n].row.Some? && h.states[n].row.value.status == Stale
    ensures
      var log := h.states[n].log.staled;
      && log != [] && log[|log| - 1].copy.(status := Stale) == h.states[n].row.value
      && WasOutdated(h, log[|log| - 1])
  {
    EveryState(h, n);
    AllTold(h, n);
  }

  // ---- What the compare-and-swap on the status lets through ----

  /**
   * Marking a mapping stale keeps everything else about it exactly when the writer's copy still is the
   * stored row: the swap compares the status only, and the copy replaces the whole row.
   */
  lemma StaleWriteFaithful(h: History, n: nat, c: nat)
    requires IsRun(h) && n < |h.states| && c in h.states[n].calls && h.states[n].calls[c].FoundStale?
    requires h.states[n].row.Some? && h.states[n].row.value.status == Confirmed
    ensures
      var w := h.states[n];
      Apply(w, StaleWrite(c)).row == Some(w.row.value.(status := Stale)) <==> w.calls[c].copy == w.row.value
  {
    EveryState(h, n);
    assert CallOk(h.states[n], h.states[n].calls[c]);
  }

  /** A confirmed mapping whose pins are the active versions, and a call that found an older copy stale. */
  ghost predicate OvertakenBy(w: World, c: nat) {
    && w.row.Some? && w.row.value.status == Confirmed && c in w.calls && w.calls[c].FoundStale?
    && Matches(w, w.row.value.left, w.row.value.leftVersion) && Matches(w, w.row.value.right, w.row.value.rightVersion)
    && w.calls[c].copy != w.row.value
  }

  function Looked(w: World, c: nat): World {
    Apply(Apply(Apply(w, ConfirmRead(c, "a")), ConfirmLeft(c)), ConfirmRight(c))
  }

  function Repinned(m: JoinMapping, left: nat, right: nat): JoinMapping {
    m.(leftVersion := Some(left), rightVersion := Some(right), status := Confirmed, confirmedBy := Some("a"))
  }

  lemma LooksAlone(w: World, c: nat, m: JoinMapping, left: nat, right: nat)
    requires w.row == Some(m) && m.status in {Candidate, Stale} && c !in w.calls
    requires Matches(w, m.left, Some(left)) && Matches(w, m.right, Some(right))
    ensures Looked(w, c).row == Some(m) && Looked(w, c).active == w.active
    ensures Looked(w, c).calls
            == w.calls[c := BothPinned(m, "a", w.steps, left, w.steps + 1, right, w.steps + 2)]
  {
    assert Trimmed("a") == "a";
  }

  /** A confirmation nothing disturbs pins the active versions and leaves other calls alone. */
  lemma ConfirmAlone(h: History, c: nat, m: JoinMapping, left: nat, right: nat) returns (more: History)
    requires IsRun(h) && Last(h).row == Some(m) && m.status in {Candidate, Stale} && c !in Last(h).calls
    requires Matches(Last(h), m.left, Some(left)) && Matches(Last(h), m.right, Some(right))
    ensures IsRun(more) && Last(more).row == Some(Repinned(m, left, right))
    ensures Last(more).calls == Last(h).calls && Last(more).active == Last(h).active
  {
    var w := Last(h);
    more := FourMore(h, ConfirmRead(c, "a"), ConfirmLeft(c), ConfirmRight(c), ConfirmWrite(c));
    LooksAlone(w, c, m, left, right);
    WriteAlone(Looked(w, c), c, m, left, right);
    assert Last(more).calls == w.calls;
  }

  lemma WriteAlone(w: World, c: nat, m: JoinMapping, left: nat, right: nat)
    requires w.row == Some(m) && c in w.calls && w.calls[c].BothPinned?
    requires w.calls[c].copy == m && w.calls[c].who == "a" && w.calls[c].left == left && w.calls[c].right == right
    ensures Apply(w, ConfirmWrite(c)).row == Some(Repinned(m, left, right))
    ensures Apply(w, ConfirmWrite(c)).calls == w.calls - {c} && Apply(w, ConfirmWrite(c)).active == w.active
  {
    assert Trimmed("a") == "a";
  }

  lemma FourMore(h: History, a: Event, b: Event, c: Event, d: Event) returns (more: History)
    requires IsRun(h)
    ensures IsRun(more) && Last(more) == Apply(Apply(Apply(Apply(Last(h), a), b), c), d)
  {
    ThenIsRun(h, a);
    ThenIsRun(Then(h, a), b);
    ThenIsRun(Then(Then(h, a), b), c);
    more := Then(Then(Then(h, a), b), c);
    ThenIsRun(more, d);
    more := Then(more, d);
  }

  function Found(w: World, c: nat, m: JoinMapping, left: nat): World {
    Apply(Apply(Apply(w, ExecuteRead(c, m.workspace, {m.left, m.right})), Scan(m.left, Some(left))), ExecuteLeft(c))
  }

  lemma FoundAlone(w: World, c: nat, m: JoinMapping, left: nat)
    requires w.row == Some(m) && m.status == Confirmed && c !in w.calls && m.leftVersion != Some(left)
    ensures Found(w, c, m, left).row == Some(m) && Found(w, c, m, left).active == w.active[m.left := left]
    ensures Found(w, c, m, left).calls == w.calls[c := FoundStale(m, w.steps, w.steps + 2)]
  {
  }

  /** An `executable` call that reads the confirmed mapping and then finds the left scan moved on. */
  lemma FindStale(h: History, c: nat, m: JoinMapping, left: nat) returns (more: History)
    requires IsRun(h) && Last(h).row == Some(m) && m.status == Confirmed && c !in Last(h).calls
    requires m.leftVersion != Some(left)
    ensures IsRun(more) && Last(more).row == Some(m) && Last(more).active == Last(h).active[m.left := left]
    ensures Last(more).calls == Last(h).calls[c := FoundStale(m, Last(h).steps, Last(h).steps + 2)]
  {
    var read, scan, look := ExecuteRead(c, m.workspace, {m.left, m.right}), Scan(m.left, Some(left)), ExecuteLeft(c);
    ThenIsRun(h, read);
    ThenIsRun(Then(h, read), scan);
    more := Then(Then(h, read), scan);
    ThenIsRun(more, look);
    more := Then(more, look);
    FoundAlone(Last(h), c, m, left);
  }

  function Example(status: Status, left: Option<nat>, right: Option<nat>, confirmedBy: Option<string>): JoinMapping {
    JoinMapping("w", "l", "r", "", status, left, right, confirmedBy)
  }

  lemma FirstConfirmed() returns (h: History)
    ensures IsRun(h) && Last(h).row == Some(Example(Confirmed, Some(1), Some(1), Some("a")))
    ensures Last(h).calls == map[] && Last(h).active == map["l" := 1, "r" := 1]
  {
    var m := Example(Candidate, None, None, None);
    assert "l"[0] != "r"[0];
    ThenIsRun(Start(), Create(m));
    h := Then(Start(), Create(m));
    assert Last(h).row == Some(m) && Last(h).calls == map[] && Last(h).active == map[];
    ThenIsRun(h, Scan("l", Some(1)));
    h := Then(h, Scan("l", Some(1)));
    assert Last(h).row == Some(m) && Last(h).calls == map[] && Last(h).active == map["l" := 1];
    ThenIsRun(h, Scan("r", Some(1)));
    h := Then(h, Scan("r", Some(1)));
    assert Last(h).row == Some(m) && Last(h).calls == map[] && Last(h).active == map["l" := 1, "r" := 1];
    h := ConfirmAlone(h, 0, m, 1, 1);
  }

  /** The first of two calls that found the mapping stale marks it, and it is confirmed again. */
  lemma Reconfirmed(h: History, m: JoinMapping) returns (more: History)
    requires IsRun(h) && m == Example(Confirmed, Some(1), Some(1), Some("a"))
    requires Last(h).row == Some(m) && Last(h).calls.Keys == {1, 2} && Last(h).active == map["l" := 2, "r" := 1]
    requires forall c :: c in {1, 2} ==> Last(h).calls[c].FoundStale? && Last(h).calls[c].copy == m
    ensures IsRun(more) && OvertakenBy(Last(more), 1) && Last(more).calls[1].copy == m
  {
    assert "l"[0] != "r"[0];
    ThenIsRun(h, StaleWrite(2));
    more := Then(h, StaleWrite(2));
    assert Last(more).row == Some(m.(status := Stale)) && Last(more).calls == Last(h).calls - {2};
    more := ConfirmAlone(more, 3, m.(status := Stale), 2, 1);
  }

  /**
   * Two calls find a mapping stale; one marks it, it is confirmed again on the active scans, and the
   * other's late write is still let through: the fresh confirmation is lost.
   */
  lemma FreshConfirmationLost() returns (h: History)
    ensures IsRun(h) && OvertakenBy(Last(h), 1)
    ensures Apply(Last(h), StaleWrite(1)).row == Some(Example(Stale, Some(1), Some(1), Some("a")))
  {
    var m := Example(Confirmed, Some(1), Some(1), Some("a"));
    h := FirstConfirmed();
    h := FindStale(h, 1, m, 2);
    h := FindStale(h, 2, m, 2);
    assert Last(h).calls.Keys == {1, 2};
    h := Reconfirmed(h, m);
  }
}
