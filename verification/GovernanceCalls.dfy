/**
 * The governance calls statement by statement, with other calls and new scans running between any two
 * reads or writes. The ghost history records the steps, so what holds of every run holds here.
 */
module GovernanceCalls {
  import opened Common
  import opened PlainText
  import opened Governance
  import opened GovernanceRuns

  function CallOf(e: Event): Option<nat> {
    if e.Create? || e.Scan? then None else Some(e.call)
  }

  ghost predicate Longer(before: Log, after: Log) {
    before.returned <= after.returned && before.confirmed <= after.confirmed && before.staled <= after.staled
  }

  /** What other calls do to the world: a call stands where it stood, the row moves soundly, logs grow. */
  ghost predicate Apart(me: nat, before: World, after: World) {
    && (me in before.calls <==> me in after.calls)
    && (me in before.calls ==> after.calls[me] == before.calls[me])
    && RowMoves(before.row, after.row) && Longer(before.log, after.log)
  }

  lemma LogGrows(w: World, e: Event)
    ensures Longer(w.log, Apply(w, e).log)
  {
  }

  lemma CallStands(w: World, e: Event, me: nat)
    requires CallOf(e) != Some(me)
    ensures me in w.calls <==> me in Apply(w, e).calls
    ensures me in w.calls ==> Apply(w, e).calls[me] == w.calls[me]
  {
  }

  lemma OthersLeaveCall(w: World, e: Event, me: nat)
    requires CallOf(e) != Some(me) && Inv(w)
    ensures Apart(me, w, Apply(w, e))
  {
    StepKeeps(w, e);
    LogGrows(w, e);
    CallStands(w, e, me);
  }

  lemma ApartAgain(me: nat, a: World, b: World, c: World)
    requires Apart(me, a, b) && Apart(me, b, c)
    ensures Apart(me, a, c)
  {
  }

  class MappingRepository {
    var row: Option<JoinMapping>

    constructor ()
      ensures row == None
    {
      row := None;
    }

    method SaveMapping(mapping: JoinMapping, expected: Status) returns (ok: bool)
      modifies this
      ensures row == Governance.SaveMapping(old(row), mapping, expected)
      ensures ok <==> old(row).Some? && old(row).value.status == expected
    {
      ok := row.Some? && row.value.status == expected;
      if ok {
        row := Some(mapping);
      }
    }
  }

  /** `calls`, `log` and `steps` account for every call under way, this one and the others. */
  class JoinMappingGovernance {
    const repository: MappingRepository
    var active: map<string, nat>
    var calls: map<nat, Call>
    var log: Log
    var steps: nat
    ghost var history: History

    function Here(): World
      reads this, repository
    {
      World(repository.row, active, calls, log, steps)
    }

    ghost predicate Valid()
      reads this, repository
    {
      IsRun(history) && Last(history) == Here()
    }

    /** The number of steps taken so far. */
    ghost function Taken(): nat
      reads this
    {
      |history.events|
    }

    constructor ()
      ensures Valid() && fresh(repository) && history == Start()
    {
      repository := new MappingRepository();
      active, calls, log, steps := map[], map[], Log([], [], []), 0;
      history := Start();
    }

    /** One step whose row is already written; the account follows it. */
    method Record(e: Event, before: World)
      requires IsRun(history) && Last(history) == before && before == Here().(row := before.row)
      requires Apply(before, e).row == repository.row
      modifies this
      ensures Valid() && Here() == Apply(before, e) && Taken() == old(Taken()) + 1
      ensures old(history).states != [] && history == Then(old(history), e)
    {
      var next := Apply(before, e);
      active, calls, steps, log := next.active, next.calls, next.steps, next.log;
      ThenIsRun(history, e);
      history := Then(history, e);
    }

    /** What holds after every run holds of the stored row and the calls. */
    lemma Bounds()
      requires Valid()
      ensures Inv(Here()) && steps == Taken()
    {
      EveryState(history, |history.states| - 1);
    }

    /** What the log tells is true of the history. */
    lemma Told()
      requires Valid()
      ensures LogTold(history, log)
    {
      AllTold(history, |history.states| - 1);
    }

    /** `create`: a candidate, whatever status, versions or confirmer the fields carried. */
    method Create(fields: JoinMapping) returns (r: Result<JoinMapping>)
      requires Valid() && repository.row.None?
      modifies this, repository
      ensures Valid() && old(Taken()) <= Taken()
      ensures r.Ok? <==> fields.left != fields.right
      ensures r.Ok? ==> repository.row == Some(r.value) && SameMapping(r.value, fields) && r.value.status == Candidate
                        && r.value.leftVersion.None? && r.value.rightVersion.None? && r.value.confirmedBy.None?
      ensures r.Err? ==> repository.row.None? && r.code == "join mapping requires distinct datasources"
    {
      if fields.left == fields.right {
        return Err("join mapping requires distinct datasources");
      }
      var before := Here();
      var mapping := fields.(status := Candidate, leftVersion := None, rightVersion := None, confirmedBy := None);
      repository.row := Some(mapping);
      Record(Event.Create(fields), before);
      r := Ok(mapping);
    }

    /** One step of another call, or a scan becoming active or inactive. */
    method Other(me: nat)
      requires Valid()
      modifies this, repository
      ensures Valid() && old(Taken()) <= Taken() && Apart(me, old(Here()), Here())
    {
      var e: Event := *;
      if CallOf(e) != Some(me) {
        var before := Here();
        Bounds();
        OthersLeaveCall(before, e, me);
        repository.row := Apply(before, e).row;
        Record(e, before);
      }
    }

    /** Any number of steps of other calls, and scans of any datasource becoming active or inactive. */
    method Interleave(me: nat)
      requires Valid()
      modifies this, repository
      ensures Valid() && old(Taken()) <= Taken() && Apart(me, old(Here()), Here())
    {
      var n: nat :| true;
      for k := 0 to n
        invariant Valid() && old(Taken()) <= Taken() && Apart(me, old(Here()), Here())
      {
        ghost var before := Here();
        Other(me);
        ApartAgain(me, old(Here()), before, Here());
      }
    }

    // ---- What a refused call had seen ----

    /** After n steps no mapping was stored. */
    ghost predicate MissingAt(n: nat)
      reads this
    {
      n < |history.states| && history.states[n].row.None?
    }

    /** After n steps no confirmed mapping of the workspace was stored. */
    ghost predicate UnconfirmedAt(n: nat, workspace: string)
      reads this
    {
      && n < |history.states|
      && var row := history.states[n].row;
         row.None? || row.value.workspace != workspace || row.value.status != Confirmed
    }

    /** After n steps the stored mapping was a confirmed one of the workspace, but of other sources. */
    ghost predicate ElsewhereAt(n: nat, workspace: string, sources: set<string>)
      reads this
    {
      && n < |history.states| && history.states[n].row.Some?
      && var row := history.states[n].row.value;
         row.workspace == workspace && row.status == Confirmed && sources != {row.left, row.right}
    }

    /** After n steps the stored mapping was confirmed or rejected, so not to be confirmed. */
    ghost predicate SettledAt(n: nat)
      reads this
    {
      && n < |history.states| && history.states[n].row.Some?
      && (history.states[n].row.value.status == Confirmed || history.states[n].row.value.status == Rejected)
    }

    /** After n steps one of the stored mapping's datasources had no active scan. */
    ghost predicate ScanMissingAt(n: nat)
      reads this
    {
      && n < |history.states| && history.states[n].row.Some?
      && var row := history.states[n].row.value;
         row.left !in history.states[n].active || row.right !in history.states[n].active
    }

    /** The write after n steps found another status than the expected one, and stored nothing. */
    ghost predicate ConflictAt(n: nat, write: Event, expected: Status)
      reads this
    {
      && n < |history.events| && |history.states| == |history.events| + 1 && history.events[n] == write
      && (history.states[n].row.None? || history.states[n].row.value.status != expected)
      && history.states[n + 1].row == history.states[n].row
    }

    /** A return of this mapping whose read and looks all came after `since` steps. */
    ghost predicate ReturnedSince(r: Return, m: JoinMapping, since: nat)
      reads this
    {
      r.mapping == m && since <= r.readAt && WasExecutable(history, r)
    }

    /** `executable`: the stored mapping, if confirmed for these sources with both pins active during the call. */
    method Executable(me: nat, workspace: string, sources: set<string>) returns (r: Result<JoinMapping>)
      requires Valid() && me !in calls
      modifies this, repository
      ensures Valid() && old(Taken()) <= Taken()
      ensures r.Ok? ==> exists ret :: ReturnedSince(ret, r.value, old(Taken()))
      ensures r.Err? && r.code == "stale_join_mapping" ==> exists s :: MarkedSince(s, me, old(Taken()))
      ensures r.Ok? ==> r.value.workspace == workspace && {r.value.left, r.value.right} == sources
      ensures r.Err? ==>
                || (r.code == "unconfirmed_mapping"
                    && exists n :: old(Taken()) <= n && UnconfirmedAt(n, workspace))
                || (r.code == "join_mapping_source_mismatch"
                    && exists n :: old(Taken()) <= n && ElsewhereAt(n, workspace, sources))
                || r.code == "stale_join_mapping"
                || (r.code == "join mapping state conflict"
                    && exists n :: old(Taken()) <= n && ConflictAt(n, StaleWrite(me), Confirmed))
    {
      Interleave(me);
      if repository.row.None? {
        assert UnconfirmedAt(Taken(), workspace);
        return Err("unconfirmed_mapping");
      }
      var mapping := repository.row.value;
      if mapping.workspace != workspace || mapping.status != Confirmed {
        assert UnconfirmedAt(Taken(), workspace);
        return Err("unconfirmed_mapping");
      }
      if {mapping.left, mapping.right} != sources {
        assert ElsewhereAt(Taken(), workspace, sources);
        return Err("join_mapping_source_mismatch");
      }
      Bounds();
      Record(ExecuteRead(me, workspace, sources), Here());
      r := CheckPins(me, mapping, old(Taken()));
    }

    /** The pins of a mapping just read, left first; a mismatch marks it stale. */
    method CheckPins(me: nat, mapping: JoinMapping, ghost since: nat) returns (r: Result<JoinMapping>)
      requires Valid() && me in calls && calls[me].Executing? && calls[me].copy == mapping && since <= calls[me].readAt
      modifies this, repository
      ensures Valid() && old(Taken()) <= Taken()
      ensures r.Ok? ==> r.value == mapping && exists ret :: ReturnedSince(ret, mapping, since)
      ensures r.Err? && r.code == "stale_join_mapping" ==> exists s :: MarkedSince(s, me, since)
      ensures r.Err? && r.code != "stale_join_mapping" ==>
                && r.code == "join mapping state conflict"
                && exists n :: old(Taken()) <= n && ConflictAt(n, StaleWrite(me), Confirmed)
    {
      var matched := LookLeft(me, mapping);
      if matched {
        matched := LookRight(me, mapping, since);
      }
      if matched {
        r := Ok(mapping);
      } else {
        r := MarkStale(me, mapping, since);
      }
    }

    method LookLeft(me: nat, mapping: JoinMapping) returns (matched: bool)
      requires Valid() && me in calls && calls[me].Executing? && calls[me].copy == mapping
      modifies this, repository
      ensures Valid() && old(Taken()) <= Taken() && me in calls
      ensures matched ==>
                calls[me].LeftMatched? && calls[me].copy == mapping && calls[me].readAt == old(calls)[me].readAt
      ensures !matched ==>
                calls[me].FoundStale? && calls[me].copy == mapping && calls[me].readAt == old(calls)[me].readAt
    {
      Interleave(me);
      matched := Matches(Here(), mapping.left, mapping.leftVersion);
      Record(ExecuteLeft(me), Here());
    }

    method LookRight(me: nat, mapping: JoinMapping, ghost since: nat) returns (matched: bool)
      requires Valid() && me in calls && calls[me].LeftMatched? && calls[me].copy == mapping
      requires since <= calls[me].readAt
      modifies this, repository
      ensures Valid() && old(Taken()) <= Taken()
      ensures matched ==> exists ret :: ReturnedSince(ret, mapping, since)
      ensures !matched ==>
                me in calls && calls[me].FoundStale? && calls[me].copy == mapping && since <= calls[me].readAt
    {
      Interleave(me);
      matched := Matches(Here(), mapping.right, mapping.rightVersion);
      ghost var ret := ReturnOf(calls[me], steps);
      Record(ExecuteRight(me), Here());
      if matched {
        Told();
        assert log.returned[|log.returned| - 1] == ret;
        assert ReturnedSince(ret, mapping, since);
      }
    }

    /** A stale mark of this call, whose read and look came after `since` steps. */
    ghost predicate MarkedSince(s: StaleMark, me: nat, since: nat)
      reads this
    {
      s.call == me && since <= s.readAt && WasOutdated(history, s)
    }

    /** The mark, if the stored mapping is still confirmed; either way the call ends in an error. */
    method MarkStale(me: nat, mapping: JoinMapping, ghost since: nat) returns (r: Result<JoinMapping>)
      requires Valid() && me in calls && calls[me].FoundStale? && calls[me].copy == mapping && since <= calls[me].readAt
      modifies this, repository
      ensures Valid() && old(Taken()) <= Taken() && r.Err?
      ensures r.code == "stale_join_mapping" ==> exists s :: MarkedSince(s, me, since)
      ensures r.code != "stale_join_mapping" ==>
                && r.code == "join mapping state conflict"
                && exists n :: old(Taken()) <= n && ConflictAt(n, StaleWrite(me), Confirmed)
    {
      Interleave(me);
      var before := Here();
      ghost var mark := StaleMarkOf(me, calls[me], steps);
      var ok := repository.SaveMapping(mapping.(status := Stale), Confirmed);
      Record(StaleWrite(me), before);
      if !ok {
        Bounds();
        assert ConflictAt(Taken() - 1, StaleWrite(me), Confirmed);
        return Err("join mapping state conflict");
      }
      Told();
      assert log.staled[|log.staled| - 1] == mark;
      assert MarkedSince(mark, me, since);
      r := Err("stale_join_mapping");
    }

    /** `reject`: from then on the mapping stays as it was rejected, whatever runs beside it. */
    method Reject(me: nat) returns (r: Result<JoinMapping>)
      requires Valid() && me !in calls
      modifies this, repository
      ensures Valid() && old(Taken()) <= Taken()
      ensures r.Ok? ==> r.value.status == Rejected && repository.row == Some(r.value)
      ensures r.Err? ==>
                || (r.code == "KeyError" && exists n :: old(Taken()) <= n && MissingAt(n))
                || (r.code == "join mapping state conflict"
                    && exists n, expected :: old(Taken()) <= n && ConflictAt(n, RejectWrite(me), expected))
    {
      Interleave(me);
      if repository.row.None? {
        assert MissingAt(Taken());
        return Err("KeyError");
      }
      var mapping := repository.row.value;
      Record(RejectRead(me), Here());
      Interleave(me);
      var before := Here();
      var ok := repository.SaveMapping(mapping.(status := Rejected), mapping.status);
      Record(RejectWrite(me), before);
      if !ok {
        assert ConflictAt(Taken() - 1, RejectWrite(me), mapping.status);
        return Err("join mapping state conflict");
      }
      Interleave(me);
      r := Ok(repository.row.value);
    }

    /** The call's confirmation, read, looked up and written after `since` steps. */
    ghost predicate ConfirmedSince(c: Confirmation, me: nat, who: string, since: nat)
      reads this
    {
      && c.call == me && since <= c.readAt && WasConfirmed(history, c)
      && c.mapping.confirmedBy == Some(Trimmed(who))
    }

    /**
     * `confirm`: the row this call wrote carries the versions that were active when it looked each up, and
     * replaced a row still in the status it had read. What it returns is read back after the write.
     */
    method Confirm(me: nat, who: string) returns (r: Result<JoinMapping>)
      requires Valid() && me !in calls
      modifies this, repository
      ensures Valid() && old(Taken()) <= Taken()
      ensures r.Ok? ==> exists c :: ConfirmedSince(c, me, who, old(Taken()))
      ensures r.Ok? ==> repository.row == Some(r.value)
      ensures Trimmed(who) == "" ==> r.Err?
      ensures r.Err? ==>
                || (r.code == "KeyError" && exists n :: old(Taken()) <= n && MissingAt(n))
                || (r.code == "join mapping is not confirmable" && exists n :: old(Taken()) <= n && SettledAt(n))
                || (r.code == "confirmed_by audit label is required" && Trimmed(who) == "")
                || (r.code == "join mapping datasource has no active scan"
                    && exists n :: old(Taken()) <= n && ScanMissingAt(n))
                || (r.code == "join mapping state conflict"
                    && exists n, expected :: old(Taken()) <= n && ConflictAt(n, ConfirmWrite(me), expected))
    {
      Interleave(me);
      if repository.row.None? {
        assert MissingAt(Taken());
        return Err("KeyError");
      }
      var mapping := repository.row.value;
      if mapping.status !in {Candidate, Stale} {
        assert SettledAt(Taken());
        return Err("join mapping is not confirmable");
      }
      if Trimmed(who) == "" {
        return Err("confirmed_by audit label is required");
      }
      Bounds();
      Record(ConfirmRead(me, who), Here());
      var both := LookBoth(me);
      if !both {
        return Err("join mapping datasource has no active scan");
      }
      r := WriteConfirmed(me, who, old(Taken()));
    }

    /** The active version of either side, the right one only looked up if the left one is there. */
    method LookBoth(me: nat) returns (both: bool)
      requires Valid() && me in calls && calls[me].Confirming?
      modifies this, repository
      ensures Valid() && old(Taken()) <= Taken()
      ensures both ==> me in calls && calls[me].BothPinned? && calls[me].copy == old(calls)[me].copy
                       && calls[me].who == old(calls)[me].who && calls[me].readAt == old(calls)[me].readAt
      ensures !both ==> exists n :: old(Taken()) <= n && ScanMissingAt(n)
    {
      both := PinLeft(me);
      if both {
        both := PinRight(me);
      }
    }

    method PinLeft(me: nat) returns (found: bool)
      requires Valid() && me in calls && calls[me].Confirming?
      modifies this, repository
      ensures Valid() && old(Taken()) <= Taken()
      ensures found ==> me in calls && calls[me].LeftPinned? && calls[me].copy == old(calls)[me].copy
                        && calls[me].who == old(calls)[me].who && calls[me].readAt == old(calls)[me].readAt
      ensures !found ==> exists n :: old(Taken()) <= n && ScanMissingAt(n)
    {
      Interleave(me);
      Bounds();
      found := Seen(Here(), calls[me].copy.left).Some?;
      if found {
        Record(ConfirmLeft(me), Here());
      } else {
        assert CallOk(Here(), calls[me]);
        assert ScanMissingAt(Taken());
      }
    }

    method PinRight(me: nat) returns (found: bool)
      requires Valid() && me in calls && calls[me].LeftPinned?
      modifies this, repository
      ensures Valid() && old(Taken()) <= Taken()
      ensures found ==> me in calls && calls[me].BothPinned? && calls[me].copy == old(calls)[me].copy
                        && calls[me].who == old(calls)[me].who && calls[me].readAt == old(calls)[me].readAt
      ensures !found ==> exists n :: old(Taken()) <= n && ScanMissingAt(n)
    {
      Interleave(me);
      Bounds();
      found := Seen(Here(), calls[me].copy.right).Some?;
      if found {
        Record(ConfirmRight(me), Here());
      } else {
        assert CallOk(Here(), calls[me]);
        assert ScanMissingAt(Taken());
      }
    }

    /** The write of a confirmation, and the row read back afterwards. */
    method WriteConfirmed(me: nat, who: string, ghost since: nat) returns (r: Result<JoinMapping>)
      requires Valid() && me in calls && calls[me].BothPinned? && calls[me].who == who && since <= calls[me].readAt
      modifies this, repository
      ensures Valid() && old(Taken()) <= Taken()
      ensures r.Ok? ==> exists c :: ConfirmedSince(c, me, who, since)
      ensures r.Ok? ==> repository.row == Some(r.value)
      ensures r.Err? ==>
                && r.code == "join mapping state conflict"
                && exists n, expected :: old(Taken()) <= n && ConflictAt(n, ConfirmWrite(me), expected)
    {
      Interleave(me);
      var before := Here();
      var call := calls[me];
      var ok := repository.SaveMapping(Pinned(call), call.copy.status);
      Record(ConfirmWrite(me), before);
      if !ok {
        assert ConflictAt(Taken() - 1, ConfirmWrite(me), call.copy.status);
        return Err("join mapping state conflict");
      }
      ghost var written := |log.confirmed| - 1;
      ghost var mine := log.confirmed[written];
      Interleave(me);
      Told();
      assert log.confirmed[written] == mine;
      assert ConfirmedSince(mine, me, who, since);
      r := Ok(repository.row.value);
    }
  }
}
