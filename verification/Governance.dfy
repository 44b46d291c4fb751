/**
 * The life of one join mapping under interleaved governance calls.
 *
 * `confirm`, `reject` and `executable` each read the mapping, look at the active scans, and write back a
 * changed copy if the stored status still is the one they expect. Every read and every write is one
 * step here, so any number of calls may interleave with each other and with scans becoming active.
 */
module Governance {
  import opened Common
  import opened PlainText

  datatype Status = Candidate | Confirmed | Stale | Rejected

  /** `facts` stands for the fields that no call changes. */
  datatype JoinMapping = JoinMapping(workspace: string, left: string, right: string, facts: string, status: Status,
                                     leftVersion: Option<nat>, rightVersion: Option<nat>, confirmedBy: Option<string>)

  /** Where a call stands. `readAt`, `leftAt` and `rightAt` are the numbers of steps taken when it looked. */
  datatype Call =
    | Confirming(copy: JoinMapping, who: string, readAt: nat)
    | LeftPinned(copy: JoinMapping, who: string, readAt: nat, left: nat, leftAt: nat)
    | BothPinned(copy: JoinMapping, who: string, readAt: nat, left: nat, leftAt: nat, right: nat, rightAt: nat)
    | Rejecting(copy: JoinMapping)
    | Executing(copy: JoinMapping, readAt: nat)
    | LeftMatched(copy: JoinMapping, readAt: nat, leftAt: nat)
    | FoundStale(copy: JoinMapping, readAt: nat, lookedAt: nat)

  /** What `executable` returned, with the numbers of steps taken when it read and looked. */
  datatype Return = Return(mapping: JoinMapping, readAt: nat, leftAt: nat, rightAt: nat)

  /** A confirmation written by a call, with the numbers of steps taken when it read, looked and wrote. */
  datatype Confirmation = Confirmation(call: nat, copy: JoinMapping, mapping: JoinMapping, readAt: nat, leftAt: nat,
                                       rightAt: nat, writtenAt: nat)

  /** A stale mark written by a call, with the numbers of steps taken when it read, looked and wrote. */
  datatype StaleMark = StaleMark(call: nat, copy: JoinMapping, readAt: nat, lookedAt: nat, writtenAt: nat)

  /** What calls returned and wrote, in order. */
  datatype Log = Log(returned: seq<Return>, confirmed: seq<Confirmation>, staled: seq<StaleMark>)

  /** The stored mapping, the active scan version of each datasource, and the calls under way. */
  datatype World = World(row: Option<JoinMapping>, active: map<string, nat>, calls: map<nat, Call>, log: Log,
                         steps: nat)

  datatype Event =
    | Create(mapping: JoinMapping)
    | Scan(datasource: string, version: Option<nat>)
    | ConfirmRead(call: nat, who: string)
    | ConfirmLeft(call: nat)
    | ConfirmRight(call: nat)
    | ConfirmWrite(call: nat)
    | RejectRead(call: nat)
    | RejectWrite(call: nat)
    | ExecuteRead(call: nat, workspace: string, sources: set<string>)
    | ExecuteLeft(call: nat)
    | ExecuteRight(call: nat)
    | StaleWrite(call: nat)

  function Initial(): World {
    World(None, map[], map[], Log([], [], []), 0)
  }

  function Seen(w: World, datasource: string): Option<nat> {
    if datasource in w.active then Some(w.active[datasource]) else None
  }

  predicate Saves(row: Option<JoinMapping>, expected: Status) {
    row.Some? && row.value.status == expected
  }

  /** `save_mapping`: the whole row is replaced if its status still is the expected one. */
  function SaveMapping(row: Option<JoinMapping>, mapping: JoinMapping, expected: Status): Option<JoinMapping> {
    if Saves(row, expected) then Some(mapping) else row
  }

  /** What a confirmation writes: its copy with both versions, the status and the confirmer. */
  function Pinned(call: Call): JoinMapping
    requires call.BothPinned?
  {
    call.copy.(leftVersion := Some(call.left), rightVersion := Some(call.right), status := Confirmed,
               confirmedBy := Some(Trimmed(call.who)))
  }

  function ConfirmationOf(c: nat, call: Call, at: nat): Confirmation
    requires call.BothPinned?
  {
    Confirmation(c, call.copy, Pinned(call), call.readAt, call.leftAt, call.rightAt, at)
  }

  function ReturnOf(call: Call, at: nat): Return
    requires call.LeftMatched?
  {
    Return(call.copy, call.readAt, call.leftAt, at)
  }

  function StaleMarkOf(c: nat, call: Call, at: nat): StaleMark
    requires call.FoundStale?
  {
    StaleMark(c, call.copy, call.readAt, call.lookedAt, at)
  }

  /** The pinned version is the active one. */
  predicate Matches(w: World, datasource: string, version: Option<nat>) {
    version.Some? && Seen(w, datasource) == version
  }

  function Done(w: World, call: nat): map<nat, Call> {
    w.calls - {call}
  }

  /** The world after one step; a step that is not possible, or an error raised, changes no row. */
  function Step(w: World, e: Event): World {
    match e
    case Create(m) =>
      if w.row.Some? || m.left == m.right then w
      else w.(row := Some(m.(status := Candidate, leftVersion := None, rightVersion := None, confirmedBy := None)))
    case Scan(d, version) =>
      w.(active := if version.Some? then w.active[d := version.value] else w.active - {d})
    case ConfirmRead(c, who) =>
      if c in w.calls || w.row.None? || w.row.value.status !in {Candidate, Stale} || Trimmed(who) == "" then w
      else w.(calls := w.calls[c := Confirming(w.row.value, who, w.steps)])
    case ConfirmLeft(c) =>
      if c !in w.calls || !w.calls[c].Confirming? || Seen(w, w.calls[c].copy.left).None? then w
      else
        var call := w.calls[c];
        w.(calls := w.calls[c := LeftPinned(call.copy, call.who, call.readAt, Seen(w, call.copy.left).value, w.steps)])
    case ConfirmRight(c) =>
      if c !in w.calls || !w.calls[c].LeftPinned? || Seen(w, w.calls[c].copy.right).None? then w
      else
        var call := w.calls[c];
        w.(calls := w.calls[c := BothPinned(call.copy, call.who, call.readAt, call.left, call.leftAt,
                                            Seen(w, call.copy.right).value, w.steps)])
    case ConfirmWrite(c) =>
      if c !in w.calls || !w.calls[c].BothPinned? then w
      else
        var call := w.calls[c];
        w.(calls := Done(w, c), row := SaveMapping(w.row, Pinned(call), call.copy.status),
           log := if Saves(w.row, call.copy.status)
                  then w.log.(confirmed := w.log.confirmed + [ConfirmationOf(c, call, w.steps)])
                  else w.log)
    case RejectRead(c) =>
      if c in w.calls || w.row.None? then w else w.(calls := w.calls[c := Rejecting(w.row.value)])
    case RejectWrite(c) =>
      if c !in w.calls || !w.calls[c].Rejecting? then w
      else
        var copy := w.calls[c].copy;
        w.(calls := Done(w, c), row := SaveMapping(w.row, copy.(status := Rejected), copy.status))
    case ExecuteRead(c, workspace, sources) =>
      if c in w.calls || w.row.None? || w.row.value.workspace != workspace || w.row.value.status != Confirmed
         || {w.row.value.left, w.row.value.right} != sources then w
      else w.(calls := w.calls[c := Executing(w.row.value, w.steps)])
    case ExecuteLeft(c) =>
      if c !in w.calls || !w.calls[c].Executing? then w
      else
        var call := w.calls[c];
        w.(calls := w.calls[c := if Matches(w, call.copy.left, call.copy.leftVersion)
                                 then LeftMatched(call.copy, call.readAt, w.steps)
                                 else FoundStale(call.copy, call.readAt, w.steps)])
    case ExecuteRight(c) =>
      if c !in w.calls || !w.calls[c].LeftMatched? then w
      else
        var call := w.calls[c];
        if Matches(w, call.copy.right, call.copy.rightVersion) then
          w.(calls := Done(w, c), log := w.log.(returned := w.log.returned + [ReturnOf(call, w.steps)]))
        else w.(calls := w.calls[c := FoundStale(call.copy, call.readAt, w.steps)])
    case StaleWrite(c) =>
      if c !in w.calls || !w.calls[c].FoundStale? then w
      else
        var call := w.calls[c];
        w.(calls := Done(w, c), row := SaveMapping(w.row, call.copy.(status := Stale), Confirmed),
           log := if Saves(w.row, Confirmed)
                  then w.log.(staled := w.log.staled + [StaleMarkOf(c, call, w.steps)])
                  else w.log)
  }

  function Apply(w: World, e: Event): World {
    Step(w, e).(steps := w.steps + 1)
  }

  // ---- What every run keeps ----

  /** A confirmed mapping carries both scan versions and who confirmed it; a candidate carries none. */
  ghost predicate RowOk(m: JoinMapping) {
    && m.left != m.right
    && (m.status == Confirmed || m.status == Stale ==>
          m.leftVersion.Some? && m.rightVersion.Some? && m.confirmedBy.Some? && m.confirmedBy.value != "")
    && (m.status == Candidate ==> m.leftVersion.None? && m.rightVersion.None? && m.confirmedBy.None?)
  }

  ghost predicate SameMapping(a: JoinMapping, b: JoinMapping) {
    a.workspace == b.workspace && a.left == b.left && a.right == b.right && a.facts == b.facts
  }

  /** A call holds a sound copy of this mapping; one that was already rejected is the row itself. */
  ghost predicate CopyOk(w: World, copy: JoinMapping) {
    && RowOk(copy) && w.row.Some? && SameMapping(copy, w.row.value)
    && (copy.status == Rejected ==> w.row == Some(copy))
  }

  ghost predicate CallOk(w: World, call: Call) {
    && CopyOk(w, call.copy)
    && match call
       case Rejecting(_) => true
       case Executing(_, _) => call.copy.status == Confirmed
       case LeftMatched(_, _, _) => call.copy.status == Confirmed
       case FoundStale(_, _, _) => call.copy.status == Confirmed
       case _ => call.copy.status in {Candidate, Stale} && Trimmed(call.who) != ""
  }

  /** A stored confirmed mapping is what the last confirmation wrote, a stale one what the last stale mark did. */
  ghost predicate LastWritten(row: Option<JoinMapping>, log: Log) {
    && (row.Some? && row.value.status == Confirmed ==>
          log.confirmed != [] && log.confirmed[|log.confirmed| - 1].mapping == row.value)
    && (row.Some? && row.value.status == Stale ==>
          log.staled != [] && log.staled[|log.staled| - 1].copy.(status := Stale) == row.value)
  }

  ghost predicate Inv(w: World) {
    && (w.row.Some? ==> RowOk(w.row.value))
    && LastWritten(w.row, w.log)
    && forall c :: c in w.calls ==> CallOk(w, w.calls[c])
  }

  /** A row is replaced only by a sound row of the same mapping, and never once it is rejected. */
  ghost predicate RowMoves(before: Option<JoinMapping>, after: Option<JoinMapping>) {
    before.Some? ==>
      && after.Some? && SameMapping(before.value, after.value)
      && (before.value.status == Rejected ==> after == before)
  }

  lemma CallsKept(w: World, next: World)
    requires Inv(w) && RowMoves(w.row, next.row) && (next.row.Some? ==> RowOk(next.row.value))
    requires LastWritten(next.row, next.log)
    requires forall c :: c in next.calls ==> c in w.calls && next.calls[c] == w.calls[c]
    ensures Inv(next)
  {
    forall c | c in next.calls ensures CallOk(next, next.calls[c]) {
      assert CallOk(w, w.calls[c]);
    }
  }

  lemma CallAdded(w: World, next: World, c: nat)
    requires Inv(w) && next.row == w.row && LastWritten(next.row, next.log)
    requires c in next.calls && CallOk(w, next.calls[c])
    requires next.calls - {c} == w.calls - {c}
    ensures Inv(next)
  {
    forall d | d in next.calls ensures CallOk(next, next.calls[d]) {
      if d != c {
        assert d in next.calls - {c};
        assert CallOk(w, w.calls[d]);
      }
    }
  }

  lemma WriteKeeps(w: World, e: Event)
    requires Inv(w) && (e.ConfirmWrite? || e.RejectWrite? || e.StaleWrite?)
    ensures Inv(Apply(w, e)) && RowMoves(w.row, Apply(w, e).row)
  {
    if e.call in w.calls {
      assert CallOk(w, w.calls[e.call]);
    }
    CallsKept(w, Apply(w, e));
  }

  /** The first read of a call copies the stored row. */
  lemma ReadKeeps(w: World, e: Event)
    requires Inv(w) && (e.ConfirmRead? || e.RejectRead? || e.ExecuteRead?)
    ensures Inv(Apply(w, e)) && Apply(w, e).row == w.row
  {
    var next := Apply(w, e);
    if e.call in w.calls || e.call !in next.calls {
      CallsKept(w, next);
    } else {
      CallAdded(w, next, e.call);
    }
  }

  /** A look at the active scans for a confirmation. */
  lemma PinKeeps(w: World, e: Event)
    requires Inv(w) && (e.ConfirmLeft? || e.ConfirmRight?)
    ensures Inv(Apply(w, e)) && Apply(w, e).row == w.row
  {
    var next := Apply(w, e);
    if next.calls == w.calls {
      CallsKept(w, next);
    } else {
      assert CallOk(w, w.calls[e.call]);
      CallAdded(w, next, e.call);
    }
  }

  /** A look at the active scans for an execution. */
  lemma LookKeeps(w: World, e: Event)
    requires Inv(w) && (e.ExecuteLeft? || e.ExecuteRight?)
    ensures Inv(Apply(w, e)) && Apply(w, e).row == w.row
  {
    var next := Apply(w, e);
    if e.call in w.calls {
      assert CallOk(w, w.calls[e.call]);
    }
    if e.call in w.calls && w.calls[e.call].Executing? && e.ExecuteLeft? {
      CallAdded(w, next, e.call);
    } else if e.call in next.calls && next.calls[e.call].FoundStale? {
      CallAdded(w, next, e.call);
    } else {
      CallsKept(w, next);
    }
  }

  lemma StepKeeps(w: World, e: Event)
    requires Inv(w)
    ensures Inv(Apply(w, e)) && RowMoves(w.row, Apply(w, e).row)
  {
    match e
    case Create(_) =>
      var next := Apply(w, e);
      if w.row.None? {
        assert forall c :: c in w.calls ==> CallOk(w, w.calls[c]);
        assert w.calls == map[];
      } else {
        CallsKept(w, next);
      }
    case Scan(_, _) => CallsKept(w, Apply(w, e));
    case ConfirmWrite(_) => WriteKeeps(w, e);
    case RejectWrite(_) => WriteKeeps(w, e);
    case StaleWrite(_) => WriteKeeps(w, e);
    case ConfirmRead(_, _) => ReadKeeps(w, e);
    case RejectRead(_) => ReadKeeps(w, e);
    case ExecuteRead(_, _, _) => ReadKeeps(w, e);
    case ConfirmLeft(_) => PinKeeps(w, e);
    case ConfirmRight(_) => PinKeeps(w, e);
    case _ => LookKeeps(w, e);
  }
}
