/** The governed hash join, refined against a nested loop over every pair of rows. */
module KeyedJoin {
  import opened Common
  import opened Responses

  datatype Cardinality = OneToOne | ManyToOne | OneToMany
  datatype NullPolicy = Reject | Drop
  datatype JoinMode = Inner | Left | Anti

  datatype Side = Side(datasource: string, objectId: string, path: string)

  datatype Mapping = Mapping(left: Side, right: Side, cardinality: Cardinality, nullPolicy: NullPolicy)

  datatype Warning = NullKeysDropped(side: string, count: nat)

  datatype Merged = Merged(columns: seq<string>, rows: seq<Row>, rowCount: int, truncated: bool,
                           operation: string, warnings: seq<Warning>)

  // ---- Output rows ----

  /** The cells of `row` named in `columns`, each renamed with `prefix`. */
  function Project(prefix: string, row: Row, columns: seq<string>): Row {
    if columns == [] then map[]
    else
      var last := |columns| - 1;
      Project(prefix, row, columns[..last])[prefix + columns[last] := Get(row, columns[last])]
  }

  function Pair(l: Row, r: Row, lc: seq<string>, rc: seq<string>): Row {
    Project("left_", l, lc) + Project("right_", r, rc)
  }

  function Prefixed(prefix: string, columns: seq<string>): seq<string> {
    seq(|columns|, i requires 0 <= i < |columns| => prefix + columns[i])
  }

  lemma {:induction false} ProjectCells(prefix: string, row: Row, columns: seq<string>)
    ensures forall k :: k in Project(prefix, row, columns) <==> exists n :: n in columns && k == prefix + n
    ensures forall n :: n in columns ==> Project(prefix, row, columns)[prefix + n] == Get(row, n)
  {
    if columns != [] {
      var last := |columns| - 1;
      var init := columns[..last];
      ProjectCells(prefix, row, init);
      assert columns == init + [columns[last]];
      forall n | n in columns
        ensures prefix + n in Project(prefix, row, columns)
        ensures Project(prefix, row, columns)[prefix + n] == Get(row, n)
      {
        if prefix + n == prefix + columns[last] {
          assert (prefix + n)[|prefix|..] == n && (prefix + columns[last])[|prefix|..] == columns[last];
        }
      }
    }
  }

  /** The columns of a joined row: each side's own, under its prefix. */
  function PairColumns(lc: seq<string>, rc: seq<string>): set<string> {
    (set n | n in lc :: "left_" + n) + (set n | n in rc :: "right_" + n)
  }

  /** Every cell of a joined row comes from its own side: the two prefixes never meet. */
  lemma PairCells(l: Row, r: Row, lc: seq<string>, rc: seq<string>)
    ensures Pair(l, r, lc, rc).Keys == PairColumns(lc, rc)
    ensures forall n :: n in lc ==> "left_" + n in Pair(l, r, lc, rc) && Pair(l, r, lc, rc)["left_" + n] == Get(l, n)
    ensures forall n :: n in rc ==> "right_" + n in Pair(l, r, lc, rc) && Pair(l, r, lc, rc)["right_" + n] == Get(r, n)
  {
    ProjectCells("left_", l, lc);
    ProjectCells("right_", r, rc);
    forall n | n in lc ensures "left_" + n !in Project("right_", r, rc) {
      forall m | m in rc ensures "left_" + n != "right_" + m {
        SidesDiffer(n, m);
      }
    }
  }

  lemma SidesDiffer(n: string, m: string)
    ensures "left_" + n != "right_" + m
  {
    assert ("left_" + n)[0] == 'l' && ("right_" + m)[0] == 'r';
  }

  // ---- The nested loop ----

  /** Every row of `right` against one left row, in right order. */
  function InnerLoop(l: Row, right: seq<Row>, lk: string, rk: string, lc: seq<string>, rc: seq<string>): seq<Row> {
    if right == [] then []
    else
      InnerLoop(l, right[..|right| - 1], lk, rk, lc, rc)
      + (if Get(l, lk) == Get(right[|right| - 1], rk) then [Pair(l, right[|right| - 1], lc, rc)] else [])
  }

  predicate HasMatch(l: Row, right: seq<Row>, lk: string, rk: string) {
    exists j :: 0 <= j < |right| && Get(l, lk) == Get(right[j], rk)
  }

  /** What one left row contributes. */
  function LeftRow(mode: Option<JoinMode>, l: Row, right: seq<Row>, lk: string, rk: string,
                   lc: seq<string>, rc: seq<string>): seq<Row>
  {
    match mode
    case None => []
    case Some(Anti) => if HasMatch(l, right, lk, rk) then [] else [Project("left_", l, lc)]
    case Some(Left) =>
      if HasMatch(l, right, lk, rk) then InnerLoop(l, right, lk, rk, lc, rc) else [Pair(l, map[], lc, rc)]
    case Some(Inner) => InnerLoop(l, right, lk, rk, lc, rc)
  }

  /** The reference join: left rows in order, each against every right row in order. */
  function NestedLoop(mode: Option<JoinMode>, left: seq<Row>, right: seq<Row>, lk: string, rk: string,
                      lc: seq<string>, rc: seq<string>): seq<Row>
  {
    if left == [] then []
    else
      NestedLoop(mode, left[..|left| - 1], right, lk, rk, lc, rc)
      + LeftRow(mode, left[|left| - 1], right, lk, rk, lc, rc)
  }

  function NonNull(rows: seq<Row>, key: string): seq<Row> {
    if rows == [] then []
    else
      NonNull(rows[..|rows| - 1], key)
      + (if Get(rows[|rows| - 1], key) == Null then [] else [rows[|rows| - 1]])
  }

  ghost predicate UniqueKeys(rows: seq<Row>, key: string) {
    forall i, j :: 0 <= i < j < |rows| ==> Get(rows[i], key) != Get(rows[j], key)
  }

  predicate AllHashable(rows: seq<Row>, key: string) {
    forall i :: 0 <= i < |rows| ==> Hashable(Get(rows[i], key))
  }

  predicate LeftUnique(c: Cardinality) { c != ManyToOne }
  predicate RightUnique(c: Cardinality) { c != OneToMany }

  function NullWarning(side: string, rows: seq<Row>, key: string): seq<Warning> {
    if |NonNull(rows, key)| == |rows| then []
    else NonNullShorter(rows, key); [NullKeysDropped(side, |rows| - |NonNull(rows, key)|)]
  }

  predicate Projected(response: Response, side: Side) {
    response.plan.Grounded? && SelectedField(side.objectId, side.path) in response.plan.fields
  }

  /** What the join must return: the guards in their order, then the nested loop. */
  ghost function JoinSpec(inputs: seq<Response>, mode: Option<JoinMode>, mapping: Mapping): Result<Merged> {
    if |inputs| != 2 then Err("unpack")
    else
      var l, r := inputs[0], inputs[1];
      if !l.plan.Grounded? || !r.plan.Grounded? then Err("join_projection_unconfirmed")
      else if l.plan.datasource != mapping.left.datasource || r.plan.datasource != mapping.right.datasource then
        Err("join_mapping_source_mismatch")
      else if !Projected(l, mapping.left) || !Projected(r, mapping.right) then Err("join_projection_unconfirmed")
      else if l.result.None? || r.result.None? then Err("merge_input_invalid")
      else
        var lres, rres := l.result.value, r.result.value;
        var lkey, rkey := Column(lres.rows, mapping.left.path), Column(rres.rows, mapping.right.path);
        if lkey.Err? || rkey.Err? then Err("merge_input_invalid")
        else
          var lk, rk := lkey.value, rkey.value;
          var lrows, rrows := NonNull(lres.rows, lk), NonNull(rres.rows, rk);
          if mapping.nullPolicy == Reject && (lrows != lres.rows || rrows != rres.rows) then Err("join_null_key")
          else if !AllHashable(lrows, lk) || !AllHashable(rrows, rk) then Err("merge_input_invalid")
          else if (LeftUnique(mapping.cardinality) && !UniqueKeys(lrows, lk))
                  || (RightUnique(mapping.cardinality) && !UniqueKeys(rrows, rk)) then
            Err("join_cardinality_violation")
          else
            var rows := NestedLoop(mode, lrows, rrows, lk, rk, lres.columns, rres.columns);
            Ok(Merged(Prefixed("left_", lres.columns)
                      + (if mode == Some(Anti) then [] else Prefixed("right_", rres.columns)),
                      rows, |rows|, false, "keyed_join",
                      NullWarning("left", lres.rows, lk) + NullWarning("right", rres.rows, rk)))
  }

  lemma NonNullShorter(rows: seq<Row>, key: string)
    ensures |NonNull(rows, key)| <= |rows|
    ensures |NonNull(rows, key)| == |rows| <==> NonNull(rows, key) == rows
  {
    if rows != [] {
      NonNullShorter(rows[..|rows| - 1], key);
      assert rows == rows[..|rows| - 1] + [rows[|rows| - 1]];
    }
  }

  // ---- The hash join ----

  /** The bucket the index holds for one key: the right rows carrying it, in right order. */
  function Bucket(right: seq<Row>, rk: string, k: Value): seq<Row> {
    if right == [] then []
    else
      Bucket(right[..|right| - 1], rk, k)
      + (if Get(right[|right| - 1], rk) == k then [right[|right| - 1]] else [])
  }

  function PairAll(l: Row, bucket: seq<Row>, lc: seq<string>, rc: seq<string>): seq<Row> {
    seq(|bucket|, j requires 0 <= j < |bucket| => Pair(l, bucket[j], lc, rc))
  }

  lemma {:induction false} BucketIsInnerLoop(l: Row, right: seq<Row>, lk: string, rk: string,
                                             lc: seq<string>, rc: seq<string>)
    ensures PairAll(l, Bucket(right, rk, Get(l, lk)), lc, rc) == InnerLoop(l, right, lk, rk, lc, rc)
    ensures Bucket(right, rk, Get(l, lk)) != [] <==> HasMatch(l, right, lk, rk)
  {
    if right != [] {
      var init, last := right[..|right| - 1], right[|right| - 1];
      BucketIsInnerLoop(l, init, lk, rk, lc, rc);
      if HasMatch(l, init, lk, rk) {
        var j :| 0 <= j < |init| && Get(l, lk) == Get(init[j], rk);
        assert right[j] == init[j];
      }
      if HasMatch(l, right, lk, rk) {
        var j :| 0 <= j < |right| && Get(l, lk) == Get(right[j], rk);
        assert j < |init| ==> init[j] == right[j];
      }
    }
  }

  /** `prepare`: drops rows with a null key, or refuses them. */
  method Prepare(rows: seq<Row>, key: string, side: string, policy: NullPolicy)
    returns (kept: Result<seq<Row>>, warnings: seq<Warning>)
    ensures policy == Reject && NonNull(rows, key) != rows ==> kept == Err("join_null_key")
    ensures policy == Drop || NonNull(rows, key) == rows ==> kept == Ok(NonNull(rows, key))
    ensures kept.Ok? ==> warnings == NullWarning(side, rows, key)
  {
    var nonNull: seq<Row> := [];
    for i := 0 to |rows|
      invariant nonNull == NonNull(rows[..i], key)
    {
      assert rows[..i + 1][..i] == rows[..i];
      if Get(rows[i], key) != Null {
        nonNull := nonNull + [rows[i]];
      }
    }
    assert rows[..|rows|] == rows;
    NonNullShorter(rows, key);
    warnings := [];
    if |nonNull| != |rows| {
      if policy == Reject {
        return Err("join_null_key"), [];
      }
      warnings := [NullKeysDropped(side, |rows| - |nonNull|)];
    }
    kept := Ok(nonNull);
  }

  /** Whether some key occurs twice, by counting. */
  method HasDuplicate(rows: seq<Row>, key: string) returns (duplicate: bool)
    ensures duplicate <==> !UniqueKeys(rows, key)
  {
    var counts: map<Value, nat> := map[];
    duplicate := false;
    for i := 0 to |rows|
      invariant forall k :: k in counts <==> exists j :: 0 <= j < i && Get(rows[j], key) == k
      invariant !duplicate ==> UniqueKeys(rows[..i], key)
      invariant duplicate ==> !UniqueKeys(rows, key)
    {
      var k := Get(rows[i], key);
      if k in counts {
        var j :| 0 <= j < i && Get(rows[j], key) == k;
        assert Get(rows[j], key) == Get(rows[i], key);
        duplicate := true;
        counts := counts[k := counts[k] + 1];
      } else {
        counts := counts[k := 1];
      }
    }
    assert rows[..|rows|] == rows;
  }

  /** `right_index`: one bucket for each key, filled in row order. */
  method BuildIndex(right: seq<Row>, rk: string) returns (index: map<Value, seq<Row>>)
    ensures forall k :: (if k in index then index[k] else []) == Bucket(right, rk, k)
  {
    index := map[];
    for i := 0 to |right|
      invariant forall k :: (if k in index then index[k] else []) == Bucket(right[..i], rk, k)
    {
      assert right[..i + 1][..i] == right[..i];
      var k := Get(right[i], rk);
      var bucket := if k in index then index[k] else [];
      index := index[k := bucket + [right[i]]];
    }
    assert right[..|right|] == right;
  }

  /** What one left row and its bucket add to the output. */
  function Emitted(mode: Option<JoinMode>, row: Row, matches: seq<Row>, lc: seq<string>, rc: seq<string>): seq<Row> {
    if mode == Some(Anti) && matches == [] then [Project("left_", row, lc)]
    else if mode == Some(Left) && matches == [] then [Pair(row, map[], lc, rc)]
    else if mode == Some(Inner) || mode == Some(Left) then PairAll(row, matches, lc, rc)
    else []
  }

  lemma EmittedIsLeftRow(mode: Option<JoinMode>, row: Row, right: seq<Row>, lk: string, rk: string,
                         lc: seq<string>, rc: seq<string>)
    ensures Emitted(mode, row, Bucket(right, rk, Get(row, lk)), lc, rc) == LeftRow(mode, row, right, lk, rk, lc, rc)
  {
    BucketIsInnerLoop(row, right, lk, rk, lc, rc);
  }

  method Emit(mode: Option<JoinMode>, row: Row, matches: seq<Row>, lc: seq<string>, rc: seq<string>)
    returns (output: seq<Row>)
    ensures output == Emitted(mode, row, matches, lc, rc)
  {
    output := [];
    if mode == Some(Anti) && matches == [] {
      output := [Project("left_", row, lc)];
    } else if mode == Some(Left) && matches == [] {
      output := [Pair(row, map[], lc, rc)];
    } else if mode == Some(Inner) || mode == Some(Left) {
      for j := 0 to |matches|
        invariant output == PairAll(row, matches, lc, rc)[..j]
      {
        output := output + [Pair(row, matches[j], lc, rc)];
      }
    }
  }

  /** One pass over the left rows, looking each key up in the index. */
  method Probe(mode: Option<JoinMode>, left: seq<Row>, right: seq<Row>, lk: string, rk: string,
               lc: seq<string>, rc: seq<string>) returns (output: seq<Row>)
    ensures output == NestedLoop(mode, left, right, lk, rk, lc, rc)
  {
    var index := BuildIndex(right, rk);
    output := [];
    for i := 0 to |left|
      invariant output == NestedLoop(mode, left[..i], right, lk, rk, lc, rc)
    {
      assert left[..i + 1][..i] == left[..i];
      var row := left[i];
      var matches := if Get(row, lk) in index then index[Get(row, lk)] else [];
      var more := Emit(mode, row, matches, lc, rc);
      EmittedIsLeftRow(mode, row, right, lk, rk, lc, rc);
      output := output + more;
    }
    assert left[..|left|] == left;
  }

  method AnyUnhashable(rows: seq<Row>, key: string) returns (bad: bool)
    ensures bad <==> !AllHashable(rows, key)
  {
    bad := false;
    for i := 0 to |rows|
      invariant bad <==> exists j :: 0 <= j < i && !Hashable(Get(rows[j], key))
    {
      if !Hashable(Get(rows[i], key)) {
        bad := true;
      }
    }
  }

  /** `_join`: for all inputs, the indexed join returns exactly what the nested loop returns. */
  method Join(inputs: seq<Response>, mode: Option<JoinMode>, mapping: Mapping) returns (r: Result<Merged>)
    ensures r == JoinSpec(inputs, mode, mapping)
  {
    if |inputs| != 2 {
      return Err("unpack");
    }
    var left, right := inputs[0], inputs[1];
    if !left.plan.Grounded? || !right.plan.Grounded? {
      return Err("join_projection_unconfirmed");
    }
    if left.plan.datasource != mapping.left.datasource || right.plan.datasource != mapping.right.datasource {
      return Err("join_mapping_source_mismatch");
    }
    if !Projected(left, mapping.left) || !Projected(right, mapping.right) {
      return Err("join_projection_unconfirmed");
    }
    if left.result.None? || right.result.None? {
      return Err("merge_input_invalid");
    }
    var lres, rres := left.result.value, right.result.value;
    var lkey, rkey := Column(lres.rows, mapping.left.path), Column(rres.rows, mapping.right.path);
    if lkey.Err? || rkey.Err? {
      return Err("merge_input_invalid");
    }
    var lk, rk := lkey.value, rkey.value;
    var lkept, lwarnings := Prepare(lres.rows, lk, "left", mapping.nullPolicy);
    if lkept.Err? {
      return Err(lkept.code);
    }
    var rkept, rwarnings := Prepare(rres.rows, rk, "right", mapping.nullPolicy);
    if rkept.Err? {
      return Err(rkept.code);
    }
    var lrows, rrows := lkept.value, rkept.value;
    var lbad := AnyUnhashable(lrows, lk);
    var rbad := AnyUnhashable(rrows, rk);
    if lbad || rbad {
      return Err("merge_input_invalid");
    }
    if LeftUnique(mapping.cardinality) {
      var d := HasDuplicate(lrows, lk);
      if d {
        return Err("join_cardinality_violation");
      }
    }
    if RightUnique(mapping.cardinality) {
      var d := HasDuplicate(rrows, rk);
      if d {
        return Err("join_cardinality_violation");
      }
    }
    var output := Probe(mode, lrows, rrows, lk, rk, lres.columns, rres.columns);
    r := Ok(Merged(Prefixed("left_", lres.columns)
                   + (if mode == Some(Anti) then [] else Prefixed("right_", rres.columns)),
                   output, |output|, false, "keyed_join", lwarnings + rwarnings));
  }
}
