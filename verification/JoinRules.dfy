/** What a keyed join refuses and what it returns, in the terms of its inputs' own plans, rows and columns. */
module JoinRules {
  import opened Common
  import opened Responses
  import opened KeyedJoin
  import opened JoinFanOut

  // ---- Keys ----

  /** Two rows carry one key that is not null. */
  ghost predicate KeyRepeats(rows: seq<Row>, key: string) {
    exists i, j :: 0 <= i < j < |rows| && SameKey(rows[i], rows[j], key)
  }

  ghost predicate SameKey(a: Row, b: Row, key: string) {
    key in a && key in b && a[key] != Null && a[key] == b[key]
  }

  /** Some row has no key, or a null one. */
  ghost predicate KeyMissing(rows: seq<Row>, key: string) {
    exists row: Row :: row in rows && (key in row ==> row[key] == Null)
  }

  /** Some row's key is a list or a dictionary. */
  ghost predicate KeyUnhashable(rows: seq<Row>, key: string) {
    exists row: Row :: row in rows && key in row && row[key].Document?
  }

  lemma {:induction false} NonNullExactly(rows: seq<Row>, key: string)
    ensures forall row :: row in NonNull(rows, key) <==> row in rows && key in row && row[key] != Null
    ensures NonNull(rows, key) == rows <==> !KeyMissing(rows, key)
  {
    if rows != [] {
      var init, last := rows[..|rows| - 1], rows[|rows| - 1];
      NonNullExactly(init, key);
      NonNullShorter(rows, key);
      NonNullShorter(init, key);
      assert rows == init + [last];
      assert last in rows;
    }
  }

  /** Some row carries the key of `last`. */
  ghost predicate Partnered(rows: seq<Row>, last: Row, key: string) {
    exists i :: 0 <= i < |rows| && SameKey(rows[i], last, key)
  }

  lemma RepeatsSnoc(init: seq<Row>, last: Row, key: string)
    ensures KeyRepeats(init + [last], key) <==> KeyRepeats(init, key) || Partnered(init, last, key)
  {
    var rows := init + [last];
    assert forall i :: 0 <= i < |init| ==> rows[i] == init[i];
    if i, j :| 0 <= i < j < |rows| && SameKey(rows[i], rows[j], key) {
      if j < |init| {
        assert SameKey(init[i], init[j], key);
      } else {
        assert SameKey(init[i], last, key);
      }
    }
    if i, j :| 0 <= i < j < |init| && SameKey(init[i], init[j], key) {
      assert SameKey(rows[i], rows[j], key);
    }
    if i :| 0 <= i < |init| && SameKey(init[i], last, key) {
      assert SameKey(rows[i], rows[|init|], key);
    }
  }

  lemma UniqueSnoc(init: seq<Row>, last: Row, key: string)
    requires key in last && last[key] != Null
    ensures UniqueKeys(init + [last], key) <==> UniqueKeys(init, key) && !Partnered(init, last, key)
  {
    var rows := init + [last];
    assert forall i :: 0 <= i < |init| ==> rows[i] == init[i];
    if UniqueKeys(rows, key) {
      forall i | 0 <= i < |init| ensures !SameKey(init[i], last, key) {
        assert Get(rows[i], key) != Get(rows[|init|], key);
      }
      forall i, j | 0 <= i < j < |init| ensures Get(init[i], key) != Get(init[j], key) {
        assert Get(rows[i], key) != Get(rows[j], key);
      }
    }
    if !Partnered(init, last, key) {
      forall i | 0 <= i < |init| ensures Get(init[i], key) != Get(last, key) {
        assert !SameKey(init[i], last, key);
      }
    }
  }

  /** Dropping rows without a key loses no partner. */
  lemma PartnersKept(rows: seq<Row>, last: Row, key: string)
    ensures Partnered(NonNull(rows, key), last, key) <==> Partnered(rows, last, key)
  {
    var kept := NonNull(rows, key);
    NonNullExactly(rows, key);
    if i :| 0 <= i < |kept| && SameKey(kept[i], last, key) {
      assert kept[i] in rows;
      var j :| 0 <= j < |rows| && rows[j] == kept[i];
      assert SameKey(rows[j], last, key);
    }
    if i :| 0 <= i < |rows| && SameKey(rows[i], last, key) {
      assert rows[i] in kept;
      var j :| 0 <= j < |kept| && kept[j] == rows[i];
      assert SameKey(kept[j], last, key);
    }
  }

  /** The keys that are kept are unique exactly when no key that is not null repeats. */
  lemma {:induction false} UniqueExactly(rows: seq<Row>, key: string)
    ensures UniqueKeys(NonNull(rows, key), key) <==> !KeyRepeats(rows, key)
  {
    if rows != [] {
      var init, last := rows[..|rows| - 1], rows[|rows| - 1];
      UniqueExactly(init, key);
      assert rows == init + [last];
      RepeatsSnoc(init, last, key);
      PartnersKept(init, last, key);
      if key in last && last[key] != Null {
        UniqueSnoc(NonNull(init, key), last, key);
      } else {
        assert NonNull(rows, key) == NonNull(init, key);
      }
    }
  }

  lemma HashableExactly(rows: seq<Row>, key: string)
    ensures AllHashable(NonNull(rows, key), key) <==> !KeyUnhashable(rows, key)
  {
    var kept := NonNull(rows, key);
    NonNullExactly(rows, key);
    if row: Row :| row in rows && key in row && row[key].Document? {
      assert row in kept;
      var i :| 0 <= i < |kept| && kept[i] == row;
      assert !Hashable(Get(kept[i], key));
    }
    if i :| 0 <= i < |kept| && !Hashable(Get(kept[i], key)) {
      assert kept[i] in kept;
      assert kept[i] in rows && kept[i][key].Document?;
    }
  }

  // ---- Refusals ----

  /** Both inputs are answers to grounded plans that select the key field of their side of the mapping. */
  ghost predicate Confirmed(inputs: seq<Response>, mapping: Mapping) {
    && |inputs| == 2 && inputs[0].plan.Grounded? && inputs[1].plan.Grounded?
    && inputs[0].plan.datasource == mapping.left.datasource && inputs[1].plan.datasource == mapping.right.datasource
    && SelectedField(mapping.left.objectId, mapping.left.path) in inputs[0].plan.fields
    && SelectedField(mapping.right.objectId, mapping.right.path) in inputs[1].plan.fields
  }

  /** Both inputs have rows to read, with a key column each. */
  ghost predicate Readable(inputs: seq<Response>, mapping: Mapping)
    requires |inputs| == 2
  {
    && inputs[0].result.Some? && inputs[1].result.Some?
    && Column(inputs[0].result.value.rows, mapping.left.path).Ok?
    && Column(inputs[1].result.value.rows, mapping.right.path).Ok?
  }

  /** The rows and key column of one side. */
  ghost function RowsOf(response: Response): seq<Row>
    requires response.result.Some?
  {
    response.result.value.rows
  }

  ghost function KeyOf(response: Response, side: Side): string
    requires response.result.Some? && Column(RowsOf(response), side.path).Ok?
  {
    Column(RowsOf(response), side.path).value
  }

  /** What is refused before any row is looked at. */
  lemma PlanRefusals(inputs: seq<Response>, mode: Option<JoinMode>, mapping: Mapping)
    ensures JoinSpec(inputs, mode, mapping) == Err("unpack") <==> |inputs| != 2
    ensures JoinSpec(inputs, mode, mapping) == Err("join_mapping_source_mismatch") <==>
              && |inputs| == 2 && inputs[0].plan.Grounded? && inputs[1].plan.Grounded?
              && (inputs[0].plan.datasource != mapping.left.datasource
                  || inputs[1].plan.datasource != mapping.right.datasource)
    ensures JoinSpec(inputs, mode, mapping) == Err("join_projection_unconfirmed") <==>
              && |inputs| == 2
              && (!inputs[0].plan.Grounded? || !inputs[1].plan.Grounded?
                  || (inputs[0].plan.datasource == mapping.left.datasource
                      && inputs[1].plan.datasource == mapping.right.datasource && !Confirmed(inputs, mapping)))
  {
  }

  /** Some key breaks the declared cardinality: a left one that must be unique repeats, or a right one. */
  ghost predicate Violated(cardinality: Cardinality, l: seq<Row>, lk: string, r: seq<Row>, rk: string) {
    || ((cardinality == OneToOne || cardinality == OneToMany) && KeyRepeats(l, lk))
    || ((cardinality == OneToOne || cardinality == ManyToOne) && KeyRepeats(r, rk))
  }

  lemma ViolatedExactly(c: Cardinality, l: seq<Row>, lk: string, r: seq<Row>, rk: string)
    ensures Violated(c, l, lk, r, rk)
            <==> || (LeftUnique(c) && !UniqueKeys(NonNull(l, lk), lk))
                 || (RightUnique(c) && !UniqueKeys(NonNull(r, rk), rk))
  {
    UniqueExactly(l, lk);
    UniqueExactly(r, rk);
  }

  lemma KeysExactly(rows: seq<Row>, key: string)
    ensures NonNull(rows, key) == rows <==> !KeyMissing(rows, key)
    ensures AllHashable(NonNull(rows, key), key) <==> !KeyUnhashable(rows, key)
  {
    NonNullExactly(rows, key);
    HashableExactly(rows, key);
  }

  /** What is refused for the rows, in the order of the tests: null keys, unhashable keys, cardinality. */
  lemma RowRefusals(inputs: seq<Response>, mode: Option<JoinMode>, mapping: Mapping)
    requires Confirmed(inputs, mapping) && Readable(inputs, mapping)
    ensures
      var l, r := RowsOf(inputs[0]), RowsOf(inputs[1]);
      var lk, rk := KeyOf(inputs[0], mapping.left), KeyOf(inputs[1], mapping.right);
      if mapping.nullPolicy == Reject && (KeyMissing(l, lk) || KeyMissing(r, rk)) then
        JoinSpec(inputs, mode, mapping) == Err("join_null_key")
      else if KeyUnhashable(l, lk) || KeyUnhashable(r, rk) then
        JoinSpec(inputs, mode, mapping) == Err("merge_input_invalid")
      else if Violated(mapping.cardinality, l, lk, r, rk) then
        JoinSpec(inputs, mode, mapping) == Err("join_cardinality_violation")
      else JoinSpec(inputs, mode, mapping).Ok?
  {
    var l, r := RowsOf(inputs[0]), RowsOf(inputs[1]);
    var lk, rk := KeyOf(inputs[0], mapping.left), KeyOf(inputs[1], mapping.right);
    KeysExactly(l, lk);
    KeysExactly(r, rk);
    ViolatedExactly(mapping.cardinality, l, lk, r, rk);
  }

  /** Confirmed inputs without rows to read, or without a key column, are invalid. */
  lemma UnreadableRefused(inputs: seq<Response>, mode: Option<JoinMode>, mapping: Mapping)
    requires Confirmed(inputs, mapping) && !Readable(inputs, mapping)
    ensures JoinSpec(inputs, mode, mapping) == Err("merge_input_invalid")
  {
  }

  // ---- The joined table ----

  /** A left row without a partner has null cells on the right. */
  lemma Unpartnered(l: Row, lc: seq<string>, rc: seq<string>)
    ensures Pair(l, map[], lc, rc).Keys == PairColumns(lc, rc)
    ensures forall n :: n in lc ==> Pair(l, map[], lc, rc)["left_" + n] == if n in l then l[n] else Null
    ensures forall n :: n in rc ==> Pair(l, map[], lc, rc)["right_" + n] == Null
  {
    PairCells(l, map[], lc, rc);
  }

  lemma PairedColumns(l: Row, right: seq<Row>, lk: string, rk: string, lc: seq<string>, rc: seq<string>, row: Row)
    requires row in InnerLoop(l, right, lk, rk, lc, rc)
    ensures row.Keys == PairColumns(lc, rc)
  {
    InnerLoopMembers(l, right, lk, rk, lc, rc, row);
    var j :| 0 <= j < |right| && row == Pair(l, right[j], lc, rc);
    PairCells(l, right[j], lc, rc);
  }

  lemma LeftRowColumns(mode: Option<JoinMode>, l: Row, right: seq<Row>, lk: string, rk: string,
                       lc: seq<string>, rc: seq<string>, row: Row)
    requires row in LeftRow(mode, l, right, lk, rk, lc, rc)
    ensures row.Keys == if mode == Some(Anti) then PairColumns(lc, []) else PairColumns(lc, rc)
  {
    if mode == Some(Anti) {
      ProjectCells("left_", l, lc);
    } else if mode == Some(Left) && !HasMatch(l, right, lk, rk) {
      PairCells(l, map[], lc, rc);
    } else {
      PairedColumns(l, right, lk, rk, lc, rc, row);
    }
  }

  lemma {:induction false} LoopColumns(mode: Option<JoinMode>, left: seq<Row>, right: seq<Row>, lk: string, rk: string,
                                       lc: seq<string>, rc: seq<string>)
    ensures forall row :: row in NestedLoop(mode, left, right, lk, rk, lc, rc) ==>
              row.Keys == if mode == Some(Anti) then PairColumns(lc, []) else PairColumns(lc, rc)
  {
    if left != [] {
      var init, last := left[..|left| - 1], left[|left| - 1];
      LoopColumns(mode, init, right, lk, rk, lc, rc);
      forall row | row in LeftRow(mode, last, right, lk, rk, lc, rc)
        ensures row.Keys == if mode == Some(Anti) then PairColumns(lc, []) else PairColumns(lc, rc)
      {
        LeftRowColumns(mode, last, right, lk, rk, lc, rc, row);
      }
    }
  }

  /** Every row has exactly the columns the result declares: each side's under its prefix, an anti join's left alone. */
  lemma JoinedTable(inputs: seq<Response>, mode: Option<JoinMode>, mapping: Mapping)
    requires JoinSpec(inputs, mode, mapping).Ok?
    ensures
      var m, lc, rc := JoinSpec(inputs, mode, mapping).value, inputs[0].result.value.columns,
                       inputs[1].result.value.columns;
      && |m.columns| == |lc| + (if mode == Some(Anti) then 0 else |rc|)
      && (forall i :: 0 <= i < |lc| ==> m.columns[i] == "left_" + lc[i])
      && (mode != Some(Anti) ==> forall i :: 0 <= i < |rc| ==> m.columns[|lc| + i] == "right_" + rc[i])
      && (forall row :: row in m.rows ==> row.Keys == set c | c in m.columns)
      && m.rowCount == |m.rows| && !m.truncated
  {
    var lres, rres := inputs[0].result.value, inputs[1].result.value;
    var lk, rk := KeyOf(inputs[0], mapping.left), KeyOf(inputs[1], mapping.right);
    LoopColumns(mode, NonNull(lres.rows, lk), NonNull(rres.rows, rk), lk, rk, lres.columns, rres.columns);
    ColumnsNamed(lres.columns, if mode == Some(Anti) then [] else rres.columns);
  }

  lemma ColumnsNamed(lc: seq<string>, rc: seq<string>)
    ensures (set c | c in Prefixed("left_", lc) + Prefixed("right_", rc)) == PairColumns(lc, rc)
  {
    var all := Prefixed("left_", lc) + Prefixed("right_", rc);
    forall n | n in lc ensures "left_" + n in all {
      var i :| 0 <= i < |lc| && lc[i] == n;
      assert all[i] == "left_" + n;
    }
    forall n | n in rc ensures "right_" + n in all {
      var i :| 0 <= i < |rc| && rc[i] == n;
      assert all[|lc| + i] == "right_" + n;
    }
  }
}
