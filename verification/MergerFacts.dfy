/** Budgets at the merger: what the input checks accept, and why the output row check cannot refuse it. */
module MergerFacts {
  import opened Common
  import opened Responses
  import opened KeyedJoin
  import opened JoinFanOut
  import opened SortedText
  import opened TimeSeries
  import opened TimeSeriesFacts
  import opened Merger

  function SumRows(inputs: seq<Response>): nat {
    if inputs == [] then 0
    else
      SumRows(inputs[..|inputs| - 1])
      + (if inputs[|inputs| - 1].result.None? then 0 else |inputs[|inputs| - 1].result.value.rows|)
  }

  function SumBytes(inputs: seq<Response>, size: seq<Row> -> nat): nat {
    if inputs == [] then 0
    else
      SumBytes(inputs[..|inputs| - 1], size)
      + (if inputs[|inputs| - 1].result.None? then 0 else size(inputs[|inputs| - 1].result.value.rows))
  }

  ghost predicate AllResults(inputs: seq<Response>) {
    forall i :: 0 <= i < |inputs| ==> inputs[i].result.Some?
  }

  ghost predicate EachWithin(inputs: seq<Response>, max: int) {
    forall i :: 0 <= i < |inputs| && inputs[i].result.Some? ==> |inputs[i].result.value.rows| <= max
  }

  /** The running checks accept exactly the inputs that fit every limit as a whole. */
  lemma {:induction false} InputsAccepted(inputs: seq<Response>, scope: Scope, size: seq<Row> -> nat)
    ensures InputTotals(inputs, scope, size).Ok? ==>
              InputTotals(inputs, scope, size) == Ok(Totals(SumRows(inputs), SumBytes(inputs, size)))
    ensures InputTotals(inputs, scope, size).Err? && AllResults(inputs) ==>
              InputTotals(inputs, scope, size) == Err("result_limit")
    ensures inputs != [] ==>
              (InputTotals(inputs, scope, size).Ok?
               <==> AllResults(inputs) && EachWithin(inputs, scope.maxRowsPerSource)
                    && SumRows(inputs) <= scope.maxTotalRows && SumBytes(inputs, size) <= scope.maxIntermediateBytes)
  {
    if inputs != [] {
      var init, last := inputs[..|inputs| - 1], inputs[|inputs| - 1];
      InputsAccepted(init, scope, size);
      assert inputs == init + [last];
      assert AllResults(inputs) <==> AllResults(init) && last.result.Some?;
      assert EachWithin(inputs, scope.maxRowsPerSource)
             <==> EachWithin(init, scope.maxRowsPerSource)
                  && (last.result.Some? ==> |last.result.value.rows| <= scope.maxRowsPerSource);
    }
  }

  lemma {:induction false} ConcatenatedRows(inputs: seq<Response>)
    ensures |Concatenated(inputs)| == SumRows(inputs)
  {
    if inputs != [] {
      ConcatenatedRows(inputs[..|inputs| - 1]);
    }
  }

  lemma {:induction false} SeriesRows(validDay: string -> bool, inputs: seq<Response>)
    requires AllSeries(validDay, inputs).Ok?
    ensures TotalSize(AllSeries(validDay, inputs).value) <= SumRows(inputs)
    ensures |AllSeries(validDay, inputs).value| == |inputs|
  {
    if inputs != [] {
      var last := inputs[|inputs| - 1];
      SeriesRows(validDay, inputs[..|inputs| - 1]);
      var done := AllSeries(validDay, inputs[..|inputs| - 1]).value;
      var s := SourceSeries(validDay, last).value;
      assert (done + [s])[..|done|] == done;
      OneSeriesRows(validDay, last);
    }
  }

  lemma OneSeriesRows(validDay: string -> bool, response: Response)
    requires SourceSeries(validDay, response).Ok?
    ensures response.result.Some?
    ensures |SourceSeries(validDay, response).value| <= |response.result.value.rows|
  {
    var rows := response.result.value.rows;
    if rows != [] {
      var axis := Column(rows, response.plan.timeField.value).value;
      SeriesCharacter(validDay, rows, axis, Metrics(response.result.value.columns, axis)[0]);
    }
  }

  lemma {:induction false} ScalarShape(inputs: seq<Response>)
    requires ScalarInputs(inputs).Ok?
    ensures SumRows(inputs) == |inputs|
    ensures |ScalarInputs(inputs).value.labels| == |ScalarInputs(inputs).value.values| == |inputs|
  {
    if inputs != [] {
      ScalarShape(inputs[..|inputs| - 1]);
    }
  }

  lemma TwoInputs(inputs: seq<Response>, n: int)
    requires |inputs| == 2 && inputs[0].result.Some? && inputs[1].result.Some?
    requires n <= |inputs[0].result.value.rows| + |inputs[1].result.value.rows|
    ensures n <= SumRows(inputs)
  {
    assert inputs[..1][..0] == [];
    assert SumRows(inputs[..1]) == |inputs[0].result.value.rows|;
  }

  /** No operation returns more rows than its inputs hold, as long as it has an input. */
  lemma OutputRowsBounded(validDay: string -> bool, plan: MergePlan, inputs: seq<Response>, mapping: Option<Mapping>,
                          o: Result<Merged>)
    requires OperationOutcome(validDay, plan, inputs, mapping, o) && o.Ok?
    ensures o.value.rowCount == |o.value.rows|
    ensures inputs != [] ==> o.value.rowCount <= SumRows(inputs)
    ensures inputs == [] ==> o.value.rowCount == (if plan.operation.AlignTimeSeries? then 0 else 1)
  {
    match plan.operation
    case CompareScalars => ScalarShape(inputs);
    case CombineScalars => ScalarShape(inputs);
    case UnionRows => ConcatenatedRows(inputs);
    case AlignTimeSeries =>
      var series := AllSeries(validDay, inputs).value;
      SeriesRows(validDay, inputs);
      AlignmentBounded(series, o.value);
    case Keyed => KeyedRowsBounded(plan, inputs, mapping.value, o);
  }

  lemma KeyedRowsBounded(plan: MergePlan, inputs: seq<Response>, mapping: Mapping, o: Result<Merged>)
    requires o == JoinSpec(inputs, plan.joinMode, mapping) && o.Ok?
    ensures |inputs| == 2 && o.value.rowCount == |o.value.rows| <= SumRows(inputs)
  {
    FanOutBounded(inputs, plan.joinMode, mapping);
    TwoInputs(inputs, o.value.rowCount);
  }

  /**
   * Once the input checks have passed, the output row check refuses a result exactly when there were
   * no inputs at all and the scope admits fewer rows than the empty operation returns.
   */
  lemma OutputRowCheck(env: Environment, plan: MergePlan, inputs: seq<Response>, scope: Scope,
                       mapping: Option<Mapping>, o: Result<Merged>)
    requires InputTotals(inputs, scope, env.size).Ok?
    requires OperationOutcome(env.validDay, plan, inputs, mapping, o) && o.Ok?
    ensures o.value.rowCount > scope.maxTotalRows
            <==> inputs == [] && scope.maxTotalRows < (if plan.operation.AlignTimeSeries? then 0 else 1)
  {
    InputsAccepted(inputs, scope, env.size);
    OutputRowsBounded(env.validDay, plan, inputs, mapping, o);
  }

  /** A merge over inputs that fit is refused for a limit only when the merged rows encode too large. */
  lemma OnlyOutputBytesCanFail(env: Environment, plan: MergePlan, inputs: seq<Response>, scope: Scope,
                               mapping: Option<Mapping>, r: Result<Merged>)
    requires inputs != [] && AllResults(inputs) && EachWithin(inputs, scope.maxRowsPerSource)
    requires SumRows(inputs) <= scope.maxTotalRows && SumBytes(inputs, env.size) <= scope.maxIntermediateBytes
    requires MergeOutcome(env, plan, inputs, scope, mapping, r)
    ensures exists o :: OperationOutcome(env.validDay, plan, inputs, mapping, o)
                        && (o.Err? ==> r == o)
                        && (o.Ok? ==> (r.Err? <==> env.size(o.value.rows) > scope.maxIntermediateBytes)
                                      && (r.Err? ==> r == Err("result_limit"))
                                      && (r.Ok? ==> r.value.rows == o.value.rows)
                                      && (r.Ok? ==> r.value.rowCount == o.value.rowCount))
  {
    InputsAccepted(inputs, scope, env.size);
    var o :| OperationOutcome(env.validDay, plan, inputs, mapping, o)
             && r == if o.Err? then o
                     else if o.value.rowCount > scope.maxTotalRows then Err("result_limit")
                     else if env.size(o.value.rows) > scope.maxIntermediateBytes then Err("result_limit")
                     else Ok(o.value.(operation := Name(plan.operation), truncated := AnyTruncated(inputs)));
    if o.Ok? {
      OutputRowCheck(env, plan, inputs, scope, mapping, o);
    }
  }

  // ---- Scalar cells ----

  lemma NoUnderscore(n: nat)
    ensures forall i :: 0 <= i < |Digits(n)| ==> Digits(n)[i] != '_'
  {
    if n >= 10 {
      NoUnderscore(n / 10);
      NoUnderscore(n % 10);
    }
  }

  lemma LabelsDiffer(i: nat, a: string, j: nat, b: string)
    requires i != j
    ensures ScalarLabel(i, a) != ScalarLabel(j, b)
  {
    if ScalarLabel(i, a) == ScalarLabel(j, b) {
      NoUnderscore(i);
      NoUnderscore(j);
      var p, q := Digits(i), Digits(j);
      var s, t := ScalarLabel(i, a)[7..], ScalarLabel(j, b)[7..];
      assert s == p + "_" + a && t == q + "_" + b;
      assert s[|p|] == '_' && t[|q|] == '_';
      assert |p| == |q|;
      assert p == s[..|p|] && q == t[..|q|];
      DigitsInjective(i, j);
    }
  }

  ghost predicate IsLabel(text: string, i: nat) {
    exists name :: text == ScalarLabel(i, name)
  }

  lemma {:induction false} LabelsNumbered(inputs: seq<Response>)
    requires ScalarInputs(inputs).Ok?
    ensures forall i :: 0 <= i < |ScalarInputs(inputs).value.labels| ==>
              IsLabel(ScalarInputs(inputs).value.labels[i], i + 1)
  {
    if inputs != [] {
      ScalarShape(inputs);
      ScalarShape(inputs[..|inputs| - 1]);
      LabelsNumbered(inputs[..|inputs| - 1]);
      var name := OnlyKey(Rows(inputs[|inputs| - 1]).value[0]);
      assert IsLabel(ScalarLabel(|inputs|, name), |inputs|);
    }
  }

  lemma {:induction false} DistinctCells(labels: seq<string>, values: seq<real>)
    requires |labels| == |values| && Distinct(labels)
    ensures forall i :: 0 <= i < |labels| ==>
              labels[i] in ScalarRow(labels, values) && ScalarRow(labels, values)[labels[i]] == Plain(values[i])
    ensures forall k :: k in ScalarRow(labels, values) ==> k in labels
  {
    if labels != [] {
      var last := |labels| - 1;
      DistinctCells(labels[..last], values[..last]);
    }
  }

  /** Source i has its own label, numbered i + 1, and its number stands under it. */
  ghost predicate SourceCell(s: Scalars, i: nat, row: Row)
    requires i < |s.labels| == |s.values|
  {
    IsLabel(s.labels[i], i + 1) && s.labels[i] in row && row[s.labels[i]] == Plain(s.values[i])
  }

  /** Every source has its cell in the row, and every cell but perhaps `extra` is a source's. */
  ghost predicate CellsOf(s: Scalars, row: Row, extra: Option<string>) {
    && |s.labels| == |s.values|
    && (forall i :: 0 <= i < |s.labels| ==> SourceCell(s, i, row))
    && forall k :: k in row ==> k in s.labels || extra == Some(k)
  }

  /** The cells of the sources alone: no two share a label. */
  lemma SourceCells(inputs: seq<Response>)
    requires ScalarInputs(inputs).Ok?
    ensures
      var s := ScalarInputs(inputs).value;
      |s.labels| == |s.values| == |inputs| && CellsOf(s, ScalarRow(s.labels, s.values), None)
  {
    ScalarShape(inputs);
    LabelsNumbered(inputs);
    var s := ScalarInputs(inputs).value;
    forall i, j | 0 <= i < j < |s.labels| ensures s.labels[i] != s.labels[j] {
      assert IsLabel(s.labels[i], i + 1) && IsLabel(s.labels[j], j + 1);
      var a :| s.labels[i] == ScalarLabel(i + 1, a);
      var b :| s.labels[j] == ScalarLabel(j + 1, b);
      LabelsDiffer(i + 1, a, j + 1, b);
    }
    DistinctCells(s.labels, s.values);
  }

  lemma OperationIsNoLabel(operation: ScalarOperation, i: nat, text: string)
    requires IsLabel(text, i)
    ensures ScalarName(operation) != text
  {
    var name :| text == ScalarLabel(i, name);
    assert text[0] == 's' && text[1] == 'o';
  }

  /** The calculated cell displaces no source's cell. */
  lemma CalculationApart(s: Scalars, row: Row, operation: ScalarOperation, v: Value)
    requires CellsOf(s, row, None)
    ensures CellsOf(s, row[ScalarName(operation) := v], Some(ScalarName(operation)))
  {
    var name := ScalarName(operation);
    var after := row[name := v];
    forall i | 0 <= i < |s.labels| ensures SourceCell(s, i, after) {
      assert SourceCell(s, i, row);
      OperationIsNoLabel(operation, i + 1, s.labels[i]);
    }
    assert forall k :: k in after ==> k == name || k in row;
  }

  /** What the merged row is made of. */
  lemma ScalarParts(plan: MergePlan, inputs: seq<Response>) returns (s: Scalars, row: Row)
    requires ScalarSpec(plan, inputs).Ok?
    ensures ScalarInputs(inputs) == Ok(s) && |s.labels| == |s.values| == |inputs| && CellsOf(s, row, None)
    ensures plan.scalarOperation.None? ==> ScalarSpec(plan, inputs).value.rows == [row]
    ensures plan.scalarOperation.Some? ==>
              var op := plan.scalarOperation.value;
              && Calculate(op, s.values).Ok?
              && ScalarSpec(plan, inputs).value.rows == [row[ScalarName(op) := Plain(Calculate(op, s.values).value)]]
  {
    s := ScalarInputs(inputs).value;
    SourceCells(inputs);
    row := ScalarRow(s.labels, s.values);
  }

  /**
   * The merged row, calculated cell included: every input number under its own label, the calculation
   * under the operation's name, displacing none of them, and no other cell.
   */
  lemma ScalarCells(plan: MergePlan, inputs: seq<Response>)
    requires ScalarSpec(plan, inputs).Ok?
    ensures ScalarInputs(inputs).Ok? && |ScalarSpec(plan, inputs).value.rows| == 1
    ensures
      var s, row := ScalarInputs(inputs).value, ScalarSpec(plan, inputs).value.rows[0];
      && |s.labels| == |inputs|
      && match plan.scalarOperation
         case None => CellsOf(s, row, None)
         case Some(op) =>
           && CellsOf(s, row, Some(ScalarName(op)))
           && Calculate(op, s.values).Ok? && Get(row, ScalarName(op)) == Plain(Calculate(op, s.values).value)
  {
    var s, row := ScalarParts(plan, inputs);
    if plan.scalarOperation.Some? {
      var op := plan.scalarOperation.value;
      CalculationApart(s, row, op, Plain(Calculate(op, s.values).value));
    }
  }

  // ---- Union ----

  /** Where the rows of input i start in the union. */
  function Offset(inputs: seq<Response>, i: nat): nat
    requires i <= |inputs|
  {
    SumRows(inputs[..i])
  }

  /** `part` stands in `rows` from position `at`. */
  ghost predicate HoldsFrom(rows: seq<Row>, at: nat, part: seq<Row>) {
    at + |part| <= |rows| && rows[at..at + |part|] == part
  }

  lemma {:induction false} UnionRowsInOrder(inputs: seq<Response>, i: nat)
    requires i < |inputs| && AllResults(inputs)
    ensures HoldsFrom(Concatenated(inputs), Offset(inputs, i), inputs[i].result.value.rows)
    decreases |inputs|
  {
    var init := inputs[..|inputs| - 1];
    ConcatenatedRows(init);
    if i < |init| {
      assert init[..i] == inputs[..i];
      UnionRowsInOrder(init, i);
    } else {
      assert inputs[..i] == init;
    }
  }

  /** Any two cells of the column that are not null have one type, or all of them are numbers. */
  ghost predicate OneKind(rows: seq<Row>, column: string) {
    SameKind(rows, column) || AllNumbers(rows, column)
  }

  ghost predicate SameKind(rows: seq<Row>, column: string) {
    forall a, b :: a in rows && b in rows && Get(a, column) != Null && Get(b, column) != Null ==>
      SameType(Get(a, column), Get(b, column))
  }

  /** The two cells have one run-time type. */
  ghost predicate SameType(a: Value, b: Value) {
    match a
    case Null => b.Null?
    case Bool(_) => b.Bool?
    case Int(_) => b.Int?
    case Float(_) => b.Float?
    case Decimal(_) => b.Decimal?
    case Text(_) => b.Text?
    case Date(_) => b.Date?
    case DateTime(_) => b.DateTime?
    case Document(_) => b.Document?
  }

  /** Cells have one kind exactly when they have one type, and three kinds are those of the numbers. */
  lemma KindExactly(a: Value, b: Value)
    ensures Kind(a) == Kind(b) <==> SameType(a, b)
    ensures 2 <= Kind(a) <= 4 <==> a.Int? || a.Float? || a.Decimal?
  {
  }

  ghost predicate SameColumns(inputs: seq<Response>)
    requires inputs != [] && AllResults(inputs)
  {
    forall i, c :: 0 <= i < |inputs| ==>
      (c in inputs[i].result.value.columns <==> c in inputs[0].result.value.columns)
  }

  /** The inputs can be united: the same columns throughout, and every column of one kind, or of numbers. */
  ghost predicate Unitable(inputs: seq<Response>) {
    && inputs != [] && AllResults(inputs) && SameColumns(inputs)
    && var rows, columns := Concatenated(inputs), inputs[0].result.value.columns;
    && (forall row :: row in rows ==> row.Keys == set c | c in columns)
    && forall c :: c in columns ==> OneKind(rows, c)
  }

  lemma TwoApart<T>(s: set<T>) returns (x: T, y: T)
    requires |s| > 1
    ensures x in s && y in s && x != y
  {
    x :| x in s;
    assert |s - {x}| > 0;
    y :| y in s - {x};
  }

  lemma AtMostOne<T>(s: set<T>, x: T, y: T)
    requires |s| <= 1 && x in s && y in s
    ensures x == y
  {
    assert |s - {x}| == 0;
    assert s - {x} == {};
  }

  lemma KindsExact(rows: seq<Row>, column: string)
    ensures KindsClash(rows, column) <==> !OneKind(rows, column)
  {
    var kinds := Kinds(rows, column);
    if |kinds| <= 1 {
      forall a, b | a in rows && b in rows && Get(a, column) != Null && Get(b, column) != Null
        ensures SameType(Get(a, column), Get(b, column))
      {
        KindExactly(Get(a, column), Get(b, column));
        AtMostOne(kinds, Kind(Get(a, column)), Kind(Get(b, column)));
      }
    } else {
      ManyKinds(rows, column);
    }
  }

  ghost predicate AllNumbers(rows: seq<Row>, column: string) {
    forall a :: a in rows && Get(a, column) != Null ==>
      Get(a, column).Int? || Get(a, column).Float? || Get(a, column).Decimal?
  }

  lemma NumberKinds(rows: seq<Row>, column: string)
    ensures Kinds(rows, column) <= {2, 3, 4} <==> AllNumbers(rows, column)
  {
    if Kinds(rows, column) <= {2, 3, 4} {
      forall a | a in rows && Get(a, column) != Null
        ensures Get(a, column).Int? || Get(a, column).Float? || Get(a, column).Decimal?
      {
        KindExactly(Get(a, column), Null);
        assert Kind(Get(a, column)) in Kinds(rows, column);
      }
    }
    if AllNumbers(rows, column) {
      forall k | k in Kinds(rows, column) ensures k in {2, 3, 4} {
      }
    }
  }

  lemma ManyKinds(rows: seq<Row>, column: string)
    requires |Kinds(rows, column)| > 1
    ensures Kinds(rows, column) <= {2, 3, 4} <==> OneKind(rows, column)
  {
    NumberKinds(rows, column);
    var x, y := TwoApart(Kinds(rows, column));
    var a :| a in rows && Get(a, column) != Null && Kind(Get(a, column)) == x;
    var b :| b in rows && Get(b, column) != Null && Kind(Get(b, column)) == y;
    KindExactly(Get(a, column), Get(b, column));
    assert !SameKind(rows, column);
  }

  lemma UnionOk(inputs: seq<Response>)
    requires inputs != [] && AllResults(inputs)
    ensures UnionSpec(inputs).Ok? <==> Unitable(inputs)
    ensures UnionSpec(inputs).Ok? ==>
              && UnionSpec(inputs).value.columns == inputs[0].result.value.columns
              && UnionSpec(inputs).value.rows == Concatenated(inputs)
  {
    SchemasOfResults(inputs);
    var columns, rows := inputs[0].result.value.columns, Concatenated(inputs);
    SchemasExact(inputs);
    ShapesExact(rows, columns);
    ClashesExact(rows, columns);
  }

  lemma SchemasExact(inputs: seq<Response>)
    requires inputs != [] && AllResults(inputs)
    ensures SchemasDiffer(Schemas(inputs)) <==> !SameColumns(inputs)
  {
    SchemasOfResults(inputs);
    var schemas := Schemas(inputs);
    if SameColumns(inputs) {
      forall i | 0 <= i < |schemas| ensures Names(schemas[i]) == Names(schemas[0]) {
        assert forall c :: c in schemas[i] <==> c in schemas[0];
      }
    } else {
      var i, c :| 0 <= i < |inputs|
                  && !(c in inputs[i].result.value.columns <==> c in inputs[0].result.value.columns);
      assert c in Names(schemas[i]) <==> c !in Names(schemas[0]);
    }
  }

  lemma ShapesExact(rows: seq<Row>, columns: seq<string>)
    ensures Misshapen(rows, columns) <==> !(forall row :: row in rows ==> row.Keys == Names(columns))
  {
  }

  lemma ClashesExact(rows: seq<Row>, columns: seq<string>)
    ensures SomeClash(rows, columns) <==> !(forall c :: c in Names(columns) ==> OneKind(rows, c))
  {
    forall c ensures KindsClash(rows, c) <==> !OneKind(rows, c) {
      KindsExact(rows, c);
    }
    assert forall c :: c in Names(columns) <==> c in columns;
  }

  /**
   * A union succeeds exactly on inputs that can be united, and then holds every input's rows, input by
   * input and in order, each with exactly the common columns.
   */
  lemma UnionExact(inputs: seq<Response>)
    ensures UnionSpec(inputs).Ok? <==> Unitable(inputs)
    ensures UnionSpec(inputs).Err? && (inputs == [] || AllResults(inputs)) ==>
              UnionSpec(inputs) == Err("merge_schema_mismatch")
    ensures UnionSpec(inputs).Ok? ==>
              var m := UnionSpec(inputs).value;
              && m.columns == inputs[0].result.value.columns && m.rowCount == |m.rows| == SumRows(inputs)
              && (forall row :: row in m.rows ==> row.Keys == set c | c in m.columns)
              && forall i :: 0 <= i < |inputs| ==> HoldsFrom(m.rows, Offset(inputs, i), inputs[i].result.value.rows)
  {
    if inputs != [] && AllResults(inputs) {
      UnionOk(inputs);
      ConcatenatedRows(inputs);
      forall i | 0 <= i < |inputs|
        ensures HoldsFrom(Concatenated(inputs), Offset(inputs, i), inputs[i].result.value.rows)
      {
        UnionRowsInOrder(inputs, i);
      }
    } else if inputs != [] {
      assert SomeMissing(inputs);
    }
  }
}
