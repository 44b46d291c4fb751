/** The rules of the scalar and union merges, in the terms of the cells they read and write. */
module MergerRules {
  import opened Common
  import opened Responses
  import opened KeyedJoin
  import opened TimeSeries
  import opened Merger
  import opened MergerFacts

  // ---- Numbers ----

  /** Integers, floats and decimals are numbers; a truth value is not. */
  lemma NumberExactly(v: Value)
    ensures Number(v).Some? <==> v.Int? || v.Float? || v.Decimal?
    ensures v.Int? ==> Number(v) == Some(v.i as real)
    ensures v.Float? ==> Number(v) == Some(v.f)
    ensures v.Decimal? ==> Number(v) == Some(v.d)
  {
  }

  ghost predicate IsWhole(r: real, i: int) {
    r == i as real
  }

  /** A result keeps its value, as an integer exactly when it is whole. */
  lemma PlainExactly(r: real)
    ensures Number(Plain(r)) == Some(r)
    ensures if exists i :: IsWhole(r, i) then Plain(r).Int? else Plain(r).Float?
  {
    if i :| IsWhole(r, i) {
      assert r.Floor == i;
    }
    assert r.Floor as real == r ==> IsWhole(r, r.Floor);
  }

  /** The total is additive, and of one value that value. */
  lemma {:induction false} TotalExactly(a: seq<real>, b: seq<real>)
    ensures Total(a + b) == Total(a) + Total(b)
    ensures Total([]) == 0.0 && (|a| == 1 ==> Total(a) == a[0])
  {
    if b == [] {
      assert a + b == a;
    } else {
      var init := b[..|b| - 1];
      assert (a + b)[..|a + b| - 1] == a + init;
      TotalExactly(a, init);
    }
    assert |a| == 1 ==> a[..0] == [];
  }

  /** When there is a calculated number: a difference needs a value, a quotient two of which one is no zero. */
  lemma CalculableExactly(operation: ScalarOperation, values: seq<real>)
    ensures operation == Sum ==> Calculate(operation, values).Ok?
    ensures operation == Difference ==>
              if values == [] then Calculate(operation, values) == Err("index") else Calculate(operation, values).Ok?
    ensures operation != Sum && operation != Difference ==>
              && (Calculate(operation, values) == Err("merge_input_invalid") <==> |values| != 2)
              && (Calculate(operation, values) == Err("division_by_zero") <==> |values| == 2 && values[1] == 0.0)
              && (Calculate(operation, values).Ok? <==> |values| == 2 && values[1] != 0.0)
  {
  }

  /** The calculated number, by the equation it solves. */
  ghost predicate Solves(operation: ScalarOperation, values: seq<real>, x: real) {
    match operation
    case Sum => x == Total(values)
    case Difference => values != [] && x + Total(values[1..]) == values[0]
    case Ratio => |values| == 2 && x * values[1] == values[0]
    case _ => |values| == 2 && values[1] + x / 100.0 * values[1] == values[0]
  }

  lemma CalculateExactly(operation: ScalarOperation, values: seq<real>)
    requires Calculate(operation, values).Ok?
    ensures Solves(operation, values, Calculate(operation, values).value)
  {
    if operation == Ratio {
      Quotient(values[0], values[1]);
    } else if operation == PercentageChange || operation == PercentageDifference {
      Change(values[0], values[1]);
    }
  }

  lemma Quotient(a: real, b: real)
    requires b != 0.0
    ensures a / b * b == a
  {
  }

  lemma Change(a: real, b: real)
    requires b != 0.0
    ensures b + (a - b) / b * 100.0 / 100.0 * b == a
  {
    var q := (a - b) / b;
    Quotient(a - b, b);
    assert q * 100.0 / 100.0 == q;
  }

  // ---- Scalars ----

  /** Input i is one row of one cell, a number. */
  ghost predicate OneNumber(response: Response, name: string, number: real) {
    && response.result.Some? && |response.result.value.rows| == 1
    && response.result.value.rows[0].Keys == {name} && Number(response.result.value.rows[0][name]) == Some(number)
  }

  ghost predicate IsScalar(response: Response) {
    exists name, number :: OneNumber(response, name, number)
  }

  lemma OneNumberExactly(response: Response)
    ensures IsScalar(response)
            <==> && response.result.Some? && |response.result.value.rows| == 1 && |response.result.value.rows[0]| == 1
                 && Number(response.result.value.rows[0][OnlyKey(response.result.value.rows[0])]).Some?
  {
    if name, number :| OneNumber(response, name, number) {
      var row := response.result.value.rows[0];
      assert |row| == |row.Keys| == 1;
      assert OnlyKey(row) in row.Keys;
    }
    if response.result.Some? && |response.result.value.rows| == 1 && |response.result.value.rows[0]| == 1 {
      var row := response.result.value.rows[0];
      OnlyKeyIsOnly(row, OnlyKey(row));
      assert row.Keys == {OnlyKey(row)};
      if Number(row[OnlyKey(row)]).Some? {
        assert OneNumber(response, OnlyKey(row), Number(row[OnlyKey(row)]).value);
      }
    }
  }

  /** The inputs are read exactly when each is one number; otherwise they are invalid. */
  lemma {:induction false} ScalarsExactly(inputs: seq<Response>)
    ensures ScalarInputs(inputs).Ok? <==> forall i :: 0 <= i < |inputs| ==> IsScalar(inputs[i])
    ensures ScalarInputs(inputs).Err? ==> ScalarInputs(inputs).code == "merge_input_invalid"
  {
    if inputs != [] {
      var init := inputs[..|inputs| - 1];
      ScalarsExactly(init);
      OneNumberExactly(inputs[|inputs| - 1]);
      assert forall i :: 0 <= i < |init| ==> init[i] == inputs[i];
    }
  }

  /** What is read of input i: the name of its only cell, in its label, and its number. */
  lemma {:induction false} ScalarRead(inputs: seq<Response>, i: nat, name: string, number: real)
    requires ScalarInputs(inputs).Ok? && i < |inputs| && OneNumber(inputs[i], name, number)
    ensures
      var s := ScalarInputs(inputs).value;
      && |s.labels| == |s.values| == |inputs|
      && s.labels[i] == "source_" + Digits(i + 1) + "_" + name && s.values[i] == number
    decreases |inputs|
  {
    ScalarShape(inputs);
    var init := inputs[..|inputs| - 1];
    ScalarShape(init);
    if i < |init| {
      ScalarRead(init, i, name, number);
    } else {
      assert OnlyKey(inputs[i].result.value.rows[0]) in inputs[i].result.value.rows[0].Keys;
    }
  }

  /** The cell of source i in the merged row: its own name under its number, its own value. */
  ghost predicate CellOf(i: nat, name: string, number: real, row: Row) {
    var column := "source_" + Digits(i + 1) + "_" + name;
    column in row && Number(row[column]) == Some(number)
  }

  /**
   * The merged row of scalars holds each source's number under its label, and, of a calculation, the number
   * that solves it under the operation's name.
   */
  lemma ScalarRowExactly(plan: MergePlan, inputs: seq<Response>, i: nat, name: string, number: real)
    requires ScalarSpec(plan, inputs).Ok? && i < |inputs| && OneNumber(inputs[i], name, number)
    ensures |ScalarSpec(plan, inputs).value.rows| == 1
    ensures CellOf(i, name, number, ScalarSpec(plan, inputs).value.rows[0])
  {
    var s, row := ScalarParts(plan, inputs);
    ScalarRead(inputs, i, name, number);
    PlainExactly(number);
    assert SourceCell(s, i, row);
    if plan.scalarOperation.Some? {
      OperationIsNoLabel(plan.scalarOperation.value, i + 1, s.labels[i]);
    }
  }

  ghost predicate Holds(response: Response, number: real) {
    exists name :: OneNumber(response, name, number)
  }

  /** The number of input i is the i-th of the values. */
  ghost predicate NumbersOf(inputs: seq<Response>, values: seq<real>) {
    |values| == |inputs| && forall i :: 0 <= i < |inputs| ==> Holds(inputs[i], values[i])
  }

  lemma NumbersRead(inputs: seq<Response>)
    requires ScalarInputs(inputs).Ok?
    ensures NumbersOf(inputs, ScalarInputs(inputs).value.values)
  {
    ScalarsExactly(inputs);
    ScalarShape(inputs);
    var values := ScalarInputs(inputs).value.values;
    forall i | 0 <= i < |inputs| ensures Holds(inputs[i], values[i]) {
      assert IsScalar(inputs[i]);
      var name, number :| OneNumber(inputs[i], name, number);
      ScalarRead(inputs, i, name, number);
      assert OneNumber(inputs[i], name, values[i]);
    }
  }

  /** The calculated cell holds the number that solves the operation for the sources' numbers, in their order. */
  lemma ScalarCalculated(plan: MergePlan, inputs: seq<Response>) returns (values: seq<real>, x: real)
    requires ScalarSpec(plan, inputs).Ok? && plan.scalarOperation.Some?
    ensures NumbersOf(inputs, values) && Solves(plan.scalarOperation.value, values, x)
    ensures |ScalarSpec(plan, inputs).value.rows| == 1
    ensures
      var row, name := ScalarSpec(plan, inputs).value.rows[0], ScalarName(plan.scalarOperation.value);
      name in row && Number(row[name]) == Some(x)
  {
    var s, row := ScalarParts(plan, inputs);
    values := s.values;
    NumbersRead(inputs);
    CalculateExactly(plan.scalarOperation.value, values);
    x := Calculate(plan.scalarOperation.value, values).value;
    PlainExactly(x);
  }

  /** A scalar merge fails for an input that is no number, or where its calculation does. */
  lemma ScalarRefused(plan: MergePlan, inputs: seq<Response>)
    ensures ScalarInputs(inputs).Err? ==> ScalarSpec(plan, inputs) == Err("merge_input_invalid")
    ensures ScalarInputs(inputs).Ok? && plan.scalarOperation.None? ==> ScalarSpec(plan, inputs).Ok?
    ensures ScalarInputs(inputs).Ok? && plan.scalarOperation.Some? ==>
              var calculated := Calculate(plan.scalarOperation.value, ScalarInputs(inputs).value.values);
              && (ScalarSpec(plan, inputs).Ok? <==> calculated.Ok?)
              && (calculated.Err? ==> ScalarSpec(plan, inputs) == Err(calculated.code))
  {
    ScalarsExactly(inputs);
    if ScalarInputs(inputs).Ok? {
      ScalarShape(inputs);
    }
  }

  /** The names calculations and merges go by, each its own. */
  lemma NamesExactly(a: ScalarOperation, b: ScalarOperation)
    ensures ScalarName(Sum) == "sum" && ScalarName(Difference) == "difference" && ScalarName(Ratio) == "ratio"
    ensures ScalarName(PercentageChange) == "percentage_change"
    ensures ScalarName(PercentageDifference) == "percentage_difference"
    ensures Name(CompareScalars) == "compare_scalars" && Name(CombineScalars) == "combine_scalars"
    ensures Name(UnionRows) == "union_rows" && Name(AlignTimeSeries) == "align_time_series"
    ensures Name(Keyed) == "keyed_join"
    ensures ScalarName(a) == ScalarName(b) <==> a == b
  {
    assert |"sum"| == 3 && |"difference"| == 10 && |"ratio"| == 5;
    assert |"percentage_change"| == 17 && |"percentage_difference"| == 21;
  }

  // ---- Every operation ----

  /** Whatever operation is chosen, the result carries its name. */
  lemma OperationNamed(validDay: string -> bool, plan: MergePlan, inputs: seq<Response>, mapping: Option<Mapping>,
                       o: Result<Merged>)
    requires OperationOutcome(validDay, plan, inputs, mapping, o) && o.Ok?
    ensures o.value.operation == Name(plan.operation) && !o.value.truncated
  {
  }

  /** A merged result is marked truncated exactly when some input was. */
  lemma TruncatedExactly(env: Environment, plan: MergePlan, inputs: seq<Response>, scope: Scope,
                         mapping: Option<Mapping>, r: Result<Merged>)
    requires MergeOutcome(env, plan, inputs, scope, mapping, r) && r.Ok?
    ensures r.value.truncated
            <==> exists i :: 0 <= i < |inputs| && inputs[i].result.Some? && inputs[i].result.value.truncated
    ensures r.value.operation == Name(plan.operation)
  {
  }

  // ---- Unions with missing results ----

  /** Some input has a result, and those that have one agree on their columns. */
  ghost predicate PresentAgree(inputs: seq<Response>) {
    && (exists i :: 0 <= i < |inputs| && inputs[i].result.Some?)
    && forall i, j :: 0 <= i < |inputs| && 0 <= j < |inputs| && inputs[i].result.Some? && inputs[j].result.Some? ==>
         SameNames(inputs[i].result.value.columns, inputs[j].result.value.columns)
  }

  ghost predicate SameNames(a: seq<string>, b: seq<string>) {
    forall c :: c in a <==> c in b
  }

  lemma {:induction false} SchemasPresent(inputs: seq<Response>, columns: seq<string>)
    ensures columns in Schemas(inputs)
            <==> exists i :: 0 <= i < |inputs| && inputs[i].result.Some? && inputs[i].result.value.columns == columns
  {
    if inputs != [] {
      var init := inputs[..|inputs| - 1];
      SchemasPresent(init, columns);
      if i :| 0 <= i < |init| && init[i].result.Some? && init[i].result.value.columns == columns {
        assert inputs[i] == init[i];
      }
      if i :| 0 <= i < |inputs| && inputs[i].result.Some? && inputs[i].result.value.columns == columns {
        assert i < |init| ==> init[i] == inputs[i];
      }
    }
  }

  lemma SameNamesExactly(a: seq<string>, b: seq<string>)
    ensures Names(a) == Names(b) <==> SameNames(a, b)
  {
    if Names(a) == Names(b) {
      forall c ensures c in a <==> c in b {
        assert c in Names(a) <==> c in Names(b);
      }
    }
  }

  lemma PresentExactly(inputs: seq<Response>)
    ensures PresentAgree(inputs) <==> Schemas(inputs) != [] && !SchemasDiffer(Schemas(inputs))
  {
    var schemas := Schemas(inputs);
    if PresentAgree(inputs) {
      var k :| 0 <= k < |inputs| && inputs[k].result.Some?;
      SchemasPresent(inputs, inputs[k].result.value.columns);
      forall n | 0 <= n < |schemas| ensures Names(schemas[n]) == Names(schemas[0]) {
        SchemasPresent(inputs, schemas[n]);
        SchemasPresent(inputs, schemas[0]);
        SameNamesExactly(schemas[n], schemas[0]);
      }
    }
    if schemas != [] && !SchemasDiffer(schemas) {
      SchemasPresent(inputs, schemas[0]);
      forall i, j | 0 <= i < |inputs| && 0 <= j < |inputs| && inputs[i].result.Some? && inputs[j].result.Some?
        ensures SameNames(inputs[i].result.value.columns, inputs[j].result.value.columns)
      {
        SchemasPresent(inputs, inputs[i].result.value.columns);
        SchemasPresent(inputs, inputs[j].result.value.columns);
        SameNamesExactly(inputs[i].result.value.columns, inputs[j].result.value.columns);
      }
    }
  }

  /** With a result missing, the columns of the others are compared first. */
  lemma UnionMissing(inputs: seq<Response>)
    requires !AllResults(inputs)
    ensures UnionSpec(inputs) == Err(if PresentAgree(inputs) then "merge_input_invalid" else "merge_schema_mismatch")
  {
    PresentExactly(inputs);
    assert SomeMissing(inputs);
  }
}
