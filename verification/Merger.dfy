/** The controlled merger: budget checks around one of five deterministic operations. */
module Merger {
  import opened Common
  import opened Responses
  import opened KeyedJoin
  import opened TimeSeries

  datatype Operation = CompareScalars | CombineScalars | UnionRows | AlignTimeSeries | Keyed

  datatype ScalarOperation = Sum | Difference | Ratio | PercentageChange | PercentageDifference

  datatype MergePlan = MergePlan(operation: Operation, inputTaskIds: seq<string>, mappingId: Option<string>,
                                 joinMode: Option<JoinMode>, scalarOperation: Option<ScalarOperation>, options: bool)

  datatype Scope = Scope(workspace: string, allowed: seq<string>, maxSources: int, maxRowsPerSource: int,
                         maxTotalRows: int, maxIntermediateBytes: int, deadline: int, allowJoin: bool)

  /** What the merger takes as given: the ISO date test, the clock, and the encoded size of a row list. */
  datatype Environment = Environment(validDay: string -> bool, now: int, size: seq<Row> -> nat)

  function Name(operation: Operation): string {
    match operation
    case CompareScalars => "compare_scalars"
    case CombineScalars => "combine_scalars"
    case UnionRows => "union_rows"
    case AlignTimeSeries => "align_time_series"
    case Keyed => "keyed_join"
  }

  // ---- Scalars ----

  function ScalarName(operation: ScalarOperation): string {
    match operation
    case Sum => "sum"
    case Difference => "difference"
    case Ratio => "ratio"
    case PercentageChange => "percentage_change"
    case PercentageDifference => "percentage_difference"
  }

  function Number(v: Value): Option<real> {
    match v
    case Int(i) => Some(i as real)
    case Float(f) => Some(f)
    case Decimal(d) => Some(d)
    case _ => None
  }

  function Plain(r: real): Value {
    if r.Floor as real == r then Int(r.Floor) else Float(r)
  }

  function Total(values: seq<real>): real {
    if values == [] then 0.0 else Total(values[..|values| - 1]) + values[|values| - 1]
  }

  function ScalarLabel(index: nat, name: string): string {
    "source_" + Digits(index) + "_" + name
  }

  datatype Scalars = Scalars(labels: seq<string>, values: seq<real>)

  /** One name and one number from every input, each holding a single one-cell row. */
  ghost function ScalarInputs(inputs: seq<Response>): Result<Scalars> {
    if inputs == [] then Ok(Scalars([], []))
    else
      match ScalarInputs(inputs[..|inputs| - 1])
      case Err(code) => Err(code)
      case Ok(done) =>
        var rows := Rows(inputs[|inputs| - 1]);
        if rows.Err? then Err(rows.code)
        else if |rows.value| != 1 || |rows.value[0]| != 1 then Err("merge_input_invalid")
        else
          var name := OnlyKey(rows.value[0]);
          match Number(rows.value[0][name])
          case None => Err("merge_input_invalid")
          case Some(v) => Ok(Scalars(done.labels + [ScalarLabel(|inputs|, name)], done.values + [v]))
  }

  ghost function OnlyKey(row: Row): (name: string)
    requires |row| == 1
    ensures name in row && forall k :: k in row ==> k == name
  {
    var name :| name in row;
    OnlyKeyIsOnly(row, name);
    name
  }

  lemma OnlyKeyIsOnly(row: Row, name: string)
    requires |row| == 1 && name in row
    ensures forall k :: k in row ==> k == name
  {
    assert |row.Keys| == 1;
    assert |row.Keys - {name}| == 0;
    assert row.Keys - {name} == {};
    assert row.Keys == (row.Keys - {name}) + {name};
  }

  function Calculate(operation: ScalarOperation, values: seq<real>): Result<real> {
    match operation
    case Sum => Ok(Total(values))
    case Difference => if values == [] then Err("index") else Ok(values[0] - Total(values[1..]))
    case _ =>
      if |values| != 2 then Err("merge_input_invalid")
      else if values[1] == 0.0 then Err("division_by_zero")
      else if operation == Ratio then Ok(values[0] / values[1])
      else Ok((values[0] - values[1]) / values[1] * 100.0)
  }

  function ScalarRow(labels: seq<string>, values: seq<real>): Row
    requires |labels| == |values|
  {
    if labels == [] then map[]
    else
      var last := |labels| - 1;
      ScalarRow(labels[..last], values[..last])[labels[last] := Plain(values[last])]
  }

  ghost function ScalarSpec(plan: MergePlan, inputs: seq<Response>): Result<Merged> {
    match ScalarInputs(inputs)
    case Err(code) => Err(code)
    case Ok(s) =>
      if |s.labels| != |s.values| then Err("zip")
      else
        var row := ScalarRow(s.labels, s.values);
        match plan.scalarOperation
        case None => Ok(Merged(s.labels, [row], 1, false, Name(plan.operation), []))
        case Some(op) =>
          match Calculate(op, s.values)
          case Err(code) => Err(code)
          case Ok(v) =>
            Ok(Merged(s.labels + [ScalarName(op)], [row[ScalarName(op) := Plain(v)]], 1, false,
                      Name(plan.operation), []))
  }

  lemma ScalarErrorStays(inputs: seq<Response>, n: nat)
    requires n <= |inputs| && ScalarInputs(inputs[..n]).Err?
    ensures ScalarInputs(inputs) == ScalarInputs(inputs[..n])
    decreases |inputs|
  {
    if n == |inputs| {
      assert inputs[..n] == inputs;
    } else {
      assert inputs[..|inputs| - 1][..n] == inputs[..n];
      ScalarErrorStays(inputs[..|inputs| - 1], n);
    }
  }

  /** `_scalars`. */
  method MergeScalars(plan: MergePlan, inputs: seq<Response>) returns (r: Result<Merged>)
    ensures r == ScalarSpec(plan, inputs)
  {
    var labels: seq<string>, values: seq<real> := [], [];
    for i := 0 to |inputs|
      invariant |labels| == |values| == i
      invariant ScalarInputs(inputs[..i]) == Ok(Scalars(labels, values))
    {
      assert inputs[..i + 1][..i] == inputs[..i];
      var rows := Rows(inputs[i]);
      if rows.Err? {
        ScalarErrorStays(inputs, i + 1);
        return Err(rows.code);
      }
      if |rows.value| != 1 || |rows.value[0]| != 1 {
        ScalarErrorStays(inputs, i + 1);
        return Err("merge_input_invalid");
      }
      var row := rows.value[0];
      var name :| name in row;
      OnlyKeyIsOnly(row, name);
      var number := Number(row[name]);
      if number.None? {
        ScalarErrorStays(inputs, i + 1);
        return Err("merge_input_invalid");
      }
      labels := labels + [ScalarLabel(i + 1, name)];
      values := values + [number.value];
    }
    assert inputs[..|inputs|] == inputs;
    var row := ScalarRow(labels, values);
    if plan.scalarOperation.None? {
      return Ok(Merged(labels, [row], 1, false, Name(plan.operation), []));
    }
    var op := plan.scalarOperation.value;
    var calculated := Calculate(op, values);
    if calculated.Err? {
      return Err(calculated.code);
    }
    r := Ok(Merged(labels + [ScalarName(op)], [row[ScalarName(op) := Plain(calculated.value)]], 1, false,
                   Name(plan.operation), []));
  }

  // ---- Union ----

  function Kind(v: Value): nat {
    match v
    case Null => 0
    case Bool(_) => 1
    case Int(_) => 2
    case Float(_) => 3
    case Decimal(_) => 4
    case Text(_) => 5
    case Date(_) => 6
    case DateTime(_) => 7
    case Document(_) => 8
  }

  function Kinds(rows: seq<Row>, column: string): set<nat> {
    set row | row in rows && Get(row, column) != Null :: Kind(Get(row, column))
  }

  function Concatenated(inputs: seq<Response>): seq<Row> {
    if inputs == [] then []
    else
      Concatenated(inputs[..|inputs| - 1])
      + (if inputs[|inputs| - 1].result.None? then [] else inputs[|inputs| - 1].result.value.rows)
  }

  function Names(columns: seq<string>): set<string> {
    set c | c in columns
  }

  /** The columns of the inputs that have a result at all. */
  function Schemas(inputs: seq<Response>): seq<seq<string>> {
    if inputs == [] then []
    else
      Schemas(inputs[..|inputs| - 1])
      + (if inputs[|inputs| - 1].result.None? then [] else [inputs[|inputs| - 1].result.value.columns])
  }

  predicate SchemasDiffer(schemas: seq<seq<string>>) {
    exists i :: 0 <= i < |schemas| && Names(schemas[i]) != Names(schemas[0])
  }

  predicate SomeMissing(inputs: seq<Response>) {
    exists i :: 0 <= i < |inputs| && inputs[i].result.None?
  }

  predicate Misshapen(rows: seq<Row>, columns: seq<string>) {
    exists i :: 0 <= i < |rows| && rows[i].Keys != Names(columns)
  }

  predicate KindsClash(rows: seq<Row>, column: string) {
    |Kinds(rows, column)| > 1 && !(Kinds(rows, column) <= {2, 3, 4})
  }

  predicate SomeClash(rows: seq<Row>, columns: seq<string>) {
    exists i :: 0 <= i < |columns| && KindsClash(rows, columns[i])
  }

  /** `_union`. */
  function UnionSpec(inputs: seq<Response>): Result<Merged> {
    var schemas := Schemas(inputs);
    if schemas == [] || SchemasDiffer(schemas) then Err("merge_schema_mismatch")
    else if SomeMissing(inputs) then Err("merge_input_invalid")
    else
      var columns, rows := schemas[0], Concatenated(inputs);
      if Misshapen(rows, columns) || SomeClash(rows, columns) then Err("merge_schema_mismatch")
      else Ok(Merged(columns, rows, |rows|, false, "union_rows", []))
  }

  lemma {:induction false} SchemasOfResults(inputs: seq<Response>)
    requires forall i :: 0 <= i < |inputs| ==> inputs[i].result.Some?
    ensures |Schemas(inputs)| == |inputs|
    ensures forall i :: 0 <= i < |inputs| ==> Schemas(inputs)[i] == inputs[i].result.value.columns
  {
    if inputs != [] {
      SchemasOfResults(inputs[..|inputs| - 1]);
    }
  }

  // ---- Budgets ----

  datatype Totals = Totals(rows: int, bytes: int)

  /** The input checks, source by source: the running totals, or the first refusal. */
  function InputTotals(inputs: seq<Response>, scope: Scope, size: seq<Row> -> nat): Result<Totals> {
    if inputs == [] then Ok(Totals(0, 0))
    else
      match InputTotals(inputs[..|inputs| - 1], scope, size)
      case Err(code) => Err(code)
      case Ok(t) =>
        var rows := Rows(inputs[|inputs| - 1]);
        if rows.Err? then Err(rows.code)
        else if |rows.value| > scope.maxRowsPerSource || t.rows + |rows.value| > scope.maxTotalRows then
          Err("result_limit")
        else if t.bytes + size(rows.value) > scope.maxIntermediateBytes then Err("result_limit")
        else Ok(Totals(t.rows + |rows.value|, t.bytes + size(rows.value)))
  }

  lemma TotalsErrorStays(inputs: seq<Response>, scope: Scope, size: seq<Row> -> nat, n: nat)
    requires n <= |inputs| && InputTotals(inputs[..n], scope, size).Err?
    ensures InputTotals(inputs, scope, size) == InputTotals(inputs[..n], scope, size)
    decreases |inputs|
  {
    if n == |inputs| {
      assert inputs[..n] == inputs;
    } else {
      assert inputs[..|inputs| - 1][..n] == inputs[..n];
      TotalsErrorStays(inputs[..|inputs| - 1], scope, size, n);
    }
  }

  method CheckInputs(inputs: seq<Response>, scope: Scope, size: seq<Row> -> nat) returns (r: Result<Totals>)
    ensures r == InputTotals(inputs, scope, size)
  {
    var totalRows, totalBytes := 0, 0;
    for i := 0 to |inputs|
      invariant InputTotals(inputs[..i], scope, size) == Ok(Totals(totalRows, totalBytes))
    {
      assert inputs[..i + 1][..i] == inputs[..i];
      var rows := Rows(inputs[i]);
      if rows.Err? {
        TotalsErrorStays(inputs, scope, size, i + 1);
        return Err(rows.code);
      }
      totalRows := totalRows + |rows.value|;
      if |rows.value| > scope.maxRowsPerSource || totalRows > scope.maxTotalRows {
        TotalsErrorStays(inputs, scope, size, i + 1);
        return Err("result_limit");
      }
      totalBytes := totalBytes + size(rows.value);
      if totalBytes > scope.maxIntermediateBytes {
        TotalsErrorStays(inputs, scope, size, i + 1);
        return Err("result_limit");
      }
    }
    assert inputs[..|inputs|] == inputs;
    r := Ok(Totals(totalRows, totalBytes));
  }

  // ---- Merge ----

  /** What the chosen operation returns on the inputs. */
  ghost predicate OperationOutcome(validDay: string -> bool, plan: MergePlan, inputs: seq<Response>,
                                   mapping: Option<Mapping>, r: Result<Merged>)
  {
    match plan.operation
    case CompareScalars => r == ScalarSpec(plan, inputs)
    case CombineScalars => r == ScalarSpec(plan, inputs)
    case UnionRows => r == UnionSpec(inputs)
    case AlignTimeSeries =>
      (match AllSeries(validDay, inputs)
       case Err(code) => r == Err(code)
       case Ok(series) => r.Ok? && IsAlignment(series, r.value))
    case Keyed =>
      if mapping.None? then r == Err("unsupported_merge_operation")
      else r == JoinSpec(inputs, plan.joinMode, mapping.value)
  }

  method Operate(validDay: string -> bool, plan: MergePlan, inputs: seq<Response>, mapping: Option<Mapping>)
    returns (r: Result<Merged>)
    ensures OperationOutcome(validDay, plan, inputs, mapping, r)
  {
    match plan.operation {
      case CompareScalars => r := MergeScalars(plan, inputs);
      case CombineScalars => r := MergeScalars(plan, inputs);
      case UnionRows => r := UnionSpec(inputs);
      case AlignTimeSeries => r := Align(validDay, inputs);
      case Keyed =>
        if mapping.None? {
          r := Err("unsupported_merge_operation");
        } else {
          r := Join(inputs, plan.joinMode, mapping.value);
        }
    }
  }

  predicate AnyTruncated(inputs: seq<Response>) {
    exists i :: 0 <= i < |inputs| && inputs[i].result.Some? && inputs[i].result.value.truncated
  }

  function Inputs(plan: MergePlan, responses: map<string, Response>): seq<Response>
    requires forall i :: 0 <= i < |plan.inputTaskIds| ==> plan.inputTaskIds[i] in responses
  {
    seq(|plan.inputTaskIds|, i requires 0 <= i < |plan.inputTaskIds| => responses[plan.inputTaskIds[i]])
  }

  /** `merge`, with its four row and byte checks in the order they are made. */
  method Merge(env: Environment, plan: MergePlan, responses: map<string, Response>, scope: Scope,
               mapping: Option<Mapping>)
    returns (r: Result<Merged>)
    ensures env.now >= scope.deadline ==> r == Err("federation_deadline_exceeded")
    ensures env.now < scope.deadline && (exists i :: 0 <= i < |plan.inputTaskIds| && plan.inputTaskIds[i] !in responses)
            ==> r == Err("KeyError")
    ensures env.now < scope.deadline && (forall i :: 0 <= i < |plan.inputTaskIds| ==> plan.inputTaskIds[i] in responses)
            ==> MergeOutcome(env, plan, Inputs(plan, responses), scope, mapping, r)
  {
    if env.now >= scope.deadline {
      return Err("federation_deadline_exceeded");
    }
    if exists i :: 0 <= i < |plan.inputTaskIds| && plan.inputTaskIds[i] !in responses {
      return Err("KeyError");
    }
    var inputs := Inputs(plan, responses);
    var checked := CheckInputs(inputs, scope, env.size);
    if checked.Err? {
      return Err(checked.code);
    }
    var result := Operate(env.validDay, plan, inputs, mapping);
    if result.Err? {
      return Err(result.code);
    }
    if result.value.rowCount > scope.maxTotalRows {
      return Err("result_limit");
    }
    if env.size(result.value.rows) > scope.maxIntermediateBytes {
      return Err("result_limit");
    }
    r := Ok(result.value.(operation := Name(plan.operation), truncated := AnyTruncated(inputs)));
  }

  ghost predicate MergeOutcome(env: Environment, plan: MergePlan, inputs: seq<Response>, scope: Scope,
                               mapping: Option<Mapping>, r: Result<Merged>)
  {
    match InputTotals(inputs, scope, env.size)
    case Err(code) => r == Err(code)
    case Ok(_) =>
      exists o ::
        && OperationOutcome(env.validDay, plan, inputs, mapping, o)
        && r == if o.Err? then o
                else if o.value.rowCount > scope.maxTotalRows then Err("result_limit")
                else if env.size(o.value.rows) > scope.maxIntermediateBytes then Err("result_limit")
                else Ok(o.value.(operation := Name(plan.operation), truncated := AnyTruncated(inputs)))
  }
}
