/** Alignment of governed time series as a full outer join on the time key. */
module TimeSeries {
  import opened Common
  import opened SortedText
  import opened Responses
  import opened KeyedJoin

  type Series = map<string, Value>

  predicate IsDigit(c: char) { '0' <= c <= '9' }

  function DigitValue(c: char): int { c as int - '0' as int }

  predicate MonthShape(s: string) {
    |s| == 7 && s[4] == '-' && forall i :: 0 <= i < 7 && i != 4 ==> IsDigit(s[i])
  }

  /** The time key of one axis value. `validDay` decides whether ten leading characters are an ISO date. */
  function AxisKey(validDay: string -> bool, v: Value): Option<string> {
    match v
    case Date(iso) => Some(iso)
    case DateTime(iso) => Some(iso)
    case Text(s) =>
      if s == "" then None
      else if MonthShape(s) then
        if 1 <= 10 * DigitValue(s[5]) + DigitValue(s[6]) <= 12 then Some(s) else None
      else if validDay(s[..Min(10, |s|)]) then Some(s)
      else None
    case _ => None
  }

  /** The series read from `rows`: one value per time key, refusing a bad axis value or a repeated key. */
  function SeriesOf(validDay: string -> bool, rows: seq<Row>, axis: string, metric: string): Result<Series> {
    if rows == [] then Ok(map[])
    else
      var init, last := rows[..|rows| - 1], rows[|rows| - 1];
      match SeriesOf(validDay, init, axis, metric)
      case Err(code) => Err(code)
      case Ok(m) =>
        match AxisKey(validDay, Get(last, axis))
        case None => Err("merge_input_invalid")
        case Some(key) =>
          if key in m then Err("merge_time_axis_duplicate") else Ok(m[key := Get(last, metric)])
  }

  /** The result columns other than the axis. */
  function Metrics(columns: seq<string>, axis: string): seq<string> {
    if columns == [] then []
    else (if columns[0] == axis then [] else [columns[0]]) + Metrics(columns[1..], axis)
  }

  /** The series of one input: its axis column is chosen by the first row, its metric by the result columns. */
  function InputSeries(validDay: string -> bool, rows: seq<Row>, path: string, columns: seq<string>): Result<Series> {
    var axis := Column(rows, path);
    if axis.Err? then Err(axis.code)
    else if rows == [] then Ok(map[])
    else
      var metrics := Metrics(columns, axis.value);
      if |metrics| != 1 then Err("merge_input_invalid") else SeriesOf(validDay, rows, axis.value, metrics[0])
  }

  function SourceSeries(validDay: string -> bool, response: Response): Result<Series> {
    if !response.plan.Grounded? || response.plan.timeField.None? then Err("merge_time_axis_unconfirmed")
    else if response.result.None? then Err("merge_input_invalid")
    else
      InputSeries(validDay, response.result.value.rows, response.plan.timeField.value, response.result.value.columns)
  }

  function AllSeries(validDay: string -> bool, inputs: seq<Response>): Result<seq<Series>> {
    if inputs == [] then Ok([])
    else
      match AllSeries(validDay, inputs[..|inputs| - 1])
      case Err(code) => Err(code)
      case Ok(done) =>
        match SourceSeries(validDay, inputs[|inputs| - 1])
        case Err(code) => Err(code)
        case Ok(s) => Ok(done + [s])
  }

  // ---- The aligned table ----

  function SourceColumn(i: nat): string {
    "source_" + Digits(i) + "_value"
  }

  function Cell(s: Series, key: string): Value {
    if key in s then s[key] else Null
  }

  function AlignedRow(series: seq<Series>, key: string): Row {
    if series == [] then map["time_key" := Text(key)]
    else
      AlignedRow(series[..|series| - 1], key)[SourceColumn(|series|) := Cell(series[|series| - 1], key)]
  }

  /** `keys` lists the union of the input keys in strictly increasing order. */
  ghost predicate UnionKeys(series: seq<Series>, keys: seq<string>) {
    && Increasing(keys)
    && forall k :: k in keys <==> exists i :: 0 <= i < |series| && k in series[i]
  }

  /** One row per key, in order. */
  ghost predicate AlignedRows(series: seq<Series>, keys: seq<string>, rows: seq<Row>) {
    |rows| == |keys| && forall n :: 0 <= n < |keys| ==> rows[n] == AlignedRow(series, keys[n])
  }

  function AlignedColumns(n: nat): seq<string> {
    ["time_key"] + seq(n, i requires 0 <= i < n => SourceColumn(i + 1))
  }

  /** A full outer join of the series on the time key. */
  ghost predicate IsAlignment(series: seq<Series>, m: Merged) {
    && m.columns == AlignedColumns(|series|)
    && m.rowCount == |m.rows|
    && !m.truncated && m.operation == "align_time_series" && m.warnings == []
    && exists keys :: UnionKeys(series, keys) && AlignedRows(series, keys, m.rows)
  }

  // ---- The code ----

  method ReadSeries(validDay: string -> bool, rows: seq<Row>, axis: string, metric: string)
    returns (r: Result<Series>)
    ensures r == SeriesOf(validDay, rows, axis, metric)
  {
    var values: Series := map[];
    for i := 0 to |rows|
      invariant SeriesOf(validDay, rows[..i], axis, metric) == Ok(values)
    {
      assert rows[..i + 1][..i] == rows[..i];
      var key := AxisKey(validDay, Get(rows[i], axis));
      if key.None? || key.value in values {
        SeriesErrorStays(validDay, rows, axis, metric, i + 1);
        return Err(if key.None? then "merge_input_invalid" else "merge_time_axis_duplicate");
      }
      values := values[key.value := Get(rows[i], metric)];
    }
    assert rows[..|rows|] == rows;
    r := Ok(values);
  }

  lemma SeriesErrorStays(validDay: string -> bool, rows: seq<Row>, axis: string, metric: string, n: nat)
    requires n <= |rows| && SeriesOf(validDay, rows[..n], axis, metric).Err?
    ensures SeriesOf(validDay, rows, axis, metric) == SeriesOf(validDay, rows[..n], axis, metric)
    decreases |rows|
  {
    if n == |rows| {
      assert rows[..n] == rows;
    } else {
      assert rows[..|rows| - 1][..n] == rows[..n];
      SeriesErrorStays(validDay, rows[..|rows| - 1], axis, metric, n);
    }
  }

  lemma AllSeriesErrorStays(validDay: string -> bool, inputs: seq<Response>, n: nat)
    requires n <= |inputs| && AllSeries(validDay, inputs[..n]).Err?
    ensures AllSeries(validDay, inputs) == AllSeries(validDay, inputs[..n])
    decreases |inputs|
  {
    if n == |inputs| {
      assert inputs[..n] == inputs;
    } else {
      assert inputs[..|inputs| - 1][..n] == inputs[..n];
      AllSeriesErrorStays(validDay, inputs[..|inputs| - 1], n);
    }
  }

  /** The series of every input in order, and the union of their keys. */
  method ReadAll(validDay: string -> bool, inputs: seq<Response>) returns (r: Result<seq<Series>>, union: set<string>)
    ensures r == AllSeries(validDay, inputs)
    ensures r.Ok? ==> forall k :: k in union <==> exists n :: 0 <= n < |r.value| && k in r.value[n]
  {
    var series: seq<Series> := [];
    union := {};
    for i := 0 to |inputs|
      invariant AllSeries(validDay, inputs[..i]) == Ok(series)
      invariant forall k :: k in union <==> exists n :: 0 <= n < |series| && k in series[n]
    {
      assert inputs[..i + 1][..i] == inputs[..i];
      var source := inputs[i];
      var values := ReadSource(validDay, source);
      if values.Err? {
        AllSeriesErrorStays(validDay, inputs, i + 1);
        return Err(values.code), union;
      }
      UnionGrows(series, union, values.value);
      series := series + [values.value];
      union := union + values.value.Keys;
    }
    assert inputs[..|inputs|] == inputs;
    r := Ok(series);
  }

  method BuildRow(series: seq<Series>, key: string) returns (row: Row)
    ensures row == AlignedRow(series, key)
  {
    row := map["time_key" := Text(key)];
    for i := 0 to |series|
      invariant row == AlignedRow(series[..i], key)
    {
      assert series[..i + 1][..i] == series[..i];
      row := row[SourceColumn(i + 1) := Cell(series[i], key)];
    }
    assert series[..|series|] == series;
  }

  /** `_timeseries`: fails exactly where reading the inputs fails, and otherwise returns their alignment. */
  method Align(validDay: string -> bool, inputs: seq<Response>) returns (r: Result<Merged>)
    ensures AllSeries(validDay, inputs).Err? ==> r == Err(AllSeries(validDay, inputs).code)
    ensures AllSeries(validDay, inputs).Ok? ==> r.Ok? && IsAlignment(AllSeries(validDay, inputs).value, r.value)
  {
    var read, union := ReadAll(validDay, inputs);
    if read.Err? {
      return Err(read.code);
    }
    var series := read.value;
    var keys := SortedKeys(union);
    var rows: seq<Row> := [];
    for n := 0 to |keys|
      invariant |rows| == n && forall j :: 0 <= j < n ==> rows[j] == AlignedRow(series, keys[j])
    {
      var row := BuildRow(series, keys[n]);
      rows := rows + [row];
    }
    assert UnionKeys(series, keys) && AlignedRows(series, keys, rows);
    r := Ok(Merged(AlignedColumns(|series|), rows, |rows|, false, "align_time_series", []));
  }

  lemma UnionGrows(series: seq<Series>, union: set<string>, s: Series)
    requires forall k :: k in union <==> exists n :: 0 <= n < |series| && k in series[n]
    ensures forall k :: k in union + s.Keys <==> exists n :: 0 <= n < |series + [s]| && k in (series + [s])[n]
  {
    var longer := series + [s];
    forall k ensures k in union + s.Keys <==> exists n :: 0 <= n < |longer| && k in longer[n] {
      if k in union {
        var n :| 0 <= n < |series| && k in series[n];
        assert k in longer[n];
      }
      if k in s {
        assert k in longer[|series|];
      }
      if n :| 0 <= n < |longer| && k in longer[n] {
        assert n < |series| ==> k in series[n];
      }
    }
  }

  method ReadSource(validDay: string -> bool, response: Response) returns (r: Result<Series>)
    ensures r == SourceSeries(validDay, response)
  {
    if !response.plan.Grounded? || response.plan.timeField.None? {
      return Err("merge_time_axis_unconfirmed");
    }
    if response.result.None? {
      return Err("merge_input_invalid");
    }
    var rows := response.result.value.rows;
    var axis := Column(rows, response.plan.timeField.value);
    if axis.Err? {
      return Err(axis.code);
    }
    if rows == [] {
      return Ok(map[]);
    }
    var metrics := Metrics(response.result.value.columns, axis.value);
    if |metrics| != 1 {
      return Err("merge_input_invalid");
    }
    r := ReadSeries(validDay, rows, axis.value, metrics[0]);
  }
}
