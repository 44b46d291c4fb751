/** Why the time-series alignment is exact, bounded and independent of row order. */
module TimeSeriesFacts {
  import opened Common
  import opened Ordering
  import opened Responses
  import opened KeyedJoin
  import opened SortedText
  import opened TimeSeries

  // ---- The table is determined by the series ----

  lemma {:induction false} KeysUnique(a: seq<string>, b: seq<string>)
    requires Increasing(a) && Increasing(b)
    requires forall k :: k in a <==> k in b
    ensures a == b
  {
    assert |a| > 0 ==> a[0] in b;
    assert |b| > 0 ==> b[0] in a;
    if a != [] {
      var i :| 0 <= i < |a| && a[i] == b[0];
      var j :| 0 <= j < |b| && b[j] == a[0];
      if i > 0 && j > 0 {
        StrLeAntisymmetric(a[0], b[0]);
      }
      assert a[0] == b[0];
      forall k ensures k in a[1..] <==> k in b[1..] {
        assert k in a <==> k == a[0] || k in a[1..];
        assert k in b <==> k == b[0] || k in b[1..];
        assert a[0] !in a[1..] && b[0] !in b[1..];
      }
      KeysUnique(a[1..], b[1..]);
    }
  }

  /** Two alignments of the same series are the same table. */
  lemma AlignmentUnique(series: seq<Series>, a: Merged, b: Merged)
    requires IsAlignment(series, a) && IsAlignment(series, b)
    ensures a == b
  {
    var p :| UnionKeys(series, p) && AlignedRows(series, p, a.rows);
    var q :| UnionKeys(series, q) && AlignedRows(series, q, b.rows);
    forall k ensures k in p <==> k in q {
    }
    KeysUnique(p, q);
  }

  lemma {:induction false} RowCells(series: seq<Series>, key: string)
    ensures "time_key" in AlignedRow(series, key) && AlignedRow(series, key)["time_key"] == Text(key)
    ensures forall i :: 1 <= i <= |series| ==>
              SourceColumn(i) in AlignedRow(series, key)
              && AlignedRow(series, key)[SourceColumn(i)] == Cell(series[i - 1], key)
  {
    if series != [] {
      var last := |series| - 1;
      RowCells(series[..last], key);
      assert SourceColumn(|series|)[0] == 's' && "time_key"[0] == 't';
      forall i | 1 <= i <= last ensures SourceColumn(i) != SourceColumn(|series|) {
        ColumnsDiffer(i, |series|);
      }
    }
  }

  lemma ColumnsDiffer(i: nat, j: nat)
    requires i != j
    ensures SourceColumn(i) != SourceColumn(j)
  {
    if SourceColumn(i) == SourceColumn(j) {
      var a, b := SourceColumn(i), SourceColumn(j);
      assert a[7..|a| - 6] == Digits(i) && b[7..|b| - 6] == Digits(j);
      DigitsInjective(i, j);
    }
  }

  /** The column of source i, counted from one. */
  ghost predicate ColumnOf(name: string, i: nat) {
    name == "source_" + Digits(i) + "_value"
  }

  /** The row of a time key: the key itself, and in the column of each source its value at the key, or null. */
  ghost predicate RowOf(series: seq<Series>, key: string, row: Row) {
    && "time_key" in row && row["time_key"] == Text(key)
    && (forall i, name :: 1 <= i <= |series| && ColumnOf(name, i) ==>
          name in row && row[name] == if key in series[i - 1] then series[i - 1][key] else Null)
    && forall name :: name in row ==> name == "time_key" || exists i :: 1 <= i <= |series| && ColumnOf(name, i)
  }

  lemma {:induction false} AlignedRowExactly(series: seq<Series>, key: string)
    ensures RowOf(series, key, AlignedRow(series, key))
  {
    RowCells(series, key);
    if series != [] {
      AlignedRowExactly(series[..|series| - 1], key);
      assert ColumnOf(SourceColumn(|series|), |series|);
    }
    var row := AlignedRow(series, key);
    forall i, name | 1 <= i <= |series| && ColumnOf(name, i)
      ensures name in row && row[name] == if key in series[i - 1] then series[i - 1][key] else Null
    {
      assert name == SourceColumn(i);
    }
  }

  /** Row n is that of the n-th time key, under a column for the key and one for each source in order. */
  lemma AlignmentCells(series: seq<Series>, m: Merged, keys: seq<string>)
    requires IsAlignment(series, m) && UnionKeys(series, keys)
    ensures |m.rows| == |keys| && forall n :: 0 <= n < |keys| ==> RowOf(series, keys[n], m.rows[n])
    ensures |m.columns| == |series| + 1 && m.columns[0] == "time_key"
    ensures forall i :: 1 <= i <= |series| ==> ColumnOf(m.columns[i], i)
  {
    var p :| UnionKeys(series, p) && AlignedRows(series, p, m.rows);
    KeysUnique(p, keys);
    forall n | 0 <= n < |keys| ensures RowOf(series, keys[n], m.rows[n]) {
      AlignedRowExactly(series, keys[n]);
    }
  }

  // ---- What is read as a time key, and as the metric ----

  /** Two decimal digits. */
  ghost function TwoDigits(n: nat): string {
    if n < 10 then "0" + Digits(n) else Digits(n)
  }

  /** A year of four digits and a month of two, January to December. */
  ghost predicate IsMonth(s: string) {
    && |s| == 7 && s[4] == '-' && (forall i :: 0 <= i < 4 ==> '0' <= s[i] <= '9')
    && exists month: nat :: 1 <= month <= 12 && s[5..] == TwoDigits(month)
  }

  /** Four digits, a dash and two digits. */
  ghost predicate LooksLikeMonth(s: string) {
    |s| == 7 && s[4] == '-' && forall i :: 0 <= i < 7 && i != 4 ==> '0' <= s[i] <= '9'
  }

  /** The number two characters denote as decimal digits. */
  ghost function TensAndOnes(a: char, b: char): int {
    10 * (a as int - '0' as int) + (b as int - '0' as int)
  }

  lemma TwoDigitsDenote(n: nat)
    requires n < 100
    ensures |TwoDigits(n)| == 2 && TensAndOnes(TwoDigits(n)[0], TwoDigits(n)[1]) == n
    ensures '0' <= TwoDigits(n)[0] <= '9' && '0' <= TwoDigits(n)[1] <= '9'
  {
    if n >= 10 {
      assert Digits(n) == Digits(n / 10) + Digits(n % 10);
    }
  }

  lemma PairsDiffer(a: char, b: char, c: char, d: char)
    requires '0' <= a <= '9' && '0' <= b <= '9' && '0' <= c <= '9' && '0' <= d <= '9'
             && TensAndOnes(a, b) == TensAndOnes(c, d)
    ensures a == c && b == d
  {
  }

  lemma MonthExactly(s: string)
    requires LooksLikeMonth(s)
    ensures IsMonth(s) <==> 1 <= TensAndOnes(s[5], s[6]) <= 12
  {
    var n := TensAndOnes(s[5], s[6]);
    if 1 <= n <= 12 {
      TwoDigitsDenote(n);
      PairsDiffer(s[5], s[6], TwoDigits(n)[0], TwoDigits(n)[1]);
      assert s[5..] == TwoDigits(n);
    }
    if IsMonth(s) {
      var month: nat :| 1 <= month <= 12 && s[5..] == TwoDigits(month);
      TwoDigitsDenote(month);
      assert s[5] == s[5..][0] && s[6] == s[5..][1];
    }
  }

  /**
   * A time key is a date or a time, or a text that is a month, or, not looking like one, starts with a date.
   * The key is the text itself; nothing else is one.
   */
  lemma AxisKeyExactly(validDay: string -> bool, v: Value)
    ensures v.Date? || v.DateTime? ==> AxisKey(validDay, v) == Some(v.iso)
    ensures v.Text? ==>
              (AxisKey(validDay, v).Some?
               <==> v.s != "" && if LooksLikeMonth(v.s) then IsMonth(v.s)
                                 else validDay(if |v.s| <= 10 then v.s else v.s[..10]))
    ensures v.Text? && AxisKey(validDay, v).Some? ==> AxisKey(validDay, v) == Some(v.s)
    ensures v.Null? || v.Bool? || v.Int? || v.Float? || v.Decimal? || v.Document? ==> AxisKey(validDay, v) == None
  {
    if v.Text? && LooksLikeMonth(v.s) {
      MonthExactly(v.s);
    }
    if v.Text? && |v.s| <= 10 {
      assert v.s[..|v.s|] == v.s;
    }
  }

  /** The metric candidates are the result columns that are not the axis. */
  lemma {:induction false} MetricsExactly(columns: seq<string>, axis: string)
    ensures forall c :: c in Metrics(columns, axis) <==> c in columns && c != axis
    ensures |Metrics(columns, axis)| == |columns| - multiset(columns)[axis]
  {
    if columns != [] {
      MetricsExactly(columns[1..], axis);
      assert columns == [columns[0]] + columns[1..];
    }
  }

  /** An input is read under its axis column, as the values of its only other column; without rows it is empty. */
  lemma InputExactly(validDay: string -> bool, rows: seq<Row>, path: string, columns: seq<string>)
    ensures rows == [] ==> InputSeries(validDay, rows, path, columns) == Ok(map[])
    ensures rows != [] ==>
              (InputSeries(validDay, rows, path, columns).Ok?
               <==> && Column(rows, path).Ok? && |columns| == multiset(columns)[Column(rows, path).value] + 1
                    && Keyed(validDay, rows, Column(rows, path).value))
    ensures rows != [] && InputSeries(validDay, rows, path, columns).Ok? ==>
              exists metric :: metric in columns && metric != Column(rows, path).value
                               && Holds(validDay, rows, Column(rows, path).value, metric,
                                        InputSeries(validDay, rows, path, columns).value)
  {
    if rows != [] && Column(rows, path).Ok? {
      var axis := Column(rows, path).value;
      MetricsExactly(columns, axis);
      if |Metrics(columns, axis)| == 1 {
        var metric := Metrics(columns, axis)[0];
        assert metric in Metrics(columns, axis);
        SeriesCharacter(validDay, rows, axis, metric);
      }
    }
  }

  // ---- Row count ----

  function TotalSize(series: seq<Series>): nat {
    if series == [] then 0 else TotalSize(series[..|series| - 1]) + |series[|series| - 1]|
  }

  function UnionOf(series: seq<Series>): set<string> {
    if series == [] then {} else UnionOf(series[..|series| - 1]) + series[|series| - 1].Keys
  }

  lemma {:induction false} UnionBounded(series: seq<Series>)
    ensures |UnionOf(series)| <= TotalSize(series)
    ensures forall k :: k in UnionOf(series) <==> exists i :: 0 <= i < |series| && k in series[i]
  {
    if series != [] {
      var init, last := series[..|series| - 1], series[|series| - 1];
      UnionBounded(init);
      UnionSize(UnionOf(init), last.Keys);
      UnionGrows(init, UnionOf(init), last);
      assert series == init + [last];
    }
  }

  lemma UnionSize(a: set<string>, b: set<string>)
    ensures |a + b| <= |a| + |b|
  {
    assert a + b == a + (b - a);
    assert b == (b - a) + (b * a);
  }

  lemma {:induction false} DistinctCount(keys: seq<string>, s: set<string>)
    requires Distinct(keys) && forall k :: k in keys ==> k in s
    ensures |keys| <= |s|
  {
    if keys != [] {
      var last := |keys| - 1;
      assert keys[last] in s;
      forall k | k in keys[..last] ensures k in s - {keys[last]} {
        var i :| 0 <= i < last && keys[..last][i] == k;
        assert keys[i] == k;
      }
      DistinctCount(keys[..last], s - {keys[last]});
    }
  }

  /** The aligned table never has more rows than its inputs together. */
  lemma AlignmentBounded(series: seq<Series>, m: Merged)
    requires IsAlignment(series, m)
    ensures m.rowCount <= TotalSize(series)
  {
    var p :| UnionKeys(series, p) && AlignedRows(series, p, m.rows);
    UnionBounded(series);
    DistinctCount(p, UnionOf(series));
  }

  // ---- Row order ----

  function KeyOf(validDay: string -> bool, row: Row, axis: string): Option<string> {
    AxisKey(validDay, Get(row, axis))
  }

  ghost predicate Keyed(validDay: string -> bool, rows: seq<Row>, axis: string) {
    && (forall i :: 0 <= i < |rows| ==> KeyOf(validDay, rows[i], axis).Some?)
    && forall i, j :: 0 <= i < j < |rows| ==> KeyOf(validDay, rows[i], axis) != KeyOf(validDay, rows[j], axis)
  }

  /** `m` maps the key of every row to its metric, and has no other key. */
  ghost predicate Holds(validDay: string -> bool, rows: seq<Row>, axis: string, metric: string, m: Series) {
    && (forall r :: r in rows && KeyOf(validDay, r, axis).Some? ==>
          KeyOf(validDay, r, axis).value in m && m[KeyOf(validDay, r, axis).value] == Get(r, metric))
    && forall k :: k in m ==> exists r :: r in rows && KeyOf(validDay, r, axis) == Some(k)
  }

  lemma KeyedSnoc(validDay: string -> bool, init: seq<Row>, last: Row, axis: string)
    ensures Keyed(validDay, init + [last], axis)
            <==> Keyed(validDay, init, axis) && KeyOf(validDay, last, axis).Some?
                 && forall i :: 0 <= i < |init| ==> KeyOf(validDay, init[i], axis) != KeyOf(validDay, last, axis)
  {
    var rows := init + [last];
    assert rows[|init|] == last;
    assert forall i :: 0 <= i < |init| ==> rows[i] == init[i];
    if Keyed(validDay, rows, axis) {
      forall i | 0 <= i < |init|
        ensures KeyOf(validDay, init[i], axis).Some? && KeyOf(validDay, init[i], axis) != KeyOf(validDay, last, axis)
      {
        assert KeyOf(validDay, rows[i], axis) != KeyOf(validDay, rows[|init|], axis);
      }
      forall i, j | 0 <= i < j < |init| ensures KeyOf(validDay, init[i], axis) != KeyOf(validDay, init[j], axis) {
        assert KeyOf(validDay, rows[i], axis) != KeyOf(validDay, rows[j], axis);
      }
    }
  }

  lemma HoldsSnoc(validDay: string -> bool, init: seq<Row>, last: Row, axis: string, metric: string, m: Series,
                   key: string)
    requires Holds(validDay, init, axis, metric, m)
    requires KeyOf(validDay, last, axis) == Some(key) && key !in m
    ensures Holds(validDay, init + [last], axis, metric, m[key := Get(last, metric)])
    ensures forall i :: 0 <= i < |init| ==> KeyOf(validDay, init[i], axis) != Some(key)
  {
    forall i | 0 <= i < |init| ensures KeyOf(validDay, init[i], axis) != Some(key) {
      assert init[i] in init;
    }
    var grown := m[key := Get(last, metric)];
    forall k | k in grown ensures exists r :: r in init + [last] && KeyOf(validDay, r, axis) == Some(k) {
      if k == key {
        assert last in init + [last];
      } else {
        var r :| r in init && KeyOf(validDay, r, axis) == Some(k);
        assert r in init + [last];
      }
    }
  }

  /** A key that is in the series is that of some row. */
  lemma HeldKey(validDay: string -> bool, rows: seq<Row>, axis: string, metric: string, m: Series, key: string)
    requires Holds(validDay, rows, axis, metric, m) && key in m
    ensures exists i :: 0 <= i < |rows| && KeyOf(validDay, rows[i], axis) == Some(key)
  {
    var r :| r in rows && KeyOf(validDay, r, axis) == Some(key);
    var i :| 0 <= i < |rows| && rows[i] == r;
  }

  ghost predicate ReadAs(validDay: string -> bool, rows: seq<Row>, axis: string, metric: string, r: Result<Series>) {
    && (r.Ok? <==> Keyed(validDay, rows, axis))
    && (r.Ok? ==> Holds(validDay, rows, axis, metric, r.value) && |r.value| == |rows|)
  }

  lemma SeriesSnoc(validDay: string -> bool, init: seq<Row>, last: Row, axis: string, metric: string, m: Series)
    requires ReadAs(validDay, init, axis, metric, Ok(m))
    ensures
      var key := KeyOf(validDay, last, axis);
      ReadAs(validDay, init + [last], axis, metric,
             if key.None? || key.value in m then Err("") else Ok(m[key.value := Get(last, metric)]))
  {
    KeyedSnoc(validDay, init, last, axis);
    var key := KeyOf(validDay, last, axis);
    if key.Some? && key.value in m {
      HeldKey(validDay, init, axis, metric, m, key.value);
    } else if key.Some? {
      HoldsSnoc(validDay, init, last, axis, metric, m, key.value);
    }
  }

  /** A series is read exactly when every row has a time key and no key repeats; it holds one entry a row. */
  lemma {:induction false} SeriesCharacter(validDay: string -> bool, rows: seq<Row>, axis: string, metric: string)
    ensures SeriesOf(validDay, rows, axis, metric).Ok? <==> Keyed(validDay, rows, axis)
    ensures SeriesOf(validDay, rows, axis, metric).Ok? ==>
              Holds(validDay, rows, axis, metric, SeriesOf(validDay, rows, axis, metric).value)
              && |SeriesOf(validDay, rows, axis, metric).value| == |rows|
  {
    if rows != [] {
      var init, last := rows[..|rows| - 1], rows[|rows| - 1];
      SeriesCharacter(validDay, init, axis, metric);
      assert rows == init + [last];
      var before := SeriesOf(validDay, init, axis, metric);
      if before.Ok? {
        SeriesSnoc(validDay, init, last, axis, metric, before.value);
      } else {
        KeyedSnoc(validDay, init, last, axis);
      }
    }
  }

  lemma KeyedReordered(validDay: string -> bool, rows: seq<Row>, other: seq<Row>, axis: string)
    requires multiset(rows) == multiset(other) && Keyed(validDay, rows, axis)
    ensures Keyed(validDay, other, axis)
  {
    forall i | 0 <= i < |other| ensures KeyOf(validDay, other[i], axis).Some? {
      assert other[i] in multiset(rows);
    }
    forall i, j | 0 <= i < j < |other|
      ensures KeyOf(validDay, other[i], axis) != KeyOf(validDay, other[j], axis)
    {
      if other[i] == other[j] {
        RepeatCounts(other, i, j);
        CountsRepeat(rows, other[i]);
        assert false;
      }
      assert other[i] in multiset(rows) && other[j] in multiset(rows);
      var p :| 0 <= p < |rows| && rows[p] == other[i];
      var q :| 0 <= q < |rows| && rows[q] == other[j];
      assert p < q || q < p;
    }
  }

  /** Under a fixed axis column the series depends on the rows as a multiset, not on their order. */
  lemma SeriesReordered(validDay: string -> bool, rows: seq<Row>, other: seq<Row>, axis: string, metric: string)
    requires multiset(rows) == multiset(other)
    ensures SeriesOf(validDay, rows, axis, metric).Ok? <==> SeriesOf(validDay, other, axis, metric).Ok?
    ensures SeriesOf(validDay, rows, axis, metric).Ok? ==>
              SeriesOf(validDay, rows, axis, metric) == SeriesOf(validDay, other, axis, metric)
  {
    SeriesCharacter(validDay, rows, axis, metric);
    SeriesCharacter(validDay, other, axis, metric);
    if Keyed(validDay, rows, axis) {
      KeyedReordered(validDay, rows, other, axis);
      var a, b := SeriesOf(validDay, rows, axis, metric).value, SeriesOf(validDay, other, axis, metric).value;
      HoldsReordered(validDay, rows, other, axis, metric, a);
      SameEntries(validDay, other, axis, metric, a, b);
    }
    if Keyed(validDay, other, axis) {
      KeyedReordered(validDay, other, rows, axis);
    }
  }

  lemma HoldsReordered(validDay: string -> bool, rows: seq<Row>, other: seq<Row>, axis: string, metric: string,
                        m: Series)
    requires multiset(rows) == multiset(other) && Holds(validDay, rows, axis, metric, m)
    ensures Holds(validDay, other, axis, metric, m)
  {
    forall r ensures r in rows <==> r in other {
      assert r in multiset(rows) <==> r in multiset(other);
    }
  }

  lemma SameEntries(validDay: string -> bool, rows: seq<Row>, axis: string, metric: string, a: Series, b: Series)
    requires Holds(validDay, rows, axis, metric, a) && Holds(validDay, rows, axis, metric, b)
    ensures a == b
  {
    forall k ensures k in a <==> k in b {
    }
  }

  /** Every row names the axis the way the first row does. */
  ghost predicate OneAxisName(rows: seq<Row>, path: string) {
    forall i :: 0 <= i < |rows| ==> Column([rows[i]], path) == Column(rows, path)
  }

  /**
   * An input that can be aligned gives the same series in every row order exactly when all its rows
   * name the axis alike. The axis column is taken from whichever row comes first, so a row that holds
   * the full path among rows that hold only its last segment makes the outcome depend on the order.
   */
  lemma OrderInsensitive(validDay: string -> bool, rows: seq<Row>, path: string, columns: seq<string>)
    requires InputSeries(validDay, rows, path, columns).Ok?
    ensures (forall other :: multiset(other) == multiset(rows) ==>
               InputSeries(validDay, other, path, columns) == InputSeries(validDay, rows, path, columns))
            <==> OneAxisName(rows, path)
  {
    if OneAxisName(rows, path) {
      forall other | multiset(other) == multiset(rows)
        ensures InputSeries(validDay, other, path, columns) == InputSeries(validDay, rows, path, columns)
      {
        SameAxisSameSeries(validDay, rows, other, path, columns);
      }
    } else {
      var i :| 0 <= i < |rows| && Column([rows[i]], path) != Column(rows, path);
      var other := RaggedOrderFails(validDay, rows, path, columns, i);
      assert InputSeries(validDay, other, path, columns) != InputSeries(validDay, rows, path, columns);
    }
  }

  lemma SameAxisSameSeries(validDay: string -> bool, rows: seq<Row>, other: seq<Row>, path: string,
                             columns: seq<string>)
    requires OneAxisName(rows, path) && multiset(other) == multiset(rows)
    requires InputSeries(validDay, rows, path, columns).Ok?
    ensures InputSeries(validDay, other, path, columns) == InputSeries(validDay, rows, path, columns)
  {
    assert |multiset(other)| == |multiset(rows)|;
    if rows != [] {
      assert other[0] in multiset(rows);
      var p :| 0 <= p < |rows| && rows[p] == other[0];
      assert Column([rows[p]], path) == Column(rows, path);
      var axis := Column(rows, path).value;
      SeriesReordered(validDay, rows, other, axis, Metrics(columns, axis)[0]);
    }
  }

  lemma MoveFirst<T>(s: seq<T>, i: nat) returns (moved: seq<T>)
    requires i < |s|
    ensures multiset(moved) == multiset(s) && |moved| == |s| && moved[0] == s[i] && s[0] in moved
  {
    moved := [s[i]] + (s[..i] + s[i + 1..]);
    assert s == s[..i] + [s[i]] + s[i + 1..];
    assert s[0] in multiset(s) && s[0] in multiset(moved);
  }

  lemma RaggedOrderFails(validDay: string -> bool, rows: seq<Row>, path: string, columns: seq<string>, i: nat)
    returns (other: seq<Row>)
    requires InputSeries(validDay, rows, path, columns).Ok?
    requires i < |rows| && Column([rows[i]], path) != Column(rows, path)
    ensures multiset(other) == multiset(rows)
    ensures InputSeries(validDay, other, path, columns).Err?
  {
    var axis := Column(rows, path).value;
    SeriesCharacter(validDay, rows, axis, Metrics(columns, axis)[0]);
    assert KeyOf(validDay, rows[i], axis).Some?;
    assert axis != path && path in rows[i] && path !in rows[0];
    other := MoveFirst(rows, i);
    FirstRowNamesAxis(validDay, other, path, columns, rows[0]);
  }

  lemma FirstRowNamesAxis(validDay: string -> bool, rows: seq<Row>, path: string, columns: seq<string>, r: Row)
    requires rows != [] && path in rows[0]
    requires r in rows && path !in r
    ensures InputSeries(validDay, rows, path, columns).Err?
  {
    if |Metrics(columns, path)| == 1 {
      SeriesCharacter(validDay, rows, path, Metrics(columns, path)[0]);
      var j :| 0 <= j < |rows| && rows[j] == r;
      assert KeyOf(validDay, rows[j], path).None?;
    }
  }

  /**
   * It does happen: the second row holds the full path beside its last segment. Read first, it makes the
   * full path the axis, which the other row lacks.
   */
  lemma RaggedExample(validDay: string -> bool) returns (rows: seq<Row>, other: seq<Row>)
    ensures InputSeries(validDay, rows, "t.d", ["d", "m"]).Ok? && !OneAxisName(rows, "t.d")
    ensures multiset(other) == multiset(rows) && InputSeries(validDay, other, "t.d", ["d", "m"]).Err?
  {
    var plain: Row := map["d" := Text("2024-01"), "m" := Int(1)];
    var both: Row := map["d" := Text("2024-02"), "m" := Int(2), "t.d" := Null];
    rows := [plain, both];
    assert Tail("t.d") == "d" by {
      assert "t.d"[1..] == ".d" && ".d"[1..] == "d";
      assert '.' == ".d"[0];
    }
    assert "t.d"[1] == '.' && "t.d" !in plain;
    assert Column(rows, "t.d") == Ok("d") && Column([both], "t.d") == Ok("t.d");
    assert ["d", "m"][1..] == ["m"] && ["m"][1..] == [];
    assert Metrics(["d", "m"], "d") == ["m"];
    ExampleSeries(validDay, plain, both);
    other := RaggedOrderFails(validDay, rows, "t.d", ["d", "m"], 1);
  }

  lemma ExampleSeries(validDay: string -> bool, a: Row, b: Row)
    requires Get(a, "d") == Text("2024-01") && Get(b, "d") == Text("2024-02")
    ensures SeriesOf(validDay, [a, b], "d", "m").Ok?
  {
    var january, february := "2024-01", "2024-02";
    assert [a, b][..1] == [a] && [a][..0] == [];
    assert MonthShape(january) && MonthShape(february);
    assert january[6] != february[6];
    assert AxisKey(validDay, Text(january)) == Some(january) && AxisKey(validDay, Text(february)) == Some(february);
    assert SeriesOf(validDay, [], "d", "m") == Ok(map[]);
    assert SeriesOf(validDay, [a], "d", "m") == Ok(map[january := Get(a, "m")]);
  }

  // ---- The whole table ----

  /** The same answer with its rows in another order. */
  predicate Reordered(a: Response, b: Response) {
    && a.plan == b.plan && a.result.Some? && b.result.Some?
    && a.result.value.columns == b.result.value.columns
    && multiset(a.result.value.rows) == multiset(b.result.value.rows)
  }

  ghost predicate AllReordered(a: seq<Response>, b: seq<Response>) {
    |a| == |b| && forall i :: 0 <= i < |a| ==> Reordered(a[i], b[i])
  }

  ghost predicate AxisAgreed(r: Response) {
    r.plan.Grounded? && r.plan.timeField.Some? && r.result.Some?
    && OneAxisName(r.result.value.rows, r.plan.timeField.value)
  }

  lemma {:induction false} SeriesFound(validDay: string -> bool, inputs: seq<Response>, i: nat)
    requires AllSeries(validDay, inputs).Ok? && i < |inputs|
    ensures SourceSeries(validDay, inputs[i]).Ok?
  {
    if i < |inputs| - 1 {
      SeriesFound(validDay, inputs[..|inputs| - 1], i);
    }
  }

  lemma {:induction false} SameSeries(validDay: string -> bool, inputs: seq<Response>, others: seq<Response>)
    requires |inputs| == |others|
    requires forall i :: 0 <= i < |inputs| ==> SourceSeries(validDay, inputs[i]) == SourceSeries(validDay, others[i])
    ensures AllSeries(validDay, inputs) == AllSeries(validDay, others)
  {
    if inputs != [] {
      SameSeries(validDay, inputs[..|inputs| - 1], others[..|others| - 1]);
    }
  }

  /**
   * Reordering the rows of any inputs leaves what is aligned as it was, in every case, exactly when the
   * rows of each input name its axis alike.
   */
  lemma TableOrderInsensitive(validDay: string -> bool, inputs: seq<Response>)
    requires AllSeries(validDay, inputs).Ok?
    ensures (forall others :: AllReordered(inputs, others) ==>
              AllSeries(validDay, others) == AllSeries(validDay, inputs))
            <==> forall i :: 0 <= i < |inputs| ==> AxisAgreed(inputs[i])
  {
    if forall i :: 0 <= i < |inputs| ==> AxisAgreed(inputs[i]) {
      forall others | AllReordered(inputs, others) ensures AllSeries(validDay, others) == AllSeries(validDay, inputs) {
        forall i | 0 <= i < |inputs| ensures SourceSeries(validDay, inputs[i]) == SourceSeries(validDay, others[i]) {
          SeriesFound(validDay, inputs, i);
          assert Reordered(inputs[i], others[i]);
          SourceReordered(validDay, inputs[i], others[i]);
        }
        SameSeries(validDay, inputs, others);
      }
    } else {
      var i :| 0 <= i < |inputs| && !AxisAgreed(inputs[i]);
      var others := TableOrderFails(validDay, inputs, i);
      assert AllSeries(validDay, others) != AllSeries(validDay, inputs);
    }
  }

  lemma SourceReordered(validDay: string -> bool, a: Response, b: Response)
    requires SourceSeries(validDay, a).Ok? && Reordered(a, b) && AxisAgreed(a)
    ensures SourceSeries(validDay, a) == SourceSeries(validDay, b)
  {
    OrderInsensitive(validDay, a.result.value.rows, a.plan.timeField.value, a.result.value.columns);
  }

  lemma TableOrderFails(validDay: string -> bool, inputs: seq<Response>, i: nat) returns (others: seq<Response>)
    requires AllSeries(validDay, inputs).Ok? && i < |inputs| && !AxisAgreed(inputs[i])
    ensures AllReordered(inputs, others) && AllSeries(validDay, others).Err?
  {
    SeriesFound(validDay, inputs, i);
    var r := inputs[i];
    var rows, path := r.result.value.rows, r.plan.timeField.value;
    var k :| 0 <= k < |rows| && Column([rows[k]], path) != Column(rows, path);
    var moved := RaggedOrderFails(validDay, rows, path, r.result.value.columns, k);
    others := inputs[i := r.(result := Some(r.result.value.(rows := moved)))];
    forall j | 0 <= j < |inputs| ensures Reordered(inputs[j], others[j]) {
      SeriesFound(validDay, inputs, j);
    }
    if AllSeries(validDay, others).Ok? {
      SeriesFound(validDay, others, i);
      assert false;
    }
  }

  /** The merged table does not depend on the order of any input's rows when each input names its axis alike. */
  lemma AlignmentOrderInsensitive(validDay: string -> bool, inputs: seq<Response>, others: seq<Response>,
                                  a: Merged, b: Merged)
    requires AllSeries(validDay, inputs).Ok? && AllReordered(inputs, others)
    requires forall i :: 0 <= i < |inputs| ==> AxisAgreed(inputs[i])
    requires IsAlignment(AllSeries(validDay, inputs).value, a)
    requires AllSeries(validDay, others).Ok? ==> IsAlignment(AllSeries(validDay, others).value, b)
    ensures AllSeries(validDay, others).Ok? && a == b
  {
    TableOrderInsensitive(validDay, inputs);
    AlignmentUnique(AllSeries(validDay, inputs).value, a, b);
  }
}
