/** Completed single-source responses as the merge engine reads them. */
module Responses {
  import opened Common

  /** A cell. The constructor is the run-time type, so equality compares type and value together. */
  datatype Value =
    | Null
    | Bool(b: bool)
    | Int(i: int)
    | Float(f: real)
    | Decimal(d: real)
    | Text(s: string)
    | Date(iso: string)
    | DateTime(iso: string)
    | Document(tag: int)  // a list or a dictionary: no hash

  type Row = map<string, Value>

  datatype SelectedField = SelectedField(objectId: string, path: string)

  /** Steps stands for every plan that is not a grounded query plan. */
  datatype QueryPlan =
    | Grounded(datasource: string, timeField: Option<string>, fields: seq<SelectedField>)
    | Steps

  datatype QueryResult = QueryResult(columns: seq<string>, rows: seq<Row>, rowCount: int, truncated: bool)

  /** `source` is the datasource the response's evidence names. */
  datatype Response = Response(plan: QueryPlan, result: Option<QueryResult>, source: Option<string>)

  /** `row.get(name)`. */
  function Get(row: Row, name: string): Value {
    if name in row then row[name] else Null
  }

  predicate Hashable(v: Value) {
    !v.Document?
  }

  /** `path.rsplit(".", 1)[-1]`: what follows the last dot. */
  function Tail(path: string): string {
    if path == [] then []
    else if '.' in path[1..] then Tail(path[1..])
    else if path[0] == '.' then path[1..]
    else path
  }

  /** The last segment of a path holds no dot, and is the path itself or follows its last dot. */
  lemma {:induction false} TailExactly(path: string)
    ensures '.' !in Tail(path) && |Tail(path)| <= |path| && path[|path| - |Tail(path)|..] == Tail(path)
    ensures if '.' in path then |Tail(path)| < |path| && path[|path| - |Tail(path)| - 1] == '.' else Tail(path) == path
  {
    if path != [] {
      var rest := path[1..];
      TailExactly(rest);
      assert path == [path[0]] + rest;
      assert '.' in path <==> path[0] == '.' || '.' in rest;
      if '.' in rest {
        assert path[|path| - |Tail(path)|..] == rest[|rest| - |Tail(rest)|..];
      }
    }
  }

  /** The name under which the first row holds `path`: the full path first, then its last segment. */
  function Column(rows: seq<Row>, path: string): Result<string> {
    if rows == [] then Ok(path)
    else if path in rows[0] then Ok(path)
    else if Tail(path) in rows[0] then Ok(Tail(path))
    else Err("merge_input_invalid")
  }

  /** Without rows any name will do; else the first row must hold the path, which is preferred, or its last segment. */
  lemma ColumnExactly(rows: seq<Row>, path: string)
    ensures rows == [] ==> Column(rows, path) == Ok(path)
    ensures rows != [] ==> (Column(rows, path).Ok? <==> path in rows[0] || Tail(path) in rows[0])
    ensures rows != [] && Column(rows, path).Ok? ==>
              && Column(rows, path).value in rows[0]
              && (Column(rows, path).value == path || (path !in rows[0] && Column(rows, path).value == Tail(path)))
    ensures Column(rows, path).Err? ==> Column(rows, path).code == "merge_input_invalid"
  {
  }

  function Rows(response: Response): Result<seq<Row>> {
    if response.result.None? then Err("merge_input_invalid") else Ok(response.result.value.rows)
  }

  function Digits(n: nat): string {
    if n < 10 then [('0' as int + n) as char] else Digits(n / 10) + Digits(n % 10)
  }

  lemma {:induction false} DigitsInjective(a: nat, b: nat)
    requires Digits(a) == Digits(b)
    ensures a == b
  {
    DigitsLength(a);
    DigitsLength(b);
    if a >= 10 && b >= 10 {
      var p, q := Digits(a / 10), Digits(b / 10);
      assert Digits(a)[..|Digits(a)| - 1] == p && Digits(b)[..|Digits(b)| - 1] == q;
      DigitsInjective(a / 10, b / 10);
      assert Digits(a)[|Digits(a)| - 1] == ('0' as int + a % 10) as char;
      assert Digits(b)[|Digits(b)| - 1] == ('0' as int + b % 10) as char;
    } else if a < 10 && b < 10 {
      assert Digits(a)[0] == ('0' as int + a) as char && Digits(b)[0] == ('0' as int + b) as char;
    }
  }

  lemma DigitsLength(a: nat)
    ensures |Digits(a)| >= 1
    ensures a >= 10 ==> |Digits(a)| >= 2
  {
    if a >= 10 {
      DigitsLength(a / 10);
    }
  }

  /** The number a text of decimal digits denotes. */
  ghost function Denoted(text: string): int {
    if text == [] then 0 else 10 * Denoted(text[..|text| - 1]) + (text[|text| - 1] as int - '0' as int)
  }

  /** The digits denote the number, and start with a zero only for zero itself. */
  lemma {:induction false} DigitsDenote(n: nat)
    ensures Denoted(Digits(n)) == n && |Digits(n)| >= 1
    ensures forall i :: 0 <= i < |Digits(n)| ==> '0' <= Digits(n)[i] <= '9'
    ensures n > 0 ==> Digits(n)[0] != '0'
  {
    if n >= 10 {
      DigitsDenote(n / 10);
      DigitsDenote(n % 10);
      assert Digits(n)[..|Digits(n)| - 1] == Digits(n / 10);
    } else {
      assert Digits(n)[..0] == [];
    }
  }
}
