/** Field profiles of one data object: declared metadata joined with what the sampled records show. */
module FieldProfiles {
  import opened Common
  import opened SortedText
  import opened Profiling

  datatype FieldInfo = FieldInfo(name: string, dataType: string, nullable: bool, primaryKey: bool)

  datatype FieldProfile = FieldProfile(path: string, dataType: string, nullable: bool, primaryKey: bool, isArray: bool,
                                       observedCount: nat, sampleCount: nat)

  /** `record.get("value", record)`, or nothing for a record that is no dictionary. */
  function Payload(record: Json): Json {
    if record.Object? then
      var found := Find(record.members, "value");
      if found.Some? then found.value else record
    else Object([])
  }

  function Find(members: seq<Member>, key: string): Option<Json> {
    if members == [] then None
    else if members[0].key == key then Some(members[0].value)
    else Find(members[1..], key)
  }

  /** Member i is the first under its key. */
  ghost predicate FirstUnder(members: seq<Member>, key: string, i: int) {
    0 <= i < |members| && members[i].key == key && forall j :: 0 <= j < i ==> members[j].key != key
  }

  lemma {:induction false} FindExactly(members: seq<Member>, key: string)
    ensures Find(members, key).None? <==> forall i :: 0 <= i < |members| ==> members[i].key != key
    ensures forall i :: FirstUnder(members, key, i) ==> Find(members, key) == Some(members[i].value)
  {
    if members != [] {
      FindExactly(members[1..], key);
      forall i | FirstUnder(members, key, i) ensures Find(members, key) == Some(members[i].value) {
        if i > 0 {
          assert FirstUnder(members[1..], key, i - 1);
        }
      }
      if Find(members, key).None? {
        forall i | 0 <= i < |members| ensures members[i].key != key {
          assert i > 0 ==> members[1..][i - 1] == members[i];
        }
      }
    }
  }

  /** A record wrapped under `value` is what it wraps; any other dictionary is itself, any other value empty. */
  lemma PayloadExactly(record: Json)
    ensures !record.Object? ==> Payload(record) == Object([])
    ensures record.Object? && (forall i :: 0 <= i < |record.members| ==> record.members[i].key != "value") ==>
              Payload(record) == record
    ensures record.Object? ==>
              forall i :: FirstUnder(record.members, "value", i) ==> Payload(record) == record.members[i].value
  {
    if record.Object? {
      FindExactly(record.members, "value");
    }
  }

  function ValueType(v: Json): string {
    match v
    case Null => "null"
    case Boolean(_) => "boolean"
    case Integer(_) => "integer"
    case Number(_) => "number"
    case Object(_) => "object"
    case Array(_) => "array"
    case Text(_) => "string"
  }

  // ---- What one record shows ----

  /** The value `setdefault` keeps: the first the flattening lists under the path. */
  function FirstAt(entries: seq<Entry>, path: string): Option<Json> {
    if entries == [] then None
    else
      var before := FirstAt(entries[..|entries| - 1], path);
      if before.Some? then before
      else if entries[|entries| - 1].path == path then Some(entries[|entries| - 1].value) else None
  }

  predicate ArrayAt(entries: seq<Entry>, path: string) {
    exists e :: e in entries && e.path == path && e.isArray
  }

  lemma {:induction false} FirstFound(entries: seq<Entry>, path: string)
    ensures FirstAt(entries, path).Some? <==> HasPath(entries, path)
    ensures FirstAt(entries, path).Some? ==>
              exists e :: e in entries && e.path == path && e.value == FirstAt(entries, path).value
  {
    if entries != [] {
      var init, last := entries[..|entries| - 1], entries[|entries| - 1];
      FirstFound(init, path);
      assert entries == init + [last];
      if e :| e in init && e.path == path && FirstAt(init, path).Some? && e.value == FirstAt(init, path).value {
        assert e in entries;
      }
    }
  }

  method RecordValues(entries: seq<Entry>, known: set<string>) returns (values: map<string, Json>, arrays: set<string>)
    ensures forall p :: p in values <==> FirstAt(entries, p).Some?
    ensures forall p :: p in values ==> FirstAt(entries, p) == Some(values[p])
    ensures forall p :: p in arrays <==> p in known || ArrayAt(entries, p)
  {
    values, arrays := map[], known;
    for i := 0 to |entries|
      invariant forall p :: p in values <==> FirstAt(entries[..i], p).Some?
      invariant forall p :: p in values ==> FirstAt(entries[..i], p) == Some(values[p])
      invariant forall p :: p in arrays <==> p in known || ArrayAt(entries[..i], p)
    {
      assert entries[..i + 1] == entries[..i] + [entries[i]] && entries[..i + 1][..i] == entries[..i];
      if entries[i].path !in values {
        values := values[entries[i].path := entries[i].value];
      }
      if entries[i].isArray {
        arrays := arrays + {entries[i].path};
      }
    }
    assert entries[..|entries|] == entries;
  }

  // ---- What all records show ----

  function EntriesOf(record: Json): seq<Entry> {
    Flatten(Payload(record), "")
  }

  /** One value from every record that has the path, in record order. */
  function ObservedAt(records: seq<Json>, path: string): seq<Json> {
    if records == [] then []
    else
      var first := FirstAt(EntriesOf(records[|records| - 1]), path);
      ObservedAt(records[..|records| - 1], path) + (if first.Some? then [first.value] else [])
  }

  predicate SomeArray(records: seq<Json>, path: string) {
    exists r :: r in records && ArrayAt(EntriesOf(r), path)
  }

  /** The records in which some way down is spelled `path`. */
  ghost function RecordsWith(records: seq<Json>, path: string): set<int> {
    set i | 0 <= i < |records| && Occurs(Payload(records[i]), path)
  }

  lemma OneMoreRecord(init: seq<Json>, last: Json, path: string)
    ensures |RecordsWith(init + [last], path)|
            == |RecordsWith(init, path)| + (if Occurs(Payload(last), path) then 1 else 0)
    ensures (exists r :: r in init + [last] && !Occurs(Payload(r), path))
            <==> !Occurs(Payload(last), path) || exists r :: r in init && !Occurs(Payload(r), path)
  {
    var all := init + [last];
    assert RecordsWith(all, path)
        == if Occurs(Payload(last), path) then RecordsWith(init, path) + {|init|} else RecordsWith(init, path);
    assert last in all && forall r :: r in all <==> r in init || r == last;
  }

  /**
   * Observations are counted exactly: one value per record in which the path occurs. So there are never
   * more than records, and fewer exactly when some record lacks the path.
   */
  lemma {:induction false} ObservedExactly(records: seq<Json>, path: string)
    ensures |ObservedAt(records, path)| == |RecordsWith(records, path)| <= |records|
    ensures |ObservedAt(records, path)| < |records| <==> exists r :: r in records && !Occurs(Payload(r), path)
  {
    if records != [] {
      var n := |records| - 1;
      var init, last := records[..n], records[n];
      ObservedExactly(init, path);
      OccursFlattened(Payload(last), path);
      FirstFound(EntriesOf(last), path);
      OneMoreRecord(init, last, path);
      assert records == init + [last];
    }
  }

  /** Some way down some record is spelled `path` and reaches a list. */
  ghost predicate ListReached(records: seq<Json>, path: string) {
    exists r :: r in records && exists t :: Leads(Payload(r), t) && Spelled(Payload(r), "", t) == path
                                             && Reached(Payload(r), t).Array?
  }

  /** A path is marked an array exactly when some way down, spelled so, reaches a list. */
  lemma ArraysExactly(records: seq<Json>, path: string)
    ensures SomeArray(records, path) <==> ListReached(records, path)
  {
    if SomeArray(records, path) {
      var r :| r in records && ArrayAt(EntriesOf(r), path);
      var e :| e in EntriesOf(r) && e.path == path && e.isArray;
      var t := EntryHasTrail(Payload(r), "", e);
    }
    if ListReached(records, path) {
      var r :| r in records && exists t :: Leads(Payload(r), t) && Spelled(Payload(r), "", t) == path
                                            && Reached(Payload(r), t).Array?;
      var t :| Leads(Payload(r), t) && Spelled(Payload(r), "", t) == path && Reached(Payload(r), t).Array?;
      TrailFlattened(Payload(r), "", t);
      assert EntryAt(Payload(r), "", t) in EntriesOf(r);
      assert ArrayAt(EntriesOf(r), path);
    }
  }

  /** Some way down some record is spelled `path` and reaches `v`. */
  ghost predicate ReachedIn(records: seq<Json>, path: string, v: Json) {
    exists r, t :: r in records && Leads(Payload(r), t) && Spelled(Payload(r), "", t) == path
        && Reached(Payload(r), t) == v
  }

  lemma FirstReached(record: Json, path: string)
    requires FirstAt(EntriesOf(record), path).Some?
    ensures ReachedIn([record], path, FirstAt(EntriesOf(record), path).value)
  {
    var v := FirstAt(EntriesOf(record), path).value;
    FirstFound(EntriesOf(record), path);
    var e :| e in EntriesOf(record) && e.path == path && e.value == v;
    var t := EntryHasTrail(Payload(record), "", e);
    assert record in [record] && Reached(Payload(record), t) == v;
  }

  /** Every observed value is one that some way down, spelled so, reaches. */
  lemma {:induction false} ObservedReached(records: seq<Json>, path: string, v: Json)
    requires v in ObservedAt(records, path)
    ensures ReachedIn(records, path, v)
  {
    var init, last := records[..|records| - 1], records[|records| - 1];
    assert records == init + [last];
    if v in ObservedAt(init, path) {
      ObservedReached(init, path, v);
      var r, t :| r in init && Leads(Payload(r), t) && Spelled(Payload(r), "", t) == path
          && Reached(Payload(r), t) == v;
      assert r in records;
    } else {
      FirstReached(last, path);
      var r, t :| r in [last] && Leads(Payload(r), t) && Spelled(Payload(r), "", t) == path
          && Reached(Payload(r), t) == v;
      assert r in records;
    }
  }

  method Observe(records: seq<Json>) returns (observed: map<string, seq<Json>>, arrays: set<string>)
    ensures forall p :: p in observed <==> ObservedAt(records, p) != []
    ensures forall p :: p in observed ==> observed[p] == ObservedAt(records, p)
    ensures forall p :: p in arrays <==> SomeArray(records, p)
  {
    observed, arrays := map[], {};
    for i := 0 to |records|
      invariant forall p :: p in observed <==> ObservedAt(records[..i], p) != []
      invariant forall p :: p in observed ==> observed[p] == ObservedAt(records[..i], p)
      invariant forall p :: p in arrays <==> SomeArray(records[..i], p)
    {
      assert records[..i + 1] == records[..i] + [records[i]] && records[..i + 1][..i] == records[..i];
      var entries := FlattenValue(Payload(records[i]), "");
      var values, more := RecordValues(entries, arrays);
      ArraysGrow(records[..i], records[i]);
      observed := Append(observed, values);
      arrays := more;
    }
    assert records[..|records|] == records;
  }

  lemma ArraysGrow(records: seq<Json>, record: Json)
    ensures forall p :: SomeArray(records + [record], p) <==> SomeArray(records, p) || ArrayAt(EntriesOf(record), p)
  {
    forall p ensures SomeArray(records + [record], p) <==> SomeArray(records, p) || ArrayAt(EntriesOf(record), p) {
      assert forall r :: r in records + [record] <==> r in records || r == record;
    }
  }

  /** `observed[path].append(value)` for every value of a record. */
  method Append(observed: map<string, seq<Json>>, values: map<string, Json>) returns (after: map<string, seq<Json>>)
    ensures after.Keys == observed.Keys + values.Keys
    ensures forall p :: p in after ==>
              after[p] == (if p in observed then observed[p] else []) + (if p in values then [values[p]] else [])
  {
    after := observed;
    var todo := values.Keys;
    while todo != {}
      invariant todo <= values.Keys && after.Keys == observed.Keys + (values.Keys - todo)
      invariant forall p :: p in after ==>
                  after[p] == (if p in observed then observed[p] else [])
                              + (if p in values && p !in todo then [values[p]] else [])
      decreases todo
    {
      var p :| p in todo;
      after := after[p := (if p in after then after[p] else []) + [values[p]]];
      todo := todo - {p};
    }
  }

  // ---- Field profiles ----

  /** The declaration a path takes: the last one of that name. */
  function Declared(metadata: seq<FieldInfo>, path: string): Option<FieldInfo> {
    if metadata == [] then None
    else if metadata[|metadata| - 1].name == path then Some(metadata[|metadata| - 1])
    else Declared(metadata[..|metadata| - 1], path)
  }

  /** The type of the first observed value that is not null. */
  function Inferred(values: seq<Json>): Option<string> {
    if values == [] then None
    else if values[0] != Null then Some(ValueType(values[0]))
    else Inferred(values[1..])
  }

  lemma {:induction false} DeclaredExactly(metadata: seq<FieldInfo>, path: string)
    ensures Declared(metadata, path).None? <==> forall i :: 0 <= i < |metadata| ==> metadata[i].name != path
    ensures forall i :: 0 <= i < |metadata| && metadata[i].name == path
                        && (forall j :: i < j < |metadata| ==> metadata[j].name != path) ==>
              Declared(metadata, path) == Some(metadata[i])
  {
    if metadata != [] {
      var init := metadata[..|metadata| - 1];
      DeclaredExactly(init, path);
      assert forall i :: 0 <= i < |init| ==> init[i] == metadata[i];
    }
  }

  /** Value i is the first that is not null. */
  ghost predicate FirstShown(values: seq<Json>, i: int) {
    0 <= i < |values| && !values[i].Null? && forall j :: 0 <= j < i ==> values[j].Null?
  }

  /** The inferred type is that of the first value that is not null, by its run-time type. */
  lemma {:induction false} InferredExactly(values: seq<Json>)
    ensures Inferred(values).None? <==> forall i :: 0 <= i < |values| ==> values[i].Null?
    ensures forall i :: FirstShown(values, i) ==>
              Inferred(values)
              == Some(match values[i]
                      case Boolean(_) => "boolean"
                      case Integer(_) => "integer"
                      case Number(_) => "number"
                      case Object(_) => "object"
                      case Array(_) => "array"
                      case Text(_) => "string"
                      case Null => "null")
  {
    if values != [] {
      InferredExactly(values[1..]);
      forall i | FirstShown(values, i) ensures Inferred(values) == Some(ValueType(values[i])) {
        if i > 0 {
          assert FirstShown(values[1..], i - 1);
        }
      }
      if Inferred(values).None? {
        forall i | 0 <= i < |values| ensures values[i].Null? {
          assert i > 0 ==> values[1..][i - 1] == values[i];
        }
      }
    }
  }

  function FieldOf(metadata: seq<FieldInfo>, records: seq<Json>, path: string, isArray: bool,
                   values: seq<Json>): FieldProfile {
    var declared, inferred := Declared(metadata, path), Inferred(values);
    FieldProfile(path,
                 if declared.Some? then declared.value.dataType
                 else if inferred.Some? then inferred.value
                 else "unknown",
                 if declared.Some? then declared.value.nullable else |values| < |records|,
                 if declared.Some? then declared.value.primaryKey else path == "_id",
                 isArray, |values|, |records|)
  }

  /** What is promised of a field's profile, in terms of the records and the declaration alone. */
  ghost predicate Profiled(metadata: seq<FieldInfo>, records: seq<Json>, f: FieldProfile) {
    && f.sampleCount == |records|
    && f.observedCount == |RecordsWith(records, f.path)| <= f.sampleCount
    && (f.isArray <==> ListReached(records, f.path))
    && match Declared(metadata, f.path)
       case Some(d) => f.dataType == d.dataType && f.nullable == d.nullable && f.primaryKey == d.primaryKey
       case None =>
         && (f.nullable <==> exists r :: r in records && !Occurs(Payload(r), f.path))
         && (f.primaryKey <==> f.path == "_id")
         && f.dataType == (var inferred := Inferred(ObservedAt(records, f.path));
                           if inferred.Some? then inferred.value else "unknown")
  }

  function Names(metadata: seq<FieldInfo>): set<string> {
    set m | m in metadata :: m.name
  }

  lemma FieldIsProfiled(metadata: seq<FieldInfo>, records: seq<Json>, path: string)
    ensures Profiled(metadata, records,
                     FieldOf(metadata, records, path, SomeArray(records, path), ObservedAt(records, path)))
  {
    ObservedExactly(records, path);
    ArraysExactly(records, path);
  }

  predicate HasField(fields: seq<FieldProfile>, path: string) {
    exists i :: 0 <= i < |fields| && fields[i].path == path
  }

  /** Profiles along a list of paths cover what the list lists. */
  lemma Covered(metadata: seq<FieldInfo>, records: seq<Json>, paths: seq<string>, fields: seq<FieldProfile>)
    requires |fields| == |paths| && forall i :: 0 <= i < |paths| ==> fields[i].path == paths[i]
    requires forall p :: p in paths <==> p in Names(metadata) || ObservedAt(records, p) != []
    ensures forall p :: HasField(fields, p) <==> p in Names(metadata) || RecordsWith(records, p) != {}
  {
    forall p ensures HasField(fields, p) <==> p in Names(metadata) || RecordsWith(records, p) != {} {
      ObservedExactly(records, p);
      if p in paths {
        var i :| 0 <= i < |paths| && paths[i] == p;
        assert fields[i].path == p;
      }
    }
  }

  /** One profile for each of the first paths, in order. */
  ghost predicate Along(metadata: seq<FieldInfo>, records: seq<Json>, paths: seq<string>, fields: seq<FieldProfile>) {
    && |fields| <= |paths|
    && forall j :: 0 <= j < |fields| ==> fields[j].path == paths[j] && Profiled(metadata, records, fields[j])
  }

  lemma OneMore(metadata: seq<FieldInfo>, records: seq<Json>, paths: seq<string>, fields: seq<FieldProfile>,
                field: FieldProfile)
    requires Along(metadata, records, paths, fields) && |fields| < |paths|
    requires field.path == paths[|fields|] && Profiled(metadata, records, field)
    ensures Along(metadata, records, paths, fields + [field])
  {
  }

  /** `_build_object`'s fields: one profile per declared or observed path, in strictly increasing order. */
  method BuildFields(metadata: seq<FieldInfo>, profileRecords: seq<Json>, previews: seq<Json>)
    returns (fields: seq<FieldProfile>)
    ensures
      var records := if profileRecords != [] then profileRecords else previews;
      && (forall i :: 0 <= i < |fields| ==> Profiled(metadata, records, fields[i]))
      && (forall i, j :: 0 <= i < j < |fields| ==>
          StrLe(fields[i].path, fields[j].path) && fields[i].path != fields[j].path)
      && (forall p :: HasField(fields, p) <==> p in Names(metadata) || RecordsWith(records, p) != {})
  {
    var records := if profileRecords != [] then profileRecords else previews;
    var observed, arrays := Observe(records);
    var paths := SortedKeys(Names(metadata) + observed.Keys);
    fields := [];
    for i := 0 to |paths|
      invariant |fields| == i && Along(metadata, records, paths, fields)
    {
      var path := paths[i];
      var field := FieldOf(metadata, records, path, path in arrays, if path in observed then observed[path] else []);
      assert field.path == path && Profiled(metadata, records, field) by {
        FieldIsProfiled(metadata, records, path);
      }
      OneMore(metadata, records, paths, fields, field);
      fields := fields + [field];
    }
    Covered(metadata, records, paths, fields);
  }
}
