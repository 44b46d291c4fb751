/** Schema profiling: flattening nested records into dotted paths, and counting exactly where they occur. */
module Profiling {
  import opened Common

  /** A sampled value; a dictionary lists its members in order. */
  datatype Json =
    | Null
    | Boolean(b: bool)
    | Integer(i: int)
    | Number(r: real)
    | Text(s: string)
    | Array(items: seq<Json>)
    | Object(members: seq<Member>)

  datatype Member = Member(key: string, value: Json)

  datatype Entry = Entry(path: string, value: Json, isArray: bool)

  // ---- Flattening ----

  function PathOf(prefix: string, key: string): string {
    if prefix == "" then key else prefix + "." + key
  }

  /** `_flatten`: every member of every dictionary reached through dictionaries and lists of them. */
  function Flatten(value: Json, prefix: string): seq<Entry>
    decreases value, 0
  {
    if value.Object? then FlattenMembers(value.members, prefix) else []
  }

  function FlattenMembers(members: seq<Member>, prefix: string): seq<Entry>
    decreases members, 0
  {
    if members == [] then []
    else
      FlattenMembers(members[..|members| - 1], prefix)
      + FlattenMember(members[|members| - 1].value, PathOf(prefix, members[|members| - 1].key))
  }

  function FlattenMember(value: Json, path: string): seq<Entry>
    decreases value, 1
  {
    [Entry(path, value, value.Array?)]
    + (if value.Object? then Flatten(value, path)
       else if value.Array? then FlattenItems(value.items, path + "[]")
       else [])
  }

  function FlattenItems(items: seq<Json>, prefix: string): seq<Entry>
    decreases items, 0
  {
    if items == [] then []
    else FlattenItems(items[..|items| - 1], prefix) + Flatten(items[|items| - 1], prefix)
  }

  method FlattenValue(value: Json, prefix: string) returns (fields: seq<Entry>)
    ensures fields == Flatten(value, prefix)
    decreases value, 0
  {
    fields := [];
    if value.Object? {
      for i := 0 to |value.members|
        invariant fields == FlattenMembers(value.members[..i], prefix)
      {
        assert value.members[..i + 1][..i] == value.members[..i];
        var child, path := value.members[i].value, PathOf(prefix, value.members[i].key);
        var nested := [];
        if child.Object? {
          nested := FlattenValue(child, path);
        } else if child.Array? {
          nested := FlattenList(child.items, path + "[]");
        }
        assert [Entry(path, child, child.Array?)] + nested == FlattenMember(child, path);
        fields := fields + ([Entry(path, child, child.Array?)] + nested);
      }
      assert value.members[..|value.members|] == value.members;
    }
  }

  /** The dictionaries of a list, each under the list's own path. */
  method FlattenList(items: seq<Json>, prefix: string) returns (fields: seq<Entry>)
    ensures fields == FlattenItems(items, prefix)
    decreases items, 0
  {
    fields := [];
    for j := 0 to |items|
      invariant fields == FlattenItems(items[..j], prefix)
    {
      assert items[..j + 1][..j] == items[..j];
      var inner := FlattenValue(items[j], prefix);
      fields := fields + inner;
    }
    assert items[..|items|] == items;
  }

  // ---- What occurs at a path ----

  /** A way down: a member, or on through a member, if it is a list through one of its items. */
  datatype Trail = Last(member: nat) | Via(member: nat, item: Option<nat>, rest: Trail)

  /** What the way goes on through: the member itself, or the chosen item of the list it is. */
  function Through(child: Json, item: Option<nat>): Option<Json> {
    match item
    case None => if child.Object? then Some(child) else None
    case Some(i) =>
      if child.Array? && i < |child.items| && child.items[i].Object? then Some(child.items[i]) else None
  }

  predicate Leads(value: Json, t: Trail) {
    && value.Object? && t.member < |value.members|
    && (t.Via? ==>
          Through(value.members[t.member].value, t.item).Some?
          && Leads(Through(value.members[t.member].value, t.item).value, t.rest))
  }

  function Reached(value: Json, t: Trail): Json
    requires Leads(value, t)
  {
    var child := value.members[t.member].value;
    if t.Last? then child else Reached(Through(child, t.item).value, t.rest)
  }

  function Spelled(value: Json, prefix: string, t: Trail): string
    requires Leads(value, t)
  {
    var m := value.members[t.member];
    var path := if prefix == "" then m.key else prefix + "." + m.key;
    if t.Last? then path
    else Spelled(Through(m.value, t.item).value, if t.item.Some? then path + "[]" else path, t.rest)
  }

  /** The entry a way down stands for. */
  function EntryAt(value: Json, prefix: string, t: Trail): Entry
    requires Leads(value, t)
  {
    Entry(Spelled(value, prefix, t), Reached(value, t), Reached(value, t).Array?)
  }

  lemma {:induction false} TrailFlattened(value: Json, prefix: string, t: Trail)
    requires Leads(value, t)
    ensures EntryAt(value, prefix, t) in Flatten(value, prefix)
    decreases t
  {
    var m := value.members[t.member];
    var path := PathOf(prefix, m.key);
    if t.Via? {
      var next := Through(m.value, t.item).value;
      TrailFlattened(next, if t.item.Some? then path + "[]" else path, t.rest);
      if t.item.Some? {
        ItemFlattened(m.value.items, path + "[]", t.item.value);
      }
    }
    MemberFlattened(value.members, prefix, t.member);
  }

  lemma {:induction false} MemberFlattened(members: seq<Member>, prefix: string, i: nat)
    requires i < |members|
    ensures forall e :: e in FlattenMember(members[i].value, PathOf(prefix, members[i].key)) ==>
              e in FlattenMembers(members, prefix)
  {
    if i < |members| - 1 {
      MemberFlattened(members[..|members| - 1], prefix, i);
    }
  }

  lemma {:induction false} ItemFlattened(items: seq<Json>, prefix: string, i: nat)
    requires i < |items|
    ensures forall e :: e in Flatten(items[i], prefix) ==> e in FlattenItems(items, prefix)
  {
    if i < |items| - 1 {
      ItemFlattened(items[..|items| - 1], prefix, i);
    }
  }

  lemma {:induction false} EntryOfMember(members: seq<Member>, prefix: string, e: Entry) returns (i: nat)
    requires e in FlattenMembers(members, prefix)
    ensures i < |members| && e in FlattenMember(members[i].value, PathOf(prefix, members[i].key))
  {
    var n := |members| - 1;
    if e in FlattenMembers(members[..n], prefix) {
      i := EntryOfMember(members[..n], prefix, e);
    } else {
      i := n;
    }
  }

  lemma {:induction false} EntryOfItem(items: seq<Json>, prefix: string, e: Entry) returns (i: nat)
    requires e in FlattenItems(items, prefix)
    ensures i < |items| && e in Flatten(items[i], prefix)
  {
    var n := |items| - 1;
    if e in FlattenItems(items[..n], prefix) {
      i := EntryOfItem(items[..n], prefix, e);
    } else {
      i := n;
    }
  }

  lemma {:induction false} EntryHasTrail(value: Json, prefix: string, e: Entry) returns (t: Trail)
    requires e in Flatten(value, prefix)
    ensures Leads(value, t) && e == EntryAt(value, prefix, t)
    decreases value
  {
    var i := EntryOfMember(value.members, prefix, e);
    var child, path := value.members[i].value, PathOf(prefix, value.members[i].key);
    if e == Entry(path, child, child.Array?) {
      t := Last(i);
    } else if child.Object? {
      var rest := EntryHasTrail(child, path, e);
      t := Via(i, None, rest);
    } else {
      var j := EntryOfItem(child.items, path + "[]", e);
      var rest := EntryHasTrail(child.items[j], path + "[]", e);
      t := Via(i, Some(j), rest);
    }
  }

  /** Some way down the record is spelled `path`. */
  ghost predicate Occurs(value: Json, path: string) {
    exists t :: Leads(value, t) && Spelled(value, "", t) == path
  }

  /** Flattening lists exactly the members the ways down reach, under the paths that spell them. */
  lemma FlattenExact(value: Json, prefix: string, e: Entry)
    ensures e in Flatten(value, prefix) <==> exists t :: Leads(value, t) && e == EntryAt(value, prefix, t)
  {
    if e in Flatten(value, prefix) {
      var t := EntryHasTrail(value, prefix, e);
    }
    if t :| Leads(value, t) && e == EntryAt(value, prefix, t) {
      TrailFlattened(value, prefix, t);
    }
  }

  predicate HasPath(entries: seq<Entry>, path: string) {
    exists e :: e in entries && e.path == path
  }

  lemma OccursFlattened(value: Json, path: string)
    ensures Occurs(value, path) <==> HasPath(Flatten(value, ""), path)
  {
    if t :| Leads(value, t) && Spelled(value, "", t) == path {
      TrailFlattened(value, "", t);
    }
    if e :| e in Flatten(value, "") && e.path == path {
      var t := EntryHasTrail(value, "", e);
    }
  }
}
