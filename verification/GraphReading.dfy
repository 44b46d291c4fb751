/** The read model of the published graph: merging bounded reads into one deterministic structure. */
module GraphReading {
  import opened Common
  import opened Ordering
  import opened Canonical

  // `facts` stands for the descriptive columns that neither identity nor order depends on.
  datatype Datasource = Datasource(nodeId: string, datasourceId: string, facts: string)

  datatype DataObject = DataObject(nodeId: string, datasourceId: string, name: string,
                                   qualifiedName: Option<string>, facts: string)

  datatype Field = Field(nodeId: string, objectId: string, datasourceId: string, path: string, facts: string)

  datatype Relationship = Relationship(relationshipId: string, fromObjectId: string, facts: string)

  datatype Structure = Structure(datasources: seq<Datasource>, dataObjects: seq<DataObject>, fields: seq<Field>,
                                 relationships: seq<Relationship>, truncated: bool)

  function DatasourceId(d: Datasource): string { d.nodeId }
  function ObjectId(o: DataObject): string { o.nodeId }
  function FieldId(f: Field): string { f.nodeId }
  function RelationshipId(r: Relationship): string { r.relationshipId }

  function DatasourceKey(d: Datasource): seq<string> { [d.datasourceId, d.nodeId] }

  /** `item.qualified_name or item.name`: an absent or empty qualified name falls back to the name. */
  function QualifiedOr(o: DataObject): string {
    if o.qualifiedName.None? || o.qualifiedName.value == "" then o.name else o.qualifiedName.value
  }

  function ObjectKey(o: DataObject): seq<string> { [o.datasourceId, QualifiedOr(o), o.name, o.nodeId] }
  function FieldKey(f: Field): seq<string> { [f.datasourceId, f.objectId, f.path, f.nodeId] }
  function RelationshipKey(r: Relationship): seq<string> { [r.fromObjectId, r.relationshipId] }

  /** `sorted`. */
  function Ordered(s: Structure): Structure {
    Structure(Sort(s.datasources, ByKey(DatasourceKey)), Sort(s.dataObjects, ByKey(ObjectKey)),
              Sort(s.fields, ByKey(FieldKey)), Sort(s.relationships, ByKey(RelationshipKey)), s.truncated)
  }

  function Appended(a: Structure, b: Structure): Structure {
    Structure(a.datasources + b.datasources, a.dataObjects + b.dataObjects, a.fields + b.fields,
              a.relationships + b.relationships, a.truncated || b.truncated)
  }

  function CanonicalForm(s: Structure): Structure {
    Structure(Canon(s.datasources, DatasourceId, DatasourceKey), Canon(s.dataObjects, ObjectId, ObjectKey),
              Canon(s.fields, FieldId, FieldKey), Canon(s.relationships, RelationshipId, RelationshipKey), s.truncated)
  }

  function MergedOf(a: Structure, b: Structure): Structure {
    CanonicalForm(Appended(a, b))
  }

  /** `merged`: the union of two reads, de-duplicated by physical identity. */
  method Merge(a: Structure, b: Structure) returns (r: Structure)
    ensures r == MergedOf(a, b)
  {
    var datasources := Unique(a.datasources, b.datasources, DatasourceId);
    var dataObjects := Unique(a.dataObjects, b.dataObjects, ObjectId);
    var fields := Unique(a.fields, b.fields, FieldId);
    var relationships := Unique(a.relationships, b.relationships, RelationshipId);
    r := Ordered(Structure(datasources, dataObjects, fields, relationships, a.truncated || b.truncated));
  }

  lemma KeysIdentify()
    ensures KeyIdentifies(DatasourceId, DatasourceKey)
    ensures KeyIdentifies(ObjectId, ObjectKey)
    ensures KeyIdentifies(FieldId, FieldKey)
    ensures KeyIdentifies(RelationshipId, RelationshipKey)
  {
    forall x, y | DatasourceKey(x) == DatasourceKey(y) ensures DatasourceId(x) == DatasourceId(y) {
      assert DatasourceKey(x)[1] == DatasourceKey(y)[1];
    }
    forall x, y | ObjectKey(x) == ObjectKey(y) ensures ObjectId(x) == ObjectId(y) {
      assert ObjectKey(x)[3] == ObjectKey(y)[3];
    }
    forall x, y | FieldKey(x) == FieldKey(y) ensures FieldId(x) == FieldId(y) {
      assert FieldKey(x)[3] == FieldKey(y)[3];
    }
    forall x, y | RelationshipKey(x) == RelationshipKey(y) ensures RelationshipId(x) == RelationshipId(y) {
      assert RelationshipKey(x)[1] == RelationshipKey(y)[1];
    }
  }

  /** Two reads describe every item they share alike. */
  ghost predicate ReadsAgree(a: Structure, b: Structure) {
    && Agree(a.datasources, b.datasources, DatasourceId)
    && Agree(a.dataObjects, b.dataObjects, ObjectId)
    && Agree(a.fields, b.fields, FieldId)
    && Agree(a.relationships, b.relationships, RelationshipId)
  }

  /** No identity is described in two ways within one read. */
  ghost predicate ReadConsistent(a: Structure) {
    && Consistent(a.datasources, DatasourceId)
    && Consistent(a.dataObjects, ObjectId)
    && Consistent(a.fields, FieldId)
    && Consistent(a.relationships, RelationshipId)
  }

  ghost predicate SameItems(a: Structure, b: Structure) {
    && (forall x :: x in a.datasources <==> x in b.datasources)
    && (forall x :: x in a.dataObjects <==> x in b.dataObjects)
    && (forall x :: x in a.fields <==> x in b.fields)
    && (forall x :: x in a.relationships <==> x in b.relationships)
    && a.truncated == b.truncated
  }

  /** The order of two reads does not matter exactly when they describe every shared item alike. */
  lemma MergedCommutes(a: Structure, b: Structure)
    ensures MergedOf(a, b) == MergedOf(b, a) <==> ReadsAgree(a, b)
  {
    KeysIdentify();
    MergeCommutes(a.datasources, b.datasources, DatasourceId, DatasourceKey);
    MergeCommutes(a.dataObjects, b.dataObjects, ObjectId, ObjectKey);
    MergeCommutes(a.fields, b.fields, FieldId, FieldKey);
    MergeCommutes(a.relationships, b.relationships, RelationshipId, RelationshipKey);
  }

  /** Merging associates for all reads, agreeing or not: the earliest description wins either way. */
  lemma MergedAssociates(a: Structure, b: Structure, c: Structure)
    ensures MergedOf(MergedOf(a, b), c) == MergedOf(a, MergedOf(b, c))
  {
    KeysIdentify();
    MergeAssociates(a.datasources, b.datasources, c.datasources, DatasourceId, DatasourceKey);
    MergeAssociates(a.dataObjects, b.dataObjects, c.dataObjects, ObjectId, ObjectKey);
    MergeAssociates(a.fields, b.fields, c.fields, FieldId, FieldKey);
    MergeAssociates(a.relationships, b.relationships, c.relationships, RelationshipId, RelationshipKey);
  }

  /** Merging a read with itself only brings it into canonical form, and a canonical read is a fixed point. */
  lemma MergedIdempotent(a: Structure)
    ensures MergedOf(a, a) == CanonicalForm(a)
    ensures CanonicalForm(CanonicalForm(a)) == CanonicalForm(a)
  {
    KeysIdentify();
    MergeIdempotent(a.datasources, DatasourceId, DatasourceKey);
    MergeIdempotent(a.dataObjects, ObjectId, ObjectKey);
    MergeIdempotent(a.fields, FieldId, FieldKey);
    MergeIdempotent(a.relationships, RelationshipId, RelationshipKey);
  }

  /** The result does not depend on how the backend ordered or repeated the rows of a consistent read. */
  lemma MergedIgnoresOrder(a: Structure, b: Structure, a': Structure, b': Structure)
    requires ReadConsistent(Appended(a, b)) && SameItems(Appended(a, b), Appended(a', b'))
    ensures MergedOf(a, b) == MergedOf(a', b')
  {
    KeysIdentify();
    var p, q := Appended(a, b), Appended(a', b');
    CanonIgnoresOrder(p.datasources, q.datasources, DatasourceId, DatasourceKey);
    CanonIgnoresOrder(p.dataObjects, q.dataObjects, ObjectId, ObjectKey);
    CanonIgnoresOrder(p.fields, q.fields, FieldId, FieldKey);
    CanonIgnoresOrder(p.relationships, q.relationships, RelationshipId, RelationshipKey);
  }

  /** The description of an item is the first read's, if it has the item, and the second's otherwise. */
  ghost predicate FirstWins<T>(merged: seq<T>, a: seq<T>, b: seq<T>, id: T -> string) {
    forall k :: Lookup(merged, id, k) == if Lookup(a, id, k).Some? then Lookup(a, id, k) else Lookup(b, id, k)
  }

  lemma CanonFirstWins<T(!new)>(a: seq<T>, b: seq<T>, id: T -> string, key: T -> seq<string>)
    requires KeyIdentifies(id, key)
    ensures UniqueIds(Canon(a + b, id, key), id) && Sorted(Canon(a + b, id, key), ByKey(key))
    ensures FirstWins(Canon(a + b, id, key), a, b, id)
  {
    CanonShape(a + b, id, key);
    forall k ensures Lookup(Canon(a + b, id, key), id, k)
                     == if Lookup(a, id, k).Some? then Lookup(a, id, k) else Lookup(b, id, k)
    {
      LookupAppend(a, b, id, k);
    }
  }

  // ---- Identity and order, in the items' own fields ----

  /** One text before another, or the same text and then `next`. */
  ghost predicate Then(a: string, b: string, next: bool) {
    (a != b && StrLe(a, b)) || (a == b && next)
  }

  ghost predicate DatasourceBefore(a: Datasource, b: Datasource) {
    Then(a.datasourceId, b.datasourceId, Then(a.nodeId, b.nodeId, true))
  }

  /** Objects stand by datasource, by qualified name if they have one and else by name, by name, by node. */
  ghost predicate ObjectBefore(a: DataObject, b: DataObject) {
    var p := if a.qualifiedName.Some? && a.qualifiedName.value != "" then a.qualifiedName.value else a.name;
    var q := if b.qualifiedName.Some? && b.qualifiedName.value != "" then b.qualifiedName.value else b.name;
    Then(a.datasourceId, b.datasourceId, Then(p, q, Then(a.name, b.name, Then(a.nodeId, b.nodeId, true))))
  }

  ghost predicate FieldBefore(a: Field, b: Field) {
    Then(a.datasourceId, b.datasourceId,
         Then(a.objectId, b.objectId, Then(a.path, b.path, Then(a.nodeId, b.nodeId, true))))
  }

  ghost predicate RelationshipBefore(a: Relationship, b: Relationship) {
    Then(a.fromObjectId, b.fromObjectId, Then(a.relationshipId, b.relationshipId, true))
  }

  lemma {:induction false} KeyLeStep(a: seq<string>, b: seq<string>)
    requires |a| == |b|
    ensures a != [] ==> (KeyLe(a, b) <==> Then(a[0], b[0], KeyLe(a[1..], b[1..])))
    ensures a == [] ==> KeyLe(a, b)
  {
  }

  lemma KeyLeTwo(a: seq<string>, b: seq<string>)
    requires |a| == |b| == 2
    ensures KeyLe(a, b) <==> Then(a[0], b[0], Then(a[1], b[1], true))
  {
    KeyLeStep(a, b);
    KeyLeStep(a[1..], b[1..]);
    KeyLeStep(a[1..][1..], b[1..][1..]);
  }

  lemma KeyLeFour(a: seq<string>, b: seq<string>)
    requires |a| == |b| == 4
    ensures KeyLe(a, b) <==> Then(a[0], b[0], Then(a[1], b[1], Then(a[2], b[2], Then(a[3], b[3], true))))
  {
    KeyLeStep(a, b);
    KeyLeStep(a[1..], b[1..]);
    KeyLeTwo(a[1..][1..], b[1..][1..]);
  }

  /** The orders the reads are sorted in are those of the items' fields. */
  lemma OrdersExactly()
    ensures forall a, b :: ByKey(DatasourceKey)(a, b) <==> DatasourceBefore(a, b)
    ensures forall a, b :: ByKey(ObjectKey)(a, b) <==> ObjectBefore(a, b)
    ensures forall a, b :: ByKey(FieldKey)(a, b) <==> FieldBefore(a, b)
    ensures forall a, b :: ByKey(RelationshipKey)(a, b) <==> RelationshipBefore(a, b)
  {
    forall a, b ensures ByKey(DatasourceKey)(a, b) <==> DatasourceBefore(a, b) {
      KeyLeTwo(DatasourceKey(a), DatasourceKey(b));
    }
    forall a, b ensures ByKey(ObjectKey)(a, b) <==> ObjectBefore(a, b) {
      KeyLeFour(ObjectKey(a), ObjectKey(b));
    }
    forall a, b ensures ByKey(FieldKey)(a, b) <==> FieldBefore(a, b) {
      KeyLeFour(FieldKey(a), FieldKey(b));
    }
    forall a, b ensures ByKey(RelationshipKey)(a, b) <==> RelationshipBefore(a, b) {
      KeyLeTwo(RelationshipKey(a), RelationshipKey(b));
    }
  }

  /** Merged items stand in the order of their fields, and the mark of a partial read carries over. */
  lemma MergedOrder(a: Structure, b: Structure)
    ensures
      var m := MergedOf(a, b);
      && (forall i, j :: 0 <= i < j < |m.datasources| ==> DatasourceBefore(m.datasources[i], m.datasources[j]))
      && (forall i, j :: 0 <= i < j < |m.dataObjects| ==> ObjectBefore(m.dataObjects[i], m.dataObjects[j]))
      && (forall i, j :: 0 <= i < j < |m.fields| ==> FieldBefore(m.fields[i], m.fields[j]))
      && (forall i, j :: 0 <= i < j < |m.relationships| ==> RelationshipBefore(m.relationships[i], m.relationships[j]))
      && (m.truncated <==> a.truncated || b.truncated)
  {
    MergedShape(a, b);
    OrdersExactly();
  }

  /** A merged read has one item per identity, in key order, and finds the description the first read gave. */
  lemma MergedShape(a: Structure, b: Structure)
    ensures
      var m := MergedOf(a, b);
      && UniqueIds(m.datasources, DatasourceId) && Sorted(m.datasources, ByKey(DatasourceKey))
      && UniqueIds(m.dataObjects, ObjectId) && Sorted(m.dataObjects, ByKey(ObjectKey))
      && UniqueIds(m.fields, FieldId) && Sorted(m.fields, ByKey(FieldKey))
      && UniqueIds(m.relationships, RelationshipId) && Sorted(m.relationships, ByKey(RelationshipKey))
      && FirstWins(m.datasources, a.datasources, b.datasources, DatasourceId)
      && FirstWins(m.dataObjects, a.dataObjects, b.dataObjects, ObjectId)
      && FirstWins(m.fields, a.fields, b.fields, FieldId)
      && FirstWins(m.relationships, a.relationships, b.relationships, RelationshipId)
  {
    KeysIdentify();
    CanonFirstWins(a.datasources, b.datasources, DatasourceId, DatasourceKey);
    CanonFirstWins(a.dataObjects, b.dataObjects, ObjectId, ObjectKey);
    CanonFirstWins(a.fields, b.fields, FieldId, FieldKey);
    CanonFirstWins(a.relationships, b.relationships, RelationshipId, RelationshipKey);
  }

  /** `x` stands in the list at a place before which no item has its identity; `ids` are the items' identities. */
  ghost predicate FirstWith<T>(s: seq<T>, ids: seq<string>, x: T)
    requires |ids| == |s|
  {
    exists i :: 0 <= i < |s| && s[i] == x && forall j :: 0 <= j < i ==> ids[j] != ids[i]
  }

  lemma {:induction false} LookupFirst<T(!new)>(s: seq<T>, ids: seq<string>, id: T -> string, x: T)
    requires |ids| == |s| && forall i :: 0 <= i < |s| ==> ids[i] == id(s[i])
    ensures Lookup(s, id, id(x)) == Some(x) <==> FirstWith(s, ids, x)
  {
    if s != [] {
      LookupFirst(s[1..], ids[1..], id, x);
      if i :| 0 <= i < |s| && s[i] == x && forall j :: 0 <= j < i ==> ids[j] != ids[i] {
        if i > 0 {
          assert s[1..][i - 1] == x && forall j :: 0 <= j < i - 1 ==> ids[1..][j] == ids[j + 1];
          assert ids[0] != ids[i];
        }
      }
      if id(s[0]) != id(x) && FirstWith(s[1..], ids[1..], x) {
        var i :| 0 <= i < |s| - 1 && s[1..][i] == x && forall j :: 0 <= j < i ==> ids[1..][j] != ids[1..][i];
        assert s[i + 1] == x && forall j :: 1 <= j < i + 1 ==> ids[j] == ids[1..][j - 1];
      }
    }
  }

  lemma {:induction false} LookupIn<T(!new)>(s: seq<T>, id: T -> string, k: string)
    ensures Lookup(s, id, k).Some? ==> Lookup(s, id, k).value in s && id(Lookup(s, id, k).value) == k
    ensures forall x :: x in s && id(x) == k ==> Lookup(s, id, k).Some?
  {
    if s != [] {
      LookupIn(s[1..], id, k);
    }
  }

  lemma UniqueIsFound<T(!new)>(s: seq<T>, id: T -> string, x: T)
    requires UniqueIds(s, id)
    ensures x in s <==> Lookup(s, id, id(x)) == Some(x)
  {
    LookupIn(s, id, id(x));
    if x in s {
      var y := Lookup(s, id, id(x)).value;
      var i :| 0 <= i < |s| && s[i] == x;
      var j :| 0 <= j < |s| && s[j] == y;
      assert i == j;
    }
  }

  /** A canonical list holds exactly the first item of every identity. */
  lemma CanonItems<T(!new)>(a: seq<T>, b: seq<T>, ids: seq<string>, id: T -> string, key: T -> seq<string>, x: T)
    requires KeyIdentifies(id, key) && |ids| == |a + b| && forall i :: 0 <= i < |ids| ==> ids[i] == id((a + b)[i])
    ensures x in Canon(a + b, id, key) <==> FirstWith(a + b, ids, x)
  {
    CanonShape(a + b, id, key);
    UniqueIsFound(Canon(a + b, id, key), id, x);
    LookupFirst(a + b, ids, id, x);
  }

  /**
   * A merged read holds, of each kind, exactly the first item of every identity in the two reads, the first
   * read's before the second's. Datasources, objects and fields are identified by their node, relationships by
   * their own identifier.
   */
  lemma MergedItems(a: Structure, b: Structure)
    ensures
      var m, all := MergedOf(a, b), Appended(a, b);
      && (forall d :: d in m.datasources <==>
            FirstWith(all.datasources,
                      seq(|all.datasources|, i requires 0 <= i < |all.datasources| => all.datasources[i].nodeId), d))
      && (forall o :: o in m.dataObjects <==>
            FirstWith(all.dataObjects,
                      seq(|all.dataObjects|, i requires 0 <= i < |all.dataObjects| => all.dataObjects[i].nodeId), o))
      && (forall f :: f in m.fields <==>
            FirstWith(all.fields, seq(|all.fields|, i requires 0 <= i < |all.fields| => all.fields[i].nodeId), f))
      && (forall r :: r in m.relationships <==>
            FirstWith(all.relationships,
                      seq(|all.relationships|, i requires 0 <= i < |all.relationships| =>
                        all.relationships[i].relationshipId), r))
  {
    KeysIdentify();
    var m, all := MergedOf(a, b), Appended(a, b);
    var nodes := seq(|all.datasources|, i requires 0 <= i < |all.datasources| => all.datasources[i].nodeId);
    forall d ensures d in m.datasources <==> FirstWith(all.datasources, nodes, d) {
      CanonItems(a.datasources, b.datasources, nodes, DatasourceId, DatasourceKey, d);
    }
    var objects := seq(|all.dataObjects|, i requires 0 <= i < |all.dataObjects| => all.dataObjects[i].nodeId);
    forall o ensures o in m.dataObjects <==> FirstWith(all.dataObjects, objects, o) {
      CanonItems(a.dataObjects, b.dataObjects, objects, ObjectId, ObjectKey, o);
    }
    var fields := seq(|all.fields|, i requires 0 <= i < |all.fields| => all.fields[i].nodeId);
    forall f ensures f in m.fields <==> FirstWith(all.fields, fields, f) {
      CanonItems(a.fields, b.fields, fields, FieldId, FieldKey, f);
    }
    var relations := seq(|all.relationships|, i requires 0 <= i < |all.relationships| =>
      all.relationships[i].relationshipId);
    forall r ensures r in m.relationships <==> FirstWith(all.relationships, relations, r) {
      CanonItems(a.relationships, b.relationships, relations, RelationshipId, RelationshipKey, r);
    }
  }
}
