/** Sets of strings read out in order. */
module SortedText {
  import opened Common
  import opened Ordering

  ghost predicate Increasing(keys: seq<string>) {
    forall i, j :: 0 <= i < j < |keys| ==> StrLe(keys[i], keys[j]) && keys[i] != keys[j]
  }

  ghost predicate Distinct(keys: seq<string>) {
    forall i, j :: 0 <= i < j < |keys| ==> keys[i] != keys[j]
  }

  lemma StrLeIsOrder()
    ensures TotalPreorder(StrLe)
  {
    forall x, y ensures StrLe(x, y) || StrLe(y, x) { StrLeTotal(x, y); }
    forall x, y, z | StrLe(x, y) && StrLe(y, z) ensures StrLe(x, z) { StrLeTransitive(x, y, z); }
  }

  /** `sorted` on a set: whatever order the set is read in, the result is the increasing list. */
  method SortedKeys(s: set<string>) returns (keys: seq<string>)
    ensures Increasing(keys)
    ensures forall k :: k in keys <==> k in s
  {
    var rest := s;
    keys := [];
    while rest != {}
      invariant rest <= s
      invariant Sorted(keys, StrLe)
      invariant forall k :: k in keys <==> k in s && k !in rest
      invariant Distinct(keys)
      decreases rest
    {
      var k :| k in rest;
      rest := rest - {k};
      InsertKeySorted(k, keys);
      InsertMembers(k, keys);
      keys := Insert(k, keys, StrLe);
    }
  }

  lemma InsertKeySorted(x: string, s: seq<string>)
    requires Sorted(s, StrLe)
    ensures Sorted(Insert(x, s, StrLe), StrLe)
  {
    StrLeIsOrder();
    InsertSorted(x, s, StrLe);
  }

  lemma InsertMembers(x: string, s: seq<string>)
    requires x !in s && Distinct(s)
    ensures forall k :: k in Insert(x, s, StrLe) <==> k == x || k in s
    ensures Distinct(Insert(x, s, StrLe))
  {
    if s != [] && !StrLe(x, s[0]) {
      InsertMembers(x, s[1..]);
      var t := Insert(x, s[1..], StrLe);
      assert s == [s[0]] + s[1..];
      assert s[0] !in s[1..];
    }
  }
}
