/** De-duplication by identity followed by a sort: a canonical form of a list of identified items. */
module Canonical {
  import opened Common
  import opened Ordering

  /** The first item with identity `k`. */
  function Lookup<T>(s: seq<T>, id: T -> string, k: string): Option<T> {
    if s == [] then None
    else if id(s[0]) == k then Some(s[0])
    else Lookup(s[1..], id, k)
  }

  /** Every identity names the same first item in both lists. */
  ghost predicate SameLookups<T>(a: seq<T>, b: seq<T>, id: T -> string) {
    forall k :: Lookup(a, id, k) == Lookup(b, id, k)
  }

  ghost predicate UniqueIds<T>(s: seq<T>, id: T -> string) {
    forall i, j :: 0 <= i < j < |s| ==> id(s[i]) != id(s[j])
  }

  /** `s` without the items whose identity occurred before. */
  function Deduplicated<T>(s: seq<T>, id: T -> string): seq<T> {
    if s == [] then []
    else
      var init, last := s[..|s| - 1], s[|s| - 1];
      Deduplicated(init, id) + (if Lookup(init, id, id(last)).Some? then [] else [last])
  }

  function ByKey<T>(key: T -> seq<string>): (T, T) -> bool {
    (a, b) => KeyLe(key(a), key(b))
  }

  /** The canonical form of a list. */
  function Canon<T>(s: seq<T>, id: T -> string, key: T -> seq<string>): seq<T> {
    Sort(Deduplicated(s, id), ByKey(key))
  }

  /** `_unique`: the values of a dictionary filled with `setdefault`, in insertion order. */
  method Unique<T>(first: seq<T>, second: seq<T>, id: T -> string) returns (kept: seq<T>)
    ensures kept == Deduplicated(first + second, id)
  {
    var all := first + second;
    var seen: set<string> := {};
    kept := [];
    for i := 0 to |all|
      invariant kept == Deduplicated(all[..i], id)
      invariant forall k :: k in seen <==> Lookup(all[..i], id, k).Some?
    {
      var init := all[..i];
      assert all[..i + 1][..i] == init && all[..i + 1] == init + [all[i]];
      forall k ensures Lookup(all[..i + 1], id, k).Some? <==> k in seen || k == id(all[i]) {
        LookupAppend(init, [all[i]], id, k);
      }
      if id(all[i]) !in seen {
        seen := seen + {id(all[i])};
        kept := kept + [all[i]];
      }
    }
    assert all[..|all|] == all;
  }

  lemma {:induction false} LookupAppend<T>(a: seq<T>, b: seq<T>, id: T -> string, k: string)
    ensures Lookup(a + b, id, k) == if Lookup(a, id, k).Some? then Lookup(a, id, k) else Lookup(b, id, k)
  {
    if a == [] {
      assert a + b == b;
    } else {
      assert (a + b)[1..] == a[1..] + b;
      LookupAppend(a[1..], b, id, k);
    }
  }

  lemma {:induction false} LookupFinds<T>(s: seq<T>, id: T -> string, k: string)
    ensures Lookup(s, id, k).Some? <==> exists i :: 0 <= i < |s| && id(s[i]) == k
    ensures Lookup(s, id, k).Some? ==> Lookup(s, id, k).value in s && id(Lookup(s, id, k).value) == k
  {
    if s != [] {
      LookupFinds(s[1..], id, k);
      if i :| 0 <= i < |s| && id(s[i]) == k {
        assert i > 0 ==> s[1..][i - 1] == s[i];
      }
    }
  }

  /** De-duplication keeps one item per identity, the first, and loses no identity. */
  lemma {:induction false} DeduplicatedKeepsFirst<T>(s: seq<T>, id: T -> string)
    ensures UniqueIds(Deduplicated(s, id), id)
    ensures SameLookups(Deduplicated(s, id), s, id)
  {
    if s != [] {
      var init, last := s[..|s| - 1], s[|s| - 1];
      var d := Deduplicated(init, id);
      DeduplicatedKeepsFirst(init, id);
      assert s == init + [last];
      LookupFinds(d, id, id(last));
      forall k ensures Lookup(Deduplicated(s, id), id, k) == Lookup(s, id, k) {
        LookupAppend(init, [last], id, k);
        LookupAppend(d, [last], id, k);
        if Lookup(init, id, id(last)).Some? {
          assert Deduplicated(s, id) == d;
        } else {
          assert Deduplicated(s, id) == d + [last];
        }
      }
    }
  }

  lemma {:induction false} UniqueLookup<T>(s: seq<T>, id: T -> string, i: nat)
    requires UniqueIds(s, id) && i < |s|
    ensures Lookup(s, id, id(s[i])) == Some(s[i])
  {
    if i > 0 {
      assert UniqueIds(s[1..], id);
      UniqueLookup(s[1..], id, i - 1);
    }
  }

  /** A list with unique identities is determined, up to order, by what each identity names. */
  lemma SameLookupsSameCounts<T>(a: seq<T>, b: seq<T>, id: T -> string)
    requires UniqueIds(a, id) && UniqueIds(b, id)
    requires SameLookups(a, b, id)
    ensures multiset(a) == multiset(b)
  {
    MembersIncluded(a, b, id);
    MembersIncluded(b, a, id);
    SameMembersSameCounts(a, b);
  }

  lemma MembersIncluded<T>(a: seq<T>, b: seq<T>, id: T -> string)
    requires UniqueIds(a, id) && SameLookups(a, b, id)
    ensures forall x :: x in a ==> x in b
    ensures forall i, j :: 0 <= i < j < |a| ==> a[i] != a[j]
  {
    forall x | x in a ensures x in b {
      var i :| 0 <= i < |a| && a[i] == x;
      UniqueLookup(a, id, i);
      LookupFinds(b, id, id(x));
    }
  }

  lemma ReorderedLookups<T>(a: seq<T>, b: seq<T>, id: T -> string)
    requires multiset(a) == multiset(b) && UniqueIds(a, id)
    ensures UniqueIds(b, id)
    ensures SameLookups(a, b, id)
  {
    forall i, j | 0 <= i < j < |b| ensures id(b[i]) != id(b[j]) {
      assert b[i] in multiset(a) && b[j] in multiset(a);
      var p :| 0 <= p < |a| && a[p] == b[i];
      var q :| 0 <= q < |a| && a[q] == b[j];
      if b[i] == b[j] {
        RepeatCounts(b, i, j);
        CountsRepeat(a, b[i]);
        assert false;
      }
      assert p < q || q < p;
    }
    forall k ensures Lookup(a, id, k) == Lookup(b, id, k) {
      LookupFinds(a, id, k);
      LookupFinds(b, id, k);
      if Lookup(a, id, k).Some? {
        var x := Lookup(a, id, k).value;
        assert x in multiset(b);
        var i :| 0 <= i < |b| && b[i] == x;
        UniqueLookup(b, id, i);
      } else {
        assert forall i :: 0 <= i < |b| ==> b[i] in multiset(a);
      }
    }
  }

  // ---- Sorting by a key that contains the identity ----

  /** Items with equal keys are the same item of the graph. */
  ghost predicate KeyIdentifies<T(!new)>(id: T -> string, key: T -> seq<string>) {
    forall x, y :: key(x) == key(y) ==> id(x) == id(y)
  }

  lemma ByKeyOrder<T(!new)>(key: T -> seq<string>)
    ensures TotalPreorder(ByKey(key))
  {
    var le := ByKey(key);
    forall x, y ensures le(x, y) || le(y, x) { KeyLeTotal(key(x), key(y)); }
    forall x, y, z | le(x, y) && le(y, z) ensures le(x, z) { KeyLeTransitive(key(x), key(y), key(z)); }
  }

  lemma SortByKey<T(!new)>(s: seq<T>, key: T -> seq<string>)
    ensures multiset(Sort(s, ByKey(key))) == multiset(s)
    ensures Sorted(Sort(s, ByKey(key)), ByKey(key))
  {
    ByKeyOrder(key);
    SortSorts(s, ByKey(key));
  }

  lemma UniqueIdsStrict<T(!new)>(s: seq<T>, id: T -> string, key: T -> seq<string>)
    requires UniqueIds(s, id) && KeyIdentifies(id, key)
    ensures Strict(s, ByKey(key))
  {
    forall i, j | 0 <= i < j < |s| ensures !(ByKey(key)(s[i], s[j]) && ByKey(key)(s[j], s[i])) {
      if KeyLe(key(s[i]), key(s[j])) && KeyLe(key(s[j]), key(s[i])) {
        KeyLeAntisymmetric(key(s[i]), key(s[j]));
      }
    }
  }

  /** The canonical form has unique identities in key order and names what the list named first. */
  lemma CanonShape<T(!new)>(s: seq<T>, id: T -> string, key: T -> seq<string>)
    requires KeyIdentifies(id, key)
    ensures UniqueIds(Canon(s, id, key), id)
    ensures Sorted(Canon(s, id, key), ByKey(key)) && Strict(Canon(s, id, key), ByKey(key))
    ensures SameLookups(Canon(s, id, key), s, id)
  {
    DeduplicatedKeepsFirst(s, id);
    SortByKey(Deduplicated(s, id), key);
    ReorderedLookups(Deduplicated(s, id), Canon(s, id, key), id);
    UniqueIdsStrict(Canon(s, id, key), id, key);
  }

  /** Two lists have one canonical form exactly when every identity names the same first item in both. */
  lemma CanonEqual<T(!new)>(a: seq<T>, b: seq<T>, id: T -> string, key: T -> seq<string>)
    requires KeyIdentifies(id, key)
    ensures Canon(a, id, key) == Canon(b, id, key) <==> SameLookups(a, b, id)
  {
    CanonShape(a, id, key);
    CanonShape(b, id, key);
    if SameLookups(a, b, id) {
      assert SameLookups(Canon(a, id, key), Canon(b, id, key), id);
      SameLookupsSameCounts(Canon(a, id, key), Canon(b, id, key), id);
      SortedUnique(Canon(a, id, key), Canon(b, id, key), ByKey(key));
    }
  }

  /** `a` and `b` name the same item by every identity they share. */
  ghost predicate Agree<T>(a: seq<T>, b: seq<T>, id: T -> string) {
    forall k :: Lookup(a, id, k).Some? && Lookup(b, id, k).Some? ==> Lookup(a, id, k) == Lookup(b, id, k)
  }

  lemma MergeCommutes<T(!new)>(a: seq<T>, b: seq<T>, id: T -> string, key: T -> seq<string>)
    requires KeyIdentifies(id, key)
    ensures Canon(a + b, id, key) == Canon(b + a, id, key) <==> Agree(a, b, id)
  {
    forall k
      ensures Lookup(a + b, id, k) == (if Lookup(a, id, k).Some? then Lookup(a, id, k) else Lookup(b, id, k))
      ensures Lookup(b + a, id, k) == (if Lookup(b, id, k).Some? then Lookup(b, id, k) else Lookup(a, id, k))
    {
      LookupAppend(a, b, id, k);
      LookupAppend(b, a, id, k);
    }
    CanonEqual(a + b, b + a, id, key);
    if Agree(a, b, id) {
      assert SameLookups(a + b, b + a, id);
    }
    if SameLookups(a + b, b + a, id) {
      forall k | Lookup(a, id, k).Some? && Lookup(b, id, k).Some? ensures Lookup(a, id, k) == Lookup(b, id, k) {
        assert Lookup(a + b, id, k) == Lookup(b + a, id, k);
      }
    }
  }

  lemma MergeAssociates<T(!new)>(a: seq<T>, b: seq<T>, c: seq<T>, id: T -> string, key: T -> seq<string>)
    requires KeyIdentifies(id, key)
    ensures Canon(Canon(a + b, id, key) + c, id, key) == Canon(a + Canon(b + c, id, key), id, key)
  {
    var ab, bc := Canon(a + b, id, key), Canon(b + c, id, key);
    CanonShape(a + b, id, key);
    CanonShape(b + c, id, key);
    forall k ensures Lookup(ab + c, id, k) == Lookup(a + bc, id, k) {
      LookupAppend(ab, c, id, k);
      LookupAppend(a, b, id, k);
      LookupAppend(a, bc, id, k);
      LookupAppend(b, c, id, k);
    }
    CanonEqual(ab + c, a + bc, id, key);
  }

  lemma MergeIdempotent<T(!new)>(a: seq<T>, id: T -> string, key: T -> seq<string>)
    requires KeyIdentifies(id, key)
    ensures Canon(a + a, id, key) == Canon(a, id, key)
    ensures Canon(Canon(a, id, key), id, key) == Canon(a, id, key)
  {
    forall k ensures Lookup(a + a, id, k) == Lookup(a, id, k) {
      LookupAppend(a, a, id, k);
    }
    CanonEqual(a + a, a, id, key);
    CanonShape(a, id, key);
    CanonEqual(Canon(a, id, key), a, id, key);
  }

  /** One identity never names two different items of the list. */
  ghost predicate Consistent<T>(s: seq<T>, id: T -> string) {
    forall x, y :: x in s && y in s && id(x) == id(y) ==> x == y
  }

  /** The order and the repetitions of a consistent list leave no trace in its canonical form. */
  lemma CanonIgnoresOrder<T(!new)>(a: seq<T>, b: seq<T>, id: T -> string, key: T -> seq<string>)
    requires KeyIdentifies(id, key) && Consistent(a, id)
    requires forall x :: x in a <==> x in b
    ensures Canon(a, id, key) == Canon(b, id, key)
  {
    forall k ensures Lookup(a, id, k) == Lookup(b, id, k) {
      LookupFinds(a, id, k);
      LookupFinds(b, id, k);
      if Lookup(a, id, k).Some? {
        assert Lookup(a, id, k).value in b;
      }
      if Lookup(b, id, k).Some? {
        assert Lookup(b, id, k).value in a;
      }
    }
    CanonEqual(a, b, id, key);
  }
}
