/** What a keyed join can return: membership, counting, and the bounds a declared cardinality gives. */
module JoinFanOut {
  import opened Common
  import opened Responses
  import opened KeyedJoin

  // ---- Membership ----

  /** `r` pairs the left row with some right row of the same key. */
  ghost predicate PairsWith(l: Row, right: seq<Row>, lk: string, rk: string, lc: seq<string>, rc: seq<string>, r: Row) {
    exists j :: 0 <= j < |right| && Get(l, lk) == Get(right[j], rk) && r == Pair(l, right[j], lc, rc)
  }

  lemma {:induction false} InnerLoopMembers(l: Row, right: seq<Row>, lk: string, rk: string,
                                            lc: seq<string>, rc: seq<string>, r: Row)
    ensures r in InnerLoop(l, right, lk, rk, lc, rc) <==> PairsWith(l, right, lk, rk, lc, rc, r)
  {
    if right != [] {
      var last := |right| - 1;
      InnerLoopMembers(l, right[..last], lk, rk, lc, rc, r);
      if PairsWith(l, right[..last], lk, rk, lc, rc, r) {
        var j :| 0 <= j < last && Get(l, lk) == Get(right[..last][j], rk) && r == Pair(l, right[..last][j], lc, rc);
        assert right[j] == right[..last][j];
      }
      if j :| 0 <= j < |right| && Get(l, lk) == Get(right[j], rk) && r == Pair(l, right[j], lc, rc) {
        assert j < last ==> right[..last][j] == right[j];
      }
    }
  }

  /** `r` pairs some left row with some right row of the same key. */
  ghost predicate SomePair(left: seq<Row>, right: seq<Row>, lk: string, rk: string, lc: seq<string>, rc: seq<string>,
                           r: Row)
  {
    exists i :: 0 <= i < |left| && PairsWith(left[i], right, lk, rk, lc, rc, r)
  }

  lemma SomePairLast(left: seq<Row>, right: seq<Row>, lk: string, rk: string, lc: seq<string>, rc: seq<string>, r: Row)
    requires left != []
    ensures SomePair(left, right, lk, rk, lc, rc, r)
            <==> SomePair(left[..|left| - 1], right, lk, rk, lc, rc, r)
                 || PairsWith(left[|left| - 1], right, lk, rk, lc, rc, r)
  {
    var init := left[..|left| - 1];
    if i :| 0 <= i < |init| && PairsWith(init[i], right, lk, rk, lc, rc, r) {
      assert left[i] == init[i];
    }
    if i :| 0 <= i < |left| && PairsWith(left[i], right, lk, rk, lc, rc, r) {
      assert i < |init| ==> init[i] == left[i];
    }
  }

  /** An inner join holds exactly the pairs of rows with equal keys. */
  lemma {:induction false} InnerMembers(left: seq<Row>, right: seq<Row>, lk: string, rk: string,
                                        lc: seq<string>, rc: seq<string>, r: Row)
    ensures r in NestedLoop(Some(Inner), left, right, lk, rk, lc, rc) <==> SomePair(left, right, lk, rk, lc, rc, r)
  {
    if left != [] {
      var last := |left| - 1;
      InnerMembers(left[..last], right, lk, rk, lc, rc, r);
      InnerLoopMembers(left[last], right, lk, rk, lc, rc, r);
      SomePairLast(left, right, lk, rk, lc, rc, r);
    }
  }

  /** An anti join is the projection of the left rows that no right row matches, in left order. */
  lemma {:induction false} AntiRows(left: seq<Row>, right: seq<Row>, lk: string, rk: string,
                                    lc: seq<string>, rc: seq<string>)
    ensures NestedLoop(Some(Anti), left, right, lk, rk, lc, rc)
            == ProjectAll(Unmatched(left, right, lk, rk), lc)
  {
    if left != [] {
      var last := |left| - 1;
      AntiRows(left[..last], right, lk, rk, lc, rc);
    }
  }

  function Unmatched(left: seq<Row>, right: seq<Row>, lk: string, rk: string): seq<Row> {
    if left == [] then []
    else
      Unmatched(left[..|left| - 1], right, lk, rk)
      + (if HasMatch(left[|left| - 1], right, lk, rk) then [] else [left[|left| - 1]])
  }

  function ProjectAll(rows: seq<Row>, lc: seq<string>): seq<Row> {
    seq(|rows|, i requires 0 <= i < |rows| => Project("left_", rows[i], lc))
  }

  // ---- Counting ----

  /** A left join keeps every inner row and adds one row for each row an anti join would return. */
  lemma {:induction false} LeftIsInnerPlusAnti(left: seq<Row>, right: seq<Row>, lk: string, rk: string,
                                               lc: seq<string>, rc: seq<string>)
    ensures |NestedLoop(Some(Left), left, right, lk, rk, lc, rc)|
            == |NestedLoop(Some(Inner), left, right, lk, rk, lc, rc)|
               + |NestedLoop(Some(Anti), left, right, lk, rk, lc, rc)|
    ensures |NestedLoop(Some(Anti), left, right, lk, rk, lc, rc)| <= |left|
  {
    if left != [] {
      LeftIsInnerPlusAnti(left[..|left| - 1], right, lk, rk, lc, rc);
      BucketIsInnerLoop(left[|left| - 1], right, lk, rk, lc, rc);
    }
  }

  lemma {:induction false} BucketSplit(right: seq<Row>, rk: string, k: Value)
    ensures |Bucket(right, rk, k)| + |Without(right, rk, k)| == |right|
    ensures forall q :: q != k ==> Bucket(Without(right, rk, k), rk, q) == Bucket(right, rk, q)
  {
    if right != [] {
      var init, last := right[..|right| - 1], right[|right| - 1];
      BucketSplit(init, rk, k);
      forall q | q != k ensures Bucket(Without(right, rk, k), rk, q) == Bucket(right, rk, q) {
        var w := Without(init, rk, k);
        if Get(last, rk) == k {
          assert Without(right, rk, k) == w;
          assert Bucket(right, rk, q) == Bucket(init, rk, q);
        } else {
          assert (w + [last])[..|w|] == w;
          assert Bucket(w + [last], rk, q) == Bucket(w, rk, q) + (if Get(last, rk) == q then [last] else []);
        }
      }
    }
  }

  function Without(right: seq<Row>, rk: string, k: Value): seq<Row> {
    if right == [] then []
    else
      Without(right[..|right| - 1], rk, k)
      + (if Get(right[|right| - 1], rk) == k then [] else [right[|right| - 1]])
  }

  lemma {:induction false} InnerCountByBuckets(left: seq<Row>, right: seq<Row>, other: seq<Row>, lk: string, rk: string,
                                               lc: seq<string>, rc: seq<string>)
    requires forall i :: 0 <= i < |left| ==> Bucket(right, rk, Get(left[i], lk)) == Bucket(other, rk, Get(left[i], lk))
    ensures |NestedLoop(Some(Inner), left, right, lk, rk, lc, rc)|
            == |NestedLoop(Some(Inner), left, other, lk, rk, lc, rc)|
  {
    if left != [] {
      var last := |left| - 1;
      InnerCountByBuckets(left[..last], right, other, lk, rk, lc, rc);
      BucketIsInnerLoop(left[last], right, lk, rk, lc, rc);
      BucketIsInnerLoop(left[last], other, lk, rk, lc, rc);
    }
  }

  /** Distinct left keys claim disjoint sets of right rows. */
  lemma {:induction false} UniqueLeftBound(left: seq<Row>, right: seq<Row>, lk: string, rk: string,
                                           lc: seq<string>, rc: seq<string>)
    requires UniqueKeys(left, lk)
    ensures |NestedLoop(Some(Inner), left, right, lk, rk, lc, rc)| <= |right|
    decreases |left|
  {
    if left != [] {
      var init, l := left[..|left| - 1], left[|left| - 1];
      var k := Get(l, lk);
      BucketSplit(right, rk, k);
      BucketIsInnerLoop(l, right, lk, rk, lc, rc);
      InnerCountByBuckets(init, right, Without(right, rk, k), lk, rk, lc, rc);
      UniqueLeftBound(init, Without(right, rk, k), lk, rk, lc, rc);
    }
  }

  lemma {:induction false} UniqueBucket(right: seq<Row>, rk: string, k: Value)
    requires UniqueKeys(right, rk)
    ensures |Bucket(right, rk, k)| <= 1
    ensures Bucket(right, rk, k) != [] ==> exists j :: 0 <= j < |right| && Get(right[j], rk) == k
  {
    if right != [] {
      UniqueBucket(right[..|right| - 1], rk, k);
      var init := right[..|right| - 1];
      if Bucket(init, rk, k) != [] {
        var j :| 0 <= j < |init| && Get(init[j], rk) == k;
        assert Get(right[j], rk) == k;
      }
    }
  }

  /** Distinct right keys give each left row at most one partner. */
  lemma {:induction false} UniqueRightBound(left: seq<Row>, right: seq<Row>, lk: string, rk: string,
                                            lc: seq<string>, rc: seq<string>)
    requires UniqueKeys(right, rk)
    ensures |NestedLoop(Some(Inner), left, right, lk, rk, lc, rc)| <= |left|
    ensures |NestedLoop(Some(Left), left, right, lk, rk, lc, rc)| == |left|
  {
    if left != [] {
      UniqueRightBound(left[..|left| - 1], right, lk, rk, lc, rc);
      UniqueBucket(right, rk, Get(left[|left| - 1], lk));
      BucketIsInnerLoop(left[|left| - 1], right, lk, rk, lc, rc);
    }
  }

  lemma {:induction false} NoModeNoRows(left: seq<Row>, right: seq<Row>, lk: string, rk: string,
                                        lc: seq<string>, rc: seq<string>)
    ensures NestedLoop(None, left, right, lk, rk, lc, rc) == []
  {
    if left != [] {
      NoModeNoRows(left[..|left| - 1], right, lk, rk, lc, rc);
    }
  }

  lemma LoopBounded(mode: Option<JoinMode>, c: Cardinality, left: seq<Row>, right: seq<Row>, lk: string, rk: string,
                    lc: seq<string>, rc: seq<string>)
    requires LeftUnique(c) ==> UniqueKeys(left, lk)
    requires RightUnique(c) ==> UniqueKeys(right, rk)
    ensures
      var n := |NestedLoop(mode, left, right, lk, rk, lc, rc)|;
      && (mode == Some(Inner) && LeftUnique(c) ==> n <= |right|)
      && (mode == Some(Inner) && RightUnique(c) ==> n <= |left|)
      && (mode == Some(Left) && RightUnique(c) ==> n <= |left|)
      && (mode == Some(Anti) ==> n <= |left|)
      && n <= |left| + |right|
  {
    LeftIsInnerPlusAnti(left, right, lk, rk, lc, rc);
    NoModeNoRows(left, right, lk, rk, lc, rc);
    if LeftUnique(c) {
      UniqueLeftBound(left, right, lk, rk, lc, rc);
    }
    if RightUnique(c) {
      UniqueRightBound(left, right, lk, rk, lc, rc);
    }
    match mode
    case None =>
    case Some(Inner) =>
    case Some(Left) =>
    case Some(Anti) =>
  }

  /** Once the cardinality check has passed, the output of every mode is bounded by the inputs. */
  lemma FanOutBounded(inputs: seq<Response>, mode: Option<JoinMode>, mapping: Mapping)
    requires JoinSpec(inputs, mode, mapping).Ok?
    ensures |inputs| == 2 && inputs[0].result.Some? && inputs[1].result.Some?
    ensures
      var n := JoinSpec(inputs, mode, mapping).value.rowCount;
      var l, r := |inputs[0].result.value.rows|, |inputs[1].result.value.rows|;
      && n == |JoinSpec(inputs, mode, mapping).value.rows|
      && (mode == Some(Inner) && (mapping.cardinality == OneToOne || mapping.cardinality == OneToMany) ==> n <= r)
      && (mode == Some(Inner) && (mapping.cardinality == OneToOne || mapping.cardinality == ManyToOne) ==> n <= l)
      && (mode == Some(Left) && (mapping.cardinality == OneToOne || mapping.cardinality == ManyToOne) ==> n <= l)
      && (mode == Some(Anti) ==> n <= l)
      && n <= l + r
  {
    var lres, rres := inputs[0].result.value, inputs[1].result.value;
    var lk, rk := Column(lres.rows, mapping.left.path).value, Column(rres.rows, mapping.right.path).value;
    NonNullShorter(lres.rows, lk);
    NonNullShorter(rres.rows, rk);
    LoopBounded(mode, mapping.cardinality, NonNull(lres.rows, lk), NonNull(rres.rows, rk), lk, rk,
                lres.columns, rres.columns);
  }
}
