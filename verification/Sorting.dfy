/** Stable insertion sort, standing for the library sort the planner calls. */
module {:induction false} Sorting {
  import opened Weights

  function Insert<T>(x: T, s: seq<T>, le: (T, T) -> bool): seq<T> {
    if s == [] || le(x, s[0]) then [x] + s
    else [s[0]] + Insert(x, s[1..], le)
  }

  function SortBy<T>(s: seq<T>, le: (T, T) -> bool): seq<T> {
    if s == [] then [] else Insert(s[0], SortBy(s[1..], le), le)
  }

  ghost predicate TotalOrder<T(!new)>(le: (T, T) -> bool) {
    && (forall a, b :: le(a, b) || le(b, a))
    && (forall a, b, c :: le(a, b) && le(b, c) ==> le(a, c))
  }

  ghost predicate Ordered<T>(s: seq<T>, le: (T, T) -> bool) {
    forall j, k :: 0 <= j < k < |s| ==> le(s[j], s[k])
  }

  lemma {:induction false} InsertHas<T>(x: T, s: seq<T>, le: (T, T) -> bool, y: T)
    ensures y in Insert(x, s, le) <==> y == x || y in s
    ensures |Insert(x, s, le)| == |s| + 1
  {
    if s != [] && !le(x, s[0]) {
      InsertHas(x, s[1..], le, y);
      assert s == [s[0]] + s[1..];
    }
  }

  /** Sorting keeps exactly the same members. */
  lemma {:induction false} SortHas<T>(s: seq<T>, le: (T, T) -> bool, y: T)
    ensures y in SortBy(s, le) <==> y in s
    ensures |SortBy(s, le)| == |s|
  {
    if s != [] {
      SortHas(s[1..], le, y);
      InsertHas(s[0], SortBy(s[1..], le), le, y);
      assert s == [s[0]] + s[1..];
    }
  }

  lemma {:induction false} InsertNoDup<T(!new)>(x: T, s: seq<T>, le: (T, T) -> bool)
    requires NoDup(s) && x !in s
    ensures NoDup(Insert(x, s, le))
  {
    if s != [] && !le(x, s[0]) {
      InsertNoDup(x, s[1..], le);
      InsertHas(x, s[1..], le, s[0]);
    }
  }

  lemma {:induction false} SortNoDup<T(!new)>(s: seq<T>, le: (T, T) -> bool)
    requires NoDup(s)
    ensures NoDup(SortBy(s, le))
  {
    if s != [] {
      SortNoDup(s[1..], le);
      SortHas(s[1..], le, s[0]);
      InsertNoDup(s[0], SortBy(s[1..], le), le);
    }
  }

  lemma {:induction false} InsertOrdered<T(!new)>(x: T, s: seq<T>, le: (T, T) -> bool)
    requires TotalOrder(le) && Ordered(s, le)
    ensures Ordered(Insert(x, s, le), le)
  {
    if s != [] && !le(x, s[0]) {
      InsertOrdered(x, s[1..], le);
      var r := Insert(x, s[1..], le);
      forall k | 0 <= k < |r| ensures le(s[0], r[k]) {
        InsertHas(x, s[1..], le, r[k]);
      }
    }
  }

  /** The result is in order whenever the comparison is a total preorder. */
  lemma {:induction false} SortOrders<T(!new)>(s: seq<T>, le: (T, T) -> bool)
    requires TotalOrder(le)
    ensures Ordered(SortBy(s, le), le)
  {
    if s != [] {
      SortOrders(s[1..], le);
      InsertOrdered(s[0], SortBy(s[1..], le), le);
    }
  }

  /** Sorting leaves an ordered list alone. */
  lemma {:induction false} SortIdle<T>(s: seq<T>, le: (T, T) -> bool)
    requires Ordered(s, le)
    ensures SortBy(s, le) == s
  {
    if s != [] {
      SortIdle(s[1..], le);
    }
  }
}
