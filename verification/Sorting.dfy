/** Stable sorting by a key order, and why a strictly ordered listing is the only result. */
module Sorting {

  /** The order of a sort key: elements with equal keys are not below each other. */
  ghost predicate KeyOrder<T(!new)>(less: (T, T) -> bool) {
    && (forall x :: !less(x, x))
    && (forall x, y, z :: less(x, y) && less(y, z) ==> less(x, z))
    && (forall x, y, z :: less(x, y) ==> less(x, z) || less(z, y))
  }

  /** Nothing later sorts before something earlier. */
  ghost predicate NoInversion<T>(s: seq<T>, less: (T, T) -> bool) {
    forall i, j :: 0 <= i < j < |s| ==> !less(s[j], s[i])
  }

  ghost predicate StrictlyOrdered<T>(s: seq<T>, less: (T, T) -> bool) {
    forall i, j :: 0 <= i < j < |s| ==> less(s[i], s[j])
  }

  /** Puts x behind everything it does not sort before. */
  function Insert<T>(s: seq<T>, x: T, less: (T, T) -> bool): seq<T> {
    if s != [] && less(x, s[|s| - 1]) then Insert(s[..|s| - 1], x, less) + [s[|s| - 1]]
    else s + [x]
  }

  function SortBy<T>(s: seq<T>, less: (T, T) -> bool): seq<T> {
    if s == [] then [] else Insert(SortBy(s[..|s| - 1], less), s[|s| - 1], less)
  }

  lemma {:induction false} InsertKeepsElements<T>(s: seq<T>, x: T, less: (T, T) -> bool)
    ensures multiset(Insert(s, x, less)) == multiset(s) + multiset{x}
  {
    if s != [] && less(x, s[|s| - 1]) {
      InsertKeepsElements(s[..|s| - 1], x, less);
      assert s == s[..|s| - 1] + [s[|s| - 1]];
    }
  }

  lemma {:induction false} InsertKeepsOrder<T(!new)>(s: seq<T>, x: T, less: (T, T) -> bool)
    requires KeyOrder(less) && NoInversion(s, less)
    ensures NoInversion(Insert(s, x, less), less)
  {
    if s != [] && less(x, s[|s| - 1]) {
      var front, last := s[..|s| - 1], s[|s| - 1];
      InsertKeepsOrder(front, x, less);
      InsertKeepsElements(front, x, less);
      var t := Insert(front, x, less);
      forall i | 0 <= i < |t| ensures !less(last, t[i]) {
        assert t[i] in multiset(front) + multiset{x};
        assert t[i] == x || t[i] in front;
      }
    } else if s != [] {
      var last := s[|s| - 1];
      forall i | 0 <= i < |s| ensures !less(x, s[i]) {
        assert !less(x, last) && !less(last, s[i]);
      }
    }
  }

  lemma {:induction false} SortKeepsElements<T>(s: seq<T>, less: (T, T) -> bool)
    ensures multiset(SortBy(s, less)) == multiset(s)
  {
    if s != [] {
      var front, last := s[..|s| - 1], s[|s| - 1];
      assert s == front + [last];
      SortKeepsElements(front, less);
      InsertKeepsElements(SortBy(front, less), last, less);
    }
  }

  lemma {:induction false} SortOrders<T(!new)>(s: seq<T>, less: (T, T) -> bool)
    requires KeyOrder(less)
    ensures NoInversion(SortBy(s, less), less)
  {
    if s != [] {
      var front, last := s[..|s| - 1], s[|s| - 1];
      SortOrders(front, less);
      InsertKeepsOrder(SortBy(front, less), last, less);
    }
  }

  lemma {:induction false} SortSorts<T(!new)>(s: seq<T>, less: (T, T) -> bool)
    requires KeyOrder(less)
    ensures multiset(SortBy(s, less)) == multiset(s) && NoInversion(SortBy(s, less), less)
  {
    SortKeepsElements(s, less);
    SortOrders(s, less);
  }

  lemma {:induction false} LastsAgree<T(!new)>(s: seq<T>, t: seq<T>, less: (T, T) -> bool)
    requires NoInversion(s, less) && StrictlyOrdered(t, less)
    requires multiset(s) == multiset(t) && |s| == |t| > 0
    ensures s[|s| - 1] == t[|t| - 1]
  {
    var n := |t| - 1;
    assert t[n] in multiset(s) && s[n] in multiset(t);
    var i :| 0 <= i <= n && s[i] == t[n];
    var j :| 0 <= j <= n && t[j] == s[n];
  }

  lemma {:induction false} DropLast<T>(s: seq<T>)
    requires s != []
    ensures multiset(s[..|s| - 1]) == multiset(s) - multiset{s[|s| - 1]}
  {
    assert s == s[..|s| - 1] + [s[|s| - 1]];
  }

  lemma {:induction false} OnlyOneOrdering<T(!new)>(s: seq<T>, t: seq<T>, less: (T, T) -> bool)
    requires NoInversion(s, less) && StrictlyOrdered(t, less)
    requires multiset(s) == multiset(t)
    ensures s == t
  {
    assert |s| == |multiset(s)| == |multiset(t)| == |t|;
    if t != [] {
      var n := |t| - 1;
      LastsAgree(s, t, less);
      assert multiset(s[..n]) == multiset(t[..n]) by {
        DropLast(s);
        DropLast(t);
      }
      var front := s[..n];
      OnlyOneOrdering(front, t[..n], less);
      assert s == front + [s[n]] && t == t[..n] + [t[n]];
    }
  }

  /** Whatever order the rows come in, sorting restores a strictly ordered listing. */
  lemma {:induction false} SortRestores<T(!new)>(rows: seq<T>, listing: seq<T>, less: (T, T) -> bool)
    requires KeyOrder(less) && StrictlyOrdered(listing, less)
    requires multiset(rows) == multiset(listing)
    ensures SortBy(rows, less) == listing
  {
    SortSorts(rows, less);
    OnlyOneOrdering(SortBy(rows, less), listing, less);
  }
}
