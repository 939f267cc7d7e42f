/** Sorting by a comparison, as sort.Slice does: any permutation that respects a
    strict total order is the same permutation. */
module Order {

  ghost predicate StrictOrder<T(!new)>(less: (T, T) -> bool) {
    && (forall x :: !less(x, x))
    && (forall x, y :: x == y || less(x, y) || less(y, x))
    && (forall x, y, z :: less(x, y) && less(y, z) ==> less(x, z))
  }

  ghost predicate Ascending<T>(s: seq<T>, less: (T, T) -> bool) {
    forall i, j :: 0 <= i < j < |s| ==> less(s[i], s[j])
  }

  function Items<T>(s: seq<T>): set<T> {
    set x | x in s
  }

  method Insert<T(==, !new)>(s: seq<T>, x: T, less: (T, T) -> bool) returns (r: seq<T>)
    requires StrictOrder(less) && Ascending(s, less) && x !in s
    ensures Ascending(r, less) && Items(r) == Items(s) + {x}
  {
    var i := 0;
    while i < |s| && less(s[i], x)
      invariant 0 <= i <= |s|
      invariant forall j :: 0 <= j < i ==> less(s[j], x)
    {
      i := i + 1;
    }
    r := s[..i] + [x] + s[i..];
    forall y ensures y in r <==> y in s || y == x { assert s == s[..i] + s[i..]; }
  }

  method SortBy<T(==, !new)>(elements: set<T>, less: (T, T) -> bool) returns (r: seq<T>)
    requires StrictOrder(less)
    ensures Ascending(r, less) && Items(r) == elements
  {
    r := [];
    var rest := elements;
    while rest != {}
      invariant rest <= elements && Ascending(r, less) && Items(r) == elements - rest
      decreases rest
    {
      var x :| x in rest;
      r := Insert(r, x, less);
      rest := rest - {x};
    }
  }

  lemma {:induction false} AscendingHasSize<T(!new)>(s: seq<T>, less: (T, T) -> bool)
    requires StrictOrder(less) && Ascending(s, less)
    ensures |Items(s)| == |s|
  {
    if s != [] {
      var front, last := s[..|s| - 1], s[|s| - 1];
      AscendingHasSize(front, less);
      assert forall i :: 0 <= i < |front| ==> less(s[i], last);
      assert last !in Items(front);
      assert Items(s) == Items(front) + {last} by { assert s == front + [last]; }
    }
  }
}
