/** The total order that sort.Strings uses, and sorted lists of distinct strings. */
module Text {

  predicate Less(a: string, b: string) {
    b != [] && (a == [] || a[0] < b[0] || (a[0] == b[0] && Less(a[1..], b[1..])))
  }

  predicate AtMost(a: string, b: string) {
    a == b || Less(a, b)
  }

  lemma {:induction false} LessIsTotal(a: string, b: string)
    ensures a == b || Less(a, b) || Less(b, a)
  {
    if a != [] && b != [] && a[0] == b[0] {
      LessIsTotal(a[1..], b[1..]);
      assert a == [a[0]] + a[1..] && b == [b[0]] + b[1..];
    }
  }

  lemma {:induction false} LessIsIrreflexive(a: string)
    ensures !Less(a, a)
  {
    if a != [] { LessIsIrreflexive(a[1..]); }
  }

  lemma {:induction false} LessIsTransitive(a: string, b: string, c: string)
    requires Less(a, b) && Less(b, c)
    ensures Less(a, c)
  {
    if a != [] && a[0] == b[0] && b[0] == c[0] { LessIsTransitive(a[1..], b[1..], c[1..]); }
  }

  lemma LessIsAsymmetric(a: string, b: string)
    requires Less(a, b)
    ensures !Less(b, a)
  {
    if Less(b, a) {
      LessIsTransitive(a, b, a);
      LessIsIrreflexive(a);
    }
  }

  // ------------------------------------------------------------ sorted lists

  ghost predicate Sorted(s: seq<string>) {
    forall i, j :: 0 <= i < j < |s| ==> Less(s[i], s[j])
  }

  function Elements<T>(s: seq<T>): set<T> {
    set x | x in s
  }

  /** Inserting into an already sorted list, which is what re-sorting it after an append does. */
  method InsertSorted(s: seq<string>, x: string) returns (r: seq<string>)
    requires Sorted(s) && x !in s
    ensures Sorted(r) && |r| == |s| + 1
    ensures Elements(r) == Elements(s) + {x}
  {
    var i := 0;
    while i < |s| && Less(s[i], x)
      invariant 0 <= i <= |s|
      invariant forall j :: 0 <= j < i ==> Less(s[j], x)
    {
      i := i + 1;
    }
    r := s[..i] + [x] + s[i..];
    if i < |s| {
      LessIsTotal(x, s[i]);
      forall j | i <= j < |s| ensures Less(x, s[j]) {
        if j > i { LessIsTransitive(x, s[i], s[j]); }
      }
    }
    forall y ensures y in r <==> y in s || y == x {
      assert s == s[..i] + s[i..];
    }
  }

  method SortStrings(elements: set<string>) returns (r: seq<string>)
    ensures Sorted(r) && Elements(r) == elements
  {
    r := [];
    var rest := elements;
    while rest != {}
      invariant rest <= elements && Sorted(r) && Elements(r) == elements - rest
      decreases rest
    {
      var x :| x in rest;
      r := InsertSorted(r, x);
      rest := rest - {x};
    }
  }

  lemma {:induction false} SortedIsUnique(a: seq<string>, b: seq<string>)
    requires Sorted(a) && Sorted(b) && Elements(a) == Elements(b)
    ensures a == b
    decreases |a|
  {
    if a == [] {
      assert forall i :: 0 <= i < |b| ==> b[i] in Elements(b);
    } else {
      assert a[0] in Elements(b);
      var i :| 0 <= i < |b| && b[i] == a[0];
      assert b[0] in Elements(a);
      var j :| 0 <= j < |a| && a[j] == b[0];
      if i > 0 && j > 0 { LessIsAsymmetric(a[0], a[j]); }
      assert a[0] == b[0];
      TailElements(a);
      TailElements(b);
      SortedIsUnique(a[1..], b[1..]);
      assert a == [a[0]] + a[1..] && b == [b[0]] + b[1..];
    }
  }

  lemma TailElements(s: seq<string>)
    requires s != [] && Sorted(s)
    ensures Sorted(s[1..]) && Elements(s[1..]) == Elements(s) - {s[0]}
  {
    forall x ensures x in s[1..] <==> x in s && x != s[0] {
      if x in s && x != s[0] {
        var i :| 0 <= i < |s| && s[i] == x;
        assert s[1..][i - 1] == x;
      }
      if x in s[1..] {
        var i :| 0 <= i < |s[1..]| && s[1..][i] == x;
        LessIsIrreflexive(x);
        assert Less(s[0], s[i + 1]);
      }
    }
  }

  lemma {:induction false} SortedListExists(elements: set<string>) returns (r: seq<string>)
    ensures Sorted(r) && Elements(r) == elements
    decreases elements
  {
    if elements == {} {
      r := [];
    } else {
      var x :| x in elements;
      var s := SortedListExists(elements - {x});
      var i := 0;
      while i < |s| && Less(s[i], x)
        invariant 0 <= i <= |s|
        invariant forall j :: 0 <= j < i ==> Less(s[j], x)
      {
        i := i + 1;
      }
      assert x !in Elements(s);
      r := InsertAt(s, i, x);
    }
  }

  lemma InsertAt(s: seq<string>, i: nat, x: string) returns (r: seq<string>)
    requires Sorted(s) && x !in s && i <= |s|
    requires forall j :: 0 <= j < i ==> Less(s[j], x)
    requires i < |s| ==> !Less(s[i], x)
    ensures Sorted(r) && Elements(r) == Elements(s) + {x}
  {
    r := s[..i] + [x] + s[i..];
    if i < |s| {
      LessIsTotal(x, s[i]);
      forall j | i <= j < |s| ensures Less(x, s[j]) {
        if j > i { LessIsTransitive(x, s[i], s[j]); }
      }
    }
    forall y ensures y in r <==> y in s || y == x { assert s == s[..i] + s[i..]; }
  }

  /** The one sorted list of a set of strings. */
  ghost function SortedList(elements: set<string>): (r: seq<string>)
    ensures Sorted(r) && Elements(r) == elements
  {
    SomeSortedList(elements);
    var r: seq<string> :| Sorted(r) && Elements(r) == elements;
    r
  }

  lemma SomeSortedList(elements: set<string>)
    ensures exists r: seq<string> :: Sorted(r) && Elements(r) == elements
  {
    var r := SortedListExists(elements);
  }
}
