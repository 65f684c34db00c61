/** The strictly increasing listing of a finite set, for any strict total order. */
module SortedSets {
  ghost predicate StrictTotalOrder<T(!new)>(less: (T, T) -> bool) {
    && (forall x :: !less(x, x))
    && (forall x, y :: x != y ==> less(x, y) || less(y, x))
    && (forall x, y, z :: less(x, y) && less(y, z) ==> less(x, z))
  }

  ghost predicate Increasing<T>(less: (T, T) -> bool, ks: seq<T>) {
    forall i, j :: 0 <= i < j < |ks| ==> less(ks[i], ks[j])
  }

  ghost predicate Lists<T(!new)>(less: (T, T) -> bool, ks: seq<T>, s: set<T>) {
    Increasing(less, ks) && forall x :: x in ks <==> x in s
  }

  function Insert<T>(less: (T, T) -> bool, ks: seq<T>, x: T): seq<T> {
    if ks == [] || less(x, ks[0]) then [x] + ks else [ks[0]] + Insert(less, ks[1..], x)
  }

  lemma {:induction false} InsertMembers<T>(less: (T, T) -> bool, ks: seq<T>, x: T)
    ensures forall y :: y in Insert(less, ks, x) <==> y in ks || y == x
  {
    if ks != [] && !less(x, ks[0]) {
      InsertMembers(less, ks[1..], x);
    }
  }

  lemma {:induction false} InsertIncreasing<T(!new)>(less: (T, T) -> bool, ks: seq<T>, x: T)
    requires StrictTotalOrder(less) && Increasing(less, ks) && x !in ks
    ensures Increasing(less, Insert(less, ks, x))
  {
    if ks != [] && !less(x, ks[0]) {
      var rest := ks[1..];
      InsertIncreasing(less, rest, x);
      InsertMembers(less, rest, x);
      forall y | y in Insert(less, rest, x) ensures less(ks[0], y) {
        if y != x {
          var i :| 0 <= i < |rest| && rest[i] == y;
          assert ks[i + 1] == y;
        }
      }
    } else if ks != [] {
      forall i | 0 <= i < |ks| ensures less(x, ks[i]) {
        if i > 0 { assert less(ks[0], ks[i]); }
      }
    }
  }

  /** List a set in order; sort.Slice and sort.Strings do this for the keys of a map. */
  method Sort<T(==, !new)>(less: (T, T) -> bool, s: set<T>) returns (ks: seq<T>)
    requires StrictTotalOrder(less)
    ensures ks == Sorted(less, s)
  {
    ks := [];
    var rest := s;
    while rest != {}
      invariant rest <= s && Lists(less, ks, s - rest)
      decreases rest
    {
      var x :| x in rest;
      InsertIncreasing(less, ks, x);
      InsertMembers(less, ks, x);
      ks := Insert(less, ks, x);
      rest := rest - {x};
    }
    ListingUnique(less, ks, Sorted(less, s), s);
  }

  lemma {:induction false} ListingExists<T(!new)>(less: (T, T) -> bool, s: set<T>)
    requires StrictTotalOrder(less)
    ensures exists ks :: Lists(less, ks, s)
  {
    if s == {} {
      assert Lists(less, [], s);
    } else {
      var x :| x in s;
      ListingExists(less, s - {x});
      var ks :| Lists(less, ks, s - {x});
      InsertIncreasing(less, ks, x);
      InsertMembers(less, ks, x);
      assert Lists(less, Insert(less, ks, x), s);
    }
  }

  lemma {:induction false} ListingUnique<T(!new)>(less: (T, T) -> bool, a: seq<T>, b: seq<T>, s: set<T>)
    requires StrictTotalOrder(less) && Lists(less, a, s) && Lists(less, b, s)
    ensures a == b
    decreases |a|
  {
    assert (a != [] ==> a[0] in s) && (b != [] ==> b[0] in s);
    if a != [] && b != [] {
      if a[0] != b[0] {
        FirstIsLeast(less, a, b[0]);
        FirstIsLeast(less, b, a[0]);
        assert false;
      }
      TailLists(less, a, s);
      TailLists(less, b, s);
      ListingUnique(less, a[1..], b[1..], s - {a[0]});
    }
  }

  lemma FirstIsLeast<T(!new)>(less: (T, T) -> bool, a: seq<T>, x: T)
    requires Increasing(less, a) && x in a && x != a[0]
    ensures less(a[0], x)
  {
    var i :| 0 <= i < |a| && a[i] == x;
  }

  lemma TailLists<T(!new)>(less: (T, T) -> bool, a: seq<T>, s: set<T>)
    requires StrictTotalOrder(less) && Lists(less, a, s) && a != []
    ensures Lists(less, a[1..], s - {a[0]})
  {
    forall x ensures x in a[1..] <==> x in s - {a[0]} {
      if x in a[1..] {
        var i :| 0 <= i < |a[1..]| && a[1..][i] == x;
        assert less(a[0], a[i + 1]);
      }
    }
  }

  ghost function Sorted<T(!new)>(less: (T, T) -> bool, s: set<T>): (ks: seq<T>)
    requires StrictTotalOrder(less)
    ensures Lists(less, ks, s)
  {
    ListingExists(less, s);
    var ks :| Lists(less, ks, s);
    ks
  }
}
