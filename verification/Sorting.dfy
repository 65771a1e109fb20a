/** Python's `sorted`: stable, by a strict weak order. */
module Sorting {

  ghost predicate WeakOrder<T(!new)>(less: (T, T) -> bool) {
    && (forall a, b :: less(a, b) ==> !less(b, a))
    && (forall a, b, c :: !less(a, b) && !less(b, c) ==> !less(a, c))
  }

  function Insert<T>(less: (T, T) -> bool, s: seq<T>, x: T): seq<T> {
    if s == [] then [x] else if less(x, s[0]) then [x] + s else [s[0]] + Insert(less, s[1..], x)
  }

  function Sorted<T>(less: (T, T) -> bool, s: seq<T>): seq<T> {
    if s == [] then [] else Insert(less, Sorted(less, s[..|s| - 1]), s[|s| - 1])
  }

  ghost predicate InOrder<T(!new)>(less: (T, T) -> bool, s: seq<T>) {
    forall i, j :: 0 <= i < j < |s| ==> !less(s[j], s[i])
  }

  lemma {:induction false} InsertElements<T>(less: (T, T) -> bool, s: seq<T>, x: T)
    ensures multiset(Insert(less, s, x)) == multiset(s) + multiset{x}
    ensures |Insert(less, s, x)| == |s| + 1
  {
    if s != [] && !less(x, s[0]) {
      InsertElements(less, s[1..], x);
      assert s == [s[0]] + s[1..];
    }
  }

  lemma Prepended<T(!new)>(less: (T, T) -> bool, x: T, s: seq<T>)
    requires InOrder(less, s) && forall y :: y in s ==> !less(y, x)
    ensures InOrder(less, [x] + s)
  {
    var r := [x] + s;
    forall i, j | 0 <= i < j < |r| ensures !less(r[j], r[i]) {
      assert r[j] == s[j - 1] && s[j - 1] in s;
      if i > 0 { assert r[i] == s[i - 1]; }
    }
  }

  lemma {:induction false} InsertInOrder<T(!new)>(less: (T, T) -> bool, s: seq<T>, x: T)
    requires WeakOrder(less) && InOrder(less, s)
    ensures InOrder(less, Insert(less, s, x))
  {
    if s != [] {
      forall j | 0 < j < |s| ensures !less(s[j], s[0]) {}
      if less(x, s[0]) {
        forall y | y in s ensures !less(y, x) {
          var j :| 0 <= j < |s| && s[j] == y;
          assert j == 0 || !less(s[j], s[0]);
        }
        Prepended(less, x, s);
      } else {
        var rest := Insert(less, s[1..], x);
        InsertInOrder(less, s[1..], x);
        InsertElements(less, s[1..], x);
        forall y | y in rest ensures !less(y, s[0]) {
          assert y in multiset(rest);
          if y != x { assert y in s[1..]; }
        }
        Prepended(less, s[0], rest);
      }
    }
  }

  /** `sorted` returns the same elements, in order. */
  lemma {:induction false} SortedIsSorted<T(!new)>(less: (T, T) -> bool, s: seq<T>)
    requires WeakOrder(less)
    ensures multiset(Sorted(less, s)) == multiset(s) && |Sorted(less, s)| == |s| && InOrder(less, Sorted(less, s))
  {
    if s != [] {
      var front, last := s[..|s| - 1], s[|s| - 1];
      SortedIsSorted(less, front);
      InsertElements(less, Sorted(less, front), last);
      InsertInOrder(less, Sorted(less, front), last);
      assert s == front + [last];
    }
  }

  lemma InMultiset<T>(s: seq<T>, x: T)
    ensures x in s <==> x in multiset(s)
  {}

  lemma SameElements<T>(a: seq<T>, b: seq<T>)
    requires multiset(a) == multiset(b)
    ensures |a| == |b| && forall x :: x in a <==> x in b
  {
    assert |a| == |multiset(a)| == |multiset(b)| == |b|;
    forall x ensures x in a <==> x in b { InMultiset(a, x); InMultiset(b, x); }
  }

  ghost predicate Total<T(!new)>(less: (T, T) -> bool, s: seq<T>) {
    forall x, y :: x in s && y in s ==> x == y || less(x, y) || less(y, x)
  }

  lemma SameFirst<T(!new)>(less: (T, T) -> bool, a: seq<T>, b: seq<T>)
    requires InOrder(less, a) && InOrder(less, b) && multiset(a) == multiset(b) && Total(less, a) && a != [] && WeakOrder(less)
    ensures b != [] && a[0] == b[0]
  {
    SameElements(a, b);
    assert b[0] in b && a[0] in a;
    assert b[0] in a && a[0] in b;
    var i :| 0 <= i < |a| && a[i] == b[0];
    var j :| 0 <= j < |b| && b[j] == a[0];
    assert i == 0 || !less(a[i], a[0]);
    assert j == 0 || !less(b[j], b[0]);
    assert a[0] in a && a[i] in a;
  }

  lemma DropFirst<T>(a: seq<T>)
    requires a != []
    ensures multiset(a[1..]) == multiset(a) - multiset{a[0]}
  {
    assert a == [a[0]] + a[1..];
  }

  /** When only equal elements are tied, the order of the input does not matter. */
  lemma {:induction false} OneOrder<T(!new)>(less: (T, T) -> bool, a: seq<T>, b: seq<T>)
    requires WeakOrder(less) && InOrder(less, a) && InOrder(less, b) && multiset(a) == multiset(b) && Total(less, a)
    ensures a == b
  {
    SameElements(a, b);
    if a != [] {
      SameFirst(less, a, b);
      DropFirst(a);
      DropFirst(b);
      OneOrder(less, a[1..], b[1..]);
      assert a == [a[0]] + a[1..] && b == [b[0]] + b[1..];
    }
  }

  /** Sorting is canonical: any two orderings of the same elements sort alike. */
  lemma SortedIsCanonical<T(!new)>(less: (T, T) -> bool, a: seq<T>, b: seq<T>)
    requires WeakOrder(less) && multiset(a) == multiset(b) && Total(less, a)
    ensures Sorted(less, a) == Sorted(less, b)
  {
    SortedIsSorted(less, a);
    SortedIsSorted(less, b);
    SameElements(Sorted(less, a), a);
    OneOrder(less, Sorted(less, a), Sorted(less, b));
  }

  lemma {:induction false} AtMostOnce<T>(a: seq<T>, x: T)
    requires forall i, j :: 0 <= i < j < |a| ==> a[i] != a[j]
    ensures multiset(a)[x] <= 1
  {
    if a != [] {
      var front, last := a[..|a| - 1], a[|a| - 1];
      assert a == front + [last];
      AtMostOnce(front, x);
      if x == last { InMultiset(front, x); }
    }
  }

  /** Reordering repeats nothing. */
  lemma NoRepeats<T>(a: seq<T>, b: seq<T>)
    requires multiset(a) == multiset(b) && forall i, j :: 0 <= i < j < |a| ==> a[i] != a[j]
    ensures forall i, j :: 0 <= i < j < |b| ==> b[i] != b[j]
  {
    forall i, j | 0 <= i < j < |b| ensures b[i] != b[j] {
      if b[i] == b[j] {
        assert b == b[..j] + b[j..] && b[i] in b[..j] && b[j] in b[j..];
        InMultiset(b[..j], b[i]);
        InMultiset(b[j..], b[j]);
        assert multiset(b)[b[i]] >= 2;
        AtMostOnce(a, b[i]);
      }
    }
  }
}
