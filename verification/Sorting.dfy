/**
  Orders and sort.Slice: the lexicographic order of number lists, by which both texts and ranking
  keys are compared, and sorting by a comparator with no promise about elements it takes as equal.
*/
module Sorting {
  predicate ListLess(a: seq<int>, b: seq<int>) {
    b != [] && (a == [] || a[0] < b[0] || (a[0] == b[0] && ListLess(a[1..], b[1..])))
  }

  // The lists agree up to where the lesser one ends or has the lesser element.
  ghost predicate ListPartsAt(a: seq<int>, b: seq<int>, k: nat) {
    k <= |a| && k < |b| && (forall i | 0 <= i < k :: a[i] == b[i]) && (k == |a| || a[k] < b[k])
  }

  lemma {:induction false} ListLessIff(a: seq<int>, b: seq<int>)
    ensures ListLess(a, b) <==> exists k: nat :: ListPartsAt(a, b, k)
  {
    if b != [] {
      if a == [] || a[0] < b[0] {
        assert ListPartsAt(a, b, 0);
      } else if a[0] == b[0] {
        ListLessIff(a[1..], b[1..]);
        forall k: nat ensures ListPartsAt(a[1..], b[1..], k) <==> ListPartsAt(a, b, k + 1) {
          PartsLater(a, b, k);
        }
        if k: nat :| ListPartsAt(a, b, k) { assert ListPartsAt(a[1..], b[1..], k - 1); }
      }
    }
  }

  lemma PartsLater(a: seq<int>, b: seq<int>, k: nat)
    requires a != [] && b != [] && a[0] == b[0]
    ensures ListPartsAt(a[1..], b[1..], k) <==> ListPartsAt(a, b, k + 1)
  {
    assert forall i | 0 < i < |a| :: a[i] == a[1..][i - 1];
    assert forall i | 0 < i < |b| :: b[i] == b[1..][i - 1];
  }

  lemma {:induction false} ListLessTotal(a: seq<int>, b: seq<int>)
    ensures a == b || ListLess(a, b) || ListLess(b, a)
    ensures !(ListLess(a, b) && ListLess(b, a)) && !ListLess(a, a)
  {
    if a != [] {
      ListLessTotal(a[1..], if b == [] then b else b[1..]);
      if b != [] && a[0] == b[0] && a[1..] == b[1..] { assert a == [a[0]] + a[1..] == [b[0]] + b[1..] == b; }
    }
  }

  lemma {:induction false} ListLessTransitive(a: seq<int>, b: seq<int>, c: seq<int>)
    requires ListLess(a, b) && ListLess(b, c)
    ensures ListLess(a, c)
  {
    if a != [] && a[0] == b[0] && b[0] == c[0] { ListLessTransitive(a[1..], b[1..], c[1..]); }
  }

  // What sort.Slice asks of a comparator.
  ghost predicate WeakOrder<T(!new)>(less: (T, T) -> bool) {
    && (forall a, b :: less(a, b) ==> !less(b, a))
    && (forall a, b, c :: !less(a, b) && !less(b, c) ==> !less(a, c))
  }

  ghost predicate InOrder<T>(less: (T, T) -> bool, s: seq<T>) {
    forall i, j | 0 <= i < j < |s| :: !less(s[j], s[i])
  }

  ghost predicate StrictlyInOrder<T>(less: (T, T) -> bool, s: seq<T>) {
    forall i, j | 0 <= i < j < |s| :: less(s[i], s[j])
  }

  // There is one way to put elements in strict order.
  lemma {:induction false} OneStrictOrder<T(!new)>(less: (T, T) -> bool, a: seq<T>, b: seq<T>)
    requires forall x, y :: less(x, y) ==> !less(y, x)
    requires StrictlyInOrder(less, a) && StrictlyInOrder(less, b) && forall x :: x in a <==> x in b
    ensures a == b
  {
    if a == [] {
      HasFirst(b);
    } else {
      assert a[0] in b;
      assert b[0] in a;
      var i :| 0 <= i < |b| && b[i] == a[0];
      var j :| 0 <= j < |a| && a[j] == b[0];
      assert i == 0;
      assert a == [a[0]] + a[1..] && b == [b[0]] + b[1..];
      forall x ensures x in a[1..] <==> x in b[1..] {
        RestInOrder(less, a, x);
        RestInOrder(less, b, x);
      }
      OneStrictOrder(less, a[1..], b[1..]);
    }
  }

  lemma HasFirst<T>(s: seq<T>)
    ensures s != [] ==> s[0] in s
  {
  }

  lemma RestInOrder<T(!new)>(less: (T, T) -> bool, s: seq<T>, x: T)
    requires forall y, z :: less(y, z) ==> !less(z, y)
    requires s != [] && StrictlyInOrder(less, s)
    ensures x in s[1..] <==> x in s && x != s[0]
  {
    assert s == [s[0]] + s[1..];
    forall i | 0 <= i < |s| - 1 ensures s[1..][i] != s[0] { assert less(s[0], s[i + 1]); }
  }

  method SortSlice<T(!new)>(less: (T, T) -> bool, s: seq<T>) returns (sorted: seq<T>)
    requires WeakOrder(less)
    ensures multiset(sorted) == multiset(s) && InOrder(less, sorted)
  {
    hide WeakOrder, InOrder;
    sorted := [];
    NothingInOrder(less);
    for i := 0 to |s|
      invariant multiset(sorted) == multiset(s[..i]) && InOrder(less, sorted)
    {
      var x, at := s[i], |sorted|;
      while at > 0 && less(x, sorted[at - 1])
        invariant 0 <= at <= |sorted|
        invariant forall j | at <= j < |sorted| :: less(x, sorted[j])
      {
        at := at - 1;
      }
      InsertInOrder(less, sorted, x, at);
      Inserted(sorted, x, at);
      assert s[..i + 1] == s[..i] + [x];
      sorted := sorted[..at] + [x] + sorted[at..];
    }
    assert s[..|s|] == s;
  }

  lemma NothingInOrder<T>(less: (T, T) -> bool)
    ensures InOrder(less, [])
  {
  }

  lemma Inserted<T>(sorted: seq<T>, x: T, at: nat)
    requires at <= |sorted|
    ensures multiset(sorted[..at] + [x] + sorted[at..]) == multiset(sorted + [x])
  {
    assert sorted == sorted[..at] + sorted[at..];
  }

  lemma InsertInOrder<T(!new)>(less: (T, T) -> bool, sorted: seq<T>, x: T, at: nat)
    requires WeakOrder(less) && InOrder(less, sorted) && at <= |sorted|
    requires forall j | at <= j < |sorted| :: less(x, sorted[j])
    requires at > 0 ==> !less(x, sorted[at - 1])
    ensures InOrder(less, sorted[..at] + [x] + sorted[at..])
  {
    var longer := sorted[..at] + [x] + sorted[at..];
    forall i, j | 0 <= i < j < |longer| ensures !less(longer[j], longer[i]) {
      if j == at {
        assert i < at - 1 ==> !less(sorted[at - 1], sorted[i]);
      } else if i == at {
        assert less(x, longer[j]);
      }
    }
  }
}
