/** The stable `sort_by` of the leaf lists, for any total preorder. */
module Sorting {
  ghost predicate TotalPreorder<T(!new)>(leq: (T, T) -> bool) {
    && (forall a, b :: leq(a, b) || leq(b, a))
    && (forall a, b, c :: leq(a, b) && leq(b, c) ==> leq(a, c))
  }

  ghost predicate Sorted<T>(s: seq<T>, leq: (T, T) -> bool) {
    forall i, j :: 0 <= i < j < |s| ==> leq(s[i], s[j])
  }

  /** No two elements compare equal. */
  ghost predicate DistinctKeys<T>(s: seq<T>, leq: (T, T) -> bool) {
    forall i, j :: 0 <= i < j < |s| ==> !(leq(s[i], s[j]) && leq(s[j], s[i]))
  }

  function Insert<T>(x: T, s: seq<T>, leq: (T, T) -> bool): (r: seq<T>)
    ensures multiset(r) == multiset(s) + multiset{x}
    ensures |r| == |s| + 1
  {
    if s == [] || leq(x, s[0]) then [x] + s
    else
      assert s == [s[0]] + s[1..];
      [s[0]] + Insert(x, s[1..], leq)
  }

  function Sort<T>(s: seq<T>, leq: (T, T) -> bool): (r: seq<T>)
    ensures multiset(r) == multiset(s)
    ensures |r| == |s|
  {
    if s == [] then []
    else
      assert s == [s[0]] + s[1..];
      Insert(s[0], Sort(s[1..], leq), leq)
  }

  lemma {:induction false} InsertSorted<T(!new)>(x: T, s: seq<T>, leq: (T, T) -> bool)
    requires TotalPreorder(leq) && Sorted(s, leq)
    ensures Sorted(Insert(x, s, leq), leq)
  {
    if s != [] && !leq(x, s[0]) {
      var rest := Insert(x, s[1..], leq);
      InsertSorted(x, s[1..], leq);
      forall y | y in rest ensures leq(s[0], y) {
        assert y in multiset(rest);
        if y != x {
          assert y in multiset(s[1..]);
        }
      }
    }
  }

  lemma {:induction false} SortSorted<T(!new)>(s: seq<T>, leq: (T, T) -> bool)
    requires TotalPreorder(leq)
    ensures Sorted(Sort(s, leq), leq)
  {
    if s != [] {
      SortSorted(s[1..], leq);
      InsertSorted(s[0], Sort(s[1..], leq), leq);
    }
  }

  /** Sorting a sorted list leaves it alone, so sorting twice is sorting once. */
  lemma {:induction false} SortFixed<T(!new)>(s: seq<T>, leq: (T, T) -> bool)
    requires Sorted(s, leq)
    ensures Sort(s, leq) == s
  {
    if s != [] {
      SortFixed(s[1..], leq);
    }
  }

  lemma SortIdempotent<T(!new)>(s: seq<T>, leq: (T, T) -> bool)
    requires TotalPreorder(leq)
    ensures Sort(Sort(s, leq), leq) == Sort(s, leq)
  {
    SortSorted(s, leq);
    SortFixed(Sort(s, leq), leq);
  }

  lemma SortMembers<T(!new)>(s: seq<T>, leq: (T, T) -> bool)
    ensures forall x :: x in Sort(s, leq) <==> x in s
  {
    forall x ensures x in Sort(s, leq) <==> x in s {
      assert x in Sort(s, leq) <==> x in multiset(Sort(s, leq));
      assert x in s <==> x in multiset(s);
    }
  }

  lemma SameHead<T(!new)>(a: seq<T>, b: seq<T>, leq: (T, T) -> bool)
    requires TotalPreorder(leq) && Sorted(a, leq) && Sorted(b, leq)
    requires a != [] && b != [] && a[0] in b && b[0] in a
    requires DistinctKeys(a, leq)
    ensures a[0] == b[0]
  {
    var i :| 0 <= i < |a| && a[i] == b[0];
    var j :| 0 <= j < |b| && b[j] == a[0];
    assert leq(b[0], a[0]);
  }

  lemma TailMultiset<T>(a: seq<T>)
    requires a != []
    ensures multiset(a[1..]) == multiset(a) - multiset{a[0]}
  {
    assert a == [a[0]] + a[1..];
  }

  /** Two sorted arrangements of the same elements are the same list when keys are distinct. */
  lemma {:induction false} SortedUnique<T(!new)>(a: seq<T>, b: seq<T>, leq: (T, T) -> bool)
    requires TotalPreorder(leq) && Sorted(a, leq) && Sorted(b, leq) && multiset(a) == multiset(b)
    requires DistinctKeys(a, leq)
    ensures a == b
  {
    assert |a| == |multiset(a)| == |multiset(b)| == |b|;
    if a != [] {
      assert a[0] in multiset(b) && b[0] in multiset(a);
      SameHead(a, b, leq);
      TailMultiset(a);
      TailMultiset(b);
      SortedUnique(a[1..], b[1..], leq);
      assert a == [a[0]] + a[1..] && b == [b[0]] + b[1..];
    }
  }

  /** The sorted list does not depend on the order in which distinct elements were listed. */
  lemma SortPermutation<T(!new)>(a: seq<T>, b: seq<T>, leq: (T, T) -> bool)
    requires TotalPreorder(leq) && multiset(a) == multiset(b)
    requires DistinctKeys(Sort(a, leq), leq)
    ensures Sort(a, leq) == Sort(b, leq)
  {
    SortSorted(a, leq);
    SortSorted(b, leq);
    SortedUnique(Sort(a, leq), Sort(b, leq), leq);
  }

  /** The key of `x` occurs nowhere in `s`. */
  ghost predicate FreshKey<T>(x: T, s: seq<T>, leq: (T, T) -> bool) {
    forall y :: y in s ==> !(leq(x, y) && leq(y, x))
  }

  lemma {:induction false} InsertDistinct<T(!new)>(x: T, s: seq<T>, leq: (T, T) -> bool)
    requires DistinctKeys(s, leq) && FreshKey(x, s, leq)
    ensures DistinctKeys(Insert(x, s, leq), leq)
  {
    if s != [] && !leq(x, s[0]) {
      var rest := Insert(x, s[1..], leq);
      InsertDistinct(x, s[1..], leq);
      forall y | y in rest ensures !(leq(s[0], y) && leq(y, s[0])) {
        assert y in multiset(rest);
        if y != x {
          assert y in multiset(s[1..]);
        }
      }
    }
  }

  lemma {:induction false} SortDistinct<T(!new)>(s: seq<T>, leq: (T, T) -> bool)
    requires DistinctKeys(s, leq)
    ensures DistinctKeys(Sort(s, leq), leq)
  {
    if s != [] {
      SortDistinct(s[1..], leq);
      SortMembers(s[1..], leq);
      InsertDistinct(s[0], Sort(s[1..], leq), leq);
    }
  }
}
