/** Sums of a weight over a finite set, used for balances, holds, votes and value in flight. */
module Sums {
  ghost function Sum<T(!new)>(s: set<T>, f: T -> nat): (total: nat)
    decreases |s|
  {
    if s == {} then 0 else
      var x :| x in s;
      f(x) + Sum(s - {x}, f)
  }

  /** Any element can be taken out first. */
  lemma {:induction false} SumTakeOut<T(!new)>(s: set<T>, f: T -> nat, x: T)
    requires x in s
    ensures Sum(s, f) == f(x) + Sum(s - {x}, f)
    decreases |s|
  {
    var y :| y in s && Sum(s, f) == f(y) + Sum(s - {y}, f);
    if y != x {
      SumTakeOut(s - {y}, f, x);
      SumTakeOut(s - {x}, f, y);
      assert s - {y} - {x} == s - {x} - {y};
    }
  }

  lemma {:induction false} SumSame<T(!new)>(s: set<T>, f: T -> nat, g: T -> nat)
    requires forall x :: x in s ==> f(x) == g(x)
    ensures Sum(s, f) == Sum(s, g)
    decreases |s|
  {
    if s != {} {
      var x :| x in s;
      SumTakeOut(s, f, x);
      SumTakeOut(s, g, x);
      SumSame(s - {x}, f, g);
    }
  }

  lemma SumAdd<T(!new)>(s: set<T>, x: T, f: T -> nat, g: T -> nat)
    requires x !in s
    requires forall y :: y in s ==> f(y) == g(y)
    ensures Sum(s + {x}, g) == Sum(s, f) + g(x)
  {
    SumTakeOut(s + {x}, g, x);
    assert s + {x} - {x} == s;
    SumSame(s, f, g);
  }

  /** Changing the weight of one element changes the sum by exactly that much. */
  lemma SumChange<T(!new)>(s: set<T>, x: T, f: T -> nat, g: T -> nat)
    requires x in s
    requires forall y :: y in s && y != x ==> f(y) == g(y)
    ensures Sum(s, g) + f(x) == Sum(s, f) + g(x)
  {
    SumTakeOut(s, f, x);
    SumTakeOut(s, g, x);
    SumSame(s - {x}, f, g);
  }

  lemma SumZero<T(!new)>(s: set<T>, f: T -> nat)
    requires forall x :: x in s ==> f(x) == 0
    ensures Sum(s, f) == 0
    decreases |s|
  {
    if s != {} {
      var x :| x in s;
      SumTakeOut(s, f, x);
      SumZero(s - {x}, f);
    }
  }

  /** A single weight never exceeds the sum. */
  lemma SumAtLeast<T(!new)>(s: set<T>, f: T -> nat, x: T)
    requires x in s
    ensures f(x) <= Sum(s, f)
  {
    SumTakeOut(s, f, x);
  }

  /** Fewer elements with smaller weights sum to less. */
  lemma {:induction false} SumSubset<T(!new)>(s: set<T>, t: set<T>, f: T -> nat, g: T -> nat)
    requires s <= t && forall x :: x in s ==> f(x) <= g(x)
    ensures Sum(s, f) <= Sum(t, g)
    decreases |s|
  {
    if s != {} {
      var x :| x in s;
      SumTakeOut(s, f, x);
      SumTakeOut(t, g, x);
      SumSubset(s - {x}, t - {x}, f, g);
    }
  }

  lemma {:induction false} SumPlus<T(!new)>(s: set<T>, f: T -> nat, g: T -> nat, h: T -> nat)
    requires forall x :: x in s ==> h(x) == f(x) + g(x)
    ensures Sum(s, h) == Sum(s, f) + Sum(s, g)
    decreases |s|
  {
    if s != {} {
      var x :| x in s;
      SumTakeOut(s, f, x);
      SumTakeOut(s, g, x);
      SumTakeOut(s, h, x);
      SumPlus(s - {x}, f, g, h);
    }
  }
}
