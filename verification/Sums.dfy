/**
 Sums over finite sets.
 */
module Sums {

  ghost function Sum<T(!new)>(s: set<T>, f: T -> nat): nat {
    if s == {} then 0 else
      var x :| x in s;
      f(x) + Sum(s - {x}, f)
  }

  lemma {:induction false} SumRemove<T(!new)>(s: set<T>, f: T -> nat, x: T)
    requires x in s
    ensures Sum(s, f) == f(x) + Sum(s - {x}, f)
    decreases |s|
  {
    var y :| y in s && Sum(s, f) == f(y) + Sum(s - {y}, f);
    if y != x {
      SumRemove(s - {y}, f, x);
      SumRemove(s - {x}, f, y);
      assert s - {y} - {x} == s - {x} - {y};
    }
  }

  lemma SumAdd<T(!new)>(s: set<T>, f: T -> nat, x: T)
    requires x !in s
    ensures Sum(s + {x}, f) == Sum(s, f) + f(x)
  {
    SumRemove(s + {x}, f, x);
    assert s + {x} - {x} == s;
  }

  // A one-to-one map into t that never lowers f bounds the sum over s by that over t.
  lemma {:induction false} SumInto<T(!new)>(s: set<T>, t: set<T>, into: T -> T, f: T -> nat)
    requires forall x | x in s :: into(x) in t && f(x) <= f(into(x))
    requires forall x, y | x in s && y in s && into(x) == into(y) :: x == y
    ensures Sum(s, f) <= Sum(t, f)
    decreases |s|
  {
    if s != {} {
      var x :| x in s;
      SumRemove(s, f, x);
      SumRemove(t, f, into(x));
      SumInto(s - {x}, t - {into(x)}, into, f);
    }
  }

  lemma SumSubset<T(!new)>(s: set<T>, t: set<T>, f: T -> nat)
    requires s <= t
    ensures Sum(s, f) <= Sum(t, f)
  {
    SumInto(s, t, x => x, f);
  }
}
