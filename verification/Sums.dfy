/** Sums over finite sets, for what many holders take together. */
module Sums {

  ghost function Sum<K(!new)>(s: set<K>, f: K -> nat): nat {
    if s == {} then 0
    else
      var x :| x in s;
      f(x) + Sum(s - {x}, f)
  }

  lemma {:induction false} SumSplit<K(!new)>(s: set<K>, f: K -> nat, x: K)
    requires x in s
    ensures Sum(s, f) == f(x) + Sum(s - {x}, f)
    decreases |s|
  {
    var y :| y in s && Sum(s, f) == f(y) + Sum(s - {y}, f);
    if y != x {
      SumSplit(s - {y}, f, x);
      SumSplit(s - {x}, f, y);
      assert s - {y} - {x} == s - {x} - {y};
    }
  }

  lemma {:induction false} SumLe<K(!new)>(s: set<K>, f: K -> nat, g: K -> nat)
    requires forall x | x in s :: f(x) <= g(x)
    ensures Sum(s, f) <= Sum(s, g)
    decreases |s|
  {
    if s != {} {
      var x :| x in s;
      SumSplit(s, f, x);
      SumSplit(s, g, x);
      SumLe(s - {x}, f, g);
    }
  }

  lemma SumSame<K(!new)>(s: set<K>, f: K -> nat, g: K -> nat)
    requires forall x | x in s :: f(x) == g(x)
    ensures Sum(s, f) == Sum(s, g)
  {
    SumLe(s, f, g);
    SumLe(s, g, f);
  }

  /** Only one summand differs. */
  lemma SumChange<K(!new)>(s: set<K>, f: K -> nat, g: K -> nat, x: K)
    requires x in s && forall y | y in s && y != x :: f(y) == g(y)
    ensures Sum(s, g) + f(x) == Sum(s, f) + g(x)
  {
    SumSplit(s, f, x);
    SumSplit(s, g, x);
    SumSame(s - {x}, f, g);
  }

  /** Elements that count for nothing may come or go. */
  lemma {:induction false} SumExtend<K(!new)>(s: set<K>, t: set<K>, f: K -> nat)
    requires s <= t && forall x | x in t - s :: f(x) == 0
    ensures Sum(s, f) == Sum(t, f)
    decreases |t - s|
  {
    if t - s != {} {
      var x :| x in t - s;
      SumSplit(t, f, x);
      assert t - s - {x} == (t - {x}) - s;
      SumExtend(s, t - {x}, f);
    } else {
      assert t == s + (t - s);
      assert s == t;
    }
  }

  lemma {:induction false} SumPlus<K(!new)>(s: set<K>, f: K -> nat, g: K -> nat, h: K -> nat)
    requires forall x | x in s :: h(x) == f(x) + g(x)
    ensures Sum(s, h) == Sum(s, f) + Sum(s, g)
    decreases |s|
  {
    if s != {} {
      var x :| x in s;
      SumSplit(s, f, x);
      SumSplit(s, g, x);
      SumSplit(s, h, x);
      SumPlus(s - {x}, f, g, h);
    }
  }

  /** Two different elements count at most the whole sum together. */
  lemma SumOfTwo<K(!new)>(s: set<K>, f: K -> nat, x: K, y: K)
    requires x in s && y in s && x != y
    ensures f(x) + f(y) <= Sum(s, f)
  {
    SumSplit(s, f, x);
    SumSplit(s - {x}, f, y);
  }

  /** Fewer elements sum to no more. */
  lemma {:induction false} SumSubset<K(!new)>(s: set<K>, t: set<K>, f: K -> nat)
    requires s <= t
    ensures Sum(s, f) <= Sum(t, f)
    decreases |t - s|
  {
    if t - s != {} {
      var x :| x in t - s;
      SumSplit(t, f, x);
      assert t - s - {x} == (t - {x}) - s;
      SumSubset(s, t - {x}, f);
    } else {
      assert t == s + (t - s);
      assert s == t;
    }
  }

  /** Renaming the elements one to one keeps the sum. */
  lemma {:induction false} SumRename<K(!new), L(!new)>(s: set<K>, f: K -> nat, rename: K -> L, t: set<L>, g: L -> nat)
    requires forall x, y | x in s && y in s && rename(x) == rename(y) :: x == y
    requires forall x | x in s :: g(rename(x)) == f(x)
    requires t == set x | x in s :: rename(x)
    ensures Sum(s, f) == Sum(t, g)
    decreases |s|
  {
    if s != {} {
      var x :| x in s;
      SumSplit(s, f, x);
      SumSplit(t, g, rename(x));
      var rest := set y | y in s - {x} :: rename(y);
      assert rest == t - {rename(x)};
      SumRename(s - {x}, f, rename, rest, g);
    }
  }

  lemma SumOfOne<K(!new)>(s: set<K>, f: K -> nat, x: K)
    requires x in s
    ensures f(x) <= Sum(s, f)
  {
    SumSplit(s, f, x);
  }

  /** A bound on each summand bounds the sum. */
  lemma {:induction false} SumBound<K(!new)>(s: set<K>, f: K -> nat, bound: nat)
    requires forall x | x in s :: f(x) <= bound
    ensures Sum(s, f) <= |s| * bound
    decreases |s|
  {
    if s != {} {
      var x :| x in s;
      SumSplit(s, f, x);
      SumBound(s - {x}, f, bound);
      var n := |s - {x}|;
      assert |s| == n + 1;
      assert (n + 1) * bound == n * bound + bound;
    }
  }
}
