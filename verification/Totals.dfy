/** Sums over the rows of a table.

    A SQL aggregate does not depend on the order in which rows are read, so it is modelled as
    a sum over the SET of row keys. Every summand is a named function value: two mentions of
    the same name are the same function, which is what lets sums be compared. */
module Totals {

  /** SELECT SUM(f) over the keys in `s`. */
  ghost function Total<K>(s: set<K>, f: K -> int): (total: int)
    decreases |s|
  {
    if s == {} then 0
    else
      var x :| x in s;
      f(x) + Total(s - {x}, f)
  }

  /** The sum does not depend on which row is read first. */
  lemma {:induction false} TotalSplit<K>(s: set<K>, f: K -> int, x: K)
    requires x in s
    ensures Total(s, f) == f(x) + Total(s - {x}, f)
    decreases |s|
  {
    var y :| y in s && Total(s, f) == f(y) + Total(s - {y}, f);
    if y != x {
      TotalSplit(s - {y}, f, x);
      TotalSplit(s - {x}, f, y);
      assert s - {y} - {x} == s - {x} - {y};
    }
  }

  lemma TotalAdd<K>(s: set<K>, f: K -> int, x: K)
    requires x !in s
    ensures Total(s + {x}, f) == Total(s, f) + f(x)
  {
    TotalSplit(s + {x}, f, x);
    assert s + {x} - {x} == s;
  }

  lemma TotalPair<K>(a: K, b: K, f: K -> int)
    requires a != b
    ensures Total({a, b}, f) == f(a) + f(b)
  {
    TotalAdd({}, f, a);
    TotalAdd({a}, f, b);
    assert {} + {a} == {a} && {a} + {b} == {a, b};
  }

  /** Sums of summands that add up row by row add up. */
  lemma {:induction false} TotalSum<K>(s: set<K>, f: K -> int, g: K -> int, h: K -> int)
    requires forall x :: x in s ==> h(x) == f(x) + g(x)
    ensures Total(s, h) == Total(s, f) + Total(s, g)
    decreases |s|
  {
    if s != {} {
      var x :| x in s;
      TotalSplit(s, f, x);
      TotalSplit(s, g, x);
      TotalSplit(s, h, x);
      TotalSum(s - {x}, f, g, h);
    }
  }

  /** Rows that agree have the same sum, and rows that are dominated have a smaller one. */
  lemma {:induction false} TotalLe<K>(s: set<K>, f: K -> int, g: K -> int)
    requires forall x :: x in s ==> f(x) <= g(x)
    ensures Total(s, f) <= Total(s, g)
    ensures (forall x :: x in s ==> f(x) == g(x)) ==> Total(s, f) == Total(s, g)
    decreases |s|
  {
    if s != {} {
      var x :| x in s;
      TotalSplit(s, f, x);
      TotalSplit(s, g, x);
      TotalLe(s - {x}, f, g);
    }
  }

  lemma TotalSame<K>(s: set<K>, f: K -> int, g: K -> int)
    requires forall x :: x in s ==> f(x) == g(x)
    ensures Total(s, f) == Total(s, g)
  {
    TotalLe(s, f, g);
  }

  /** Changing one row moves the sum by the change in that row. */
  lemma TotalChange<K>(s: set<K>, f: K -> int, g: K -> int, x: K)
    requires x in s
    requires forall y :: y in s && y != x ==> f(y) == g(y)
    ensures Total(s, g) == Total(s, f) - f(x) + g(x)
  {
    TotalSplit(s, f, x);
    TotalSplit(s, g, x);
    TotalSame(s - {x}, f, g);
  }

  lemma {:induction false} TotalUnion<K>(s: set<K>, t: set<K>, f: K -> int)
    requires s !! t
    ensures Total(s + t, f) == Total(s, f) + Total(t, f)
    decreases |t|
  {
    if t == {} {
      assert s + t == s;
    } else {
      var x :| x in t;
      TotalSplit(t, f, x);
      TotalSplit(s + t, f, x);
      assert s + t - {x} == s + (t - {x});
      TotalUnion(s, t - {x}, f);
    }
  }

  lemma {:induction false} TotalZero<K>(s: set<K>, f: K -> int)
    requires forall x :: x in s ==> f(x) == 0
    ensures Total(s, f) == 0
    decreases |s|
  {
    if s != {} {
      var x :| x in s;
      TotalSplit(s, f, x);
      TotalZero(s - {x}, f);
    }
  }

  /** Rows whose summand is zero may be left out. */
  lemma TotalSupport<K>(s: set<K>, t: set<K>, f: K -> int)
    requires s <= t
    requires forall x :: x in t && x !in s ==> f(x) == 0
    ensures Total(s, f) == Total(t, f)
  {
    assert t == s + (t - s);
    TotalUnion(s, t - s, f);
    TotalZero(t - s, f);
  }

  lemma {:induction false} TotalNonneg<K>(s: set<K>, f: K -> int)
    requires forall x :: x in s ==> f(x) >= 0
    ensures Total(s, f) >= 0
    ensures forall x :: x in s ==> f(x) <= Total(s, f)
    decreases |s|
  {
    forall x | x in s
      ensures f(x) <= Total(s, f) && Total(s, f) >= 0
    {
      TotalSplit(s, f, x);
      TotalNonneg(s - {x}, f);
    }
  }

  /** SELECT COALESCE(SUM(f), 0) as the database evaluates it, row by row in any order. */
  method SelectSum<K(==)>(keys: set<K>, f: K -> int) returns (total: int)
    ensures total == Total(keys, f)
  {
    total := 0;
    var rest := keys;
    while rest != {}
      invariant rest <= keys
      invariant total + Total(rest, f) == Total(keys, f)
      decreases |rest|
    {
      var k :| k in rest;
      TotalSplit(rest, f, k);
      total := total + f(k);
      rest := rest - {k};
    }
  }
}
