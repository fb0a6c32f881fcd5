/** Finite sums of reals, the arithmetic behind aggregation and energy accounting. */
module Sums {

  ghost function Sum<T(!new)>(s: set<T>, f: T -> real): real {
    if s == {} then 0.0
    else
      var x :| x in s;
      f(x) + Sum(s - {x}, f)
  }

  lemma {:induction false} SumPick<T(!new)>(s: set<T>, f: T -> real, x: T)
    requires x in s
    ensures Sum(s, f) == f(x) + Sum(s - {x}, f)
    decreases |s|
  {
    var y :| y in s && Sum(s, f) == f(y) + Sum(s - {y}, f);
    if y != x {
      SumPick(s - {y}, f, x);
      SumPick(s - {x}, f, y);
      assert s - {y} - {x} == s - {x} - {y};
    }
  }

  lemma {:induction false} SumEqual<T(!new)>(s: set<T>, f: T -> real, g: T -> real)
    requires forall x :: x in s ==> f(x) == g(x)
    ensures Sum(s, f) == Sum(s, g)
    decreases |s|
  {
    if s != {} {
      var x :| x in s;
      SumPick(s, f, x);
      SumPick(s, g, x);
      SumEqual(s - {x}, f, g);
    }
  }

  lemma {:induction false} SumAtMost<T(!new)>(s: set<T>, f: T -> real, g: T -> real)
    requires forall x :: x in s ==> f(x) <= g(x)
    ensures Sum(s, f) <= Sum(s, g)
    decreases |s|
  {
    if s != {} {
      var x :| x in s;
      SumPick(s, f, x);
      SumPick(s, g, x);
      SumAtMost(s - {x}, f, g);
    }
  }

  lemma {:induction false} SumZero<T(!new)>(s: set<T>, f: T -> real)
    requires forall x :: x in s ==> f(x) == 0.0
    ensures Sum(s, f) == 0.0
    decreases |s|
  {
    if s != {} {
      var x :| x in s;
      SumPick(s, f, x);
      SumZero(s - {x}, f);
    }
  }

  lemma {:induction false} SumPlus<T(!new)>(s: set<T>, f: T -> real, g: T -> real, h: T -> real)
    requires forall x :: x in s ==> h(x) == f(x) + g(x)
    ensures Sum(s, h) == Sum(s, f) + Sum(s, g)
    decreases |s|
  {
    if s != {} {
      var x :| x in s;
      SumPick(s, f, x);
      SumPick(s, g, x);
      SumPick(s, h, x);
      SumPlus(s - {x}, f, g, h);
    }
  }

  /** A function scaled by a constant. */
  ghost function Scaled<T(!new)>(c: real, f: T -> real): T -> real {
    x => c * f(x)
  }

  lemma Distribute(c: real, a: real, b: real)
    ensures c * (a + b) == c * a + c * b
  {
  }

  lemma ScaledAt<T(!new)>(c: real, f: T -> real, x: T)
    ensures Scaled(c, f)(x) == c * f(x)
  {
  }

  lemma {:induction false} SumScaled<T(!new)>(s: set<T>, c: real, f: T -> real)
    ensures Sum(s, Scaled(c, f)) == c * Sum(s, f)
    decreases |s|
  {
    hide Scaled;
    if s != {} {
      var x :| x in s;
      SumPick(s, f, x);
      SumPick(s, Scaled(c, f), x);
      SumScaled(s - {x}, c, f);
      ScaledAt(c, f, x);
      Distribute(c, f(x), Sum(s - {x}, f));
    }
  }

  lemma {:induction false} SumDisjoint<T(!new)>(s: set<T>, t: set<T>, f: T -> real)
    requires s !! t
    ensures Sum(s + t, f) == Sum(s, f) + Sum(t, f)
    decreases |s|
  {
    if s == {} {
      assert s + t == t;
    } else {
      var x :| x in s;
      SumPick(s, f, x);
      SumPick(s + t, f, x);
      assert s + t - {x} == (s - {x}) + t;
      SumDisjoint(s - {x}, t, f);
    }
  }

  /** Terms that vanish may be left out. */
  lemma SumSupport<T(!new)>(s: set<T>, t: set<T>, f: T -> real)
    requires s <= t && forall x :: x in t - s ==> f(x) == 0.0
    ensures Sum(t, f) == Sum(s, f)
  {
    SumDisjoint(s, t - s, f);
    assert s + (t - s) == t;
    SumZero(t - s, f);
  }

  /** Renaming the index by a one-to-one map keeps the sum. */
  lemma {:induction false} SumReindexed<S(!new), T(!new)>(s: set<S>, f: S -> real, t: set<T>, g: T -> real, h: S -> T)
    requires forall x :: x in s ==> h(x) in t && f(x) == g(h(x))
    requires forall x, y :: x in s && y in s && h(x) == h(y) ==> x == y
    requires forall z :: z in t ==> exists x :: x in s && h(x) == z
    ensures Sum(s, f) == Sum(t, g)
    decreases |s|
  {
    if s == {} {
      assert t == {};
    } else {
      var x :| x in s;
      SumPick(s, f, x);
      SumPick(t, g, h(x));
      SumReindexed(s - {x}, f, t - {h(x)}, g, h);
    }
  }

  ghost function Row<S(!new), T(!new)>(f: (S, T) -> real, x: S): T -> real {
    y => f(x, y)
  }

  ghost function Column<S(!new), T(!new)>(f: (S, T) -> real, y: T): S -> real {
    x => f(x, y)
  }

  ghost function RowSum<S(!new), T(!new)>(t: set<T>, f: (S, T) -> real): S -> real {
    x => Sum(t, Row(f, x))
  }

  ghost function ColumnSum<S(!new), T(!new)>(s: set<S>, f: (S, T) -> real): T -> real {
    y => Sum(s, Column(f, y))
  }

  /** A double sum may be taken by rows or by columns. */
  lemma {:induction false} SumExchange<S(!new), T(!new)>(s: set<S>, t: set<T>, f: (S, T) -> real)
    ensures Sum(s, RowSum(t, f)) == Sum(t, ColumnSum(s, f))
    decreases |s|
  {
    if s == {} {
      SumZero(t, ColumnSum(s, f));
    } else {
      var x :| x in s;
      SumPick(s, RowSum(t, f), x);
      SumExchange(s - {x}, t, f);
      forall y | y in t
        ensures ColumnSum(s, f)(y) == Row(f, x)(y) + ColumnSum(s - {x}, f)(y)
      {
        SumPick(s, Column(f, y), x);
      }
      SumPlus(t, Row(f, x), ColumnSum(s - {x}, f), ColumnSum(s, f));
    }
  }
}
