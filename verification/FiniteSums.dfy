/** Sums over finite sets. */
module FiniteSums {

  ghost function SumOver<T(!new)>(s: set<T>, f: T -> int): int {
    if s == {} then 0
    else var x :| x in s; f(x) + SumOver(s - {x}, f)
  }

  /** Any element can be taken out first. */
  lemma {:induction false} SumOverRemove<T(!new)>(s: set<T>, f: T -> int, x: T)
    requires x in s
    ensures SumOver(s, f) == f(x) + SumOver(s - {x}, f)
    decreases |s|
  {
    var y :| y in s && SumOver(s, f) == f(y) + SumOver(s - {y}, f);
    if x != y {
      SumOverRemove(s - {y}, f, x);
      SumOverRemove(s - {x}, f, y);
      assert s - {y} - {x} == s - {x} - {y};
    }
  }

  lemma {:induction false} SumOverEqual<T(!new)>(s: set<T>, f: T -> int, g: T -> int)
    requires forall x <- s :: f(x) == g(x)
    ensures SumOver(s, f) == SumOver(s, g)
    decreases |s|
  {
    if s != {} {
      var x :| x in s;
      SumOverRemove(s, f, x);
      SumOverRemove(s, g, x);
      SumOverEqual(s - {x}, f, g);
    }
  }

  lemma {:induction false} SumOverPlus<T(!new)>(s: set<T>, f: T -> int, g: T -> int, h: T -> int)
    requires forall x <- s :: h(x) == f(x) + g(x)
    ensures SumOver(s, h) == SumOver(s, f) + SumOver(s, g)
    decreases |s|
  {
    if s != {} {
      var x :| x in s;
      SumOverRemove(s, f, x);
      SumOverRemove(s, g, x);
      SumOverRemove(s, h, x);
      SumOverPlus(s - {x}, f, g, h);
    }
  }

  lemma {:induction false} SumOverUnion<T(!new)>(s: set<T>, t: set<T>, f: T -> int)
    requires s !! t
    ensures SumOver(s + t, f) == SumOver(s, f) + SumOver(t, f)
    decreases |s|
  {
    if s == {} {
      assert s + t == t;
    } else {
      var x :| x in s;
      SumOverRemove(s, f, x);
      SumOverRemove(s + t, f, x);
      assert s + t - {x} == (s - {x}) + t;
      SumOverUnion(s - {x}, t, f);
    }
  }

  /** A sum with one term that may differ from zero. */
  lemma {:induction false} SumOverSingle<T(!new)>(s: set<T>, f: T -> int, x: T)
    requires forall y <- s :: y != x ==> f(y) == 0
    ensures SumOver(s, f) == if x in s then f(x) else 0
    decreases |s|
  {
    if s != {} {
      var y := if x in s then x else var z :| z in s; z;
      SumOverRemove(s, f, y);
      SumOverSingle(s - {y}, f, x);
    }
  }

  /** Terms outside a subset that are zero do not count. */
  lemma SumOverSupport<T(!new)>(s: set<T>, t: set<T>, f: T -> int)
    requires s <= t && forall x <- t :: x !in s ==> f(x) == 0
    ensures SumOver(s, f) == SumOver(t, f)
  {
    assert t == s + (t - s);
    SumOverUnion(s, t - s, f);
    SumOverEqual(t - s, f, _ => 0);
    SumOverNone(t - s);
  }

  lemma {:induction false} SumOverNone<T(!new)>(s: set<T>)
    ensures SumOver(s, (_: T) => 0) == 0
    decreases |s|
  {
    if s != {} {
      var x :| x in s;
      SumOverRemove(s, (_: T) => 0, x);
      SumOverNone(s - {x});
    }
  }

  function Row<T, U>(f: (T, U) -> int, x: T): U -> int {
    y => f(x, y)
  }

  function Column<T, U>(f: (T, U) -> int, y: U): T -> int {
    x => f(x, y)
  }

  /** A double sum can be taken in either order. */
  lemma {:induction false} SumOverSwap<T(!new), U(!new)>(s: set<T>, t: set<U>, f: (T, U) -> int, rows: T -> int, columns: U -> int)
    requires forall x <- s :: rows(x) == SumOver(t, Row(f, x))
    requires forall y <- t :: columns(y) == SumOver(s, Column(f, y))
    ensures SumOver(s, rows) == SumOver(t, columns)
    decreases |s|
  {
    if s == {} {
      SumOverEqual(t, columns, _ => 0);
      SumOverNone(t);
    } else {
      var a :| a in s;
      var rest := s - {a};
      var less := (y: U) => SumOver(rest, Column(f, y));
      SumOverSwap(rest, t, f, rows, less);
      SumOverRemove(s, rows, a);
      forall y | y in t ensures columns(y) == Row(f, a)(y) + less(y) {
        SumOverRemove(s, Column(f, y), a);
      }
      SumOverPlus(t, Row(f, a), less, columns);
    }
  }

  /** A sum grows strictly when no term shrinks and one grows. */
  lemma {:induction false} SumOverLess<T(!new)>(s: set<T>, f: T -> int, g: T -> int, x: T)
    requires x in s && f(x) < g(x) && forall y <- s :: f(y) <= g(y)
    ensures SumOver(s, f) < SumOver(s, g)
    decreases |s|
  {
    SumOverRemove(s, f, x);
    SumOverRemove(s, g, x);
    var rest := s - {x};
    if y :| y in rest && f(y) < g(y) {
      SumOverLess(rest, f, g, y);
    } else {
      SumOverEqual(rest, f, g);
    }
  }

  function Elements<T>(s: seq<T>): set<T> {
    set x | x in s
  }

  lemma ElementsSnoc<T>(s: seq<T>, i: nat)
    requires i < |s|
    ensures Elements(s[..i + 1]) == Elements(s[..i]) + {s[i]}
    ensures (forall j, k :: 0 <= j < k < |s| ==> s[j] != s[k]) ==> s[i] !in Elements(s[..i])
    ensures s[..|s|] == s
  {
    assert s[..i + 1] == s[..i] + [s[i]];
  }

  ghost function AnyOf<T>(s: set<T>): (x: T)
    requires s != {}
    ensures x in s
  {
    var x :| x in s; x
  }
}
