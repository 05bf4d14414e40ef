/** Definitions the other modules share: optional values, finite sums, list sums,
    and the stable sort that Python's `list.sort(key=...)` performs. */
module Common {

  datatype Option<+T> = None | Some(value: T)

  function Max(a: real, b: real): real { if a >= b then a else b }

  function Min(a: real, b: real): real { if a <= b then a else b }

  // ----- Sums over finite sets ------------------------------------------------

  /** The sum of `f` over `s`. Redis hands out set members in no fixed order, so the
      definition picks members arbitrarily and `SumOverPick` shows the order is immaterial. */
  ghost function SumOver<T(!new)>(s: set<T>, f: T -> real): real
  {
    if s == {} then 0.0
    else
      var x :| x in s;
      f(x) + SumOver(s - {x}, f)
  }

  lemma {:induction false} SumOverPick<T(!new)>(s: set<T>, f: T -> real, y: T)
    requires y in s
    ensures SumOver(s, f) == f(y) + SumOver(s - {y}, f)
    decreases s
  {
    var x :| x in s && SumOver(s, f) == f(x) + SumOver(s - {x}, f);
    if x != y {
      SumOverPick(s - {x}, f, y);
      SumOverPick(s - {y}, f, x);
      assert s - {x} - {y} == s - {y} - {x};
    }
  }

  lemma {:induction false} SumOverAgrees<T(!new)>(s: set<T>, f: T -> real, g: T -> real)
    requires forall x :: x in s ==> f(x) == g(x)
    ensures SumOver(s, f) == SumOver(s, g)
    decreases s
  {
    if s == {} {
    } else {
      var x :| x in s;
      SumOverPick(s, f, x);
      SumOverPick(s, g, x);
      SumOverAgrees(s - {x}, f, g);
    }
  }

  lemma {:induction false} SumOverInsert<T(!new)>(s: set<T>, f: T -> real, y: T)
    requires y !in s
    ensures SumOver(s + {y}, f) == SumOver(s, f) + f(y)
  {
    SumOverPick(s + {y}, f, y);
    assert s + {y} - {y} == s;
  }

  lemma {:induction false} SumOverDifference<T(!new)>(s: set<T>, f: T -> real, g: T -> real, h: T -> real)
    requires forall x :: x in s ==> h(x) == f(x) - g(x)
    ensures SumOver(s, h) == SumOver(s, f) - SumOver(s, g)
    decreases s
  {
    if s == {} {
    } else {
      var x :| x in s;
      SumOverPick(s, f, x);
      SumOverPick(s, g, x);
      SumOverPick(s, h, x);
      SumOverDifference(s - {x}, f, g, h);
    }
  }

  lemma {:induction false} SumOverUnion<T(!new)>(s: set<T>, t: set<T>, f: T -> real)
    requires s !! t
    ensures SumOver(s + t, f) == SumOver(s, f) + SumOver(t, f)
    decreases t
  {
    if t == {} {
      assert s + t == s;
    } else {
      var x :| x in t;
      SumOverPick(t, f, x);
      SumOverPick(s + t, f, x);
      assert s + t - {x} == s + (t - {x});
      SumOverUnion(s, t - {x}, f);
    }
  }

  // ----- Sums over lists ------------------------------------------------------

  function Sum(xs: seq<real>): real
  {
    if xs == [] then 0.0 else Sum(xs[..|xs| - 1]) + xs[|xs| - 1]
  }

  lemma {:induction false} SumAppend(xs: seq<real>, x: real)
    ensures Sum(xs + [x]) == Sum(xs) + x
  {
    assert (xs + [x])[..|xs|] == xs;
  }

  // ----- Stable sorting -------------------------------------------------------

  /** Insert `x` behind every element whose key is not larger: equal keys keep their order. */
  function InsertBy<T>(x: T, xs: seq<T>, key: T -> int): (r: seq<T>)
    ensures |r| == |xs| + 1
  {
    if xs == [] || key(xs[|xs| - 1]) <= key(x) then xs + [x]
    else InsertBy(x, xs[..|xs| - 1], key) + [xs[|xs| - 1]]
  }

  function SortBy<T>(xs: seq<T>, key: T -> int): (r: seq<T>)
    ensures |r| == |xs|
  {
    if xs == [] then [] else InsertBy(xs[|xs| - 1], SortBy(xs[..|xs| - 1], key), key)
  }

  ghost predicate SortedBy<T>(xs: seq<T>, key: T -> int) {
    forall i, j :: 0 <= i < j < |xs| ==> key(xs[i]) <= key(xs[j])
  }

  lemma {:induction false} InsertKeepsElements<T>(x: T, xs: seq<T>, key: T -> int)
    ensures multiset(InsertBy(x, xs, key)) == multiset(xs) + multiset{x}
  {
    if xs != [] && key(xs[|xs| - 1]) > key(x) {
      InsertKeepsElements(x, xs[..|xs| - 1], key);
      assert xs == xs[..|xs| - 1] + [xs[|xs| - 1]];
    }
  }

  /** The last element of an insertion is the old last element or the new one. */
  lemma {:induction false} InsertKeepsOrder<T>(x: T, xs: seq<T>, key: T -> int)
    requires SortedBy(xs, key)
    ensures var r := InsertBy(x, xs, key);
      && SortedBy(r, key)
      && key(r[|r| - 1]) == if xs == [] || key(xs[|xs| - 1]) <= key(x) then key(x) else key(xs[|xs| - 1])
  {
    if xs != [] && key(xs[|xs| - 1]) > key(x) {
      InsertKeepsOrder(x, xs[..|xs| - 1], key);
    }
  }

  lemma {:induction false} SortSorts<T>(xs: seq<T>, key: T -> int)
    ensures SortedBy(SortBy(xs, key), key)
  {
    if xs == [] {
    } else {
      SortSorts(xs[..|xs| - 1], key);
      InsertKeepsOrder(xs[|xs| - 1], SortBy(xs[..|xs| - 1], key), key);
    }
  }

  lemma {:induction false} SortKeepsElements<T>(xs: seq<T>, key: T -> int)
    ensures multiset(SortBy(xs, key)) == multiset(xs)
  {
    if xs == [] {
    } else {
      SortKeepsElements(xs[..|xs| - 1], key);
      InsertKeepsElements(xs[|xs| - 1], SortBy(xs[..|xs| - 1], key), key);
      assert xs == xs[..|xs| - 1] + [xs[|xs| - 1]];
    }
  }

  lemma {:induction false} SortedMembers<T>(xs: seq<T>, key: T -> int, x: T)
    ensures x in SortBy(xs, key) <==> x in xs
  {
    SortKeepsElements(xs, key);
    assert x in multiset(SortBy(xs, key)) <==> x in multiset(xs);
  }

  /** Inserting an element smaller than everything in `ys` leaves `ys` at the end. */
  lemma {:induction false} InsertBefore<T>(x: T, xs: seq<T>, ys: seq<T>, key: T -> int)
    requires forall y :: y in ys ==> key(x) < key(y)
    ensures InsertBy(x, xs + ys, key) == InsertBy(x, xs, key) + ys
    decreases |ys|
  {
    if ys == [] {
      assert xs + ys == xs;
    } else {
      var init, last := ys[..|ys| - 1], ys[|ys| - 1];
      assert (xs + ys)[..|xs + ys| - 1] == xs + init;
      InsertBefore(x, xs, init, key);
      assert ys == init + [last];
    }
  }

  /** Sorting a list whose front part holds only strictly later keys than its back part:
      this is what a Redis list looks like after newer entries were LPUSHed. */
  lemma {:induction false} SortNewerInFront<T>(newer: seq<T>, older: seq<T>, key: T -> int)
    requires forall o, n :: o in older && n in newer ==> key(o) < key(n)
    ensures SortBy(newer + older, key) == SortBy(older, key) + SortBy(newer, key)
    decreases |older|
  {
    if older == [] {
      assert newer + older == newer;
    } else {
      var init, last := older[..|older| - 1], older[|older| - 1];
      assert (newer + older)[..|newer + older| - 1] == newer + init;
      SortNewerInFront(newer, init, key);
      forall y | y in SortBy(newer, key) ensures key(last) < key(y) {
        SortedMembers(newer, key, y);
      }
      InsertBefore(last, SortBy(init, key), SortBy(newer, key), key);
    }
  }
}
