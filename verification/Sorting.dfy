/** The stable sort that `sorted` and `list.sort` are. */
module Sorting {

  /** `before(x, y)` says that `x` may come before `y`: it is not greater. */
  ghost predicate Orders<T(!new)>(before: (T, T) -> bool) {
    && (forall x, y :: before(x, y) || before(y, x))
    && (forall x, y, z :: before(x, y) && before(y, z) ==> before(x, z))
  }

  function Insert<T>(x: T, xs: seq<T>, before: (T, T) -> bool): seq<T> {
    if xs == [] || before(x, xs[0]) then [x] + xs else [xs[0]] + Insert(x, xs[1..], before)
  }

  /** The sorted list; of two elements that may come in either order, the first stays first. */
  function Sort<T>(xs: seq<T>, before: (T, T) -> bool): seq<T> {
    if xs == [] then [] else Insert(xs[0], Sort(xs[1..], before), before)
  }

  predicate Sorted<T>(xs: seq<T>, before: (T, T) -> bool) {
    forall i, j :: 0 <= i < j < |xs| ==> before(xs[i], xs[j])
  }

  lemma {:induction false} InsertKeeps<T>(x: T, xs: seq<T>, before: (T, T) -> bool)
    ensures multiset(Insert(x, xs, before)) == multiset{x} + multiset(xs)
  {
    if xs != [] && !before(x, xs[0]) {
      InsertKeeps(x, xs[1..], before);
      assert xs == [xs[0]] + xs[1..];
    }
  }

  lemma SortedFrom<T>(x: T, xs: seq<T>, before: (T, T) -> bool)
    requires Sorted(xs, before) && forall y <- xs :: before(x, y)
    ensures Sorted([x] + xs, before)
  {
  }

  lemma InsertedIs<T>(x: T, xs: seq<T>, before: (T, T) -> bool, y: T)
    requires y in Insert(x, xs, before)
    ensures y == x || y in xs
  {
    hide Insert;
    InsertKeeps(x, xs, before);
    assert y in multiset(Insert(x, xs, before));
  }

  lemma {:induction false} InsertSorted<T(!new)>(x: T, xs: seq<T>, before: (T, T) -> bool)
    requires Orders(before) && Sorted(xs, before)
    ensures Sorted(Insert(x, xs, before), before)
  {
    if xs != [] && !before(x, xs[0]) {
      var more := Insert(x, xs[1..], before);
      InsertSorted(x, xs[1..], before);
      forall y | y in more
        ensures before(xs[0], y)
      {
        InsertedIs(x, xs[1..], before, y);
      }
      SortedFrom(xs[0], more, before);
    } else if xs != [] {
      SortedFrom(x, xs, before);
    }
  }

  /** Sorting gives a sorted permutation. */
  lemma {:induction false} SortFacts<T(!new)>(xs: seq<T>, before: (T, T) -> bool)
    requires Orders(before)
    ensures Sorted(Sort(xs, before), before) && multiset(Sort(xs, before)) == multiset(xs)
    ensures |Sort(xs, before)| == |xs| && forall x :: x in Sort(xs, before) <==> x in xs
  {
    hide Orders, Sorted;
    if xs == [] {
      SortedEmpty(before);
    } else {
      var rest := Sort(xs[1..], before);
      SortFacts(xs[1..], before);
      InsertKeeps(xs[0], rest, before);
      InsertSorted(xs[0], rest, before);
      assert xs == [xs[0]] + xs[1..];
    }
    var s := Sort(xs, before);
    assert |multiset(s)| == |multiset(xs)|;
    forall x
      ensures x in s <==> x in xs
    {
      assert x in multiset(s) <==> x in multiset(xs);
    }
  }

  lemma SortedEmpty<T>(before: (T, T) -> bool)
    ensures Sorted<T>([], before)
  {
  }

  // ---------- Stability ----------

  predicate Alike<T>(x: T, y: T, before: (T, T) -> bool) { before(x, y) && before(y, x) }

  /** The elements that may come in either order with `x`. */
  function Class<T>(xs: seq<T>, x: T, before: (T, T) -> bool): seq<T> {
    if xs == [] then [] else (if Alike(xs[0], x, before) then [xs[0]] else []) + Class(xs[1..], x, before)
  }

  lemma {:induction false} InsertKeepsClass<T(!new)>(y: T, xs: seq<T>, x: T, before: (T, T) -> bool)
    requires Orders(before)
    ensures Class(Insert(y, xs, before), x, before) == (if Alike(y, x, before) then [y] else []) + Class(xs, x, before)
  {
    hide Alike, Orders, Class;
    if xs == [] || before(y, xs[0]) {
      ClassMore(y, xs, x, before);
    } else {
      var h, t := xs[0], xs[1..];
      var rest := Insert(y, t, before);
      InsertKeepsClass(y, t, x, before);
      AlikeBoth(y, h, x, before);
      ClassMore(h, rest, x, before);
      ClassMore(h, t, x, before);
      assert xs == [h] + t;
      OneOfTwo(h, Alike(h, x, before), y, Alike(y, x, before), Class(t, x, before));
    }
  }

  lemma OneOfTwo<T>(h: T, first: bool, y: T, second: bool, rest: seq<T>)
    requires !(first && second)
    ensures var a, b := if first then [h] else [], if second then [y] else [];
      a + (b + rest) == b + (a + rest)
  {
  }

  lemma ClassMore<T>(h: T, t: seq<T>, x: T, before: (T, T) -> bool)
    ensures Class([h] + t, x, before) == (if Alike(h, x, before) then [h] else []) + Class(t, x, before)
  {
    assert ([h] + t)[1..] == t;
  }

  lemma AlikeBoth<T(!new)>(y: T, z: T, x: T, before: (T, T) -> bool)
    requires Orders(before)
    ensures Alike(y, x, before) && Alike(z, x, before) ==> before(y, z)
  {
    if Alike(y, x, before) && Alike(z, x, before) { assert before(y, x) && before(x, z); }
  }

  /** Sorting is stable: elements that may come in either order stay in the order they had. */
  lemma {:induction false} SortIsStable<T(!new)>(xs: seq<T>, x: T, before: (T, T) -> bool)
    requires Orders(before)
    ensures Class(Sort(xs, before), x, before) == Class(xs, x, before)
  {
    hide Orders, Alike;
    if xs != [] {
      SortIsStable(xs[1..], x, before);
      InsertKeepsClass(xs[0], Sort(xs[1..], before), x, before);
    }
  }

  /** Where an element first stands, or the length of the list. */
  function FirstAt<T(==)>(xs: seq<T>, x: T): (k: nat)
    ensures k <= |xs| && (k < |xs| <==> x in xs) && (k < |xs| ==> xs[k] == x)
    ensures forall i :: 0 <= i < k ==> xs[i] != x
  {
    if xs == [] || xs[0] == x then 0 else 1 + FirstAt(xs[1..], x)
  }

  lemma FirstMore<T>(h: T, t: seq<T>, x: T)
    ensures FirstAt([h] + t, x) == if h == x then 0 else 1 + FirstAt(t, x)
  {
    assert ([h] + t)[1..] == t;
  }

  lemma {:induction false} ClassOrder<T(!new)>(xs: seq<T>, x: T, a: T, b: T, before: (T, T) -> bool)
    requires Alike(a, x, before) && Alike(b, x, before)
    ensures FirstAt(xs, a) < FirstAt(xs, b) <==> FirstAt(Class(xs, x, before), a) < FirstAt(Class(xs, x, before), b)
  {
    hide Alike, FirstAt;
    if xs != [] {
      var h, t := xs[0], xs[1..];
      assert xs == [h] + t;
      ClassOrder(t, x, a, b, before);
      FirstMore(h, t, a);
      FirstMore(h, t, b);
      var c := Class(t, x, before);
      FirstMore(h, c, a);
      FirstMore(h, c, b);
      if !Alike(h, x, before) { assert [] + c == c; }
    }
  }

  /** Of two elements that may come in either order, the one that stood first still does. */
  lemma SortKeepsOrder<T(!new)>(xs: seq<T>, a: T, b: T, before: (T, T) -> bool)
    requires Orders(before) && Alike(a, b, before)
    ensures FirstAt(Sort(xs, before), a) < FirstAt(Sort(xs, before), b) <==> FirstAt(xs, a) < FirstAt(xs, b)
  {
    SortIsStable(xs, b, before);
    ClassOrder(xs, b, a, b, before);
    ClassOrder(Sort(xs, before), b, a, b, before);
  }
}
