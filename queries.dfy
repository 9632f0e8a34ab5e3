/**
 * The repository's query shapes, as functions on a table held as a sequence
 * of rows: Get (the first row matching a predicate, or none), GetAll with a
 * predicate (Where), and OrderByDescending on a date key.
 */
module Queries {
  import opened Domain

  /** Get(predicate): the index of the first row satisfying `f`, if any. */
  function FirstIndex<T>(xs: seq<T>, f: T -> bool): (r: Option<nat>)
    ensures r.Some? ==> r.value < |xs| && f(xs[r.value])
    ensures r.Some? ==> forall j :: 0 <= j < r.value ==> !f(xs[j])
    ensures r.None? <==> forall j :: 0 <= j < |xs| ==> !f(xs[j])
    decreases |xs|
  {
    if xs == [] then None
    else if f(xs[0]) then Some(0)
    else
      match FirstIndex(xs[1..], f)
      case None => None
      case Some(k) => Some(k + 1)
  }

  /** Where(f): the rows satisfying `f`, in table order. */
  function Filter<T(!new)>(xs: seq<T>, f: T -> bool): (r: seq<T>)
    ensures |r| <= |xs|
    ensures forall i :: 0 <= i < |r| ==> f(r[i])
    ensures forall x :: x in r <==> x in xs && f(x)
    decreases |xs|
  {
    if xs == [] then []
    else
      var init := Filter(xs[..|xs| - 1], f);
      if f(xs[|xs| - 1]) then init + [xs[|xs| - 1]] else init
  }

  /** Where keeps exactly the matching rows, each as often as the table holds it. */
  lemma {:induction false} FilterCount<T(!new)>(xs: seq<T>, f: T -> bool)
    ensures forall x :: multiset(Filter(xs, f))[x] == if f(x) then multiset(xs)[x] else 0
    decreases |xs|
  {
    if xs != [] {
      var init := xs[..|xs| - 1];
      FilterCount(init, f);
      assert xs == init + [xs[|xs| - 1]];
    }
  }

  /** A Where that every row passes returns the table unchanged. */
  lemma {:induction false} FilterAll<T(!new)>(xs: seq<T>, f: T -> bool)
    requires forall i :: 0 <= i < |xs| ==> f(xs[i])
    ensures Filter(xs, f) == xs
    decreases |xs|
  {
    if xs != [] {
      FilterAll(xs[..|xs| - 1], f);
      assert xs == xs[..|xs| - 1] + [xs[|xs| - 1]];
    }
  }

  /** Two Where clauses in a row are one Where on their conjunction. */
  lemma {:induction false} FilterTwice<T(!new)>(xs: seq<T>, f: T -> bool, g: T -> bool, h: T -> bool)
    requires forall i :: 0 <= i < |xs| ==> h(xs[i]) == (f(xs[i]) && g(xs[i]))
    ensures Filter(Filter(xs, f), g) == Filter(xs, h)
    decreases |xs|
  {
    if xs != [] {
      var init := xs[..|xs| - 1];
      var x := xs[|xs| - 1];
      FilterTwice(init, f, g, h);
      if f(x) {
        var fi := Filter(init, f);
        assert (fi + [x])[..|fi + [x]| - 1] == fi;
      }
    }
  }

  /** Where is unaffected by a change of predicate that agrees on every row. */
  lemma {:induction false} FilterSame<T(!new)>(xs: seq<T>, f: T -> bool, g: T -> bool)
    requires forall i :: 0 <= i < |xs| ==> f(xs[i]) == g(xs[i])
    ensures Filter(xs, f) == Filter(xs, g)
    decreases |xs|
  {
    if xs != [] {
      FilterSame(xs[..|xs| - 1], f, g);
    }
  }

  ghost predicate SortedDesc<T>(xs: seq<T>, key: T -> int)
  {
    forall i, j :: 0 <= i < j < |xs| ==> key(xs[i]) >= key(xs[j])
  }

  lemma SortedCons<T>(h: T, t: seq<T>, key: T -> int)
    requires SortedDesc(t, key)
    requires t == [] || key(h) >= key(t[0])
    ensures SortedDesc([h] + t, key)
  {
    var r := [h] + t;
    forall i, j | 0 <= i < j < |r| ensures key(r[i]) >= key(r[j]) {
      if i == 0 && j > 1 {
        assert r[j] == t[j - 1];
      }
    }
  }

  /** The step of InsertDesc that keeps the head and inserts into the tail. */
  lemma InsertBehindHead<T>(x: T, xs: seq<T>, rest: seq<T>, key: T -> int)
    requires SortedDesc(xs, key) && xs != [] && key(x) < key(xs[0])
    requires SortedDesc(rest, key) && rest != []
    requires rest[0] == x || (|xs| > 1 && rest[0] == xs[1])
    requires multiset(rest) == multiset(xs[1..]) + multiset{x}
    ensures SortedDesc([xs[0]] + rest, key)
    ensures multiset([xs[0]] + rest) == multiset(xs) + multiset{x}
  {
    SortedCons(xs[0], rest, key);
    assert xs == [xs[0]] + xs[1..];
  }

  /** Place `x` in a descending sequence, ahead of the rows with an equal key. */
  function InsertDesc<T>(x: T, xs: seq<T>, key: T -> int): (r: seq<T>)
    requires SortedDesc(xs, key)
    ensures SortedDesc(r, key)
    ensures multiset(r) == multiset(xs) + multiset{x}
    ensures r[0] == x || (xs != [] && r[0] == xs[0])
    decreases |xs|
  {
    if xs == [] || key(x) >= key(xs[0]) then
      SortedCons(x, xs, key);
      [x] + xs
    else
      var t := xs[1..];
      assert SortedDesc(t, key) by {
        assert forall i :: 0 <= i < |t| ==> t[i] == xs[i + 1];
      }
      var rest := InsertDesc(x, t, key);
      InsertBehindHead(x, xs, rest, key);
      [xs[0]] + rest
  }

  /** OrderByDescending(key). */
  function SortDesc<T>(xs: seq<T>, key: T -> int): (r: seq<T>)
    ensures SortedDesc(r, key)
    ensures multiset(r) == multiset(xs)
    decreases |xs|
  {
    if xs == [] then []
    else
      assert xs == [xs[0]] + xs[1..];
      InsertDesc(xs[0], SortDesc(xs[1..], key), key)
  }

  /** A filtered, date-descending query returns the matching rows and only
      them, as many times as the table holds them, newest first. */
  lemma SortedQuery<T(!new)>(xs: seq<T>, f: T -> bool, key: T -> int)
    ensures var r := SortDesc(Filter(xs, f), key);
      && SortedDesc(r, key)
      && (forall x :: multiset(r)[x] == if f(x) then multiset(xs)[x] else 0)
      && (forall x :: x in r <==> x in xs && f(x))
  {
    FilterCount(xs, f);
  }
}
