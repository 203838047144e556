/**
 * `Array.prototype.sort` with a comparator `(a, b) => score(b) - score(a)`: largest first.
 * The pages only ever sort by a number (a total, a count of days, a date's time value).
 */
module Sorting {

  /** Each element scores at least as much as the next. */
  predicate SortedDesc<T>(xs: seq<T>, score: T -> real) {
    forall i :: 0 < i < |xs| ==> score(xs[i - 1]) >= score(xs[i])
  }

  /** Places `x` after the leading elements scoring at least as much, keeping the order of the rest. */
  function Insert<T>(xs: seq<T>, x: T, score: T -> real): (r: seq<T>)
    requires SortedDesc(xs, score)
    ensures |r| == |xs| + 1
    ensures r[0] == x || (xs != [] && r[0] == xs[0])
    ensures SortedDesc(r, score)
    ensures multiset(r) == multiset(xs) + multiset{x}
  {
    if xs == [] then [x]
    else if score(xs[0]) >= score(x) then
      SortedTail(xs, score);
      var rest := Insert(xs[1..], x, score);
      assert xs == [xs[0]] + xs[1..];
      SortedCons(xs[0], rest, score);
      [xs[0]] + rest
    else
      SortedCons(x, xs, score);
      [x] + xs
  }

  lemma SortedTail<T>(xs: seq<T>, score: T -> real)
    requires xs != [] && SortedDesc(xs, score)
    ensures SortedDesc(xs[1..], score)
  {
    forall i | 0 < i < |xs| - 1 ensures score(xs[1..][i - 1]) >= score(xs[1..][i]) {
      assert xs[1..][i - 1] == xs[i] && xs[1..][i] == xs[i + 1];
    }
  }

  /** A head scoring at least as much as the first of a sorted list keeps it sorted. */
  lemma SortedCons<T>(a: T, xs: seq<T>, score: T -> real)
    requires SortedDesc(xs, score) && (xs != [] ==> score(a) >= score(xs[0]))
    ensures SortedDesc([a] + xs, score)
  {
    forall i | 0 < i < |xs| + 1 ensures score(([a] + xs)[i - 1]) >= score(([a] + xs)[i]) {
      if i > 1 {
        assert ([a] + xs)[i - 1] == xs[i - 2] && ([a] + xs)[i] == xs[i - 1];
      }
    }
  }

  /** The sorted list: largest score first, holding the same elements. */
  function SortDesc<T>(xs: seq<T>, score: T -> real): (r: seq<T>)
    ensures |r| == |xs|
    ensures SortedDesc(r, score)
    ensures multiset(r) == multiset(xs)
  {
    if xs == [] then []
    else
      var init := xs[..|xs| - 1];
      assert xs == init + [xs[|xs| - 1]];
      Insert(SortDesc(init, score), xs[|xs| - 1], score)
  }

  /** Sorting keeps exactly the elements it was given. */
  lemma SortKeepsElements<T>(xs: seq<T>, score: T -> real, x: T)
    ensures x in SortDesc(xs, score) <==> x in xs
  {
    var r := SortDesc(xs, score);
    assert x in r <==> x in multiset(r);
    assert x in xs <==> x in multiset(xs);
  }

  /** Sorting keeps exactly the elements it was given, all at once. */
  lemma SortKeepsAll<T>(xs: seq<T>, score: T -> real)
    ensures forall x :: x in SortDesc(xs, score) <==> x in xs
  {
    forall x {
      SortKeepsElements(xs, score, x);
    }
  }
}
