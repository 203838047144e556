/**
 * The list arithmetic the pages repeat: `filter`, `reduce((s, x) => s + f(x), 0)`, counting,
 * and grouping into an object keyed by some field (`acc[key] = acc[key] || {...}`), whose
 * keys come out in the order they were first seen.
 */
module Tally {

  /** `xs.filter(p)`. */
  function Filter<T>(xs: seq<T>, p: T -> bool): (r: seq<T>)
    ensures |r| <= |xs|
    ensures forall i :: 0 <= i < |r| ==> r[i] in xs && p(r[i])
    ensures forall i :: 0 <= i < |xs| && p(xs[i]) ==> xs[i] in r
  {
    if xs == [] then []
    else Filter(xs[..|xs| - 1], p) + (if p(xs[|xs| - 1]) then [xs[|xs| - 1]] else [])
  }

  /** `xs.reduce((s, x) => s + f(x), 0)`. */
  function Sum<T>(xs: seq<T>, f: T -> real): real {
    if xs == [] then 0.0 else Sum(xs[..|xs| - 1], f) + f(xs[|xs| - 1])
  }

  /** `xs.filter(p).length`. */
  function Count<T>(xs: seq<T>, p: T -> bool): (n: nat)
    ensures n <= |xs|
  {
    if xs == [] then 0 else Count(xs[..|xs| - 1], p) + (if p(xs[|xs| - 1]) then 1 else 0)
  }

  lemma {:induction false} SumAppend<T>(xs: seq<T>, ys: seq<T>, f: T -> real)
    ensures Sum(xs + ys, f) == Sum(xs, f) + Sum(ys, f)
    decreases |ys|
  {
    if ys != [] {
      var init := ys[..|ys| - 1];
      assert (xs + ys)[..|xs + ys| - 1] == xs + init;
      assert (xs + ys)[|xs + ys| - 1] == ys[|ys| - 1];
      SumAppend(xs, init, f);
    } else {
      assert xs + ys == xs;
    }
  }

  /** Summing over the filtered list is summing, over the whole list, `g`: `f` where `p` holds and 0 elsewhere. */
  lemma {:induction false} SumFilter<T>(xs: seq<T>, p: T -> bool, f: T -> real, g: T -> real)
    requires forall x :: g(x) == (if p(x) then f(x) else 0.0)
    ensures Sum(Filter(xs, p), f) == Sum(xs, g)
  {
    if xs != [] {
      var init, last := xs[..|xs| - 1], xs[|xs| - 1];
      SumFilter(init, p, f, g);
      SumAppend(Filter(init, p), if p(last) then [last] else [], f);
      if p(last) {
        assert Sum([last], f) == Sum([last][..0], f) + f(last);
      }
    }
  }

  /** The length of the filtered list is the count. */
  lemma {:induction false} CountFilter<T>(xs: seq<T>, p: T -> bool)
    ensures |Filter(xs, p)| == Count(xs, p)
  {
    if xs != [] {
      CountFilter(xs[..|xs| - 1], p);
    }
  }

  /** A sum whose terms split in two is the sum of the two sums: buckets partition the total. */
  lemma {:induction false} SumSplit<T>(xs: seq<T>, f: T -> real, g: T -> real, h: T -> real)
    requires forall x :: f(x) == g(x) + h(x)
    ensures Sum(xs, f) == Sum(xs, g) + Sum(xs, h)
  {
    if xs != [] {
      SumSplit(xs[..|xs| - 1], f, g, h);
    }
  }

  /** Sums of functions that agree everywhere are equal. */
  lemma {:induction false} SumCongruent<T>(xs: seq<T>, f: T -> real, g: T -> real)
    requires forall x :: f(x) == g(x)
    ensures Sum(xs, f) == Sum(xs, g)
  {
    if xs != [] {
      SumCongruent(xs[..|xs| - 1], f, g);
    }
  }

  lemma {:induction false} SumNonNegative<T>(xs: seq<T>, f: T -> real)
    requires forall x :: x in xs ==> f(x) >= 0.0
    ensures Sum(xs, f) >= 0.0
  {
    if xs != [] {
      SumNonNegative(xs[..|xs| - 1], f);
    }
  }

  // ----- Grouping by key -----

  /** The distinct keys of `xs`, in the order they first appear (the key order of a JS object built in a loop). */
  function Keys<T, K(==)>(xs: seq<T>, key: T -> K): (ks: seq<K>)
    ensures forall i :: 0 <= i < |xs| ==> key(xs[i]) in ks
    ensures forall i :: 0 <= i < |ks| ==> exists j :: 0 <= j < |xs| && key(xs[j]) == ks[i]
    ensures forall i, j :: 0 <= i < j < |ks| ==> ks[i] != ks[j]
  {
    if xs == [] then []
    else
      var ks := Keys(xs[..|xs| - 1], key);
      var k := key(xs[|xs| - 1]);
      assert forall i :: 0 <= i < |xs| - 1 ==> xs[..|xs| - 1][i] == xs[i];
      if k in ks then ks else ks + [k]
  }

  /** One more element adds its key at the end, unless the key is already listed. */
  lemma KeysStep<T, K>(xs: seq<T>, x: T, key: T -> K)
    ensures Keys(xs + [x], key) == if key(x) in Keys(xs, key) then Keys(xs, key) else Keys(xs, key) + [key(x)]
  {
    assert (xs + [x])[..|xs|] == xs;
  }

  /** The total of one key's group. */
  function GroupSum<T, K(==)>(xs: seq<T>, key: T -> K, f: T -> real, k: K): real {
    Sum(xs, x => if key(x) == k then f(x) else 0.0)
  }

  /** One more element adds its value to its own key's total only. */
  lemma GroupSumStep<T, K>(xs: seq<T>, x: T, key: T -> K, f: T -> real, k: K)
    ensures GroupSum(xs + [x], key, f, k) == GroupSum(xs, key, f, k) + (if key(x) == k then f(x) else 0.0)
  {
    assert (xs + [x])[..|xs|] == xs;
  }

  /** The total of each key, listed in key order. */
  function SumOverKeys<T, K(==)>(xs: seq<T>, key: T -> K, f: T -> real, ks: seq<K>): real {
    if ks == [] then 0.0
    else SumOverKeys(xs, key, f, ks[..|ks| - 1]) + GroupSum(xs, key, f, ks[|ks| - 1])
  }

  /** The group totals add up to the overall total: every element lands in exactly one group. */
  lemma {:induction false} GroupsAddUp<T, K>(xs: seq<T>, key: T -> K, f: T -> real)
    ensures SumOverKeys(xs, key, f, Keys(xs, key)) == Sum(xs, f)
  {
    if xs != [] {
      var init, last := xs[..|xs| - 1], xs[|xs| - 1];
      assert xs == init + [last];
      var ks := Keys(init, key);
      GroupsAddUp(init, key, f);
      SumOverKeysStep(init, key, f, ks, last);
      if key(last) !in ks {
        assert Keys(xs, key) == ks + [key(last)];
        NewKeyGroup(init, last, key, f);
      }
    }
  }

  /** An element with a key not seen before opens a group holding just its own value. */
  lemma NewKeyGroup<T, K>(init: seq<T>, last: T, key: T -> K, f: T -> real)
    requires key(last) !in Keys(init, key)
    ensures var xs, ks := init + [last], Keys(init, key);
            SumOverKeys(xs, key, f, ks + [key(last)]) == SumOverKeys(xs, key, f, ks) + f(last)
  {
    var xs, ks, k := init + [last], Keys(init, key), key(last);
    assert (ks + [k])[..|ks|] == ks;
    GroupSumAbsent(init, key, f, k);
    GroupSumStep(init, last, key, f, k);
  }

  /** Adding one element to the list adds its value once to the keys' total, if its key is listed once. */
  lemma {:induction false} SumOverKeysStep<T, K>(xs: seq<T>, key: T -> K, f: T -> real, ks: seq<K>, x: T)
    requires forall i, j :: 0 <= i < j < |ks| ==> ks[i] != ks[j]
    ensures SumOverKeys(xs + [x], key, f, ks)
            == SumOverKeys(xs, key, f, ks) + (if key(x) in ks then f(x) else 0.0)
  {
    if ks != [] {
      var init := ks[..|ks| - 1];
      SumOverKeysStep(xs, key, f, init, x);
      assert (xs + [x])[..|xs + [x]| - 1] == xs;
      assert key(x) in ks <==> key(x) in init || key(x) == ks[|ks| - 1];
    }
  }

  /** A key that no element carries has an empty group. */
  lemma {:induction false} GroupSumAbsent<T, K>(xs: seq<T>, key: T -> K, f: T -> real, k: K)
    requires forall i :: 0 <= i < |xs| ==> key(xs[i]) != k
    ensures GroupSum(xs, key, f, k) == 0.0
  {
    if xs != [] {
      GroupSumAbsent(xs[..|xs| - 1], key, f, k);
    }
  }

  // ----- Building a per-key summary in a loop -----

  /**
   * What a loop adding `f` and `g` into `acc[key(x)]` has built from `xs`: the keys in the order
   * first seen, and each key's two totals.
   */
  ghost predicate Tallies<T, K(!new)>(xs: seq<T>, key: T -> K, f: T -> real, g: T -> real,
                                m: map<K, (real, real)>, order: seq<K>) {
    && order == Keys(xs, key)
    && (forall k :: k in m <==> k in order)
    && (forall k :: k in m ==> m[k] == (GroupSum(xs, key, f, k), GroupSum(xs, key, g, k)))
  }

  /** One pass of the loop body: the key's entry is created at (0, 0) if new, then both totals grow. */
  function AddTo<T, K>(m: map<K, (real, real)>, order: seq<K>, x: T, key: T -> K, f: T -> real, g: T -> real)
    : (r: (map<K, (real, real)>, seq<K>))
    ensures r.0.Keys == m.Keys + {key(x)}
  {
    var k := key(x);
    var (a, b) := if k in m then m[k] else (0.0, 0.0);
    (m[k := (a + f(x), b + g(x))], if k in m then order else order + [k])
  }

  lemma TalliesEmpty<T, K(!new)>(key: T -> K, f: T -> real, g: T -> real)
    ensures Tallies([], key, f, g, map[], [])
  {
  }

  /** The loop body keeps each key's two totals. */
  lemma TallyTotalsStep<T, K>(xs: seq<T>, x: T, key: T -> K, f: T -> real, g: T -> real, m: map<K, (real, real)>)
    requires forall k :: k in m ==> m[k] == (GroupSum(xs, key, f, k), GroupSum(xs, key, g, k))
    requires forall i :: 0 <= i < |xs| ==> key(xs[i]) in m
    ensures var after := AddTo(m, [], x, key, f, g).0;
            forall k :: k in after ==> after[k] == (GroupSum(xs + [x], key, f, k), GroupSum(xs + [x], key, g, k))
  {
    var after := AddTo(m, [], x, key, f, g).0;
    forall k | k in after
      ensures after[k] == (GroupSum(xs + [x], key, f, k), GroupSum(xs + [x], key, g, k))
    {
      GroupSumStep(xs, x, key, f, k);
      GroupSumStep(xs, x, key, g, k);
      if k == key(x) && k !in m {
        GroupSumAbsent(xs, key, f, k);
        GroupSumAbsent(xs, key, g, k);
      }
    }
  }

  /** The loop body keeps `Tallies`. */
  lemma TalliesStep<T, K(!new)>(xs: seq<T>, x: T, key: T -> K, f: T -> real, g: T -> real,
                                m: map<K, (real, real)>, order: seq<K>)
    requires Tallies(xs, key, f, g, m, order)
    ensures Tallies(xs + [x], key, f, g, AddTo(m, order, x, key, f, g).0, AddTo(m, order, x, key, f, g).1)
  {
    KeysStep(xs, x, key);
    assert AddTo(m, order, x, key, f, g).0 == AddTo(m, [], x, key, f, g).0;
    TallyTotalsStep(xs, x, key, f, g, m);
  }

  /** The loop over a whole list, one `AddTo` per element. */
  function Tallied<T, K>(xs: seq<T>, key: T -> K, f: T -> real, g: T -> real): (map<K, (real, real)>, seq<K>) {
    if xs == [] then (map[], [])
    else
      var r := Tallied(xs[..|xs| - 1], key, f, g);
      AddTo(r.0, r.1, xs[|xs| - 1], key, f, g)
  }

  /** Whatever the list, the loop builds the keys in first-seen order and each key's two totals. */
  lemma {:induction false} TalliedTallies<T, K(!new)>(xs: seq<T>, key: T -> K, f: T -> real, g: T -> real)
    ensures Tallies(xs, key, f, g, Tallied(xs, key, f, g).0, Tallied(xs, key, f, g).1)
  {
    if xs != [] {
      var init, x := xs[..|xs| - 1], xs[|xs| - 1];
      assert init + [x] == xs;
      TalliedTallies(init, key, f, g);
      TalliesStep(init, x, key, f, g, Tallied(init, key, f, g).0, Tallied(init, key, f, g).1);
    }
  }

  /** The same with a single total per key (`acc[key] = (acc[key] || 0) + f(x)`). */
  ghost predicate Totals<T, K(!new)>(xs: seq<T>, key: T -> K, f: T -> real, m: map<K, real>, order: seq<K>) {
    && order == Keys(xs, key)
    && (forall k :: k in m <==> k in order)
    && (forall k :: k in m ==> m[k] == GroupSum(xs, key, f, k))
  }

  function AddTotal<T, K>(m: map<K, real>, order: seq<K>, x: T, key: T -> K, f: T -> real): (r: (map<K, real>, seq<K>))
    ensures r.0.Keys == m.Keys + {key(x)}
  {
    var k := key(x);
    (m[k := (if k in m then m[k] else 0.0) + f(x)], if k in m then order else order + [k])
  }

  lemma TotalStep<T, K>(xs: seq<T>, x: T, key: T -> K, f: T -> real, m: map<K, real>)
    requires forall k :: k in m ==> m[k] == GroupSum(xs, key, f, k)
    requires forall i :: 0 <= i < |xs| ==> key(xs[i]) in m
    ensures var after := AddTotal(m, [], x, key, f).0;
            forall k :: k in after ==> after[k] == GroupSum(xs + [x], key, f, k)
  {
    var after := AddTotal(m, [], x, key, f).0;
    forall k | k in after
      ensures after[k] == GroupSum(xs + [x], key, f, k)
    {
      GroupSumStep(xs, x, key, f, k);
      if k == key(x) && k !in m {
        GroupSumAbsent(xs, key, f, k);
      }
    }
  }

  lemma TotalsStep<T, K(!new)>(xs: seq<T>, x: T, key: T -> K, f: T -> real, m: map<K, real>, order: seq<K>)
    requires Totals(xs, key, f, m, order)
    ensures Totals(xs + [x], key, f, AddTotal(m, order, x, key, f).0, AddTotal(m, order, x, key, f).1)
  {
    KeysStep(xs, x, key);
    assert AddTotal(m, order, x, key, f).0 == AddTotal(m, [], x, key, f).0;
    TotalStep(xs, x, key, f, m);
  }

  function Totalled<T, K>(xs: seq<T>, key: T -> K, f: T -> real): (map<K, real>, seq<K>) {
    if xs == [] then (map[], [])
    else
      var r := Totalled(xs[..|xs| - 1], key, f);
      AddTotal(r.0, r.1, xs[|xs| - 1], key, f)
  }

  lemma {:induction false} TotalledTotals<T, K(!new)>(xs: seq<T>, key: T -> K, f: T -> real)
    ensures Totals(xs, key, f, Totalled(xs, key, f).0, Totalled(xs, key, f).1)
  {
    if xs != [] {
      var init, x := xs[..|xs| - 1], xs[|xs| - 1];
      assert init + [x] == xs;
      TotalledTotals(init, key, f);
      TotalsStep(init, x, key, f, Totalled(init, key, f).0, Totalled(init, key, f).1);
    }
  }

  /** Sums of the same elements in any order are equal. */
  lemma {:induction false} SumPermutation<T>(xs: seq<T>, ys: seq<T>, f: T -> real)
    requires multiset(xs) == multiset(ys)
    ensures Sum(xs, f) == Sum(ys, f)
    decreases |xs|
  {
    if xs == [] {
      assert |ys| == |multiset(ys)| == 0;
    } else {
      var init, last := xs[..|xs| - 1], xs[|xs| - 1];
      assert xs == init + [last];
      assert last in multiset(ys);
      var i :| 0 <= i < |ys| && ys[i] == last;
      var rest := ys[..i] + ys[i + 1..];
      WithoutOne(ys, i);
      assert multiset(xs) == multiset(init) + multiset{last};
      assert multiset(init) == multiset(xs) - multiset{last};
      assert multiset(init) == multiset(rest);
      SumPermutation(init, rest, f);
      SumWithoutOne(ys, i, f);
    }
  }

  /** Taking out the element at `i` takes one copy of it out of the multiset. */
  lemma WithoutOne<T>(ys: seq<T>, i: int)
    requires 0 <= i < |ys|
    ensures multiset(ys[..i] + ys[i + 1..]) == multiset(ys) - multiset{ys[i]}
  {
    assert ys == ys[..i] + [ys[i]] + ys[i + 1..];
  }

  /** Taking out the element at `i` takes its value out of the sum. */
  lemma SumWithoutOne<T>(ys: seq<T>, i: int, f: T -> real)
    requires 0 <= i < |ys|
    ensures Sum(ys, f) == Sum(ys[..i] + ys[i + 1..], f) + f(ys[i])
  {
    var front, post := ys[..i + 1], ys[i + 1..];
    assert ys == front + post;
    SumAppend(front, post, f);
    assert front[..i] == ys[..i] && front[i] == ys[i];
    SumAppend(ys[..i], post, f);
  }

  /** Adding 1 where `p` holds and 0 elsewhere counts the elements satisfying `p`. */
  lemma {:induction false} SumOfIndicator<T>(xs: seq<T>, p: T -> bool, f: T -> real)
    requires forall x :: f(x) == if p(x) then 1.0 else 0.0
    ensures Sum(xs, f) == Count(xs, p) as real
  {
    if xs != [] {
      SumOfIndicator(xs[..|xs| - 1], p, f);
    }
  }

  /** Adding 1 per element counts the elements. */
  lemma {:induction false} SumOfOnes<T>(xs: seq<T>, one: T -> real)
    requires forall x :: one(x) == 1.0
    ensures Sum(xs, one) == |xs| as real
  {
    if xs != [] {
      SumOfOnes(xs[..|xs| - 1], one);
    }
  }
}
