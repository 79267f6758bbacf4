/** Sequence helpers shared by the scorer and the aggregator: the comparator
    sort the source applies to dates and week starts, the backward "streak"
    count, and integer sums. */
module Seqs {

  /** The elements of `s` are in non-decreasing order of `key`. */
  predicate SortedBy<T>(s: seq<T>, key: T -> int)
  {
    forall i, j :: 0 <= i < j < |s| ==> key(s[i]) <= key(s[j])
  }

  /** Inserts `x` before the first element whose key is not smaller. */
  function Insert<T>(x: T, s: seq<T>, key: T -> int): (r: seq<T>)
    ensures |r| == |s| + 1
    ensures multiset(r) == multiset(s) + multiset{x}
  {
    if s == [] || key(x) <= key(s[0]) then [x] + s
    else
      assert s == [s[0]] + s[1..];
      [s[0]] + Insert(x, s[1..], key)
  }

  /** A head no larger than the first element of a sorted tail keeps it sorted. */
  lemma ConsSorted<T>(h: T, t: seq<T>, key: T -> int)
    requires SortedBy(t, key)
    requires t != [] ==> key(h) <= key(t[0])
    ensures SortedBy([h] + t, key)
  {
    var r := [h] + t;
    forall i, j | 0 <= i < j < |r| ensures key(r[i]) <= key(r[j]) {
      if i == 0 {
        assert r[j] == t[j - 1];
        assert key(t[0]) <= key(t[j - 1]);
      } else {
        assert r[i] == t[i - 1] && r[j] == t[j - 1];
      }
    }
  }

  /** Inserting into a sorted sequence keeps it sorted. */
  lemma {:induction false} InsertSorted<T>(x: T, s: seq<T>, key: T -> int)
    requires SortedBy(s, key)
    ensures SortedBy(Insert(x, s, key), key)
  {
    if s == [] || key(x) <= key(s[0]) {
      ConsSorted(x, s, key);
    } else {
      var rest := s[1..];
      var tail := Insert(x, rest, key);
      assert SortedBy(rest, key);
      InsertSorted(x, rest, key);
      if rest != [] && key(x) > key(rest[0]) {
        assert tail[0] == rest[0] == s[1];
      } else {
        assert tail[0] == x;
      }
      ConsSorted(s[0], tail, key);
    }
  }

  /** The comparator sort applied to dates and week starts, for integer keys: an insertion sort
      into non-decreasing key order. Equal keys keep their input order. */
  function SortBy<T>(s: seq<T>, key: T -> int): (r: seq<T>)
    ensures |r| == |s|
    ensures multiset(r) == multiset(s)
  {
    if s == [] then []
    else
      assert s == [s[0]] + s[1..];
      Insert(s[0], SortBy(s[1..], key), key)
  }

  /** The sort puts its result in key order. */
  lemma {:induction false} SortByIsSorted<T>(s: seq<T>, key: T -> int)
    ensures SortedBy(SortBy(s, key), key)
  {
    if s != [] {
      SortByIsSorted(s[1..], key);
      InsertSorted(s[0], SortBy(s[1..], key), key);
    }
  }

  /** Sorting a sequence that is already in key order changes nothing. */
  lemma {:induction false} SortBySorted<T>(s: seq<T>, key: T -> int)
    requires SortedBy(s, key)
    ensures SortBy(s, key) == s
  {
    if s != [] {
      assert SortedBy(s[1..], key);
      SortBySorted(s[1..], key);
      assert s == [s[0]] + s[1..];
    }
  }

  /** The number of elements of `s[..n]`, counted back from position `n - 1`,
      that satisfy `p`, stopping at the first that does not. */
  function TrailingRunTo<T>(s: seq<T>, p: T -> bool, n: nat): (r: nat)
    requires n <= |s|
    ensures r <= n
  {
    if n == 0 || !p(s[n - 1]) then 0 else 1 + TrailingRunTo(s, p, n - 1)
  }

  /** One backward step: an element that fails `p` ends the run, one that passes extends it. */
  lemma TrailingRunToStep<T>(s: seq<T>, p: T -> bool, n: nat)
    requires 0 < n <= |s|
    ensures !p(s[n - 1]) ==> TrailingRunTo(s, p, n) == 0
    ensures p(s[n - 1]) ==> TrailingRunTo(s, p, n) == 1 + TrailingRunTo(s, p, n - 1)
  {
  }

  /** The number of trailing elements of `s` that satisfy `p`. */
  function TrailingRun<T>(s: seq<T>, p: T -> bool): (r: nat)
    ensures r <= |s|
  {
    TrailingRunTo(s, p, |s|)
  }

  /** A trailing run is the longest run ending at `n` all of whose elements satisfy `p`. */
  lemma {:induction false} TrailingRunToIsLongest<T>(s: seq<T>, p: T -> bool, n: nat)
    requires n <= |s|
    ensures forall i :: n - TrailingRunTo(s, p, n) <= i < n ==> p(s[i])
    ensures TrailingRunTo(s, p, n) < n ==> !p(s[n - 1 - TrailingRunTo(s, p, n)])
  {
    if n > 0 && p(s[n - 1]) {
      TrailingRunToIsLongest(s, p, n - 1);
    }
  }

  lemma TrailingRunIsLongestSuffix<T>(s: seq<T>, p: T -> bool)
    ensures forall i :: |s| - TrailingRun(s, p) <= i < |s| ==> p(s[i])
    ensures TrailingRun(s, p) < |s| ==> !p(s[|s| - 1 - TrailingRun(s, p)])
  {
    TrailingRunToIsLongest(s, p, |s|);
  }

  /** If the last `k` elements satisfy `p`, the trailing run is at least `k`. */
  lemma {:induction false} TrailingRunToAtLeast<T>(s: seq<T>, p: T -> bool, n: nat, k: nat)
    requires k <= n <= |s|
    requires forall i :: n - k <= i < n ==> p(s[i])
    ensures TrailingRunTo(s, p, n) >= k
  {
    if k > 0 {
      TrailingRunToAtLeast(s, p, n - 1, k - 1);
    }
  }

  lemma TrailingRunAtLeast<T>(s: seq<T>, p: T -> bool, k: nat)
    requires k <= |s|
    requires forall i :: |s| - k <= i < |s| ==> p(s[i])
    ensures TrailingRun(s, p) >= k
  {
    TrailingRunToAtLeast(s, p, |s|, k);
  }

  /** The last three elements satisfy `p`: the trailing run is at least three. */
  lemma TrailingRunLastThree<T>(s: seq<T>, p: T -> bool)
    requires |s| >= 3
    requires p(s[|s| - 3]) && p(s[|s| - 2]) && p(s[|s| - 1])
    ensures TrailingRun(s, p) >= 3
  {
    assert TrailingRunTo(s, p, |s| - 2) >= 1;
    assert TrailingRunTo(s, p, |s| - 1) >= 2;
  }

  /** A left fold that keeps every intermediate result: element `i` of the
      result is `step(xs[i], results for xs[..i])`. */
  function FoldWithHistory<A, B>(xs: seq<A>, step: (A, seq<B>) -> B): (r: seq<B>)
    ensures |r| == |xs|
  {
    if xs == [] then []
    else
      var before := FoldWithHistory(xs[..|xs| - 1], step);
      before + [step(xs[|xs| - 1], before)]
  }

  /** Later elements never change earlier results. */
  lemma {:induction false} FoldWithHistoryPrefix<A, B>(xs: seq<A>, step: (A, seq<B>) -> B, i: nat)
    requires i <= |xs|
    ensures FoldWithHistory(xs, step)[..i] == FoldWithHistory(xs[..i], step)
    decreases |xs|
  {
    if i < |xs| {
      var init := xs[..|xs| - 1];
      FoldWithHistoryPrefix(init, step, i);
      assert init[..i] == xs[..i];
    } else {
      assert xs[..i] == xs;
    }
  }

  /** Each result is the step applied to its element and all earlier results. */
  lemma {:induction false} FoldWithHistoryAt<A, B>(xs: seq<A>, step: (A, seq<B>) -> B, i: nat)
    requires i < |xs|
    ensures FoldWithHistory(xs, step)[i] == step(xs[i], FoldWithHistory(xs, step)[..i])
  {
    var prefix := xs[..i + 1];
    FoldWithHistoryPrefix(xs, step, i + 1);
    FoldWithHistoryPrefix(xs, step, i);
    assert prefix[..|prefix| - 1] == xs[..i];
    assert FoldWithHistory(xs, step)[i] == FoldWithHistory(xs, step)[..i + 1][i];
  }

  /** One more element appends one more result. */
  lemma {:induction false} FoldWithHistorySnoc<A, B>(xs: seq<A>, step: (A, seq<B>) -> B, i: nat)
    requires i < |xs|
    ensures FoldWithHistory(xs[..i + 1], step)
            == FoldWithHistory(xs[..i], step) + [step(xs[i], FoldWithHistory(xs[..i], step))]
  {
    assert xs[..i + 1][..i] == xs[..i];
  }

  /** No element occurs twice. */
  predicate Distinct<T(==)>(xs: seq<T>)
  {
    forall i, j :: 0 <= i < j < |xs| ==> xs[i] != xs[j]
  }

  /** In a sequence without repeats, the element at `n - 1` is not among the ones before it. */
  lemma LastNotInPrefix<T>(xs: seq<T>, n: nat)
    requires 0 < n <= |xs|
    requires Distinct(xs)
    ensures xs[n - 1] !in xs[..n - 1]
  {
    var before := xs[..n - 1];
    forall i | 0 <= i < |before| ensures before[i] != xs[n - 1] {
      assert before[i] == xs[i];
    }
  }

  /** The number of times `x` occurs in `xs[..n]`. */
  function CountTo<T(==)>(xs: seq<T>, x: T, n: nat): (c: nat)
    requires n <= |xs|
    ensures c <= n
  {
    if n == 0 then 0 else CountTo(xs, x, n - 1) + (if xs[n - 1] == x then 1 else 0)
  }

  /** Without repeats, an element occurs once in a prefix that holds it and not at all otherwise. */
  lemma {:induction false} CountToDistinct<T>(xs: seq<T>, x: T, n: nat)
    requires n <= |xs|
    requires Distinct(xs)
    ensures CountTo(xs, x, n) == if x in xs[..n] then 1 else 0
  {
    if n > 0 {
      CountToDistinct(xs, x, n - 1);
      assert xs[..n] == xs[..n - 1] + [xs[n - 1]];
      if xs[n - 1] == x {
        LastNotInPrefix(xs, n);
      }
    }
  }

  function Sum(nums: seq<int>): int
  {
    if nums == [] then 0 else Sum(nums[..|nums| - 1]) + nums[|nums| - 1]
  }

  /** The arithmetic mean of `nums`, 0 for an empty list. */
  function Average(nums: seq<int>): (a: real)
    ensures |nums| > 0 ==> a * (|nums| as real) == Sum(nums) as real
    ensures |nums| == 0 ==> a == 0.0
  {
    if |nums| == 0 then 0.0 else (Sum(nums) as real) / (|nums| as real)
  }

  /** For three numbers, "the mean exceeds `bound`" is "the sum exceeds three times `bound`". */
  lemma AverageOfThreeExceeds(nums: seq<int>, bound: int)
    requires |nums| == 3
    ensures Average(nums) > bound as real <==> Sum(nums) > 3 * bound
  {
    var a := Average(nums);
    assert a * 3.0 == Sum(nums) as real;
  }
}
