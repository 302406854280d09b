/**
 * What the three charts share: the axis-label thinning
 * `items.filter((_, i) => i % Math.ceil(n / 6) === 0 || i === n - 1)`, the
 * scale maximum `Math.max(1, ...xs)` and the running total
 * `xs.reduce((s, x) => s + x, 0)`.
 */
module ChartAxis {
  import opened Common

  /** At most this many labels are wanted, besides the last. */
  const LABEL_SLOTS: nat := 6

  /** `Math.ceil(n / 6)`. */
  function Stride(n: nat): (c: nat)
    ensures n > 0 ==> c >= 1 && LABEL_SLOTS * c >= n && LABEL_SLOTS * (c - 1) < n
    ensures n == 0 ==> c == 0
  {
    (n + 5) / 6
  }

  /** Whether label i of n is kept: a multiple of the stride, or the last. */
  predicate Kept(i: nat, n: nat)
  {
    (Stride(n) > 0 && i % Stride(n) == 0) || i == n - 1
  }

  /** The kept indices below k, in increasing order. */
  function KeptBelow(k: nat, n: nat): (r: seq<nat>)
    requires k <= n
    ensures forall j :: 0 <= j < |r| ==> r[j] < k
    ensures forall j, j' :: 0 <= j < j' < |r| ==> r[j] < r[j']
    ensures forall i :: 0 <= i < k ==> (Kept(i, n) <==> i in r)
    ensures forall j :: 0 <= j < |r| ==> Kept(r[j], n)
  {
    if k == 0 then [] else KeptBelow(k - 1, n) + (if Kept(k - 1, n) then [k - 1] else [])
  }

  /** How many indices below k are kept. */
  function KeptCount(k: nat, n: nat): nat
  {
    if k == 0 then 0 else KeptCount(k - 1, n) + (if Kept(k - 1, n) then 1 else 0)
  }

  lemma {:induction false} KeptCountIsLength(k: nat, n: nat)
    requires k <= n
    ensures |KeptBelow(k, n)| == KeptCount(k, n)
  {
    if k > 0 {
      KeptCountIsLength(k - 1, n);
    }
  }

  /** Below k there are no more kept indices than multiples of the stride, plus the last index. */
  lemma {:induction false} KeptBelowCount(k: nat, n: nat)
    requires 0 < n && k <= n
    ensures KeptCount(k, n) <= (k + Stride(n) - 1) / Stride(n) + (if k == n then 1 else 0)
  {
    var c := Stride(n);
    if k > 0 {
      KeptBelowCount(k - 1, n);
      MultiplesStep(k - 1, c, k - 1 + c - 1, k + c - 1);
      CountStep(KeptCount(k - 1, n), KeptCount(k, n), (k - 1 + c - 1) / c, (k + c - 1) / c,
                Kept(k - 1, n), (k - 1) % c == 0, k == n);
    }
  }

  /** The counting step of `KeptBelowCount`, on the counts alone. */
  lemma CountStep(prev: int, cur: int, before: int, here: int, kept: bool, multiple: bool, last: bool)
    requires prev <= before
    requires cur == prev + (if kept then 1 else 0)
    requires here == before + (if multiple then 1 else 0)
    requires !last ==> (kept <==> multiple)
    ensures cur <= here + (if last then 1 else 0)
  {
  }

  lemma DivMonotone(x: nat, y: nat, c: nat)
    requires c >= 1 && x <= y
    ensures x / c <= y / c
  {
    var q, r := x / c, x % c;
    var m := r + (y - x);
    assert y == (q + m / c) * c + m % c by {
      assert m == (m / c) * c + m % c;
      assert (q + m / c) * c == q * c + (m / c) * c;
    }
    DivUnique(y, c, q + m / c, m % c);
  }

  /** The stride leaves at most six multiples below n. */
  lemma MultiplesBound(n: nat)
    requires n > 0
    ensures (n + Stride(n) - 1) / Stride(n) <= LABEL_SLOTS
  {
    var c := Stride(n);
    var x := n + c - 1;
    assert x < 7 * c;
    QuotientBelow(x, c, 7);
  }

  lemma QuotientBelow(x: nat, c: nat, k: nat)
    requires c >= 1 && k >= 1 && x < k * c
    ensures x / c < k
  {
    assert k * c - 1 == (k - 1) * c + (c - 1);
    DivUnique(k * c - 1, c, k - 1, c - 1);
    DivMonotone(x, k * c - 1, c);
  }

  /** The kept indices of n labels. */
  function KeptIndices(n: nat): (r: seq<nat>)
    ensures forall j :: 0 <= j < |r| ==> r[j] < n && Kept(r[j], n)
    ensures forall j, j' :: 0 <= j < j' < |r| ==> r[j] < r[j']
    ensures forall i :: 0 <= i < n ==> (Kept(i, n) <==> i in r)
    ensures |r| <= LABEL_SLOTS + 1
    ensures n > 0 ==> |r| > 0 && r[0] == 0 && r[|r| - 1] == n - 1
  {
    KeptBelowFacts(n);
    KeptBelow(n, n)
  }

  lemma KeptBelowFacts(n: nat)
    ensures |KeptBelow(n, n)| <= LABEL_SLOTS + 1
    ensures n > 0 ==> 0 in KeptBelow(n, n) && n - 1 in KeptBelow(n, n)
  {
    if n > 0 {
      KeptBelowCount(n, n);
      KeptCountIsLength(n, n);
      MultiplesBound(n);
    }
  }

  /**
   * The thinned axis: the kept items in their order. It holds at most seven
   * items, and for a non-empty list it starts with the first and ends with
   * the last.
   */
  function Thin<T>(items: seq<T>): (r: seq<T>)
    ensures |r| == |KeptIndices(|items|)|
    ensures forall j :: 0 <= j < |r| ==> r[j] == items[KeptIndices(|items|)[j]]
    ensures |r| <= LABEL_SLOTS + 1
    ensures |items| > 0 ==> r[0] == items[0] && r[|r| - 1] == items[|items| - 1]
    ensures |items| <= LABEL_SLOTS ==> r == items
  {
    var ks := KeptIndices(|items|);
    ShortKeepsAll(|items|);
    seq(|ks|, j requires 0 <= j < |ks| => items[ks[j]])
  }

  /** Up to six labels, the stride is 1 and every label is kept. */
  lemma ShortKeepsAll(n: nat)
    ensures n <= LABEL_SLOTS ==> KeptIndices(n) == seq(n, i => i)
  {
    var r := KeptIndices(n);
    if 0 < n <= LABEL_SLOTS {
      assert Stride(n) == 1;
      assert forall i :: 0 <= i < n ==> i in r;
      KeptIndicesAreRange(r, n);
    }
  }

  /** An increasing list of indices below n that holds every one of them is 0, 1, ..., n - 1. */
  lemma {:induction false} KeptIndicesAreRange(r: seq<nat>, n: nat)
    requires forall j :: 0 <= j < |r| ==> r[j] < n
    requires forall j, j' :: 0 <= j < j' < |r| ==> r[j] < r[j']
    requires forall i :: 0 <= i < n ==> i in r
    ensures r == seq(n, i => i)
    decreases n
  {
    if n == 0 {
      assert |r| == 0;
    } else {
      assert n - 1 in r;
      var k :| 0 <= k < |r| && r[k] == n - 1;
      var last := |r| - 1;
      assert r[k] <= r[last];
      assert r[last] == n - 1;
      var r' := r[..last];
      forall i | 0 <= i < n - 1
        ensures i in r'
      {
        assert i in r;
        var m :| 0 <= m < |r| && r[m] == i;
        assert m != last;
      }
      KeptIndicesAreRange(r', n - 1);
      assert r == r' + [r[last]];
    }
  }

  /** `Math.max(1, ...xs)`: never below 1 and never below an element, and equal to 1 or to an element. */
  function MaxWithOne(xs: seq<real>): (m: real)
    ensures m >= 1.0
    ensures forall i :: 0 <= i < |xs| ==> xs[i] <= m
    ensures m == 1.0 || exists i :: 0 <= i < |xs| && xs[i] == m
  {
    if xs == [] then 1.0
    else
      var rest := MaxWithOne(xs[..|xs| - 1]);
      var last := xs[|xs| - 1];
      assert forall i :: 0 <= i < |xs| - 1 ==> xs[..|xs| - 1][i] == xs[i];
      if last > rest then last else rest
  }

  /** `xs.reduce((s, x) => s + x, 0)`. */
  function Sum(xs: seq<real>): (s: real)
    ensures (forall i :: 0 <= i < |xs| ==> xs[i] >= 0.0) ==> s >= 0.0
  {
    if xs == [] then 0.0 else Sum(xs[..|xs| - 1]) + xs[|xs| - 1]
  }

  /** The total of two runs is the sum of their totals. */
  lemma {:induction false} SumAppend(a: seq<real>, b: seq<real>)
    ensures Sum(a + b) == Sum(a) + Sum(b)
    decreases |b|
  {
    if b != [] {
      assert (a + b)[..|a + b| - 1] == a + b[..|b| - 1];
      SumAppend(a, b[..|b| - 1]);
    } else {
      assert a + b == a;
    }
  }

  /** A bar's height in percent of the chart: `v / max * 100`, at most 100 under the maximum. */
  function HeightPercent(v: real, max: real): (h: real)
    requires max >= 1.0
    ensures 0.0 <= v <= max ==> 0.0 <= h <= 100.0
    ensures v == max ==> h == 100.0
    ensures h * max == v * 100.0
  {
    v / max * 100.0
  }

  /** The minimum bar height in px: 2 for a positive value, else 0. */
  function MinHeight(v: real): (px: int)
    ensures px == 2 <==> v > 0.0
    ensures px == 0 <==> v <= 0.0
  {
    if v > 0.0 then 2 else 0
  }
}
