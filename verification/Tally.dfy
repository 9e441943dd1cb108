/** Counting by key in order of first appearance, and bars with rounded percentages (analytics.ts). */
module Tally {
  import opened Basics
  import opened StableSorting

  datatype Bar<+K> = Bar(key: K, count: nat, pct: int)

  /** Math.round of 100 n / base in exact arithmetic: halves go up. */
  function Pct(n: int, base: int): int {
    if base > 0 then (200 * n + base) / (2 * base) else 0
  }

  function CountOf(xs: seq<string>): string -> int {
    (x: string) => multiset(xs)[x]
  }

  function PctOf(count: string -> int, base: int): string -> int {
    (x: string) => Pct(count(x), base)
  }

  function BarOf(xs: seq<string>, base: int): string -> Bar<string> {
    (x: string) => Bar(x, multiset(xs)[x], Pct(multiset(xs)[x], base))
  }

  const MOST_FIRST: (Bar<string>, Bar<string>) -> bool := (a: Bar<string>, b: Bar<string>) => a.count >= b.count

  const BAR_COUNT: Bar<string> -> int := (b: Bar<string>) => b.count

  const BAR_PCT: Bar<string> -> int := (b: Bar<string>) => b.pct

  function BarsOf(xs: seq<string>, base: int): seq<Bar<string>> {
    StableSort(Map(Dedup(xs), BarOf(xs, base)), MOST_FIRST)
  }

  // ---------------------------------------------------------------- the program's counter

  /** A Map of counters after the keys xs: keys in insertion order, and a count for each. */
  ghost predicate Tallied(xs: seq<string>, keys: seq<string>, counts: map<string, nat>) {
    keys == Dedup(xs) && (forall k :: k in counts <==> k in keys) &&
    (forall k :: k in counts ==> counts[k] == multiset(xs)[k])
  }

  /** One more of x; a key counted for the first time goes last. */
  method Increment(keys: seq<string>, counts: map<string, nat>, x: string, ghost xs: seq<string>)
    returns (keys': seq<string>, counts': map<string, nat>)
    requires Tallied(xs, keys, counts)
    ensures Tallied(xs + [x], keys', counts')
  {
    DedupAppend(xs, x);
    DedupMembers(xs);
    keys', counts' := keys, counts;
    if x in counts {
      counts' := counts[x := counts[x] + 1];
    } else {
      assert multiset(xs)[x] == 0;
      keys', counts' := keys + [x], counts[x := 1];
    }
  }

  /** The bars of a finished counter. */
  method MakeBars(
      keys: seq<string>, counts: map<string, nat>, base: int, ghost xs: seq<string>)
    returns (bars: seq<Bar<string>>)
    requires Tallied(xs, keys, counts)
    ensures bars == BarsOf(xs, base)
  {
    var unsorted := seq(|keys|, i requires 0 <= i < |keys| && keys[i] in counts =>
      Bar(keys[i], counts[keys[i]], Pct(counts[keys[i]], base)));
    assert unsorted == Map(Dedup(xs), BarOf(xs, base));
    bars := StableSort(unsorted, MOST_FIRST);
  }

  /** Adding up the counters. */
  method Total(keys: seq<string>, counts: map<string, nat>, ghost xs: seq<string>) returns (total: nat)
    requires Tallied(xs, keys, counts)
    ensures total == |xs|
  {
    total := 0;
    for i := 0 to |keys|
      invariant total == Sum(keys[..i], CountOf(xs))
    {
      assert keys[i] in counts;
      assert keys[..i + 1][..i] == keys[..i];
      total := total + counts[keys[i]];
    }
    assert keys[..|keys|] == keys;
    CountsAddUp(xs);
  }

  // ---------------------------------------------------------------- counts

  lemma {:induction false} CountsAddUpStep(front: seq<string>, x: string)
    requires Sum(Dedup(front), CountOf(front)) == |front|
    ensures Sum(Dedup(front + [x]), CountOf(front + [x])) == |front| + 1
  {
    var d, xs := Dedup(front), front + [x];
    DedupAppend(front, x);
    DedupMembers(front);
    SumBump(d, CountOf(front), CountOf(xs), x, 1);
    if x !in d {
      SumConcat(d, [x], CountOf(xs));
      assert multiset(front)[x] == 0;
      assert Sum([], CountOf(xs)) == 0;
    }
  }

  /** Every element is counted under exactly one key. */
  lemma {:induction false} CountsAddUp(xs: seq<string>)
    ensures Sum(Dedup(xs), CountOf(xs)) == |xs|
  {
    if xs != [] {
      CountsAddUp(xs[..|xs| - 1]);
      CountsAddUpStep(xs[..|xs| - 1], xs[|xs| - 1]);
      assert xs == xs[..|xs| - 1] + [xs[|xs| - 1]];
    }
  }

  lemma {:induction false} BarSums(xs: seq<string>, base: int)
    ensures |BarsOf(xs, base)| == |Dedup(xs)|
    ensures Sum(BarsOf(xs, base), BAR_COUNT) == |xs|
    ensures Sum(BarsOf(xs, base), BAR_PCT) == Sum(Dedup(xs), PctOf(CountOf(xs), base))
  {
    var d, unsorted := Dedup(xs), Map(Dedup(xs), BarOf(xs, base));
    SortPermutes(unsorted, MOST_FIRST);
    SumPermuted(BarsOf(xs, base), unsorted, BAR_COUNT);
    SumPermuted(BarsOf(xs, base), unsorted, BAR_PCT);
    SumOfMap(d, BarOf(xs, base), BAR_COUNT, CountOf(xs));
    SumOfMap(d, BarOf(xs, base), BAR_PCT, PctOf(CountOf(xs), base));
    CountsAddUp(xs);
  }

  lemma {:induction false} MostFirstOrder()
    ensures TotalPreorder(MOST_FIRST)
  {
  }

  function WithCount(n: nat): Bar<string> -> bool {
    (b: Bar<string>) => b.count == n
  }

  /** Bars come out by falling count; equal counts stay in order of first appearance. */
  lemma {:induction false} BarsRanked(xs: seq<string>, base: int, n: nat)
    ensures Sorted(BarsOf(xs, base), MOST_FIRST)
    ensures Filter(BarsOf(xs, base), WithCount(n)) == Filter(Map(Dedup(xs), BarOf(xs, base)), WithCount(n))
  {
    MostFirstOrder();
    SortSorts(Map(Dedup(xs), BarOf(xs, base)), MOST_FIRST);
    SortKeepsTies(Map(Dedup(xs), BarOf(xs, base)), MOST_FIRST, WithCount(n));
  }

  // ---------------------------------------------------------------- percentages

  /** Pct is within half a point of the exact percentage, and exactly half only from above. */
  lemma {:induction false} PctNearest(n: int, base: int)
    requires base > 0
    ensures 2 * (base * Pct(n, base)) <= 200 * n + base < 2 * (base * Pct(n, base)) + 2 * base
  {
    var p := Pct(n, base);
    assert 200 * n + base == (2 * base) * p + (200 * n + base) % (2 * base);
    assert (2 * base) * p == 2 * (base * p);
  }

  lemma {:induction false} LargerFactor(base: int, p: int, q: int)
    requires base > 0 && p > q
    ensures base * p >= base * q + base
  {
    var d := p - q - 1;
    assert base * d >= 0;
    assert base * (d + q + 1) == base * d + base * q + base;
    assert p == d + q + 1;
  }

  lemma {:induction false} OrderedFactors(base: int, p: int, q: int)
    requires base > 0 && base * p < base * q + base
    ensures p <= q
  {
    if p > q {
      LargerFactor(base, p, q);
    }
  }

  lemma {:induction false} PctMonotone(m: int, n: int, base: int)
    requires m <= n
    ensures Pct(m, base) <= Pct(n, base)
  {
    if base > 0 {
      PctNearest(m, base);
      PctNearest(n, base);
      OrderedFactors(base, Pct(m, base), Pct(n, base));
    }
  }

  lemma {:induction false} PctWithin(n: int, base: int)
    requires 0 <= n <= base
    ensures 0 <= Pct(n, base) <= 100
    ensures base > 0 && n == base ==> Pct(n, base) == 100
  {
    if base > 0 {
      PctNearest(0, base);
      PctNearest(base, base);
      OrderedFactors(base, Pct(base, base), 100);
      OrderedFactors(base, 100, Pct(base, base));
      OrderedFactors(base, 0, Pct(0, base));
      PctMonotone(0, n, base);
      PctMonotone(n, base, base);
    }
  }

  lemma {:induction false} RoundingAddsUp(keys: seq<string>, count: string -> int, base: int)
    requires base > 0
    ensures 2 * (base * Sum(keys, PctOf(count, base))) <= 200 * Sum(keys, count) + base * |keys|
    ensures 2 * (base * Sum(keys, PctOf(count, base))) >= 200 * Sum(keys, count) - base * |keys|
    ensures keys != [] ==> 2 * (base * Sum(keys, PctOf(count, base))) > 200 * Sum(keys, count) - base * |keys|
  {
    if keys == [] {
      assert base * 0 == 0;
    } else {
      var front, x := keys[..|keys| - 1], keys[|keys| - 1];
      RoundingAddsUp(front, count, base);
      PctNearest(count(x), base);
      Distributes(base, Sum(front, PctOf(count, base)), Pct(count(x), base));
      Distributes(base, |front|, 1);
    }
  }

  lemma {:induction false} Distributes(base: int, a: int, b: int)
    ensures base * (a + b) == base * a + base * b
  {
  }

  lemma {:induction false} CancelFactor(base: int, s: int, k: int)
    requires base > 0
    requires 200 * base - base * k < 2 * (base * s) <= 200 * base + base * k
    ensures 200 - k < 2 * s <= 200 + k
  {
    Distributes(base, s, s);
    Distributes(base, 200, k);
    Distributes(base, 200 - k, k);
    OrderedFactors(base, s + s, 200 + k);
    if s + s < 200 - k {
      LargerFactor(base, 200 - k, s + s);
    }
  }

  /** The rounded percentages of k bars over all of xs sum to more than 100 - k/2 and at most 100 + k/2. */
  lemma {:induction false} PercentagesSum(xs: seq<string>)
    requires xs != []
    ensures var bars := BarsOf(xs, |xs|);
            200 - |bars| < 2 * Sum(bars, BAR_PCT) <= 200 + |bars|
  {
    BarSums(xs, |xs|);
    CountsAddUp(xs);
    DedupMembers(xs);
    assert xs[0] in Dedup(xs);
    RoundingAddsUp(Dedup(xs), CountOf(xs), |xs|);
    CancelFactor(|xs|, Sum(Dedup(xs), PctOf(CountOf(xs), |xs|)), |Dedup(xs)|);
  }
}
