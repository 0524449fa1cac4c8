/** completeBucketStability: quarter-hour buckets wholly inside the window, and how even they are. */
module Stability {
  import opened Common
  import opened Counting
  import opened Moments

  const WIDTH: int := 900000

  function Between(from: int, to: int): int -> bool { (t: int) => from <= t < to }

  /** The counts of n buckets from the given bucket number on. */
  function BucketsFrom(bucket: int, n: nat, events: seq<int>): (counts: seq<nat>)
    ensures |counts| == n
    ensures forall k :: 0 <= k < n ==>
        counts[k] == Count(Between((bucket + k) * WIDTH, (bucket + k) * WIDTH + WIDTH), events)
    decreases n
  {
    if n == 0 then []
    else [Count(Between(bucket * WIDTH, bucket * WIDTH + WIDTH), events)] + BucketsFrom(bucket + 1, n - 1, events)
  }

  function CompleteBuckets(start: int, end: int, events: seq<int>): seq<nat> {
    BucketsFrom(CeilDiv(start, WIDTH), Max(0, end / WIDTH - CeilDiv(start, WIDTH)), events)
  }

  /** The loop that fills `counts`. */
  method CountBuckets(start: int, end: int, events: seq<int>) returns (counts: seq<nat>)
    ensures counts == CompleteBuckets(start, end, events)
  {
    var first := CeilDiv(start, WIDTH);
    var lastExclusive := end / WIDTH * WIDTH;
    counts := [];
    var bucket := first * WIDTH;
    while bucket + WIDTH <= lastExclusive
      invariant bucket == (first + |counts|) * WIDTH
      invariant |counts| <= Max(0, end / WIDTH - first)
      invariant forall k :: 0 <= k < |counts| ==>
          counts[k] == Count(Between((first + k) * WIDTH, (first + k) * WIDTH + WIDTH), events)
      decreases lastExclusive - bucket
    {
      counts := counts + [Count(Between(bucket, bucket + WIDTH), events)];
      bucket := bucket + WIDTH;
    }
    assert counts == CompleteBuckets(start, end, events);
  }

  lemma {:induction false} CountSplits(events: seq<int>, a: int, b: int, c: int)
    requires a <= b <= c
    ensures Count(Between(a, c), events) == Count(Between(a, b), events) + Count(Between(b, c), events)
  {
    if events != [] { CountSplits(events[1..], a, b, c); }
  }

  lemma {:induction false} BucketsTotal(bucket: int, n: nat, events: seq<int>)
    ensures Total(BucketsFrom(bucket, n, events)) == Count(Between(bucket * WIDTH, (bucket + n) * WIDTH), events)
    decreases n
  {
    if n == 0 {
      CountNone(Between(bucket * WIDTH, bucket * WIDTH), events);
    } else {
      BucketsTotal(bucket + 1, n - 1, events);
      CountSplits(events, bucket * WIDTH, (bucket + 1) * WIDTH, (bucket + n) * WIDTH);
      assert BucketsFrom(bucket, n, events)[1..] == BucketsFrom(bucket + 1, n - 1, events);
    }
  }

  /** Every event inside the span of complete buckets is counted once, and no other. */
  lemma BucketsPartitionTheSpan(start: int, end: int, events: seq<int>)
    ensures Total(CompleteBuckets(start, end, events)) ==
            Count(Between(CeilDiv(start, WIDTH) * WIDTH, end / WIDTH * WIDTH), events)
  {
    var first, last := CeilDiv(start, WIDTH), end / WIDTH;
    BucketsTotal(first, Max(0, last - first), events);
    if last < first {
      CountNone(Between(first * WIDTH, last * WIDTH), events);
      CountNone(Between(first * WIDTH, first * WIDTH), events);
    }
  }

  /** The order of the events does not matter. */
  lemma BucketsIgnoreOrder(start: int, end: int, events: seq<int>, others: seq<int>)
    requires multiset(events) == multiset(others)
    ensures CompleteBuckets(start, end, events) == CompleteBuckets(start, end, others)
  {
    var first, n := CeilDiv(start, WIDTH), Max(0, end / WIDTH - CeilDiv(start, WIDTH));
    forall k | 0 <= k < n ensures BucketsFrom(first, n, events)[k] == BucketsFrom(first, n, others)[k] {
      CountPermutation(Between((first + k) * WIDTH, (first + k) * WIDTH + WIDTH), events, others);
    }
  }

  // ------------------------------------------------------------------
  // Stability
  // ------------------------------------------------------------------

  datatype Result = InsufficientSample | Pass(stability: real) | NotANumber

  ghost predicate IsSqrt(sqrt: real -> real) { forall x :: x >= 0.0 ==> sqrt(x) >= 0.0 && sqrt(x) * sqrt(x) == x }

  function Clamp01(x: real): real { if x < 0.0 then 0.0 else if x > 1.0 then 1.0 else x }

  function Mean(counts: seq<nat>): real
    requires counts != []
  {
    Over(Total(counts) as real, |counts| as real)
  }

  function Deviations(counts: seq<nat>, mean: real): real {
    if counts == [] then 0.0 else Sq(counts[0] as real - mean) + Deviations(counts[1..], mean)
  }

  function Variance(counts: seq<nat>): real
    requires counts != []
  {
    Over(Deviations(counts, Mean(counts)), |counts| as real)
  }

  // ------------------------------------------------------------------
  // The variance as a Cauchy-Schwarz gap
  // ------------------------------------------------------------------

  /** The squared deviations of a list with total t, squares q and length n from m. */
  function Expanded(m: real, t: real, q: real, n: real): real { q - 2.0 * (m * t) + n * (m * m) }

  lemma OneMore(a: real, m: real, t: real, q: real, n: real, t': real, q': real, n': real)
    requires t' == a + t && q' == Sq(a) + q && n' == n + 1.0
    ensures Sq(a - m) + Expanded(m, t, q, n) == Expanded(m, t', q', n')
  {
    assert Sq(a - m) == a * a - 2.0 * (a * m) + m * m;
    assert m * t' == m * a + m * t;
    assert n' * (m * m) == n * (m * m) + m * m;
  }

  lemma NothingYet(m: real)
    ensures Expanded(m, 0.0, 0.0, 0.0) == 0.0
  { }

  lemma FirstCount(counts: seq<nat>, m: real)
    requires counts != []
    ensures Deviations(counts, m) == Sq(counts[0] as real - m) + Deviations(counts[1..], m)
    ensures Total(counts) as real == counts[0] as real + Total(counts[1..]) as real
    ensures Squares(counts) as real == Sq(counts[0] as real) + Squares(counts[1..]) as real
    ensures |counts| as real == |counts[1..]| as real + 1.0
  {
    CastSquare(counts[0]);
  }

  lemma {:induction false} DeviationsExpand(counts: seq<nat>, m: real, t: real, q: real, n: real)
    requires t == Total(counts) as real && q == Squares(counts) as real && n == |counts| as real
    ensures Deviations(counts, m) == Expanded(m, t, q, n)
    decreases |counts|
  {
    if counts != [] {
      var t0, q0, n0 := Total(counts[1..]) as real, Squares(counts[1..]) as real, |counts[1..]| as real;
      DeviationsExpand(counts[1..], m, t0, q0, n0);
      FirstCount(counts, m);
      OneMore(counts[0] as real, m, t0, q0, n0, t, q, n);
    } else {
      NothingYet(m);
    }
  }

  lemma MeanCancels(t: real, q: real, n: real, m: real)
    requires n > 0.0 && Times(m, n) == t
    ensures Times(Expanded(m, t, q, n), n) == Times(q, n) - Sq(t)
  {
    assert (m * t) * n == t * t;
    assert (n * (m * m)) * n == t * t;
  }

  lemma TimesSquare(v: real, n: real, d: real)
    requires Times(v, n) == d
    ensures Times(v, Sq(n)) == Times(d, n)
  { }

  /** The variance is the gap over the squared number of buckets. */
  lemma VarianceIsGap(counts: seq<nat>, n: real)
    requires counts != [] && n == |counts| as real
    ensures Times(Variance(counts), Sq(n)) == Gap(counts) as real
  {
    var t, q, m := Total(counts) as real, Squares(counts) as real, Mean(counts);
    var d := Deviations(counts, m);
    assert d == Expanded(m, t, q, n) by { DeviationsExpand(counts, m, t, q, n); }
    assert Times(m, n) == t by { DivideBack(t, n); }
    assert Times(d, n) == Times(q, n) - Sq(t) by { MeanCancels(t, q, n, m); }
    assert Times(Variance(counts), n) == d by { DivideBack(d, n); }
    assert Times(Variance(counts), Sq(n)) == Times(d, n) by { TimesSquare(Variance(counts), n, d); }
    GapInReals(counts);
  }

  lemma GapInReals(counts: seq<nat>)
    ensures Gap(counts) as real == Times(Squares(counts) as real, |counts| as real) - Sq(Total(counts) as real)
  {
    CastProduct(|counts|, Squares(counts));
    CastSquare(Total(counts));
  }

  // ------------------------------------------------------------------
  // Stability
  // ------------------------------------------------------------------

  /** sqrt(variance) / mean, the coefficient of variation. */
  ghost function Spread(counts: seq<nat>, sqrt: real -> real): (ratio: real)
    requires IsSqrt(sqrt) && Total(counts) > 0
    ensures ratio >= 0.0
  {
    VarianceSign(counts);
    MeanSign(counts);
    Over(sqrt(Variance(counts)), Mean(counts))
  }

  /** The value of a window; an empty list passes only a non-positive minimum, and then divides zero by zero. */
  ghost function StabilityOf(counts: seq<nat>, minimum: int, sqrt: real -> real): Result
    requires IsSqrt(sqrt)
  {
    if |counts| < minimum then InsufficientSample
    else if counts == [] then NotANumber
    else if Total(counts) == 0 then Pass(0.0)
    else Pass(Clamp01(Over(1.0, 1.0 + Spread(counts, sqrt))))
  }

  lemma VarianceSign(counts: seq<nat>)
    requires counts != []
    ensures Variance(counts) >= 0.0 && (Variance(counts) == 0.0 <==> Gap(counts) == 0)
  {
    var n := |counts| as real;
    VarianceIsGap(counts, n);
    CauchySchwarz(counts);
    SqGrows(n, 0.0);
    TimesSign(Variance(counts), Sq(n));
  }

  lemma MeanSign(counts: seq<nat>)
    requires Total(counts) > 0
    ensures counts != [] && Mean(counts) > 0.0
  {
    DivideBack(Total(counts) as real, |counts| as real);
    TimesSign(Mean(counts), |counts| as real);
  }

  lemma Reciprocals(a: real, b: real)
    requires 0.0 < a <= b
    ensures 0.0 < Over(1.0, b) <= Over(1.0, a)
  {
    var p, q := Over(1.0, b), Over(1.0, a);
    DivideBack(1.0, a);
    DivideBack(1.0, b);
    TimesSign(p, b);
    TimesOrder(a, b, p);
    assert Times(a, p) == Times(p, a) && Times(b, p) == Times(p, b);
    TimesOrder(p, q, a);
  }

  lemma OverOrder(root: real, x: real)
    requires root >= 0.0 && x >= 0.0
    ensures x <= root ==> Over(1.0, 1.0 + root) <= Over(1.0, 1.0 + x)
    ensures 0.0 < Over(1.0, 1.0 + x) <= 1.0
    ensures Over(1.0, 1.0 + x) == 1.0 <==> x == 0.0
  {
    if x <= root { Reciprocals(1.0 + x, 1.0 + root); }
    Reciprocals(1.0, 1.0 + x);
    DivideBack(1.0, 1.0 + x);
    assert Over(1.0, 1.0) == 1.0;
  }

  /** At worst all events fall into one bucket. */
  lemma VarianceBounded(counts: seq<nat>, root: real)
    requires Total(counts) > 0 && counts != [] && Sq(root) == |counts| as real - 1.0
    ensures Variance(counts) <= Sq(Times(root, Mean(counts)))
  {
    var n, t, m := |counts| as real, Total(counts) as real, Mean(counts);
    VarianceIsGap(counts, n);
    GapBounded(counts);
    DivideBack(t, n);
    BoundScales(root, m, n, t);
    SqGrows(n, 0.0);
    TimesOrder(Variance(counts), Sq(Times(root, m)), Sq(n));
  }

  lemma BoundScales(root: real, m: real, n: real, t: real)
    requires Times(m, n) == t && Sq(root) == n - 1.0
    ensures Times(Sq(Times(root, m)), Sq(n)) == Times(n - 1.0, Sq(t))
  {
    assert Sq(Times(root, m)) == Sq(root) * Sq(m) by { SqProduct(root, m); }
    assert Sq(m) * Sq(n) == Sq(t) by { SqProduct(m, n); }
    assert (Sq(root) * Sq(m)) * Sq(n) == Sq(root) * (Sq(m) * Sq(n));
  }

  lemma GapBounded(counts: seq<nat>)
    requires counts != []
    ensures Gap(counts) as real <= Times(|counts| as real - 1.0, Sq(Total(counts) as real))
  {
    SquaresBounded(counts);
    ScaleInt(|counts|, Squares(counts), Total(counts) * Total(counts));
    OneFewer(|counts|, Total(counts) * Total(counts));
    BoundInReals(Gap(counts), |counts| - 1, Total(counts));
  }

  lemma OneFewer(n: nat, y: nat)
    requires n > 0
    ensures n * y - y == (n - 1) * y
  { }

  lemma BoundInReals(g: int, n: nat, t: nat)
    requires g <= n * (t * t)
    ensures g as real <= Times(n as real, Sq(t as real))
  {
    CastProduct(n, t * t);
    CastSquare(t);
  }

  lemma ScaleInt(n: nat, x: nat, y: nat)
    requires x <= y
    ensures n * x <= n * y
  { }

  /**
   With n counted buckets and at least one event, stability lies between
   1/(1 + sqrt(n - 1)) and 1, and is 1 exactly when the counts are all equal.
   */
  lemma StabilityBounds(counts: seq<nat>, minimum: int, sqrt: real -> real, root: real)
    requires IsSqrt(sqrt) && Total(counts) > 0 && |counts| >= minimum
    requires root >= 0.0 && Sq(root) == |counts| as real - 1.0
    ensures var r := StabilityOf(counts, minimum, sqrt);
      && r.Pass? && Over(1.0, 1.0 + root) <= r.stability <= 1.0
      && (r.stability == 1.0 <==> AllEqual(counts))
  {
    var ratio := Spread(counts, sqrt);
    SpreadBounds(counts, sqrt, root);
    OverOrder(root, ratio);
    CauchySchwarz(counts);
  }

  /**
   The value itself, without a square root: too few buckets, no buckets, no
   events, or the s with (1 - s) / s squared equal to the Cauchy-Schwarz gap
   over the squared number of events.
   */
  lemma StabilityMeans(counts: seq<nat>, minimum: int, sqrt: real -> real)
    requires IsSqrt(sqrt)
    ensures var r, total := StabilityOf(counts, minimum, sqrt), Total(counts) as real;
      if |counts| < minimum then r == InsufficientSample
      else if |counts| == 0 then r == NotANumber
      else if total == 0.0 then r == Pass(0.0)
      else
        && r.Pass? && r.stability > 0.0
        && Times(Sq(1.0 - r.stability), Sq(total)) == Times(Sq(r.stability), Gap(counts) as real)
  {
    if |counts| >= minimum && counts != [] && Total(counts) > 0 {
      var ratio := Spread(counts, sqrt);
      OverOrder(ratio, ratio);
      SpreadSquared(counts, sqrt);
      ShareOfOne(ratio, Sq(Total(counts) as real), Gap(counts) as real);
    }
  }

  lemma ShareOfOne(ratio: real, t: real, g: real)
    requires ratio >= 0.0 && Times(Sq(ratio), t) == g
    ensures var s := Over(1.0, 1.0 + ratio); Times(Sq(1.0 - s), t) == Times(Sq(s), g)
  {
    var s := Over(1.0, 1.0 + ratio);
    DivideBack(1.0, 1.0 + ratio);
    assert 1.0 - s == s * ratio;
    SqProduct(s, ratio);
    Regroup(Sq(s), Sq(ratio), t);
  }

  lemma Regroup(x: real, y: real, z: real)
    ensures Times(x * y, z) == Times(x, Times(y, z))
  { }

  /** The squared coefficient of variation is the gap over the squared total. */
  lemma SpreadSquared(counts: seq<nat>, sqrt: real -> real)
    requires IsSqrt(sqrt) && Total(counts) > 0
    ensures Times(Sq(Spread(counts, sqrt)), Sq(Total(counts) as real)) == Gap(counts) as real
  {
    VarianceSign(counts);
    MeanSign(counts);
    var v, m, n, t := Variance(counts), Mean(counts), |counts| as real, Total(counts) as real;
    var sd := sqrt(v);
    var ratio := Over(sd, m);
    assert Times(m, n) == t by { DivideBack(t, n); }
    assert Times(ratio, m) == sd by { DivideBack(sd, m); }
    assert Times(v, Sq(n)) == Gap(counts) as real by { VarianceIsGap(counts, n); }
    assert Sq(sd) == v;
    SquaresChain(ratio, m, n, sd, t);
  }

  lemma SquaresChain(ratio: real, m: real, n: real, sd: real, t: real)
    requires Times(m, n) == t && Times(ratio, m) == sd
    ensures Times(Sq(ratio), Sq(t)) == Times(Sq(sd), Sq(n))
  {
    SqProduct(m, n);
    SqProduct(ratio, m);
    Regroup(Sq(ratio), Sq(m), Sq(n));
  }

  lemma SpreadBounds(counts: seq<nat>, sqrt: real -> real, root: real)
    requires IsSqrt(sqrt) && Total(counts) > 0 && root >= 0.0 && Sq(root) == |counts| as real - 1.0
    ensures Spread(counts, sqrt) <= root && (Spread(counts, sqrt) == 0.0 <==> Gap(counts) == 0)
  {
    VarianceSign(counts);
    MeanSign(counts);
    var v, m := Variance(counts), Mean(counts);
    var sd := sqrt(v);
    assert Sq(sd) == v;
    VarianceBounded(counts, root);
    TimesSign(root, m);
    SqOrder(sd, Times(root, m));
    DivideBack(sd, m);
    TimesOrder(Over(sd, m), root, m);
    TimesSign(Over(sd, m), m);
    SqZero(sd);
  }

  lemma SqZero(x: real)
    ensures Sq(x) == 0.0 <==> x == 0.0
  {
    if x > 0.0 { SqGrows(x, 0.0); }
    if x < 0.0 { SqGrows(-x, 0.0); }
  }
}
