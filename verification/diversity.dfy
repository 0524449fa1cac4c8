/**
 Effective carriers and entropy: the inverse Herfindahl index and the Shannon index
 of an airport's operator counts.
 */
module Diversity {
  import opened Counting
  import opened Moments

  datatype Result = Result(effective: real, over5Percent: nat, shannon: real)

  /** n / total >= 0.05, over exact rationals. */
  function OverFivePercent(total: nat): nat -> bool { (n: nat) => 20 * n >= total }

  /** What is used of math.log: products become sums, and the line x - 1 touches it from above at 1 only. */
  ghost predicate IsLog(log: real -> real) {
    && (forall x, y :: x > 0.0 && y > 0.0 ==> log(Times(x, y)) == log(x) + log(y))
    && (forall x :: x > 0.0 ==> log(x) <= x - 1.0 && (log(x) == x - 1.0 ==> x == 1.0))
  }

  function Share(n: nat, total: nat): real
    requires total > 0
  {
    Over(n as real, total as real)
  }

  /** One operator's part of the entropy. */
  function Entropy(n: nat, total: nat, log: real -> real): real
    requires total > 0
  {
    var p := Share(n, total);
    if p > 0.0 then -Times(p, log(p)) else 0.0
  }

  function Shannon(values: seq<nat>, total: nat, log: real -> real): real
    requires total > 0
  {
    if values == [] then 0.0 else Entropy(values[0], total, log) + Shannon(values[1..], total, log)
  }

  /** The diversity of a counter's values: none at all, or the squared total over the squares, with the entropy. */
  function DiversityOf(values: seq<nat>, log: real -> real): Result {
    var total := Total(values);
    if total == 0 then Result(0.0, 0, 0.0)
    else
      SquaresBounded(values);
      Result(Over(Sq(total as real), Squares(values) as real), Count(OverFivePercent(total), values),
             Shannon(values, total, log))
  }

  lemma {:induction false} ShannonConcat(s: seq<nat>, t: seq<nat>, total: nat, log: real -> real)
    requires total > 0
    ensures Shannon(s + t, total, log) == Shannon(s, total, log) + Shannon(t, total, log)
  {
    if s == [] {
      assert s + t == t;
    } else {
      ShannonConcat(s[1..], t, total, log);
      assert (s + t)[1..] == s[1..] + t;
    }
  }

  lemma {:induction false} TotalConcat(s: seq<nat>, t: seq<nat>)
    ensures Total(s + t) == Total(s) + Total(t) && Squares(s + t) == Squares(s) + Squares(t)
  {
    if s == [] {
      assert s + t == t;
    } else {
      TotalConcat(s[1..], t);
      assert (s + t)[1..] == s[1..] + t;
    }
  }

  /** The accumulating loop over the shares p = n / total. */
  method Diversity(values: seq<nat>, log: real -> real) returns (r: Result)
    ensures r == DiversityOf(values, log)
  {
    var total := Total(values);
    if total <= 0 { return Result(0.0, 0, 0.0); }
    var hhi, shannon, count5 := 0.0, 0.0, 0;
    for i := 0 to |values|
      invariant Times(hhi, Sq(total as real)) == Squares(values[..i]) as real
      invariant count5 == Count(OverFivePercent(total), values[..i])
      invariant shannon == Shannon(values[..i], total, log)
    {
      var p := Over(values[i] as real, total as real);
      assert values[..i + 1] == values[..i] + [values[i]];
      TotalConcat(values[..i], [values[i]]);
      CountConcat(OverFivePercent(total), values[..i], [values[i]]);
      ShannonConcat(values[..i], [values[i]], total, log);
      AddShare(hhi, values[i], total, p);
      FivePercent(values[i], total, p);
      hhi := hhi + Sq(p);
      if p >= 0.05 { count5 := count5 + 1; }
      if p > 0.0 { shannon := shannon - Times(p, log(p)); }
    }
    assert values[..|values|] == values;
    Inverse(hhi, total, Squares(values), values);
    return Result(if hhi != 0.0 then Over(1.0, hhi) else 0.0, count5, shannon);
  }

  lemma FivePercent(n: nat, total: nat, p: real)
    requires total > 0 && p == Over(n as real, total as real)
    ensures p >= 0.05 <==> OverFivePercent(total)(n)
  {
    DivideBack(n as real, total as real);
    TimesOrder(0.05, p, total as real);
  }

  lemma AddShare(hhi: real, n: nat, total: nat, p: real)
    requires total > 0 && p == Over(n as real, total as real)
    ensures Times(hhi + Sq(p), Sq(total as real)) == Times(hhi, Sq(total as real)) + (n * n) as real
  {
    DivideBack(n as real, total as real);
    SqProduct(p, total as real);
    CastSquare(n);
    Distribute(hhi, Sq(p), Sq(total as real));
  }

  lemma Distribute(x: real, y: real, z: real)
    ensures Times(x + y, z) == Times(x, z) + Times(y, z)
  { }

  lemma Inverse(hhi: real, total: nat, squares: nat, values: seq<nat>)
    requires total > 0 && total == Total(values) && squares == Squares(values)
    requires Times(hhi, Sq(total as real)) == squares as real
    ensures hhi != 0.0 && squares > 0 && Over(1.0, hhi) == Over(Sq(total as real), squares as real)
  {
    SquaresBounded(values);
    SqGrows(total as real, 0.0);
    Reciprocal(hhi, Sq(total as real), squares as real);
  }

  lemma Reciprocal(h: real, t: real, q: real)
    requires t > 0.0 && q > 0.0 && Times(h, t) == q
    ensures h != 0.0 && Over(1.0, h) == Over(t, q)
  {
    TimesSign(h, t);
    assert t / (h * t) == 1.0 / h;
  }

  // ------------------------------------------------------------------
  // Bounds
  // ------------------------------------------------------------------

  lemma {:induction false} FewLargeShares(values: seq<nat>, total: nat)
    ensures Count(OverFivePercent(total), values) * total <= 20 * Total(values)
  {
    if values != [] {
      FewLargeShares(values[1..], total);
      var c := Count(OverFivePercent(total), values[1..]);
      assert (c + 1) * total == c * total + total;
    }
  }

  lemma MoreThanTwenty(count: nat, total: nat)
    requires total > 0 && count > 20
    ensures count * total > 20 * total
  { }

  lemma CancelTotal(count: nat, total: nat)
    requires total > 0 && count * total <= 20 * total
    ensures count <= 20
  {
    if count > 20 { MoreThanTwenty(count, total); }
  }

  /** The quotient of a square of the total and the squares, compared through the gap. */
  lemma RatioBounds(t: real, q: real, k: real)
    requires q > 0.0
    ensures Over(t, q) <= k <==> t <= Times(k, q)
    ensures Over(t, q) == k <==> t == Times(k, q)
    ensures Over(t, q) >= 1.0 <==> t >= q
  {
    DivideBack(t, q);
    TimesOrder(Over(t, q), k, q);
    TimesOrder(k, Over(t, q), q);
    TimesOrder(1.0, Over(t, q), q);
  }

  lemma EffectiveBounds(values: seq<nat>, total: nat, squares: nat, k: nat)
    requires total == Total(values) && squares == Squares(values) && k == |values| && squares > 0
    ensures 1.0 <= Over(Sq(total as real), squares as real) <= k as real
    ensures Over(Sq(total as real), squares as real) == k as real <==> AllEqual(values)
  {
    SquaresBounded(values);
    CauchySchwarz(values);
    CastSquare(total);
    CastProduct(k, squares);
    RatioBounds(Sq(total as real), squares as real, k as real);
  }

  lemma NoShare(total: nat, x: real, h: real)
    requires total > 0 && h > 0.0
    ensures Share(0, total) == 0.0 && Times(0.0, x) == 0.0 && Over(0.0, h) == 0.0
  { }

  lemma OneShare(k: nat)
    requires k > 0
    ensures Share(1, k) == Over(1.0, k as real)
  { }

  lemma OverAdds(x: real, y: real, h: real)
    requires h > 0.0
    ensures Over(x + y, h) == Over(x, h) + Over(y, h)
  { }

  lemma EntropyOf(n: nat, total: nat, log: real -> real)
    requires n > 0 && total > 0
    ensures Share(n, total) > 0.0 && Entropy(n, total, log) == -Times(Share(n, total), log(Share(n, total)))
  {
    DivideBack(n as real, total as real);
    TimesSign(Share(n, total), total as real);
  }

  predicate Positive(values: seq<nat>) { forall i :: 0 <= i < |values| ==> values[i] > 0 }

  /**
   With k operators, all counts positive: between 1 and k effective carriers,
   k exactly when all counts are equal, and at most twenty reach five percent.
   */
  lemma DiversityBounds(values: seq<nat>, log: real -> real)
    requires values != [] && Positive(values)
    ensures var r, k := DiversityOf(values, log), |values| as real;
      && 1.0 <= r.effective <= k && (r.effective == k <==> AllEqual(values)) && r.over5Percent <= 20
  {
    SquaresBounded(values);
    EffectiveBounds(values, Total(values), Squares(values), |values|);
    FewLargeShares(values, Total(values));
    CancelTotal(Count(OverFivePercent(Total(values)), values), Total(values));
  }

  // ------------------------------------------------------------------
  // Entropy
  // ------------------------------------------------------------------

  lemma LogOfOne(log: real -> real)
    requires IsLog(log)
    ensures log(1.0) == 0.0
  {
    assert Times(1.0, 1.0) == 1.0;
  }

  lemma LogOfInverse(log: real -> real, x: real)
    requires IsLog(log) && x > 0.0
    ensures Over(1.0, x) > 0.0 && log(Over(1.0, x)) == -log(x)
  {
    LogOfOne(log);
    DivideBack(1.0, x);
    TimesSign(Over(1.0, x), x);
  }

  /** The tangent at a lies above, and touches only at a. */
  lemma Tangent(log: real -> real, x: real, a: real)
    requires IsLog(log) && x > 0.0 && a > 0.0
    ensures log(x) <= log(a) + Over(x, a) - 1.0
    ensures log(x) == log(a) + Over(x, a) - 1.0 ==> x == a
  {
    DivideBack(x, a);
    TimesSign(Over(x, a), a);
    assert log(Times(Over(x, a), a)) == log(Over(x, a)) + log(a);
    if Over(x, a) == 1.0 { assert Times(1.0, a) == a; }
  }

  lemma Spread(p: real, v: real, z: real)
    ensures Times(p, v + z - 1.0) == Times(p, v) - p + Times(p, z)
  { }

  lemma Negated(p: real, x: real)
    ensures Times(p, -x) == -Times(p, x)
  { }

  /** A bound with its equality case, weighted. */
  lemma Weigh(p: real, u: real, v: real, z: real)
    requires p > 0.0 && u <= v + z - 1.0
    ensures Times(p, u) <= Times(p, v) - p + Times(p, z)
    ensures Times(p, u) == Times(p, v) - p + Times(p, z) ==> u == v + z - 1.0
  {
    hide Times;
    Spread(p, v, z);
    Commutes(p, u);
    Commutes(p, v + z - 1.0);
    TimesOrder(u, v + z - 1.0, p);
    TimesOrder(v + z - 1.0, u, p);
  }

  lemma Commutes(x: real, y: real)
    ensures Times(x, y) == Times(y, x)
  { }

  lemma InverseOf(p: real, k: real)
    requires p > 0.0 && k > 0.0
    ensures Times(p, Over(1.0, p)) == 1.0 && Times(p, Over(Over(1.0, p), k)) == Over(1.0, k)
  {
    var x := Over(1.0, p);
    assert p * x == 1.0;
    assert p * (x / k) == (p * x) / k;
  }

  lemma SquareOver(p: real, h: real)
    requires h > 0.0
    ensures Times(p, Over(p, h)) == Over(Sq(p), h)
  { }

  /** Above: the tangent at k under 1 / p, weighted by p. */
  lemma TermAbove(log: real -> real, p: real, k: real)
    requires IsLog(log) && p > 0.0 && k > 0.0
    ensures -Times(p, log(p)) <= Times(p, log(k)) - p + Over(1.0, k)
    ensures -Times(p, log(p)) == Times(p, log(k)) - p + Over(1.0, k) ==> Times(p, k) == 1.0
  {
    hide IsLog, Times, Over;
    var x := Over(1.0, p);
    LogOfInverse(log, p);
    Tangent(log, x, k);
    Weigh(p, -log(p), log(k), Over(x, k));
    Negated(p, log(p));
    InverseOf(p, k);
  }

  /** Below: the tangent at h over p, weighted by p. */
  lemma TermBelow(log: real -> real, p: real, h: real)
    requires IsLog(log) && p > 0.0 && h > 0.0
    ensures Times(p, log(p)) <= Times(p, log(h)) - p + Over(Sq(p), h)
    ensures Times(p, log(p)) == Times(p, log(h)) - p + Over(Sq(p), h) ==> p == h
  {
    hide IsLog, Times, Over, Sq;
    Tangent(log, p, h);
    Weigh(p, log(p), log(h), Over(p, h));
    SquareOver(p, h);
  }

  lemma ShareAdds(a: nat, b: nat, total: nat, x: real)
    requires total > 0
    ensures Share(a + b, total) == Share(a, total) + Share(b, total)
    ensures Times(Share(a + b, total), x) == Times(Share(a, total), x) + Times(Share(b, total), x)
    ensures a > 0 ==> Share(a, total) > 0.0
  {
    DivideBack(a as real, total as real);
    TimesSign(Share(a, total), total as real);
    Distribute(Share(a, total), Share(b, total), x);
  }

  lemma {:induction false} EntropyAbove(s: seq<nat>, total: nat, k: nat, log: real -> real)
    requires IsLog(log) && total > 0 && k > 0 && Positive(s)
    ensures Shannon(s, total, log) <=
            Times(Share(Total(s), total), log(k as real)) - Share(Total(s), total) + Share(|s|, k)
    ensures Shannon(s, total, log) ==
            Times(Share(Total(s), total), log(k as real)) - Share(Total(s), total) + Share(|s|, k) ==>
            forall i :: 0 <= i < |s| ==> Times(Share(s[i], total), k as real) == 1.0
  {
    hide IsLog, Times, Over, Share, Entropy;
    if s == [] {
      NoShare(total, log(k as real), 1.0);
      NoShare(k, 0.0, 1.0);
    } else {
      EntropyAbove(s[1..], total, k, log);
      EntropyOf(s[0], total, log);
      ShareAdds(s[0], Total(s[1..]), total, log(k as real));
      ShareAdds(1, |s| - 1, k, 0.0);
      OneShare(k);
      TermAbove(log, Share(s[0], total), k as real);
    }
  }

  /** The shares' squares: what hhi adds up to. */
  function Herfindahl(s: seq<nat>, total: nat): real
    requires total > 0
  {
    if s == [] then 0.0 else Sq(Share(s[0], total)) + Herfindahl(s[1..], total)
  }

  lemma {:induction false} EntropyBelow(s: seq<nat>, total: nat, h: real, log: real -> real)
    requires IsLog(log) && total > 0 && h > 0.0 && Positive(s)
    ensures -Shannon(s, total, log) <=
            Times(Share(Total(s), total), log(h)) - Share(Total(s), total) + Over(Herfindahl(s, total), h)
    ensures -Shannon(s, total, log) ==
            Times(Share(Total(s), total), log(h)) - Share(Total(s), total) + Over(Herfindahl(s, total), h) ==>
            forall i :: 0 <= i < |s| ==> Share(s[i], total) == h
  {
    hide IsLog, Times, Over, Share, Entropy, Sq;
    if s == [] {
      NoShare(total, log(h), h);
    } else {
      EntropyBelow(s[1..], total, h, log);
      EntropyOf(s[0], total, log);
      ShareAdds(s[0], Total(s[1..]), total, log(h));
      TermBelow(log, Share(s[0], total), h);
      OverAdds(Sq(Share(s[0], total)), Herfindahl(s[1..], total), h);
    }
  }

  lemma {:induction false} HerfindahlIsSquares(s: seq<nat>, total: nat)
    requires total > 0
    ensures Times(Herfindahl(s, total), Sq(total as real)) == Squares(s) as real
  {
    if s != [] {
      HerfindahlIsSquares(s[1..], total);
      AddShare(Herfindahl(s[1..], total), s[0], total, Share(s[0], total));
    }
  }

  lemma SharesEqual(a: nat, b: nat, total: nat)
    requires total > 0 && Share(a, total) == Share(b, total)
    ensures a == b
  {
    DivideBack(a as real, total as real);
    DivideBack(b as real, total as real);
  }

  lemma Whole(n: nat)
    requires n > 0
    ensures Share(n, n) == 1.0
  { }

  lemma Cancel(x: real, y: real, k: real)
    requires k > 0.0 && Times(x, k) == Times(y, k)
    ensures x == y
  {
    TimesOrder(x, y, k);
    TimesOrder(y, x, k);
  }

  lemma EntropyAtMost(values: seq<nat>, log: real -> real)
    requires IsLog(log) && values != [] && Positive(values)
    ensures Total(values) > 0
    ensures Shannon(values, Total(values), log) <= log(|values| as real)
    ensures Shannon(values, Total(values), log) == log(|values| as real) ==> AllEqual(values)
  {
    var total, k := Total(values), |values|;
    EntropyAbove(values, total, k, log);
    Whole(total);
    Whole(k);
    assert Times(1.0, log(k as real)) == log(k as real);
    if Shannon(values, total, log) == log(k as real) {
      forall i, j | 0 <= i < k && 0 <= j < k ensures values[i] == values[j] {
        Cancel(Share(values[i], total), Share(values[j], total), k as real);
        SharesEqual(values[i], values[j], total);
      }
    }
  }

  lemma SqPositive(x: real)
    requires x > 0.0
    ensures Sq(x) > 0.0
  {
    SqGrows(x, 0.0);
  }

  lemma OneTimes(x: real)
    ensures Times(1.0, x) == x
  { }

  lemma SelfOver(x: real)
    requires x != 0.0
    ensures Over(x, x) == 1.0
  { }

  lemma EntropyAtLeast(values: seq<nat>, log: real -> real)
    requires IsLog(log) && values != [] && Positive(values)
    ensures Total(values) > 0
    ensures var r := DiversityOf(values, log); r.effective > 0.0 && log(r.effective) <= r.shannon
    ensures var r := DiversityOf(values, log); log(r.effective) == r.shannon ==> AllEqual(values)
  {
    hide IsLog, Times, Over, Sq, Share, Herfindahl, Shannon;
    var total := Total(values);
    var h := Herfindahl(values, total);
    SquaresBounded(values);
    HerfindahlIsSquares(values, total);
    Inverse(h, total, Squares(values), values);
    SqPositive(total as real);
    TimesSign(h, Sq(total as real));
    LogOfInverse(log, h);
    EntropyBelow(values, total, h, log);
    Whole(total);
    OneTimes(log(h));
    SelfOver(h);
    if -Shannon(values, total, log) == log(h) {
      forall i, j | 0 <= i < |values| && 0 <= j < |values| ensures values[i] == values[j] {
        SharesEqual(values[i], values[j], total);
      }
    }
  }

  /**
   The entropy lies between the logarithms of the effective carriers and of
   the number of operators, and meets either exactly when all counts are equal.
   */
  lemma EntropyBounds(values: seq<nat>, log: real -> real)
    requires IsLog(log) && values != [] && Positive(values)
    ensures var r, top := DiversityOf(values, log), log(|values| as real);
      && log(r.effective) <= r.shannon <= top
      && (r.shannon == top <==> AllEqual(values)) && (r.shannon == log(r.effective) <==> AllEqual(values))
  {
    EntropyAtMost(values, log);
    EntropyAtLeast(values, log);
    DiversityBounds(values, log);
  }
}
