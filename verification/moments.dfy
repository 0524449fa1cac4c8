/** Sums, squares and the Cauchy-Schwarz gap between them. */
module Moments {
  function Total(s: seq<nat>): nat { if s == [] then 0 else s[0] + Total(s[1..]) }

  function Squares(s: seq<nat>): nat { if s == [] then 0 else s[0] * s[0] + Squares(s[1..]) }

  /** Squared distances from x. */
  function Distances(s: seq<nat>, x: int): int { if s == [] then 0 else (s[0] - x) * (s[0] - x) + Distances(s[1..], x) }

  ghost predicate AllEqual(s: seq<nat>) { forall i, j :: 0 <= i < |s| && 0 <= j < |s| ==> s[i] == s[j] }

  /** |s| times the squares less the square of the total: |s| squared times the variance. */
  function Gap(s: seq<nat>): int { |s| * Squares(s) - Total(s) * Total(s) }

  lemma ExpandStep(a: int, x: int, t: int, q: int, n: int)
    ensures (a - x) * (a - x) + (q - 2 * (x * t) + n * (x * x)) == (a * a + q) - 2 * (x * (a + t)) + (n + 1) * (x * x)
  {
    assert (a - x) * (a - x) == a * a - 2 * (a * x) + x * x;
    assert x * (a + t) == x * a + x * t;
    assert (n + 1) * (x * x) == n * (x * x) + x * x;
  }

  lemma {:induction false} DistancesExpand(s: seq<nat>, x: int)
    ensures Distances(s, x) == Squares(s) - 2 * (x * Total(s)) + |s| * (x * x)
  {
    if s != [] {
      DistancesExpand(s[1..], x);
      ExpandStep(s[0], x, Total(s[1..]), Squares(s[1..]), |s| - 1);
    }
  }

  lemma {:induction false} DistancesSign(s: seq<nat>, x: int)
    ensures Distances(s, x) >= 0
    ensures Distances(s, x) == 0 <==> forall i :: 0 <= i < |s| ==> s[i] == x
  {
    if s != [] {
      DistancesSign(s[1..], x);
      SquareSign(s[0] - x);
      if Distances(s, x) == 0 {
        forall i | 0 <= i < |s| ensures s[i] == x { if i > 0 { assert s[i] == s[1..][i - 1]; } }
      }
    }
  }

  lemma SquareSign(d: int)
    ensures d * d >= 0 && (d * d == 0 <==> d == 0)
  { }

  lemma GapStep(s: seq<nat>)
    requires s != []
    ensures Gap(s) == Gap(s[1..]) + Distances(s[1..], s[0])
  {
    DistancesExpand(s[1..], s[0]);
    GapExpand(s[0], Total(s[1..]), Squares(s[1..]), |s| - 1);
  }

  lemma GapExpand(a: int, t: int, q: int, n: int)
    ensures (n + 1) * (a * a + q) - (a + t) * (a + t) == (n * q - t * t) + (q - 2 * (a * t) + n * (a * a))
  {
    assert (n + 1) * (a * a + q) == n * q + q + n * (a * a) + a * a;
    assert (a + t) * (a + t) == a * a + 2 * (a * t) + t * t;
  }

  /** Cauchy-Schwarz, with its equality case. */
  lemma {:induction false} CauchySchwarz(s: seq<nat>)
    ensures Gap(s) >= 0
    ensures Gap(s) == 0 <==> AllEqual(s)
  {
    if s != [] {
      CauchySchwarz(s[1..]);
      GapStep(s);
      DistancesSign(s[1..], s[0]);
      if Gap(s) == 0 {
        forall i | 0 <= i < |s| ensures s[i] == s[0] { if i > 0 { assert s[i] == s[1..][i - 1]; } }
      }
      if AllEqual(s) {
        forall i | 0 <= i < |s| - 1 ensures s[1..][i] == s[0] { assert s[1..][i] == s[i + 1]; }
      }
    }
  }

  /** The squares never exceed the square of the total. */
  lemma {:induction false} SquaresBounded(s: seq<nat>)
    ensures Squares(s) <= Total(s) * Total(s)
    ensures Total(s) > 0 ==> Squares(s) > 0
  {
    if s != [] {
      SquaresBounded(s[1..]);
      var a, t := s[0], Total(s[1..]);
      assert (a + t) * (a + t) == a * a + 2 * a * t + t * t;
      assert a * t >= 0;
      if a > 0 { assert a * a > 0; }
    }
  }

  // ------------------------------------------------------------------
  // Squares of reals
  // ------------------------------------------------------------------

  function Sq(x: real): real { x * x }

  function Times(x: real, y: real): real { x * y }

  function Over(x: real, y: real): real
    requires y != 0.0
  {
    x / y
  }

  lemma DivideBack(x: real, n: real)
    requires n > 0.0
    ensures Times(Over(x, n), n) == x
  { }

  lemma {:induction false} CastProduct(a: nat, b: nat)
    ensures (a * b) as real == a as real * b as real
    decreases a
  {
    if a > 0 {
      CastProduct(a - 1, b);
      assert a * b == (a - 1) * b + b;
      assert a as real * b as real == (a - 1) as real * b as real + b as real;
    }
  }

  lemma CastSquare(a: nat)
    ensures (a * a) as real == Sq(a as real)
  {
    CastProduct(a, a);
  }

  lemma SqGrows(x: real, y: real)
    requires 0.0 <= y < x
    ensures Sq(y) < Sq(x)
  {
    var d := x - y;
    assert Sq(x) == Sq(y) + 2.0 * (d * y) + d * d;
    assert d * y >= 0.0 && d * d > 0.0;
  }

  lemma SqOrder(x: real, y: real)
    requires x >= 0.0 && y >= 0.0
    ensures Sq(x) <= Sq(y) <==> x <= y
  {
    if x > y { SqGrows(x, y); }
    if x < y { SqGrows(y, x); }
  }

  lemma SqProduct(x: real, y: real)
    ensures Sq(x * y) == Sq(x) * Sq(y)
  { }

  lemma TimesSign(x: real, y: real)
    requires y > 0.0
    ensures Times(x, y) == 0.0 <==> x == 0.0
    ensures Times(x, y) > 0.0 <==> x > 0.0
  { }

  lemma TimesOrder(x: real, y: real, z: real)
    requires z > 0.0
    ensures Times(x, z) <= Times(y, z) <==> x <= y
  { }
}
