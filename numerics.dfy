/**
 * Real-number helpers: the transcendental functions the engine uses (10^x, e^x, ln),
 * which Dafny cannot compute, Python's round(), and ASCII upper-casing.
 */
module Numerics {

  /**
   * The three transcendental functions of the engine. They are not computed: every
   * member that needs them takes a value of this type and requires it to be Lawful,
   * so each property is proved for every triple of functions obeying these laws.
   */
  datatype Transcendentals = Transcendentals(pow10: real -> real, exp: real -> real, ln: real -> real)

  /**
   * The only facts about 10^x, e^x and ln that the proofs use. The laws that relate
   * values at several points are stated through the named predicates below, so that
   * a proof brings one into play only by naming it.
   */
  ghost predicate Lawful(tm: Transcendentals) {
    && (forall x :: tm.pow10(x) > 0.0)
    && (forall x :: Pow10Inverse(tm, x))
    && (forall x :: tm.exp(x) > 0.0)
    && (forall x :: x > 1.0 ==> LnPositive(tm, x))
    && (forall x, y :: 0.0 < x < y ==> LnIncreasing(tm, x, y))
  }

  /** 10^x * 10^-x == 1. */
  ghost predicate Pow10Inverse(tm: Transcendentals, x: real) {
    tm.pow10(x) * tm.pow10(-x) == 1.0
  }

  /** ln is positive above 1. */
  ghost predicate LnPositive(tm: Transcendentals, x: real) {
    tm.ln(x) > 0.0
  }

  /** ln is strictly increasing on the positive reals. */
  ghost predicate LnIncreasing(tm: Transcendentals, x: real, y: real) {
    tm.ln(x) < tm.ln(y)
  }

  function Abs(x: real): real { if x < 0.0 then -x else x }

  function Max(x: real, y: real): real { if x < y then y else x }

  function Min(x: real, y: real): real { if x < y then x else y }

  /**
   * Python's round(x) on an exact real: the nearest integer, ties to the even one.
   * The two ensures pin the result down uniquely.
   */
  function RoundHalfEven(x: real): (r: int)
    ensures -0.5 <= x - r as real <= 0.5
    ensures Abs(x - r as real) == 0.5 ==> r % 2 == 0
  {
    var f := x.Floor;
    var frac := x - f as real;
    if frac < 0.5 then f
    else if frac > 0.5 then f + 1
    else if f % 2 == 0 then f
    else f + 1
  }

  /** Rounding x and n - x to the nearest integers, for an even n, loses nothing in the sum. */
  lemma RoundComplement(x: real, n: int)
    requires n % 2 == 0
    ensures RoundHalfEven(x) + RoundHalfEven(n as real - x) == n
  {
    var r, s := RoundHalfEven(x), RoundHalfEven(n as real - x);
    var d := x - r as real;
    var e := (n as real - x) - s as real;
    assert d + e == (n - r - s) as real;
    if Abs(d) == 0.5 {
      assert Abs(e) == 0.5;
      assert r % 2 == 0 && s % 2 == 0;
      assert (n - r - s) % 2 == 0;
    }
  }

  /** Python's round(x, 3) on an exact real. */
  function Round3(x: real): (r: real)
    ensures -0.0005 <= x - r <= 0.0005
  {
    RoundHalfEven(x * 1000.0) as real / 1000.0
  }

  /** round(x, 3) + round(1 - x, 3) is exactly 1. */
  lemma Round3Complement(x: real)
    ensures Round3(x) + Round3(1.0 - x) == 1.0
  {
    assert (1.0 - x) * 1000.0 == 1000 as real - x * 1000.0;
    RoundComplement(x * 1000.0, 1000);
  }

  function UpperChar(c: char): char {
    if 'a' <= c <= 'z' then (c as int - 'a' as int + 'A' as int) as char else c
  }

  predicate IsUpper(s: string) {
    forall i :: 0 <= i < |s| ==> !('a' <= s[i] <= 'z')
  }

  /** str.upper() restricted to ASCII letters. */
  function Upper(s: string): (r: string)
    ensures |r| == |s| && IsUpper(r)
    ensures forall i :: 0 <= i < |s| ==> r[i] == UpperChar(s[i])
  {
    if s == [] then [] else [UpperChar(s[0])] + Upper(s[1..])
  }

  /** Upper-casing an upper-case name changes nothing, so Upper is idempotent. */
  lemma UpperFixesUpper(s: string)
    requires IsUpper(s)
    ensures Upper(s) == s
  {
  }

  lemma UpperIdempotent(s: string)
    ensures Upper(Upper(s)) == Upper(s)
  {
    UpperFixesUpper(Upper(s));
  }

  // Small facts of real arithmetic, stated apart so that the solver meets them
  // without the rest of a proof's context.

  lemma NegatedMean(a: real, b: real, n: real, f: real)
    requires b == -a && n != 0.0
    ensures (b / n) * f == -((a / n) * f)
  {
  }


  lemma MeanBound(a: real, n: real, bound: real, f: real)
    requires n > 0.0 && Abs(a) <= n * bound
    ensures Abs((a / n) * f) <= Abs(f) * bound
  {
    var m := a / n;
    assert m * n == a;
    assert Abs(m) * n == Abs(a);
    assert Abs(m) <= bound;
    assert Abs(m * f) == Abs(m) * Abs(f);
  }

  /** 1 / (1 + p) + 1 / (1 + q) == 1 for reciprocal p and q. */
  lemma ReciprocalsComplement(p: real, q: real)
    requires p > 0.0 && q > 0.0 && p * q == 1.0
    ensures 1.0 / (1.0 + p) + 1.0 / (1.0 + q) == 1.0
  {
    assert (1.0 + q) * p == 1.0 + p;
    assert 1.0 / (1.0 + q) == p / (1.0 + p);
  }

  /** c * x + c * y == 0 when y == -x. */
  lemma OppositeScaled(c: real, x: real, y: real)
    requires y == -x
    ensures c * x + c * y == 0.0
  {
  }

  /** c * x > 0 exactly when x > 0, for a positive c. */
  lemma PositiveScaled(c: real, x: real)
    requires c > 0.0
    ensures c * x > 0.0 <==> x > 0.0
    ensures c * x < 0.0 <==> x < 0.0
  {
    if x > 0.0 { assert c * x > 0.0; }
    if x < 0.0 { assert c * -x > 0.0; }
  }

  /** Three positive weights divided by their total add up to 1 and keep their order. */
  lemma Normalized(a: real, b: real, c: real, t: real)
    requires a > 0.0 && b > 0.0 && c > 0.0 && t == a + b + c
    ensures a / t + b / t + c / t == 1.0
    ensures a < b ==> a / t < b / t
    ensures b < c ==> b / t < c / t
  {
    SameDenominator(a, b, c, t);
    if a < b { assert (a / t) * t == a && (b / t) * t == b; ScaledOrder(a / t, b / t, t); }
    if b < c { assert (b / t) * t == b && (c / t) * t == c; ScaledOrder(b / t, c / t, t); }
  }

  lemma SameDenominator(a: real, b: real, c: real, t: real)
    requires t > 0.0
    ensures a / t + b / t + c / t == (a + b + c) / t
  {
  }

  /** For a positive t, x * t < y * t only when x < y. */
  lemma ScaledOrder(x: real, y: real, t: real)
    requires t > 0.0 && x * t < y * t
    ensures x < y
  {
    if y <= x { ScaledMono(y, x, t); }
  }

  /** Multiplying by a positive number keeps the order. */
  lemma ScaledMono(u: real, v: real, w: real)
    requires u <= v && w > 0.0
    ensures u * w <= v * w
  {
    assert v * w - u * w == (v - u) * w;
  }

  /** A weighted sum with positive weights adding up to 1 stays within the bounds of its terms. */
  lemma ConvexBound(a: real, b: real, c: real, x: real, y: real, z: real, lo: real, hi: real)
    requires a > 0.0 && b > 0.0 && c > 0.0 && a + b + c == 1.0
    requires lo <= x <= hi && lo <= y <= hi && lo <= z <= hi
    ensures lo <= x * a + y * b + z * c <= hi
  {
    ScaledTotal(lo, a, b, c);
    ScaledTotal(hi, a, b, c);
    ConvexBoundTerms(a, b, c, x, y, z, lo, hi);
  }

  lemma ConvexBoundTerms(a: real, b: real, c: real, x: real, y: real, z: real, lo: real, hi: real)
    requires a > 0.0 && b > 0.0 && c > 0.0
    requires lo <= x <= hi && lo <= y <= hi && lo <= z <= hi
    ensures lo * a + lo * b + lo * c <= x * a + y * b + z * c <= hi * a + hi * b + hi * c
  {
    WeightedLower(a, b, c, x, y, z, lo);
    WeightedUpper(a, b, c, x, y, z, hi);
  }

  lemma WeightedLower(a: real, b: real, c: real, x: real, y: real, z: real, lo: real)
    requires a > 0.0 && b > 0.0 && c > 0.0
    requires lo <= x && lo <= y && lo <= z
    ensures lo * a + lo * b + lo * c <= x * a + y * b + z * c
  {
    ScaledMono(lo, x, a);
    ScaledMono(lo, y, b);
    ScaledMono(lo, z, c);
  }

  lemma WeightedUpper(a: real, b: real, c: real, x: real, y: real, z: real, hi: real)
    requires a > 0.0 && b > 0.0 && c > 0.0
    requires x <= hi && y <= hi && z <= hi
    ensures x * a + y * b + z * c <= hi * a + hi * b + hi * c
  {
    ScaledMono(x, hi, a);
    ScaledMono(y, hi, b);
    ScaledMono(z, hi, c);
  }

  /** k * a + k * b + k * c is k times the total weight, so k itself when the weights add up to 1. */
  lemma ScaledTotal(k: real, a: real, b: real, c: real)
    requires a + b + c == 1.0
    ensures k * a + k * b + k * c == k
  {
    DistributeThree(k, a, b, c);
  }

  lemma DistributeThree(k: real, a: real, b: real, c: real)
    ensures k * a + k * b + k * c == k * (a + b + c)
  {
  }

  /** The sum of a sequence of reals, taken from the end. */
  function Sum(xs: seq<real>): real {
    if xs == [] then 0.0 else Sum(xs[..|xs| - 1]) + xs[|xs| - 1]
  }

  lemma SumStep(xs: seq<real>, i: nat)
    requires i < |xs|
    ensures Sum(xs[..i + 1]) == Sum(xs[..i]) + xs[i]
  {
    assert xs[..i + 1][..i] == xs[..i];
  }

  /** n terms each within [-bound, bound] sum to within [-n * bound, n * bound]. */
  lemma {:induction false} SumBounded(xs: seq<real>, n: nat, bound: real)
    requires n == |xs|
    requires forall i :: 0 <= i < |xs| ==> Abs(xs[i]) <= bound
    ensures Abs(Sum(xs)) <= n as real * bound
  {
    if xs != [] {
      var init := xs[..|xs| - 1];
      SumBounded(init, n - 1, bound);
      Distribute((n - 1) as real, n as real, bound);
      AbsAddBound(Sum(init), xs[|xs| - 1], (n - 1) as real * bound, bound, n as real * bound);
    }
  }

  lemma AbsAddBound(a: real, x: real, p: real, q: real, r: real)
    requires Abs(a) <= p && Abs(x) <= q && r == p + q
    ensures Abs(a + x) <= r
  {
  }

  /** Negating every term negates the sum. */
  lemma {:induction false} SumNegated(xs: seq<real>, ys: seq<real>)
    requires |xs| == |ys|
    requires forall i :: 0 <= i < |xs| ==> ys[i] == -xs[i]
    ensures Sum(ys) == -Sum(xs)
  {
    if xs != [] {
      SumNegated(xs[..|xs| - 1], ys[..|ys| - 1]);
    }
  }

  lemma Distribute(m: real, n: real, b: real)
    requires n == m + 1.0
    ensures n * b == m * b + b
  {
  }

  /** k out of n as a real: k / n, in [0, 1] for k <= n, and 0 for k == 0. */
  function Fraction(k: nat, n: nat): (r: real)
    requires 0 < n
    ensures r * n as real == k as real
    ensures k <= n ==> 0.0 <= r <= 1.0
    ensures k == 0 ==> r == 0.0
  {
    if k <= n then FractionWithin(k, n); k as real / n as real
    else k as real / n as real
  }

  /** k out of n, for 0 < n and k <= n, lies in [0, 1]. */
  lemma FractionWithin(k: nat, n: nat)
    requires 0 < n && k <= n
    ensures 0.0 <= k as real / n as real <= 1.0
  {
    var f := k as real / n as real;
    assert f * n as real == k as real;
    if f > 1.0 {
      ScaledMono(1.0, f, n as real);
    }
  }
}
