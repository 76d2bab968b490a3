/** Real-number helpers: `min`/`max` on scores, arithmetic means, and Python's
    `round(x, n)` modelled on exact decimals (round half to even). */
module Numeric {

  function MinR(a: real, b: real): real { if a <= b then a else b }
  function MaxR(a: real, b: real): real { if a >= b then a else b }

  /** 10^n. */
  function Pow10(n: nat): (p: nat)
    ensures p >= 1
  {
    if n == 0 then 1 else 10 * Pow10(n - 1)
  }

  /** 10^n as a real, written out as a literal for the precisions the
      analyzers use, so that scaling by it stays linear arithmetic. */
  function Scale(n: nat): (p: real)
    ensures p >= 1.0
  {
    if n == 0 then 1.0
    else if n == 1 then 10.0
    else if n == 2 then 100.0
    else if n == 3 then 1000.0
    else Pow10(n) as real
  }

  /** Nearest integer to y, ties to the even neighbour. */
  function RoundHalfEven(y: real): (k: int)
    ensures y.Floor <= k <= y.Floor + 1
    ensures (y - y.Floor as real) < 0.5 ==> k == y.Floor
    ensures (y - y.Floor as real) > 0.5 ==> k == y.Floor + 1
    ensures (y - y.Floor as real) == 0.5 ==> k % 2 == 0
  {
    var f := y.Floor;
    var d := y - f as real;
    if d > 0.5 then f + 1
    else if d < 0.5 then f
    else if f % 2 == 0 then f
    else f + 1
  }

  /** Python's `round(x, n)` on the exact value x. */
  function Round(x: real, n: nat): real
  {
    if n == 0 then RoundAt(x, 1.0)
    else if n == 1 then RoundAt(x, 10.0)
    else if n == 2 then RoundAt(x, 100.0)
    else if n == 3 then RoundAt(x, 1000.0)
    else RoundAt(x, Pow10(n) as real)
  }

  /** x rounded to the nearest multiple of 1/p, ties to even. */
  function RoundAt(x: real, p: real): real
    requires p >= 1.0
  {
    RoundHalfEven(x * p) as real / p
  }

  lemma RoundIsRoundAt(x: real, n: nat)
    ensures Round(x, n) == RoundAt(x, Scale(n))
  {
  }

  lemma ScaleMono(a: real, b: real, p: real)
    requires a <= b && p > 0.0
    ensures a * p <= b * p
  {
  }

  lemma MulDiv(a: real, p: real)
    requires p > 0.0
    ensures (a / p) * p == a
  {
  }

  lemma DivBack(k: real, v: real, p: real)
    requires p > 0.0 && k == v * p
    ensures k / p == v
  {
  }

  lemma DivMono(k: real, l: real, p: real)
    requires k <= l && p > 0.0
    ensures k / p <= l / p
  {
  }

  /** Rounding to an integer stays between integer bounds. */
  lemma RoundHalfEvenWithin(y: real, L: int, H: int)
    requires L as real <= y <= H as real
    ensures L <= RoundHalfEven(y) <= H
  {
    var k := RoundHalfEven(y);
    if y.Floor == H {
      assert y == H as real;
    }
  }

  /** Rounding never leaves an interval whose ends lie on the rounding grid
      (lo = L / 10^n and hi = H / 10^n): the scorers' bounds survive
      `round(score, n)`. */
  lemma RoundWithin(x: real, n: nat, lo: real, hi: real, L: int, H: int)
    requires lo <= x <= hi
    requires lo == L as real / Scale(n) && hi == H as real / Scale(n)
    ensures lo <= Round(x, n) <= hi
  {
    RoundIsRoundAt(x, n);
    RoundAtWithin(x, Scale(n), lo, hi, L, H);
  }

  lemma RoundAtValue(x: real, p: real, k: int)
    requires p >= 1.0 && k == RoundHalfEven(x * p)
    ensures RoundAt(x, p) == k as real / p
  {
  }

  lemma RoundAtWithin(x: real, p: real, lo: real, hi: real, L: int, H: int)
    requires p >= 1.0
    requires lo <= x <= hi
    requires lo == L as real / p && hi == H as real / p
    ensures lo <= RoundAt(x, p) <= hi
  {
    ScaleBounds(x, p, lo, hi, L, H);
    RoundHalfEvenWithin(x * p, L, H);
    RoundAtValue(x, p, RoundHalfEven(x * p));
    DivBounds(RoundHalfEven(x * p), p, lo, hi, L, H);
  }

  lemma ScaleBounds(x: real, q: real, lo: real, hi: real, L: int, H: int)
    requires q > 0.0 && lo <= x <= hi
    requires lo == L as real / q && hi == H as real / q
    ensures L as real <= x * q <= H as real
  {
    ScaleMono(lo, x, q);
    ScaleMono(x, hi, q);
    MulDiv(L as real, q);
    MulDiv(H as real, q);
  }

  lemma DivBounds(k: int, q: real, lo: real, hi: real, L: int, H: int)
    requires q > 0.0 && L <= k <= H
    requires lo == L as real / q && hi == H as real / q
    ensures lo <= k as real / q <= hi
  {
    DivMono(L as real, k as real, q);
    DivMono(k as real, H as real, q);
  }

  /** A value already on the grid (x = K / 10^n) is unchanged by rounding. */
  lemma RoundOnGrid(x: real, n: nat, K: int)
    requires x == K as real / Scale(n)
    ensures Round(x, n) == x
  {
    RoundIsRoundAt(x, n);
    RoundAtOnGrid(x, Scale(n), K);
  }

  lemma RoundAtOnGrid(x: real, p: real, K: int)
    requires p >= 1.0 && x == K as real / p
    ensures RoundAt(x, p) == x
  {
    MulDiv(K as real, p);
    RoundHalfEvenWithin(x * p, K, K);
    RoundAtValue(x, p, K);
  }

  /** Sum of a list of reals. */
  function SumR(s: seq<real>): real
  {
    if s == [] then 0.0 else SumR(s[..|s| - 1]) + s[|s| - 1]
  }

  /** Sum of a list of naturals. */
  function SumN(s: seq<nat>): nat
  {
    if s == [] then 0 else SumN(s[..|s| - 1]) + s[|s| - 1]
  }

  /** A sum of values in [lo, hi] lies in [|s| lo, |s| hi]. */
  lemma {:induction false} SumRWithin(s: seq<real>, lo: real, hi: real)
    requires forall i :: 0 <= i < |s| ==> lo <= s[i] <= hi
    ensures |s| as real * lo <= SumR(s) <= |s| as real * hi
  {
    if s != [] {
      SumRWithin(s[..|s| - 1], lo, hi);
      assert (|s| - 1) as real * lo + lo == |s| as real * lo;
      assert (|s| - 1) as real * hi + hi == |s| as real * hi;
    }
  }

  /** The mean of values in [lo, hi] lies in [lo, hi]. */
  lemma MeanWithin(s: seq<real>, lo: real, hi: real)
    requires |s| > 0
    requires forall i :: 0 <= i < |s| ==> lo <= s[i] <= hi
    ensures lo <= SumR(s) / |s| as real <= hi
  {
    SumRWithin(s, lo, hi);
    QuotientAbove(SumR(s), |s| as real, lo);
    QuotientBelow(SumR(s), |s| as real, hi);
  }

  lemma QuotientAbove(x: real, n: real, lo: real)
    requires n > 0.0 && n * lo <= x
    ensures lo <= x / n
  {
    DivMono(n * lo, x, n);
    DivBack(n * lo, lo, n);
  }

  lemma QuotientBelow(x: real, n: real, hi: real)
    requires n > 0.0 && x <= n * hi
    ensures x / n <= hi
  {
    DivMono(x, n * hi, n);
    DivBack(n * hi, hi, n);
  }
}
