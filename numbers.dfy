/** Integer forms of the JavaScript arithmetic the analytics use: rounding,
    ceilings and square roots of exact quotients. All divisors are positive,
    so Dafny's `/` is the floor. */
module Numbers {

  /** `Math.round(n / d)`: the nearest integer, halves rounded up. */
  function RoundDiv(n: int, d: int): (r: int)
    requires d > 0
    ensures 2 * d * r <= 2 * n + d < 2 * d * r + 2 * d
  {
    (2 * n + d) / (2 * d)
  }

  /** RoundDiv is the exact quotient rounded to the nearest integer. */
  lemma RoundDivNearest(n: int, d: int)
    requires d > 0
    ensures RoundDiv(n, d) as real - 0.5 <= n as real / d as real < RoundDiv(n, d) as real + 0.5
  {
    var r := RoundDiv(n, d);
    var lo, q, hi, m := r as real - 0.5, n as real / d as real, r as real + 0.5, d as real;
    assert 2 * (d * r) <= 2 * n + d < 2 * (d * r) + 2 * d;
    var dr := (d * r) as real;
    assert dr == m * r as real;
    assert lo * m == dr - 0.5 * m;
    assert hi * m == dr + 0.5 * m;
    assert q * m == n as real;
    ScaleDown(lo, q, m);
    ScaleDownStrict(q, hi, m);
  }

  lemma ScaleDown(a: real, b: real, m: real)
    requires m > 0.0 && a * m <= b * m
    ensures a <= b
  {
  }

  lemma ScaleDownStrict(a: real, b: real, m: real)
    requires m > 0.0 && a * m < b * m
    ensures a < b
  {
  }

  /** `Math.ceil(n / d)`: the least integer not below the quotient. */
  function CeilDiv(n: int, d: int): (c: int)
    requires d > 0
    ensures d * (c - 1) < n <= d * c
  {
    (n + d - 1) / d
  }

  /** The integer square root: the largest s with s·s <= n. */
  function ISqrt(n: nat): (s: nat)
    ensures s * s <= n < (s + 1) * (s + 1)
  {
    if n < 4 then (if n == 0 then 0 else 1)
    else
      var r := ISqrt(n / 4);
      ISqrtStep(n, r);
      if (2 * r + 1) * (2 * r + 1) <= n then 2 * r + 1 else 2 * r
  }

  /** A root of the quotient n / r brackets n between r-multiples of
      consecutive squares. */
  lemma LargestSquareUnder(n: nat, r: int, d: nat)
    requires r > 0 && d * d <= n / r < (d + 1) * (d + 1)
    ensures d * d * r <= n < (d + 1) * (d + 1) * r
  {
    var q, lo, hi := n / r, d * d, (d + 1) * (d + 1);
    assert r * q <= n < r * (q + 1);
    MulLe(r, lo, q);
    MulLe(r, q + 1, hi);
    assert lo * r == r * lo && hi * r == r * hi;
  }

  /** Doubling the root of n / 4 brackets the root of n. */
  lemma ISqrtStep(n: nat, r: nat)
    requires r * r <= n / 4 < (r + 1) * (r + 1)
    ensures (2 * r) * (2 * r) <= n < (2 * r + 2) * (2 * r + 2)
  {
    var q := n / 4;
    assert (2 * r) * (2 * r) == 4 * (r * r);
    assert (2 * r + 2) * (2 * r + 2) == 4 * ((r + 1) * (r + 1));
    assert 4 * q <= n < 4 * q + 4;
  }

  /** Multiplying by a non-negative factor keeps order. */
  lemma MulLe(k: int, a: int, b: int)
    requires k >= 0 && a <= b
    ensures k * a <= k * b
  {
    assert k * b - k * a == k * (b - a);
  }

  /** A positive factor can be cancelled from a strict inequality. */
  lemma LessByFactor(k: int, a: int, b: int)
    requires k > 0 && k * a < k * b
    ensures a < b
  {
  }

  /** Squares are ordered like their non-negative roots. */
  lemma SquareOrder(a: nat, b: nat)
    ensures a <= b <==> a * a <= b * b
  {
    if a <= b {
      assert a * a <= a * b <= b * b;
    } else {
      assert b * b <= b * a < a * a;
    }
  }

  /** The integer square root is monotone. */
  lemma {:induction false} ISqrtMonotone(m: nat, n: nat)
    requires m <= n
    ensures ISqrt(m) <= ISqrt(n)
  {
    var s, t := ISqrt(m), ISqrt(n);
    assert s * s <= m <= n < (t + 1) * (t + 1);
    SquareOrder(s, t + 1);
  }

  function Sum(xs: seq<int>): int {
    if xs == [] then 0 else Sum(xs[..|xs| - 1]) + xs[|xs| - 1]
  }

  /** A sum of n terms each within [lo, hi] lies within [n·lo, n·hi]. */
  lemma {:induction false} SumBounds(xs: seq<int>, lo: int, hi: int)
    requires forall i :: 0 <= i < |xs| ==> lo <= xs[i] <= hi
    ensures |xs| * lo <= Sum(xs) <= |xs| * hi
  {
    if xs != [] {
      SumBounds(xs[..|xs| - 1], lo, hi);
    }
  }

  /** A rounded quotient of a total between n·lo and n·hi lies in [lo, hi]. */
  lemma RoundDivBetween(total: int, n: int, lo: int, hi: int)
    requires n > 0 && n * lo <= total <= n * hi
    ensures lo <= RoundDiv(total, n) <= hi
  {
    var r := RoundDiv(total, n);
    var k := 2 * n;
    assert k * r <= 2 * total + n < k * r + k;
    assert k * (hi + 1) == 2 * (n * hi) + k;
    assert k * (lo - 1) == 2 * (n * lo) - k;
    LessByFactor(k, r, hi + 1);
    LessByFactor(k, lo - 1, r);
  }

  /** The rounded mean of integers within [lo, hi] stays within [lo, hi]. */
  lemma RoundedMeanBounds(xs: seq<int>, lo: int, hi: int)
    requires |xs| > 0
    requires forall i :: 0 <= i < |xs| ==> lo <= xs[i] <= hi
    ensures lo <= RoundDiv(Sum(xs), |xs|) <= hi
  {
    SumBounds(xs, lo, hi);
    RoundDivBetween(Sum(xs), |xs|, lo, hi);
  }

  // ---- averages against thresholds ----

  /** `xs.length > 0 ? sum / xs.length : fallback`, exactly. */
  function MeanOr(xs: seq<int>, fallback: int): real {
    if |xs| == 0 then fallback as real else Sum(xs) as real / |xs| as real
  }

  /** For a positive count, the mean is below t exactly when the total is
      below t times the count. */
  lemma {:induction false} MeanComparison(total: int, n: int, t: int)
    requires n > 0
    ensures total as real / n as real < t as real <==> total < t * n
    ensures total as real / n as real > t as real <==> total > t * n
  {
    var m := total as real / n as real;
    assert m * n as real == total as real;
    assert (t * n) as real == t as real * n as real;
  }

  /** `mean < t`, decided on integers by cross-multiplying. */
  function Below(xs: seq<int>, t: int, fallback: int): (b: bool)
    ensures b <==> MeanOr(xs, fallback) < t as real
  {
    if |xs| == 0 then fallback < t
    else
      MeanComparison(Sum(xs), |xs|, t);
      Sum(xs) < t * |xs|
  }

  /** `mean > t`, decided on integers by cross-multiplying. */
  function Above(xs: seq<int>, t: int, fallback: int): (b: bool)
    ensures b <==> MeanOr(xs, fallback) > t as real
  {
    if |xs| == 0 then fallback > t
    else
      MeanComparison(Sum(xs), |xs|, t);
      Sum(xs) > t * |xs|
  }
}
