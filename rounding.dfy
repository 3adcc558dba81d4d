/** Python's `round(x, 2)` and `min(100, x)` over exact reals, and the two percentage ratios
    the scorers build from them.

    The source rounds every dimension score to two decimals. Python rounds the exact value
    of its binary float half-to-even; here the value is an exact real, so the rounding is
    round-half-to-even of that real at the second decimal. */
module Rounding {

  /** The integer nearest to `y`, ties going to the even neighbour. */
  function RoundHalfEven(y: real): (n: int)
    ensures n as real - 0.5 <= y <= n as real + 0.5
    ensures (y == n as real - 0.5 || y == n as real + 0.5) ==> n % 2 == 0
  {
    var f := y.Floor;
    var frac := y - f as real;
    if frac < 0.5 then f
    else if frac > 0.5 then f + 1
    else if f % 2 == 0 then f
    else f + 1
  }

  /** `round(x, 2)`: the nearest multiple of 0.01, ties to an even last digit. */
  function Round2(x: real): (r: real)
    ensures -0.005 <= r - x <= 0.005
    ensures (r * 100.0).Floor as real == r * 100.0
  {
    RoundHalfEven(x * 100.0) as real / 100.0
  }

  /** Python's `min(100, x)`. */
  function Cap100(x: real): (r: real)
    ensures r <= 100.0 && r <= x
    ensures r == 100.0 || r == x
  {
    if x < 100.0 then x else 100.0
  }

  /** `len(hits) / len(total) * 100 if total else 0`: the zero default for an empty list. */
  function Share(hits: nat, total: nat): (r: real)
    ensures total == 0 ==> r == 0.0
    ensures hits <= total ==> 0.0 <= r <= 100.0
    ensures 0 < hits == total ==> r == 100.0
  {
    if total == 0 then 0.0 else hits as real / total as real * 100.0
  }

  /** `min(100, n / d * 100) if d > 0 else 100`: the capped ratio both the experience and the
      quantity part of the project score use. */
  function CappedShare(n: real, d: int): (r: real)
    ensures r <= 100.0
    ensures d <= 0 ==> r == 100.0
    ensures d > 0 && n >= d as real ==> r == 100.0
    ensures d > 0 && 0.0 <= n <= d as real ==> r == n / d as real * 100.0
    ensures n >= 0.0 ==> r >= 0.0
  {
    if d > 0 then Cap100(n / d as real * 100.0) else 100.0
  }

  /** A ratio of at least one is capped at 100 per cent. */
  lemma RatioCapped(n: real, d: real)
    requires 0.0 < d <= n
    ensures Cap100(n / d * 100.0) == 100.0
  {
    var r := n / d;
    assert r * d == n;
  }

  lemma RoundHalfEvenMonotone(x: real, y: real)
    requires x <= y
    ensures RoundHalfEven(x) <= RoundHalfEven(y)
  {
  }

  lemma Round2Monotone(x: real, y: real)
    requires x <= y
    ensures Round2(x) <= Round2(y)
  {
    RoundHalfEvenMonotone(x * 100.0, y * 100.0);
  }

  /** A whole number is left unchanged by rounding. */
  lemma Round2OfWhole(k: int)
    ensures Round2(k as real) == k as real
  {
    var y := k as real * 100.0;
    assert y == (k * 100) as real;
    assert y.Floor == k * 100;
    assert RoundHalfEven(y) == k * 100;
  }

  /** Rounding keeps a value inside [lo, hi] whenever both bounds are whole numbers. */
  lemma Round2Within(x: real, lo: int, hi: int)
    requires lo as real <= x <= hi as real
    ensures lo as real <= Round2(x) <= hi as real
  {
    Round2Monotone(lo as real, x);
    Round2Monotone(x, hi as real);
    Round2OfWhole(lo);
    Round2OfWhole(hi);
  }
}
