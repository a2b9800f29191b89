/**
 Numeric helpers shared by both scoring variants: `Math.max`, `Math.min`,
 `clamp`, `clamp01` and `round(x, 1)`. JavaScript numbers are modelled as
 exact reals.
 */
module Numbers {

  function Max(a: real, b: real): real {
    if a >= b then a else b
  }

  function Min(a: real, b: real): real {
    if a <= b then a else b
  }

  /** `clamp(x, lo, hi)`, written in the source as `Math.max(lo, Math.min(hi, x))`. */
  function Clamp(x: real, lo: real, hi: real): (r: real)
    ensures lo <= hi ==> lo <= r <= hi
    ensures lo <= x <= hi ==> r == x
    ensures x <= lo ==> r == lo
    ensures lo <= hi <= x ==> r == hi
  {
    Max(lo, Min(hi, x))
  }

  function Clamp01(x: real): (r: real)
    ensures 0.0 <= r <= 1.0
    ensures 0.0 <= x <= 1.0 ==> r == x
    ensures x <= 0.0 ==> r == 0.0
    ensures x >= 1.0 ==> r == 1.0
  {
    Clamp(x, 0.0, 1.0)
  }

  /** `Math.round`: the integer nearest to `y`, halves going up (towards +∞). */
  function MathRound(y: real): (n: int)
    ensures y - 0.5 < n as real <= y + 0.5
  {
    (y + 0.5).Floor
  }

  /** A whole number of tenths. */
  predicate IsTenth(r: real) {
    (r * 10.0).Floor as real == r * 10.0
  }

  /** `round(x, 1)`: `Math.round(x * 10) / 10`. */
  function Round1(x: real): (r: real)
    ensures IsTenth(r)
    ensures x - 0.05 < r <= x + 0.05
  {
    var n := MathRound(x * 10.0);
    assert (n as real / 10.0) * 10.0 == n as real;
    n as real / 10.0
  }

  /** Rounding keeps a value of the display range [0, 10] inside it. */
  lemma Round1InRange(x: real)
    requires 0.0 <= x <= 10.0
    ensures 0.0 <= Round1(x) <= 10.0
  {
    var n := MathRound(x * 10.0);
    assert -0.5 < n as real <= 100.5;
    assert 0 <= n <= 100;
  }

  /** Rounding is monotone. */
  lemma Round1Monotone(x: real, y: real)
    requires x <= y
    ensures Round1(x) <= Round1(y)
  {
    assert x * 10.0 + 0.5 <= y * 10.0 + 0.5;
    assert MathRound(x * 10.0) <= MathRound(y * 10.0);
  }

  /** Rounding a whole number of tenths changes nothing, so rounding is idempotent. */
  lemma Round1OfTenth(x: real)
    requires IsTenth(x)
    ensures Round1(x) == x
  {
    var k := (x * 10.0).Floor;
    assert (x * 10.0 + 0.5).Floor == k;
  }

  lemma Round1Idempotent(x: real)
    ensures Round1(Round1(x)) == Round1(x)
  {
    Round1OfTenth(Round1(x));
  }
}
