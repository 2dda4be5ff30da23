/** Number primitives that the estimating code relies on: powers of ten, `Math.ceil`,
    and `Number(x.toFixed(2))` / `Number(x.toFixed(3))` over exact reals. */
module Numeric {

  /** 10 to the power `n`. */
  function Pow10(n: nat): (r: nat)
    ensures r >= 1
  {
    if n == 0 then 1 else 10 * Pow10(n - 1)
  }

  /** `Math.ceil(x)`: the least integer that is not below `x`. */
  function Ceil(x: real): (r: int)
    ensures x <= r as real < x + 1.0
  {
    -((-x).Floor)
  }

  /** The whole number of units `toFixed` picks for a non-negative magnitude `y`
      (already scaled to units): the nearest one, the larger on a tie. */
  function HalfUp(y: real): (k: int)
    requires y >= 0.0
    ensures k >= 0
    ensures k as real - 0.5 <= y < k as real + 0.5
  {
    (y + 0.5).Floor
  }

  /** The signed unit count behind `toFixed`: a negative number is negated, rounded and
      given its sign back, so ties go away from zero. */
  function FixedUnits(y: real): (k: int)
    ensures y >= 0.0 ==> k >= 0
    ensures y <= 0.0 ==> k <= 0
    ensures y >= 0.0 ==> k as real - 0.5 <= y < k as real + 0.5
    ensures y < 0.0 ==> k as real - 0.5 < y <= k as real + 0.5
  {
    if y < 0.0 then -HalfUp(-y) else HalfUp(y)
  }

  /** `x` is a whole number of pence (hundredths). */
  predicate HasCents(x: real) {
    (x * 100.0).Floor as real == x * 100.0
  }

  /** `t` is `x` to the nearest hundredth, a tie going away from zero: a figure
      `Number(x.toFixed(2))` can be and no other. */
  predicate NearestCents(t: real, x: real) {
    && HasCents(t)
    && (x >= 0.0 ==> t - 0.005 <= x < t + 0.005)
    && (x < 0.0 ==> t - 0.005 < x <= t + 0.005)
  }

  /** `x` is a whole number of thousandths. */
  predicate HasMillis(x: real) {
    (x * 1000.0).Floor as real == x * 1000.0
  }

  /** `Number(x.toFixed(2))`: `x` to the nearest hundredth, ties away from zero. */
  function Round2(x: real): (r: real)
    ensures HasCents(r)
    ensures -0.005 <= r - x <= 0.005
    ensures x >= 0.0 ==> r - 0.005 <= x < r + 0.005
    ensures x < 0.0 ==> r - 0.005 < x <= r + 0.005
    ensures x >= 0.0 ==> r >= 0.0
    ensures x <= 0.0 ==> r <= 0.0
  {
    var k := FixedUnits(x * 100.0);
    var r := k as real / 100.0;
    assert r * 100.0 == k as real;
    assert (r * 100.0).Floor == k;
    r
  }

  /** `Number(x.toFixed(3))`: `x` to the nearest thousandth, ties away from zero. */
  function Round3(x: real): (r: real)
    ensures HasMillis(r)
    ensures -0.0005 <= r - x <= 0.0005
    ensures x >= 0.0 ==> r - 0.0005 <= x < r + 0.0005
    ensures x < 0.0 ==> r - 0.0005 < x <= r + 0.0005
    ensures x >= 0.0 ==> r >= 0.0
    ensures x <= 0.0 ==> r <= 0.0
  {
    var k := FixedUnits(x * 1000.0);
    var r := k as real / 1000.0;
    assert r * 1000.0 == k as real;
    assert (r * 1000.0).Floor == k;
    r
  }

  /** A value that is already whole pence is left alone by rounding. */
  lemma Round2Exact(x: real)
    requires HasCents(x)
    ensures Round2(x) == x
  {
    var n := (x * 100.0).Floor;
    assert FixedUnits(x * 100.0) == n;
  }

  /** Rounding to pence twice is rounding once. */
  lemma Round2Idempotent(x: real)
    ensures Round2(Round2(x)) == Round2(x)
  {
    Round2Exact(Round2(x));
  }

  /** Whole pence are closed under addition. */
  lemma HasCentsAdd(x: real, y: real)
    requires HasCents(x) && HasCents(y)
    ensures HasCents(x + y)
  {
    var a, b := (x * 100.0).Floor, (y * 100.0).Floor;
    assert (x + y) * 100.0 == (a + b) as real;
  }

  /** Every integer is a whole number of pence. */
  lemma HasCentsInt(n: int)
    ensures HasCents(n as real)
  {
    assert n as real * 100.0 == (n * 100) as real;
  }

  /** A value that is already whole thousandths is left alone by rounding to three places. */
  lemma Round3Exact(x: real)
    requires HasMillis(x)
    ensures Round3(x) == x
  {
    var n := (x * 1000.0).Floor;
    assert FixedUnits(x * 1000.0) == n;
  }

  /** A whole multiple of a whole number of pence is a whole number of pence. */
  lemma HasCentsMul(n: int, x: real)
    requires HasCents(x)
    ensures HasCents(n as real * x)
  {
    var a := (x * 100.0).Floor;
    var y := n as real * x;
    assert y * 100.0 == n as real * (x * 100.0);
    assert n as real * (a as real) == (n * a) as real;
    assert y * 100.0 == (n * a) as real;
    assert (y * 100.0).Floor == n * a;
  }

  /** The magnitude of a whole-pence amount is a whole number of pence, which `toFixed`
      rounding leaves as it is. */
  lemma HalfUpOfPence(x: real)
    requires HasCents(x)
    ensures x >= 0.0 ==> HalfUp(x * 100.0) as real == x * 100.0
    ensures x < 0.0 ==> HalfUp(-x * 100.0) as real == -x * 100.0
  {
    var n := (x * 100.0).Floor;
    if x >= 0.0 {
      HalfUpOfWhole(n);
    } else {
      assert -x * 100.0 == (-n) as real;
      HalfUpOfWhole(-n);
    }
  }

  lemma HalfUpOfWhole(n: int)
    requires n >= 0
    ensures HalfUp(n as real) == n
  {
    var k := HalfUp(n as real);
    assert k as real - 0.5 <= n as real < k as real + 0.5;
  }

  /** A tie goes away from zero: 0.125 rounds to 0.13 and -0.125 to -0.13. */
  lemma Round2TiesAwayFromZero()
    ensures Round2(0.125) == 0.13 && Round2(-0.125) == -0.13
  {
    assert HalfUp(12.5) == 13;
  }
}
