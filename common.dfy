/** Numeric helpers shared by every part of the model.
  * JavaScript numbers are modelled as mathematical reals; the rounding and
  * clamping functions of the game are written out here once. */
module Common {

  datatype Option<T> = None | Some(value: T)

  function Min(a: real, b: real): real { if a <= b then a else b }
  function Max(a: real, b: real): real { if a >= b then a else b }

  /** x pulled into the interval [lo, hi]. */
  function Clamp(x: real, lo: real, hi: real): (r: real)
    requires lo <= hi
    ensures lo <= r <= hi
    ensures lo <= x <= hi ==> r == x
    ensures x < lo ==> r == lo
    ensures x > hi ==> r == hi
  {
    Max(lo, Min(hi, x))
  }

  /** Math.round: the nearest integer, halves rounded up. */
  function Round(x: real): (r: int)
    ensures x - 0.5 < r as real <= x + 0.5
  {
    (x + 0.5).Floor
  }

  /** Math.ceil. */
  function Ceil(x: real): (r: int)
    ensures x <= r as real < x + 1.0
  {
    -((-x).Floor)
  }

  /** A JavaScript default of 1 on an optional number: absent or zero counts as 1. */
  function OrOne(x: Option<real>): (r: real)
    ensures r != 0.0
    ensures x.Some? && x.value != 0.0 ==> r == x.value
  {
    if x.Some? && x.value != 0.0 then x.value else 1.0
  }

  /** A JavaScript default of 0 on an optional number: absent counts as 0. */
  function OrZero(x: Option<real>): (r: real)
    ensures x.Some? ==> r == x.value
  {
    if x.Some? then x.value else 0.0
  }

  /** Round never goes down when its argument goes up. */
  lemma RoundMonotone(x: real, y: real)
    requires x <= y
    ensures Round(x) <= Round(y)
  {
    assert (x + 0.5).Floor as real <= x + 0.5 <= y + 0.5;
  }

  /** Round returns integers unchanged. */
  lemma RoundIntegral(n: int)
    ensures Round(n as real) == n
  {
  }

  lemma RoundNonNegative(x: real)
    requires x >= 0.0
    ensures Round(x) >= 0
  {
    RoundMonotone(0.0, x);
  }

  /** A value below an integer bound rounds to at most that bound. */
  lemma RoundBelowIntegral(x: real, n: int)
    requires x <= n as real
    ensures Round(x) <= n
  {
    RoundMonotone(x, n as real);
  }

  /** A quotient lies between the bounds its dividend lies between, scaled. */
  lemma DivBounds(p: real, n: real, lo: real, hi: real)
    requires n > 0.0 && lo * n <= p <= hi * n
    ensures lo <= p / n <= hi
  {
    var a := p / n;
    assert a * n == p;
  }

  /** The product of two non-negative numbers is non-negative. */
  lemma MulNonNegative(x: real, y: real)
    requires x >= 0.0 && y >= 0.0
    ensures x * y >= 0.0
  {
  }

  /** Multiplying by a non-negative factor keeps an inequality. */
  lemma MulLeft(c: real, a: real, b: real)
    requires c >= 0.0 && a <= b
    ensures c * a <= c * b
  {
    MulNonNegative(c, b - a);
    assert c * (b - a) == c * b - c * a;
  }

  /** Multiplying by two non-negative factors keeps an inequality. */
  lemma MulMonotone(x: real, y: real, u: real, v: real)
    requires x <= y && u >= 0.0 && v >= 0.0
    ensures x * u * v <= y * u * v
  {
    assert (y - x) * u >= 0.0;
    assert (y - x) * u * v >= 0.0;
  }

  /** Dividing by a larger positive number gives a smaller quotient. */
  lemma DivAntitone(p: real, x: real, y: real)
    requires p >= 0.0 && 0.0 < x <= y
    ensures p / y <= p / x
  {
    var a := p / y;
    assert a * y == p;
    MulLeft(a, x, y);
    assert p / x * x == p;
    DivBounds(p, x, a, p / x);
  }

  /** A share of a positive whole, as a percentage, reaches 100 exactly when
    * the part reaches the whole. */
  lemma DivAtLeastOne(part: real, whole: real)
    requires whole > 0.0
    ensures part / whole * 100.0 >= 100.0 <==> part >= whole
  {
    var q := part / whole;
    assert q * whole == part;
    if q >= 1.0 {
      MulLeft(whole, 1.0, q);
    } else {
      MulLeft(whole, q, 1.0);
    }
  }

  /** Dividing by the same positive number keeps the order of the dividends. */
  lemma DivAntitoneNumerator(x: real, y: real, d: real)
    requires 0.0 <= x <= y && d > 0.0
    ensures 0.0 <= x / d <= y / d
  {
    DivBounds(x, d, 0.0, y / d);
    assert y / d * d == y;
  }

  // ---------------------------------------------------------------------
  // Progress bars of timed projects

  /** The share of the duration elapsed since the start, as a percentage
    * capped at 100. */
  function ElapsedPercent(startDay: int, durationDays: int, today: int): (r: real)
    requires durationDays > 0
    ensures r <= 100.0
    ensures today >= startDay ==> r >= 0.0
  {
    Min(100.0, (today - startDay) as real / durationDays as real * 100.0)
  }

  /** Whole days left, rounded up and never negative. */
  function DaysLeft(days: real): (r: int)
    ensures r >= 0
    ensures days <= 0.0 ==> r == 0
    ensures days > 0.0 ==> r >= 1
  {
    var left := Ceil(days);
    if left >= 0 then left else 0
  }

  /** The bar is full exactly when no whole day is left, which is exactly
    * when the end day has been reached. */
  lemma FullWhenNoDaysLeft(startDay: int, durationDays: int, today: int)
    requires durationDays > 0
    ensures ElapsedPercent(startDay, durationDays, today) == 100.0 <==> today >= startDay + durationDays
    ensures DaysLeft((startDay + durationDays - today) as real) == 0 <==> today >= startDay + durationDays
  {
    DivAtLeastOne((today - startDay) as real, durationDays as real);
  }
}
