// Decimal helpers. A Decimal is an exact real here; the 34-digit context is not modelled.
module Money {

  function Min(a: real, b: real): real { if a <= b then a else b }

  function Max(a: real, b: real): real { if a >= b then a else b }

  function Abs(a: real): real { if a >= 0.0 then a else -a }

  function Clamp(value: real, lo: real, hi: real): real { Max(lo, Min(hi, value)) }

  function Sum(xs: seq<real>): real { if xs == [] then 0.0 else xs[0] + Sum(xs[1..]) }

  /** `part` as a percentage of `whole`, 0 when `whole` is 0. */
  function Pct(part: real, whole: real): real {
    if whole == 0.0 then 0.0 else part / whole * 100.0
  }

  /** `percent` percent of `value`. */
  function PctOf(value: real, percent: real): real { value * percent / 100.0 }

  /** `x` times a multiplier. */
  function Scaled(x: real, m: real): real { x * m }

  /** Rounding toward zero, as `int()` and ROUND_DOWN do. */
  function Truncate(x: real): int {
    if x >= 0.0 then x.Floor else -((-x).Floor)
  }

  /** Rounds toward zero to a multiple of the exchange step; a step <= 0 leaves the value alone. */
  function FloorToStep(value: real, step: real): real {
    if step <= 0.0 then value else Truncate(value / step) as real * step
  }

  // --- nonlinear facts, one product at a time -------------------------------------------

  lemma MulMono(a: real, b: real, c: real)
    requires a <= b && 0.0 <= c
    ensures a * c <= b * c
  {
  }

  lemma MulStrict(a: real, b: real, c: real)
    requires a < b && 0.0 < c
    ensures a * c < b * c
  {
    assert (b - a) * c > 0.0;
  }

  lemma Distribute(a: real, b: real, c: real)
    ensures (a + b) * c == a * c + b * c
  {
  }

  lemma MulNonNeg(a: real, b: real)
    requires 0.0 <= a && 0.0 <= b
    ensures 0.0 <= a * b
  {
  }

  lemma DivMono(a: real, b: real, c: real)
    requires a <= b && 0.0 < c
    ensures a / c <= b / c
  {
    assert b / c - a / c == (b - a) / c;
  }

  lemma DivCross(a: real, b: real, c: real, d: real)
    requires 0.0 < b && 0.0 < d
    ensures a / b <= c / d <==> a * d <= c * b
  {
    var x, y := a / b, c / d;
    assert x * b == a && y * d == c;
    assert a * d == x * (b * d) by { assert a * d == x * b * d; }
    assert c * b == y * (b * d) by { assert c * b == y * d * b; }
    assert b * d > 0.0;
    if x <= y { MulMono(x, y, b * d); }
    else { assert (x - y) * (b * d) > 0.0; }
  }

  lemma ScaledCompare(a: real, b: real, c: real)
    requires c > 0.0
    ensures a <= b <==> a * c <= b * c
    ensures a == b <==> a * c == b * c
  {
    if a < b { MulStrict(a, b, c); } else if b < a { MulStrict(b, a, c); }
  }

  lemma ScaledZero(m: real)
    ensures Scaled(0.0, m) == 0.0
  {
  }

  lemma ScaledBack(a: real, m: real)
    requires m > 0.0
    ensures Scaled(a / m, m) == a
  {
  }

  lemma ScaledSum(a: real, b: real, m: real)
    ensures Scaled(a + b, m) == Scaled(a, m) + Scaled(b, m)
    ensures Scaled(a - b, m) == Scaled(a, m) - Scaled(b, m)
  {
  }

  lemma ScaledOrder(a: real, b: real, m: real)
    requires m > 0.0
    ensures a <= b <==> Scaled(a, m) <= Scaled(b, m)
  {
    ScaledCompare(a, b, m);
  }

  lemma StepGap(value: real, step: real, ratio: real, k: real)
    requires step > 0.0 && ratio * step == value
    requires 0.0 <= k <= ratio < k + 1.0
    ensures 0.0 <= k * step <= value < (k + 1.0) * step
  {
    MulNonNeg(k, step);
    MulMono(k, ratio, step);
    MulStrict(ratio, k + 1.0, step);
  }

  /** Rounding to a step gives a whole number of steps, the most that fit. */
  lemma FloorToStepGrid(value: real, step: real) returns (k: nat)
    requires value >= 0.0 && step > 0.0
    ensures FloorToStep(value, step) == k as real * step <= value < (k + 1) as real * step
  {
    var ratio := value / step;
    assert ratio >= 0.0;
    k := Truncate(ratio);
    StepGap(value, step, ratio, k as real);
  }

  /** No larger multiple of the step fits. */
  lemma FloorToStepLargest(value: real, step: real, j: nat)
    requires value >= 0.0 && step > 0.0 && j as real * step <= value
    ensures j as real * step <= FloorToStep(value, step)
  {
    hide FloorToStep;
    var k := FloorToStepGrid(value, step);
    assert j as real <= k as real || (k + 1) as real <= j as real by { assert j <= k || k + 1 <= j; }
    GridOrder(j as real, k as real, (k + 1) as real, step, value, FloorToStep(value, step));
  }

  /** Of whole multiples, one that fits is at most the last that does. */
  lemma GridOrder(a: real, b: real, next: real, step: real, value: real, floor: real)
    requires step > 0.0 && floor == b * step && a * step <= value < next * step && (a <= b || next <= a)
    ensures a * step <= floor
  {
    if a <= b { MulMono(a, b, step); } else { MulMono(next, a, step); }
  }

  /** Rounding a size down never enlarges it and loses less than one step. */
  lemma FloorToStepBelow(value: real, step: real)
    requires value >= 0.0
    ensures 0.0 <= FloorToStep(value, step) <= value
    ensures step > 0.0 ==> value - FloorToStep(value, step) < step
  {
    if step > 0.0 {
      var k := FloorToStepGrid(value, step);
      Distribute(k as real, 1.0, step);
    }
  }

  lemma PctMono(x: real, y: real, whole: real)
    requires x <= y && whole > 0.0
    ensures Pct(x, whole) <= Pct(y, whole)
  {
    DivMono(x, y, whole);
  }
}
