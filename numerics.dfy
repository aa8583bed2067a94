/** The integer and scalar arithmetic the engines share: `Mathf.Clamp`,
    `Mathf.RoundToInt`, the truncating division that sizes a dispatch grid, the
    iteration-budget key and the zoom step. Doubles and floats are exact reals
    here; their rounding is not modelled. */
module Numerics {

  /** Distance between two integers. */
  function Dist(a: int, b: int): nat {
    if a < b then b - a else a - b
  }

  /** `Mathf.Clamp(value, min, max)` on ints: the point of [min, max] nearest
      to `value`. */
  function Clamp(value: int, min: int, max: int): (r: int)
    requires min <= max
    ensures min <= r <= max
    ensures min <= value <= max ==> r == value
    ensures forall y :: min <= y <= max ==> Dist(r, value) <= Dist(y, value)
  {
    if value < min then min else if value > max then max else value
  }

  /** `Mathf.RoundToInt`, that is `(int)Math.Round(x)`: the nearest integer,
      and the even one of the two when `x` lies exactly half-way. */
  function RoundToInt(x: real): (r: int)
    ensures x - 0.5 <= r as real <= x + 0.5
    ensures (r as real - x == 0.5 || x - r as real == 0.5) ==> r % 2 == 0
  {
    var f := x.Floor;
    var frac := x - f as real;
    if frac < 0.5 then f
    else if frac > 0.5 then f + 1
    else if f % 2 == 0 then f
    else f + 1
  }

  /** Rounding an integer gives it back. */
  lemma RoundToIntOfInteger(n: int)
    ensures RoundToInt(n as real) == n
  {
  }

  /** Rounding never reverses the order of two values. */
  lemma RoundToIntMonotone(x: real, y: real)
    requires x <= y
    ensures RoundToInt(x) <= RoundToInt(y)
  {
  }

  /** Number of thread groups along one axis: C#'s integer division
      `size / groupSize`, which truncates. The groups cover at most `size`
      pixels and leave fewer than `groupSize` of them uncovered. */
  function GroupsFor(size: nat, groupSize: nat): (groups: nat)
    requires groupSize > 0
    ensures groupSize * groups <= size < groupSize * (groups + 1)
  {
    size / groupSize
  }

  /** The grids the engines launch for a 1920x1080 target: 8x8 groups
      (Newton) give (240, 135), which tiles the target exactly; 32x32 groups
      (Julia, Mandelbrot) give (60, 33), which leaves the top 24 rows
      undispatched, where ceiling division would have given 34. */
  lemma FullHdGrids()
    ensures GroupsFor(1920, 8) == 240 && GroupsFor(1080, 8) == 135
    ensures 8 * GroupsFor(1920, 8) == 1920 && 8 * GroupsFor(1080, 8) == 1080
    ensures GroupsFor(1920, 32) == 60 && GroupsFor(1080, 32) == 33
    ensures 1080 - 32 * GroupsFor(1080, 32) == 24
  {
  }

  /** The iteration budget after one frame with an adjust key held
      (`Julia_01.IterationPerGroup`, `FractalNewton.MaxIterations`): `value`
      is the key's sign, the rate is 100 per second with Shift and 400
      without, and the result is rounded and clamped to [1, 256]. */
  function AdjustedIterations(current: int, value: int, shiftHeld: bool, deltaTime: real): (r: int)
    ensures 1 <= r <= 256
  {
    Clamp(RoundToInt(UnroundedIterations(current, value, shiftHeld, deltaTime)), 1, 256)
  }

  /** The float `newValue` of an adjust key, before rounding and clamping. */
  function UnroundedIterations(current: int, value: int, shiftHeld: bool, deltaTime: real): real {
    current as real + IterationRate(value, shiftHeld) as real * deltaTime
  }

  /** Budget change per second for an adjust key: `value * modifier * 100`,
      with the modifier 1 under Shift and 4 otherwise. It has the key's sign. */
  function IterationRate(value: int, shiftHeld: bool): (rate: int)
    ensures value >= 0 ==> rate >= 0
    ensures value <= 0 ==> rate <= 0
    ensures shiftHeld ==> rate == 100 * value
    ensures !shiftHeld ==> rate == 400 * value
  {
    value * (if shiftHeld then 1 else 4) * 100
  }

  /** The sign of one frame's budget change is the sign of the key. */
  lemma StepSign(rate: real, deltaTime: real)
    requires deltaTime >= 0.0
    ensures rate >= 0.0 ==> rate * deltaTime >= 0.0
    ensures rate <= 0.0 ==> rate * deltaTime <= 0.0
  {
    if rate <= 0.0 {
      assert (0.0 - rate) * deltaTime >= 0.0;
    }
  }

  /** Before rounding, the budget moves in the key's direction, and not at
      all in a zero-length frame. */
  lemma UnroundedDirection(current: int, value: int, shiftHeld: bool, deltaTime: real)
    requires deltaTime >= 0.0
    ensures value >= 0 ==> UnroundedIterations(current, value, shiftHeld, deltaTime) >= current as real
    ensures value <= 0 ==> UnroundedIterations(current, value, shiftHeld, deltaTime) <= current as real
    ensures deltaTime == 0.0 ==> UnroundedIterations(current, value, shiftHeld, deltaTime) == current as real
  {
    StepSign(IterationRate(value, shiftHeld) as real, deltaTime);
  }

  /** Rounding and clamping keep an in-range budget on the side of the
      unrounded value it lies on. */
  lemma RoundedClampedOrder(current: int, x: real)
    requires 1 <= current <= 256
    ensures current as real <= x ==> Clamp(RoundToInt(x), 1, 256) >= current
    ensures x <= current as real ==> Clamp(RoundToInt(x), 1, 256) <= current
  {
    RoundToIntOfInteger(current);
    if current as real <= x {
      RoundToIntMonotone(current as real, x);
    }
    if x <= current as real {
      RoundToIntMonotone(x, current as real);
    }
  }

  /** The up key never lowers an in-range budget and the down key never
      raises it; a frame of zero length changes nothing. */
  lemma AdjustedIterationsDirection(current: int, value: int, shiftHeld: bool, deltaTime: real)
    requires 1 <= current <= 256 && deltaTime >= 0.0
    ensures value >= 0 ==> AdjustedIterations(current, value, shiftHeld, deltaTime) >= current
    ensures value <= 0 ==> AdjustedIterations(current, value, shiftHeld, deltaTime) <= current
    ensures deltaTime == 0.0 ==> AdjustedIterations(current, value, shiftHeld, deltaTime) == current
  {
    UnroundedDirection(current, value, shiftHeld, deltaTime);
    RoundedClampedOrder(current, UnroundedIterations(current, value, shiftHeld, deltaTime));
  }

  /** A product of non-negative speeds, sizes and times is non-negative. */
  lemma ProductNonNegative(a: real, b: real)
    ensures a >= 0.0 && b >= 0.0 ==> a * b >= 0.0
  {
  }

  /** `pixel_size` after one `Zoom(direction)` call: it changes by the
      fraction `rate` of itself (`rate` is the frame time times the zoom
      speed), so zooming is exponential. */
  function ZoomStep(pixelSize: real, direction: int, rate: real): (r: real)
    ensures r == pixelSize * (1.0 + direction as real * rate)
    ensures direction == 0 || rate == 0.0 ==> r == pixelSize
  {
    pixelSize + direction as real * pixelSize * rate
  }

  /** Fraction of `pixel_size` one `Zoom` call of `Julia_01` or
      `FractalNewton` adds or removes: 4 per second, 0.15 of that with Shift. */
  function ZoomRate(shiftHeld: bool, deltaTime: real): (r: real)
    ensures deltaTime >= 0.0 ==> 0.0 <= r <= 4.0 * deltaTime
    ensures !shiftHeld ==> (r < 1.0 <==> deltaTime < 0.25)
    ensures shiftHeld ==> (r < 1.0 <==> deltaTime * 0.6 < 1.0)
  {
    deltaTime * 4.0 * (if shiftHeld then 0.15 else 1.0)
  }

  /** Zooming scales `pixel_size` by `1 + direction * rate`, so a positive
      `pixel_size` stays positive exactly when that factor is positive; the
      source enforces no lower bound. */
  lemma ZoomStepSign(pixelSize: real, direction: int, rate: real)
    requires pixelSize > 0.0
    ensures ZoomStep(pixelSize, direction, rate) == pixelSize * (1.0 + direction as real * rate)
    ensures ZoomStep(pixelSize, direction, rate) > 0.0 <==> 1.0 + direction as real * rate > 0.0
  {
    var f := 1.0 + direction as real * rate;
    assert ZoomStep(pixelSize, direction, rate) == pixelSize * f;
    if f > 0.0 {
      assert pixelSize * f > 0.0;
    } else {
      assert pixelSize * f <= 0.0 by {
        assert pixelSize * (0.0 - f) >= 0.0;
      }
    }
  }
}
