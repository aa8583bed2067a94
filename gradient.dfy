/** Which gradient position each texel of a lookup texture is sampled at.
    Julia_01 and Mandelbrot_02 fill an `iterationsPerGroup`-wide lookup;
    FractalNewton fills a fixed 256-wide one. */
module Gradient {

  /** Position sampled for texel `i` of an `n`-wide Julia/Mandelbrot lookup.
      The source computes `percent = i / (n - 1)` in floats and samples at
      `percent` when `percent > 0`, else at 1. For `i == 0` the percent is 0
      (or NaN, when `n == 1`), neither of which is positive, so texel 0 is
      always sampled at the top of the gradient. */
  function GroupSample(i: int, n: int): (t: real)
    requires 0 <= i < n
    ensures 0.0 < t <= 1.0
    ensures i == 0 ==> t == 1.0
    ensures i > 0 ==> t * (n - 1) as real == i as real
  {
    if i > 0 then i as real / (n - 1) as real else 1.0
  }

  /** The whole `n`-wide Julia/Mandelbrot lookup. */
  ghost function GroupLut(n: nat): seq<real> {
    seq(n, i requires 0 <= i < n => GroupSample(i, n))
  }

  /** Samples at `i / (n - 1)` rise strictly with `i`. */
  lemma SampleQuotientIncreasing(i: int, j: int, d: int)
    requires 0 < i < j && d > 0
    ensures i as real / d as real < j as real / d as real
  {
    var ti, tj := i as real / d as real, j as real / d as real;
    assert ti * d as real == i as real;
    assert tj * d as real == j as real;
    assert (tj - ti) * d as real > 0.0;
  }

  /** The last texel of a lookup at least two wide is sampled at t = 1. */
  lemma LastGroupSample(n: int)
    requires n > 1
    ensures GroupSample(n - 1, n) == 1.0
  {
    var d := (n - 1) as real;
    assert d / d == 1.0;
  }

  /** An `n`-wide Julia/Mandelbrot lookup has `n` texels, all in (0, 1];
      texel 0 and texel n-1 are both sampled at t = 1, and the texels from 1
      on rise strictly, so texel 0 repeats the colour of the last one. */
  lemma {:induction false} GroupLutShape(n: nat)
    requires n >= 1
    ensures |GroupLut(n)| == n
    ensures forall i :: 0 <= i < n ==> 0.0 < GroupLut(n)[i] <= 1.0
    ensures GroupLut(n)[0] == 1.0 && GroupLut(n)[n - 1] == 1.0
    ensures forall i, j :: 0 < i < j < n ==> GroupLut(n)[i] < GroupLut(n)[j]
  {
    var lut := GroupLut(n);
    assert forall i :: 0 <= i < n ==> lut[i] == GroupSample(i, n);
    if n > 1 {
      LastGroupSample(n);
    }
    forall i, j | 0 < i < j < n
      ensures lut[i] < lut[j]
    {
      SampleQuotientIncreasing(i, j, n - 1);
    }
  }

  /** Position sampled for texel `i` of the Newton lookup: `i / 255`. */
  function NewtonSample(i: int): (t: real)
    requires 0 <= i < 256
    ensures 0.0 <= t <= 1.0
    ensures t * 255.0 == i as real
  {
    i as real / 255.0
  }

  /** The 256-wide Newton lookup. */
  ghost function NewtonLut(): seq<real> {
    seq(256, i requires 0 <= i < 256 => NewtonSample(i))
  }

  /** The Newton lookup has 256 texels running strictly upwards from t = 0 at
      texel 0 to t = 1 at texel 255, so it spans the whole gradient. */
  lemma NewtonLutShape()
    ensures |NewtonLut()| == 256
    ensures NewtonLut()[0] == 0.0 && NewtonLut()[255] == 1.0
    ensures forall i, j :: 0 <= i < j < 256 ==> NewtonLut()[i] < NewtonLut()[j]
  {
    var lut := NewtonLut();
    forall i, j | 0 <= i < j < 256
      ensures lut[i] < lut[j]
    {
      assert lut[i] * 255.0 == i as real && lut[j] * 255.0 == j as real;
    }
  }
}
