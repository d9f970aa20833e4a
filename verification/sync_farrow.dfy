// The interpolation polynomials of the synchronizer: the Lagrange form of the scalar backend
// and the Farrow form of the vector backend, prepared from a speculated stencil.
module SyncFarrow {
  import opened ComplexNumbers
  import opened IfftTransform
  import opened SyncLoop

  // Coefficients of powers of mu = position - base, and the sample index they are centred on.
  datatype Farrow = Farrow(x1: Complex, v1: Complex, v2: Complex, v3: Complex, base: int)

  function Polynomial(cubic: bool, s: Stencil, base: int): Farrow
  {
    if cubic then
      Farrow(s.x1,
             Add(Scale(-1.0 / 6.0, s.x3), Add(Scale(-1.0 / 3.0, s.x0), Add(Scale(-0.5, s.x1), s.x2))),
             Sub(Scale(0.5, Add(s.x0, s.x2)), s.x1),
             Add(Scale(0.5, Sub(s.x1, s.x2)), Scale(1.0 / 6.0, Sub(s.x3, s.x0))),
             base)
    else
      Farrow(s.x1, Sub(s.x2, s.x1), ZERO, ZERO, base)
  }

  function Evaluate(cubic: bool, f: Farrow, mu: real): Complex
  {
    if cubic then Add(Scale(mu, Add(Scale(mu, Add(Scale(mu, f.v3), f.v2)), f.v1)), f.x1)
    else Add(Scale(mu, f.v1), f.x1)
  }

  // ---- The two forms are the same polynomial ----

  // Expanded weights of the four samples.
  lemma ExpandedWeights(mu: real)
    ensures
      var w, m2, m3 := Weights(mu), mu * mu, mu * mu * mu;
      && w.0 == -(1.0 / 6.0) * m3 + 0.5 * m2 - (1.0 / 3.0) * mu
      && w.1 == 0.5 * m3 - m2 - 0.5 * mu + 1.0
      && w.2 == -0.5 * m3 + 0.5 * m2 + mu
      && w.3 == (1.0 / 6.0) * m3 - (1.0 / 6.0) * mu
  {
    var m2, m3 := mu * mu, mu * mu * mu;
    var a, b, c := mu - 1.0, mu - 2.0, mu + 1.0;
    assert a * b == m2 - 3.0 * mu + 2.0;
    assert c * mu == m2 + mu;
    var ab, cm := a * b, c * mu;
    assert mu * ab == m3 - 3.0 * m2 + 2.0 * mu by { assert mu * (m2 - 3.0 * mu + 2.0) == mu * m2 - 3.0 * m2 + 2.0 * mu; }
    assert (mu * (-1.0 / 6.0)) * ab == (-1.0 / 6.0) * (mu * ab);
    assert c * ab == m3 - 2.0 * m2 - mu + 2.0 by { assert c * ab == mu * ab + ab; }
    assert (c * 0.5) * ab == 0.5 * (c * ab);
    assert cm * b == m3 - m2 - 2.0 * mu by { assert cm * b == m2 * b + mu * b; assert m2 * b == m3 - 2.0 * m2; }
    assert cm * (b * -0.5) == -0.5 * (cm * b);
    assert cm * a == m3 - mu by { assert cm * a == m2 * a + mu * a; assert m2 * a == m3 - m2; }
    assert cm * (a * (1.0 / 6.0)) == (1.0 / 6.0) * (cm * a);
  }

  function Weighted(w: (real, real, real, real), x0: real, x1: real, x2: real, x3: real): real
  {
    (w.1 * x1 + w.0 * x0) + (w.3 * x3 + w.2 * x2)
  }

  lemma HornerIsWeighted(x0: real, x1: real, x2: real, x3: real, mu: real)
    ensures
      var v1 := (-1.0 / 6.0) * x3 + ((-1.0 / 3.0) * x0 + (-0.5 * x1 + x2));
      var v2 := 0.5 * (x0 + x2) - x1;
      var v3 := 0.5 * (x1 - x2) + (1.0 / 6.0) * (x3 - x0);
      mu * (mu * (mu * v3 + v2) + v1) + x1 == Weighted(Weights(mu), x0, x1, x2, x3)
  {
    hide Weights;
    ExpandedWeights(mu);
    var w, m2, m3 := Weights(mu), mu * mu, mu * mu * mu;
    var v1 := (-1.0 / 6.0) * x3 + ((-1.0 / 3.0) * x0 + (-0.5 * x1 + x2));
    var v2 := 0.5 * (x0 + x2) - x1;
    var v3 := 0.5 * (x1 - x2) + (1.0 / 6.0) * (x3 - x0);
    HornerExpands(v1, v2, v3, mu);
    ProductOfSum(m3, m2, mu, x0, x1, x2, x3);
    assert w.0 * x0 == -(1.0 / 6.0) * (m3 * x0) + 0.5 * (m2 * x0) - (1.0 / 3.0) * (mu * x0);
    assert w.1 * x1 == 0.5 * (m3 * x1) - m2 * x1 - 0.5 * (mu * x1) + x1;
    assert w.2 * x2 == -0.5 * (m3 * x2) + 0.5 * (m2 * x2) + mu * x2;
    assert w.3 * x3 == (1.0 / 6.0) * (m3 * x3) - (1.0 / 6.0) * (mu * x3);
  }

  lemma HornerExpands(v1: real, v2: real, v3: real, mu: real)
    ensures mu * (mu * (mu * v3 + v2) + v1) == mu * mu * mu * v3 + mu * mu * v2 + mu * v1
  {
    assert mu * (mu * v3 + v2) == mu * mu * v3 + mu * v2;
    assert mu * (mu * mu * v3 + mu * v2 + v1) == mu * (mu * mu * v3) + mu * (mu * v2) + mu * v1;
  }

  lemma ProductOfSum(m3: real, m2: real, mu: real, x0: real, x1: real, x2: real, x3: real)
    ensures m3 * (0.5 * (x1 - x2) + (1.0 / 6.0) * (x3 - x0)) ==
            0.5 * (m3 * x1) - 0.5 * (m3 * x2) + (1.0 / 6.0) * (m3 * x3) - (1.0 / 6.0) * (m3 * x0)
    ensures m2 * (0.5 * (x0 + x2) - x1) == 0.5 * (m2 * x0) + 0.5 * (m2 * x2) - m2 * x1
    ensures mu * ((-1.0 / 6.0) * x3 + ((-1.0 / 3.0) * x0 + (-0.5 * x1 + x2))) ==
            -(1.0 / 6.0) * (mu * x3) - (1.0 / 3.0) * (mu * x0) - 0.5 * (mu * x1) + mu * x2
  {
  }

  // Main result: evaluating the prepared coefficients is interpolating the stencil.
  lemma FarrowIsInterpolant(cubic: bool, s: Stencil, base: int, mu: real)
    ensures Evaluate(cubic, Polynomial(cubic, s, base), mu) == Interpolate(cubic, s, mu)
  {
    hide Weights;
    if cubic {
      HornerIsWeighted(s.x0.re, s.x1.re, s.x2.re, s.x3.re, mu);
      HornerIsWeighted(s.x0.im, s.x1.im, s.x2.im, s.x3.im, mu);
    } else {
      assert mu * (s.x2.re - s.x1.re) + s.x1.re == mu * s.x2.re + (1.0 - mu) * s.x1.re;
      assert mu * (s.x2.im - s.x1.im) + s.x1.im == mu * s.x2.im + (1.0 - mu) * s.x1.im;
    }
  }

  // The cubic interpolant is exact on polynomials up to degree three: it returns the value
  // between the samples, and the samples themselves at mu = 0 and mu = 1.
  function Cubic(k0: real, k1: real, k2: real, k3: real, t: real): real { k0 + k1 * t + k2 * (t * t) + k3 * (t * t * t) }

  lemma CubicIsExact(k0: real, k1: real, k2: real, k3: real, mu: real)
    ensures Weighted(Weights(mu), Cubic(k0, k1, k2, k3, -1.0), Cubic(k0, k1, k2, k3, 0.0), Cubic(k0, k1, k2, k3, 1.0), Cubic(k0, k1, k2, k3, 2.0)) ==
            Cubic(k0, k1, k2, k3, mu)
  {
    hide Weights;
    ExpandedWeights(mu);
    var w, m2, m3 := Weights(mu), mu * mu, mu * mu * mu;
    WeightedSum(w, k0, k1, k2, k3);
    assert w.0 + w.1 + w.2 + w.3 == 1.0 && -w.0 + w.2 + 2.0 * w.3 == mu;
    assert w.0 + w.2 + 4.0 * w.3 == m2 && -w.0 + w.2 + 8.0 * w.3 == m3;
  }

  lemma WeightedSum(w: (real, real, real, real), k0: real, k1: real, k2: real, k3: real)
    ensures Weighted(w, Cubic(k0, k1, k2, k3, -1.0), Cubic(k0, k1, k2, k3, 0.0), Cubic(k0, k1, k2, k3, 1.0), Cubic(k0, k1, k2, k3, 2.0)) ==
            k0 * (w.0 + w.1 + w.2 + w.3) + k1 * (-w.0 + w.2 + 2.0 * w.3) + k2 * (w.0 + w.2 + 4.0 * w.3) + k3 * (-w.0 + w.2 + 8.0 * w.3)
  {
    assert Cubic(k0, k1, k2, k3, -1.0) == k0 - k1 + k2 - k3;
    assert Cubic(k0, k1, k2, k3, 0.0) == k0;
    assert Cubic(k0, k1, k2, k3, 1.0) == k0 + k1 + k2 + k3;
    assert Cubic(k0, k1, k2, k3, 2.0) == k0 + 2.0 * k1 + 4.0 * k2 + 8.0 * k3;
  }

  // A polynomial's values at the four samples around a position, with the sample below it as
  // the origin.
  ghost predicate SamplesOf(x: seq<Complex>, origin: int, re: (real, real, real, real), im: (real, real, real, real))
  {
    && At(x, origin - 1) == CubicAt(re, im, -1.0) && At(x, origin) == CubicAt(re, im, 0.0)
    && At(x, origin + 1) == CubicAt(re, im, 1.0) && At(x, origin + 2) == CubicAt(re, im, 2.0)
  }

  function CubicAt(re: (real, real, real, real), im: (real, real, real, real), t: real): Complex
  {
    Complex(Cubic(re.0, re.1, re.2, re.3, t), Cubic(im.0, im.1, im.2, im.3, t))
  }

  // Main result: where the samples follow a cubic, the interpolated stream is that cubic; with
  // the linear interpolator, where they follow a straight line.
  lemma StreamFollowsCubic(cubic: bool, x: seq<Complex>, t: real, re: (real, real, real, real), im: (real, real, real, real))
    requires SamplesOf(x, t.Floor, re, im) && (cubic || re.2 == re.3 == im.2 == im.3 == 0.0)
    ensures StreamValue(cubic, x, t) == CubicAt(re, im, t - t.Floor as real)
  {
    hide Weights, At, Cubic;
    var mu := t - t.Floor as real;
    if cubic {
      CubicIsExact(re.0, re.1, re.2, re.3, mu);
      CubicIsExact(im.0, im.1, im.2, im.3, mu);
    } else {
      StraightLine(re.0, re.1, mu);
      StraightLine(im.0, im.1, mu);
    }
  }

  lemma StraightLine(k0: real, k1: real, mu: real)
    ensures mu * Cubic(k0, k1, 0.0, 0.0, 1.0) + (1.0 - mu) * Cubic(k0, k1, 0.0, 0.0, 0.0) == Cubic(k0, k1, 0.0, 0.0, mu)
  {
  }

  // ---- Stencils loaded ahead ----

  // A stencil centred on a sample whose neighbours are all in the data.
  predicate Centred(data: seq<Complex>, index: int) { 1 <= index && index + 2 < |data| }

  function StencilAround(data: seq<Complex>, index: int): Stencil
    requires Centred(data, index)
  {
    Stencil(data[index - 1], data[index], data[index + 1], data[index + 2])
  }

  // The vector backend loads without clamping; the position must lie inside the data.
  function LoadFarrow(cubic: bool, data: seq<Complex>, position: real): Farrow
    requires Centred(data, TruncateToInt32(position))
  {
    var index := TruncateToInt32(position);
    Polynomial(cubic, StencilAround(data, index), index)
  }

  function UnclampedValue(cubic: bool, data: seq<Complex>, position: real): Complex
    requires Centred(data, TruncateToInt32(position))
  {
    Interpolate(cubic, StencilAround(data, TruncateToInt32(position)), Fraction(position))
  }

  lemma UnclampedIsClamped(cubic: bool, data: seq<Complex>, position: real)
    requires Centred(data, TruncateToInt32(position))
    ensures UnclampedValue(cubic, data, position) == DataValue(cubic, data, position)
  {
    hide TruncateToInt32, Interpolate;
  }

  // Coefficients that belong to some stencil of the data.
  predicate Loaded(cubic: bool, data: seq<Complex>, f: Farrow)
  {
    Centred(data, f.base) && f == Polynomial(cubic, StencilAround(data, f.base), f.base)
  }

  // Main result: a speculated stencil serves a position whenever mu lies in [0, 1).
  lemma SpeculationHolds(cubic: bool, data: seq<Complex>, f: Farrow, position: real)
    requires |data| < 0x8000_0000 && Loaded(cubic, data, f) && 0.0 <= position - f.base as real < 1.0
    ensures Evaluate(cubic, f, position - f.base as real) == DataValue(cubic, data, position)
  {
    hide Evaluate, Polynomial, Interpolate;
    assert position.Floor == f.base && TruncateToInt32(position) == f.base;
    FarrowIsInterpolant(cubic, StencilAround(data, f.base), f.base, position - f.base as real);
  }
}
