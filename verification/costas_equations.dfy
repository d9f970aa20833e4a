// What the parts of a Costas lane mean: oscillator, detector, bounds, small steps and
// normalisation by laws of their own, the loop equations of a sample, and those of a run.
module CostasEquations {
  import opened ComplexNumbers
  import opened CostasLoop
  import opened CostasRotation

  // ---- Oscillator and detector ----

  // The scaled sample turned back by the oscillator's phase.
  lemma DerotatedIsConjugate(lane: Lane, gain: real, x: Complex)
    ensures Derotated(lane, gain, x) == Mul(Scale(gain, x), Conjugate(Complex(lane.cos, lane.sin)))
  {
    assert gain * x.re == x.re * gain && gain * x.im == x.im * gain;
  }

  // Scaling a sample scales the error.
  lemma DetectedScales(r: real, y: Complex)
    requires r > 0.0
    ensures Detected(Scale(r, y)) == r * Detected(y)
  {
    SignScales(r, y.re);
    SignScales(r, y.im);
    assert Sign(y.re) * (r * y.im) == r * (Sign(y.re) * y.im);
    assert Sign(y.im) * (r * y.re) == r * (Sign(y.im) * y.re);
    assert r * (Sign(y.re) * y.im - Sign(y.im) * y.re) == r * (Sign(y.re) * y.im) - r * (Sign(y.im) * y.re);
  }

  lemma SignScales(r: real, v: real)
    requires r > 0.0
    ensures Sign(r * v) == Sign(v)
  {
    if v >= 0.0 {
      NonNegative(r, v);
    } else {
      assert r * -v > 0.0;
    }
  }

  // Any of the four symbols, turned by less than an eighth: the error is twice the sine of the
  // turn, scaled by the amplitude, whichever symbol it was.
  lemma DetectorSlope(right: bool, up: bool, amplitude: real, c: real, s: real)
    requires amplitude > 0.0 && -c < s < c
    ensures
      var symbol := Complex(if right then 1.0 else -1.0, if up then 1.0 else -1.0);
      Detected(Scale(amplitude, Mul(symbol, Complex(c, s)))) == amplitude * (2.0 * s)
  {
    var symbol := Complex(if right then 1.0 else -1.0, if up then 1.0 else -1.0);
    var y := Mul(symbol, Complex(c, s));
    assert Detected(y) == 2.0 * s;
    DetectedScales(amplitude, y);
  }

  // Zero counts as positive.
  lemma DetectedOnAxis(v: real)
    ensures Detected(Complex(0.0, v)) == v && Detected(Complex(v, 0.0)) == -v
  {
  }

  // ---- Bounds ----

  // The value within a bound that is nearest to a given one; a bound of zero is none.
  lemma ClampedIsNearest(value: real, bound: real, other: real)
    requires bound >= 0.0
    ensures bound == 0.0 ==> Clamped(value, bound) == value
    ensures bound > 0.0 ==> -bound <= Clamped(value, bound) <= bound
    ensures -bound <= other <= bound && bound > 0.0 ==> Abs(value - Clamped(value, bound)) <= Abs(value - other)
  {
  }

  // ---- Small steps ----

  function Excess(u: real): real
  {
    var u3 := u * u * u;
    u3 / 360.0 - u3 * u / 960.0 + u3 * u * u / 14400.0
  }

  // How far the polynomials are from the unit circle, exactly.
  lemma PolynomialPhasor(delta: real)
    ensures
      var u := delta * delta;
      SmallCos(delta) * SmallCos(delta) + SmallSin(delta) * SmallSin(delta) == 1.0 + Excess(u)
  {
    var u := delta * delta;
    var g := 1.0 + u * (u / 120.0 - 1.0 / 6.0);
    FactorDelta(delta, u, u / 120.0 - 1.0 / 6.0);
    assert SmallSin(delta) == delta * g;
    assert (delta * g) * (delta * g) == u * (g * g);
    PolynomialSquares(u);
  }

  lemma FactorDelta(delta: real, u: real, q: real)
    ensures (delta * u) * q + delta == delta * (1.0 + u * q)
  {
  }

  lemma PolynomialSquares(u: real)
    ensures
      var g, c := 1.0 + u * (u / 120.0 - 1.0 / 6.0), u * (u * (1.0 / 24.0) - 0.5) + 1.0;
      c * c + u * (g * g) == 1.0 + Excess(u)
  {
    var u2 := u * u;
    var g, c := 1.0 - u / 6.0 + u2 / 120.0, 1.0 - u / 2.0 + u2 / 24.0;
    assert g == 1.0 + u * (u / 120.0 - 1.0 / 6.0) && c == u * (u * (1.0 / 24.0) - 0.5) + 1.0;
    assert g * g == 1.0 - u / 3.0 + u2 * (2.0 / 45.0) - u * u2 / 360.0 + u2 * u2 / 14400.0;
    assert c * c == 1.0 - u + u2 / 3.0 - u * u2 / 24.0 + u2 * u2 / 576.0;
  }

  // The phasor of a step: the library functions beyond a quarter; up to there polynomials that
  // stay within a millionth of the unit circle and within the next Taylor term.
  lemma StepPhasor(t: Trig, delta: real)
    ensures SinCos(t, delta).step == delta
    ensures delta < -0.25 || delta > 0.25 ==> SinCos(t, delta).cos == t.cos(delta) && SinCos(t, delta).sin == t.sin(delta)
    ensures -0.25 <= delta <= 0.25 ==>
      var s := SinCos(t, delta);
      && 0.0 <= Norm2(Complex(s.cos, s.sin)) - 1.0 <= 0.000001
      && 1.0 - delta * delta / 2.0 <= s.cos <= 1.0
      && Abs(s.sin - delta) <= Abs(delta) * (delta * delta) / 6.0 && s.sin * delta >= 0.0
  {
    if -0.25 <= delta <= 0.25 {
      hide SmallSin, SmallCos, Excess;
      PolynomialPhasor(delta);
      SquareBound(delta);
      ExcessBound(delta * delta);
      CosineBound(delta);
      SineBound(delta);
    }
  }

  lemma SquareBound(delta: real)
    requires -0.25 <= delta <= 0.25
    ensures 0.0 <= delta * delta <= 0.0625
  {
    NonNegative(0.25 - delta, 0.25 + delta);
    assert (0.25 - delta) * (0.25 + delta) == 0.0625 - delta * delta;
    if delta >= 0.0 {
      NonNegative(delta, delta);
    } else {
      NonNegative(-delta, -delta);
      assert -delta * -delta == delta * delta;
    }
  }

  lemma ExcessBound(u: real)
    requires 0.0 <= u <= 0.0625
    ensures 0.0 <= Excess(u) <= 0.000001
  {
    var u3 := u * u * u;
    ProductBound(u, 0.0625, u, 0.0625);
    ProductBound(u * u, 0.00390625, u, 0.0625);
    ProductBound(u3, u3, u, 0.0625);
    ProductBound(u3 * u, u3 * u, u, 0.0625);
    Parts(u3, u3 * u, u3 * u * u);
  }

  lemma Parts(u3: real, u4: real, u5: real)
    requires 0.0 <= u3 <= 0.00024415 && 0.0 <= u4 <= 0.0625 * u3 && 0.0 <= u5 <= 0.0625 * u4
    ensures 0.0 <= u3 / 360.0 - u4 / 960.0 + u5 / 14400.0 <= 0.000001
  {
  }

  lemma ProductBound(a: real, b: real, c: real, d: real)
    requires 0.0 <= a <= b && 0.0 <= c <= d
    ensures 0.0 <= a * c <= b * d
  {
    NonNegative(a, c);
    NonNegative(a, d - c);
    NonNegative(b - a, d);
    assert a * (d - c) == a * d - a * c && (b - a) * d == b * d - a * d;
  }

  lemma NonNegative(a: real, b: real)
    requires a >= 0.0 && b >= 0.0
    ensures a * b >= 0.0
  {
  }

  lemma CosineBound(delta: real)
    requires -0.25 <= delta <= 0.25
    ensures 1.0 - delta * delta / 2.0 <= SmallCos(delta) <= 1.0
  {
    SquareBound(delta);
    var u := delta * delta;
    ProductBound(u, 0.0625, u * (1.0 / 24.0), 1.0);
    ProductBound(u, 0.0625, 0.5 - u * (1.0 / 24.0), 1.0);
  }

  lemma SineBound(delta: real)
    requires -0.25 <= delta <= 0.25
    ensures Abs(SmallSin(delta) - delta) <= Abs(delta) * (delta * delta) / 6.0 && SmallSin(delta) * delta >= 0.0
  {
    SquareBound(delta);
    var u := delta * delta;
    var q := 1.0 / 6.0 - u * (1.0 / 120.0);
    SineFactor(delta, u, q, SmallSin(delta));
  }

  lemma SineFactor(delta: real, u: real, q: real, s: real)
    requires u == delta * delta && 0.0 <= u <= 1.0 && 0.0 <= q <= 1.0 / 6.0 && s == (delta * u) * -q + delta
    ensures Abs(s - delta) <= Abs(delta) * u / 6.0 && s * delta >= 0.0
  {
    var cube := delta * u;
    Negates(cube, q);
    Shrinks(cube, q);
    AbsTimes(delta, u);
    CubeTurned(delta, u, q);
    ProductBound(u, 1.0, u, u);
    ProductBound(u * u, u, q, 1.0);
  }

  lemma AbsTimes(delta: real, u: real)
    requires u >= 0.0
    ensures Abs(delta * u) == Abs(delta) * u
  {
    NonNegative(Abs(delta), u);
  }

  lemma CubeTurned(delta: real, u: real, q: real)
    requires u == delta * delta
    ensures (delta - (delta * u) * q) * delta == u - (u * u) * q
  {
    assert (delta * u) * q * delta == (delta * delta) * u * q;
    assert (delta - (delta * u) * q) * delta == delta * delta - (delta * u) * q * delta;
  }

  lemma Shrinks(value: real, q: real)
    requires 0.0 <= q <= 1.0 / 6.0
    ensures Abs(value * q) <= Abs(value) / 6.0
  {
    ProductBound(Abs(value), Abs(value), q, 1.0 / 6.0);
    assert Abs(value * q) == Abs(value) * q;
  }

  // ---- Normalisation ----

  // The nearest integer, and the even one of two that are equally near.
  lemma NearestInteger(q: real)
    ensures Abs(q - Nearest(q) as real) <= 0.5
    ensures Abs(q - Nearest(q) as real) == 0.5 ==> Nearest(q) % 2 == 0
  {
  }

  // Given an inverse square root, a phasor of any length keeps its direction and gets length 1.
  lemma NormalizedIsUnit(t: Trig, lane: Lane)
    requires t.pi > 0.0 && Norm2(Complex(lane.cos, lane.sin)) > 0.0
    requires
      var norm2 := Norm2(Complex(lane.cos, lane.sin));
      t.inverseRoot(norm2) > 0.0 && t.inverseRoot(norm2) * t.inverseRoot(norm2) * norm2 == 1.0
    ensures
      var n := Normalized(t, lane);
      && Norm2(Complex(n.cos, n.sin)) == 1.0
      && n.cos * lane.sin == n.sin * lane.cos && n.cos * lane.cos >= 0.0 && n.sin * lane.sin >= 0.0
  {
    hide WrappedPhase;
    var i := t.inverseRoot(Norm2(Complex(lane.cos, lane.sin)));
    Stretched(lane.cos, lane.sin, i);
  }

  lemma Stretched(c: real, s: real, i: real)
    requires i > 0.0
    ensures (c * i) * (c * i) + (s * i) * (s * i) == i * i * (c * c + s * s)
    ensures (c * i) * s == (s * i) * c && (c * i) * c >= 0.0 && (s * i) * s >= 0.0
  {
    assert (c * i) * (c * i) == i * i * (c * c) && (s * i) * (s * i) == i * i * (s * s);
    assert (c * i) * c == i * (c * c) && (s * i) * s == i * (s * s);
  }

  // Normalisation touches the oscillator alone, and without a direction takes it from the phase.
  lemma NormalizedKeeps(t: Trig, lane: Lane)
    requires t.pi > 0.0
    ensures
      var n := Normalized(t, lane);
      && n.frequency == lane.frequency && n.lastError == lane.lastError && n.pending == lane.pending
      && (lane.cos == 0.0 && lane.sin == 0.0 ==> n.cos == t.cos(n.phase) && n.sin == t.sin(n.phase))
  {
    hide WrappedPhase;
  }

  // ---- The equations of a sample ----

  // Main result on a sample: the error bounds the detector's value by the clip; frequency moves
  // by beta times the error as far as its limit allows; the newest step is that frequency and
  // alpha times the error; and the oldest pending step turns the oscillator.
  lemma LoopEquations(t: Trig, p: LaneParams, lane: Lane, x: Complex)
    ensures Step(t, p, lane, x).lastError == Clamped(Detected(Derotated(lane, p.gain, x)), p.clip)
    ensures
      var next, raw := Step(t, p, lane, x), lane.frequency + p.beta * Step(t, p, lane, x).lastError;
      && (p.limit > 0.0 && raw > p.limit ==> next.frequency == p.limit)
      && (p.limit > 0.0 && raw < -p.limit ==> next.frequency == -p.limit)
      && (p.limit == 0.0 || -p.limit <= raw <= p.limit ==> next.frequency == raw)
    ensures
      var next := Step(t, p, lane, x);
      && next.pending[3] == SinCos(t, next.pending[3].step) && next.pending[3].step == next.frequency + p.alpha * next.lastError
      && next.pending[0] == lane.pending[1] && next.pending[1] == lane.pending[2] && next.pending[2] == lane.pending[3]
    ensures
      var next, oldest := Step(t, p, lane, x), lane.pending[0];
      && next.phase == lane.phase + oldest.step
      && Complex(next.cos, next.sin) == Mul(Complex(lane.cos, lane.sin), Complex(oldest.cos, oldest.sin))
  {
    hide SinCos, Detected, Derotated;
  }

  // ---- The equations of a run ----

  // Sum of the errors of the first n outputs.
  function ErrorSum(clip: real, y: seq<Complex>, n: nat): real
    requires n <= |y|
  {
    if n == 0 then 0.0 else ErrorSum(clip, y, n - 1) + Clamped(Detected(y[n - 1]), clip)
  }

  // The outputs of a run.
  ghost predicate Outputs(t: Trig, p: LaneParams, lane: Lane, since: nat, x: seq<Complex>, y: seq<Complex>)
    requires t.pi > 0.0
  {
    |y| == |x| && forall i :: 0 <= i < |x| ==> y[i] == OutputAt(t, p, lane, since, x, i)
  }

  lemma LastSample(t: Trig, p: LaneParams, lane: Lane, since: nat, x: seq<Complex>)
    requires t.pi > 0.0 && x != []
    ensures
      var n := |x| - 1;
      var end, last := After(t, p, lane, since, x), Step(t, p, After(t, p, lane, since, x[..n]), x[n]);
      end.frequency == last.frequency && end.lastError == last.lastError && end.pending == last.pending
  {
    hide Step, Normalized;
    NormalizedKeeps(t, Stepped(t, p, lane, since, x));
  }

  // Without a limit the frequency has moved by beta times the sum of all errors, whatever the
  // gains, the clip and the normalisations in between.
  lemma {:induction false} FrequencyIsErrorSum(t: Trig, p: LaneParams, lane: Lane, since: nat, x: seq<Complex>, y: seq<Complex>, n: nat)
    requires t.pi > 0.0 && p.limit == 0.0 && Outputs(t, p, lane, since, x, y) && n <= |x|
    ensures After(t, p, lane, since, x[..n]).frequency == lane.frequency + p.beta * ErrorSum(p.clip, y, n)
    decreases n
  {
    hide Step, Normalized, Clamped, Detected, Derotated;
    if n == 0 {
      assert p.beta * 0.0 == 0.0;
    } else {
      var prefix := x[..n - 1];
      assert x[..n][..n - 1] == prefix;
      FrequencyIsErrorSum(t, p, lane, since, x, y, n - 1);
      LastSample(t, p, lane, since, x[..n]);
      var before := After(t, p, lane, since, prefix);
      LoopEquations(t, p, before, x[n - 1]);
      assert y[n - 1] == Derotated(before, p.gain, x[n - 1]);
      Distributes(p.beta, ErrorSum(p.clip, y, n - 1), Clamped(Detected(y[n - 1]), p.clip));
    }
  }

  lemma Distributes(factor: real, a: real, b: real)
    ensures factor * (a + b) == factor * a + factor * b
  {
  }

  // A step decided at one sample turns the oscillator four samples later.
  lemma StepAfterFour(t: Trig, p: LaneParams, lane: Lane, since: nat, x: seq<Complex>)
    requires t.pi > 0.0 && |x| >= 5
    ensures
      var n := |x|;
      var decided := After(t, p, lane, since, x[..n - 4]);
      Stepped(t, p, lane, since, x).phase == After(t, p, lane, since, x[..n - 1]).phase + (decided.frequency + p.alpha * decided.lastError)
  {
    hide Step, Normalized, SinCos;
    var n := |x|;
    NewestStep(t, p, lane, since, x[..n - 4]);
    QueueMoves(t, p, lane, since, x, n - 4);
    QueueMoves(t, p, lane, since, x, n - 3);
    QueueMoves(t, p, lane, since, x, n - 2);
    LoopEquations(t, p, After(t, p, lane, since, x[..n - 1]), x[n - 1]);
  }

  lemma NewestStep(t: Trig, p: LaneParams, lane: Lane, since: nat, x: seq<Complex>)
    requires t.pi > 0.0 && x != []
    ensures
      var end := After(t, p, lane, since, x);
      end.pending[3].step == end.frequency + p.alpha * end.lastError
  {
    hide Step, Normalized, SinCos, Clamped, Detected, Derotated;
    LastSample(t, p, lane, since, x);
    LoopEquations(t, p, After(t, p, lane, since, x[..|x| - 1]), x[|x| - 1]);
  }

  lemma QueueMoves(t: Trig, p: LaneParams, lane: Lane, since: nat, x: seq<Complex>, k: nat)
    requires t.pi > 0.0 && k < |x|
    ensures
      var before, after := After(t, p, lane, since, x[..k]).pending, After(t, p, lane, since, x[..k + 1]).pending;
      after[0] == before[1] && after[1] == before[2] && after[2] == before[3]
  {
    hide Step, Normalized, SinCos;
    LastSample(t, p, lane, since, x[..k + 1]);
    assert x[..k + 1][..k] == x[..k];
    LoopEquations(t, p, After(t, p, lane, since, x[..k]), x[k]);
  }

  // The phase adds up the applied steps, and every 512th sample of the count takes whole turns
  // off, and no other.
  lemma NormalizesEvery512(t: Trig, p: LaneParams, lane: Lane, since: nat, x: seq<Complex>)
    requires t.pi > 0.0 && x != []
    ensures
      var before, end := After(t, p, lane, since, x[..|x| - 1]), After(t, p, lane, since, x);
      if (since + |x|) % 512 == 0 then Apart(t, before.phase + before.pending[0].step, end.phase, 0) && -t.pi < end.phase <= t.pi
      else
        && end.phase == before.phase + before.pending[0].step
        && Complex(end.cos, end.sin) == Mul(Complex(before.cos, before.sin), Complex(before.pending[0].cos, before.pending[0].sin))
  {
    hide Step, WrappedPhase, Apart, SinCos, Clamped, Detected, Derotated;
    var n := |x| - 1;
    LoopEquations(t, p, After(t, p, lane, since, x[..n]), x[n]);
    WrappedApart(t, Stepped(t, p, lane, since, x).phase);
  }

  // What a block leaves behind, from the gains and bounds alone: its first output by the
  // oscillator it started with, the error of its last, the frequency from the errors of all its
  // outputs, and the newest step from both.
  ghost predicate Followed(t: Trig, alpha: real, beta: real, clip: real, gain: real, limit: real,
                           start: Lane, x: seq<Complex>, y: seq<Complex>, end: Lane)
  {
    && |y| == |x| > 0
    && y[0] == Mul(Scale(gain, x[0]), Conjugate(Complex(start.cos, start.sin)))
    && end.lastError == Clamped(Detected(y[|y| - 1]), clip)
    && (limit == 0.0 ==> end.frequency == start.frequency + beta * ErrorSum(clip, y, |y|))
    && (limit > 0.0 ==> -limit <= end.frequency <= limit)
    && end.pending[3] == SinCos(t, end.pending[3].step) && end.pending[3].step == end.frequency + alpha * end.lastError
  }

  // Main result on a run, whatever the normalisations in between.
  lemma RunIsFollowed(t: Trig, p: LaneParams, start: Lane, since: nat, x: seq<Complex>, y: seq<Complex>)
    requires t.pi > 0.0 && p.limit >= 0.0 && x != [] && Outputs(t, p, start, since, x, y)
    ensures Followed(t, p.alpha, p.beta, p.clip, p.gain, p.limit, start, x, y, After(t, p, start, since, x))
  {
    hide Step, Normalized, SinCos, Clamped, Detected, Derotated, ErrorSum;
    var n := |x| - 1;
    LastSample(t, p, start, since, x);
    LoopEquations(t, p, After(t, p, start, since, x[..n]), x[n]);
    if p.limit > 0.0 { LimitHolds(t, p, After(t, p, start, since, x[..n]), x[n]); }
    FirstOutput(t, p, start, since, x);
    assert y[0] == OutputAt(t, p, start, since, x, 0);
    assert y[n] == OutputAt(t, p, start, since, x, n);
    DerotatedIsConjugate(start, p.gain, x[0]);
    if p.limit == 0.0 {
      FrequencyIsErrorSum(t, p, start, since, x, y, |x|);
      assert x[..|x|] == x;
    }
  }

  lemma FirstOutput(t: Trig, p: LaneParams, lane: Lane, since: nat, x: seq<Complex>)
    requires t.pi > 0.0 && x != []
    ensures OutputAt(t, p, lane, since, x, 0) == Derotated(lane, p.gain, x[0])
  {
    hide Derotated, Step, Normalized;
    assert x[..0] == [];
    assert After(t, p, lane, since, []) == lane;
  }

  lemma LimitHolds(t: Trig, p: LaneParams, lane: Lane, x: Complex)
    requires p.limit > 0.0
    ensures -p.limit <= Step(t, p, lane, x).frequency <= p.limit
  {
    hide SinCos, Detected, Derotated, RawFrequency;
  }
}
