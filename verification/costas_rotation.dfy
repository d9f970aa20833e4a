// Quarter turns of a Costas lane: what every later run keeps.
module CostasRotation {
  import opened ComplexNumbers
  import opened CostasLoop

  // ---- Phases ----

  function QuarterPhase(t: Trig, phase: real, quarters: int): real { phase + quarters as real * (t.pi / 2.0) }

  lemma QuartersAdd(t: Trig, phase: real, a: int, b: int)
    ensures QuarterPhase(t, QuarterPhase(t, phase, a), b) == QuarterPhase(t, phase, a + b)
  {
    assert (a + b) as real * (t.pi / 2.0) == a as real * (t.pi / 2.0) + b as real * (t.pi / 2.0);
  }

  // Phases that differ by k quarter turns and some whole turns.
  ghost predicate Apart(t: Trig, a: real, b: real, k: int)
  {
    exists m: int :: b == QuarterPhase(t, a, m) && m % 4 == k % 4
  }

  lemma ApartBy(t: Trig, a: real, b: real, k: int, m: int)
    requires b == QuarterPhase(t, a, m) && m % 4 == k % 4
    ensures Apart(t, a, b, k)
  {
  }

  lemma ModAdds(a: int, b: int, c: int, d: int)
    requires a % 4 == b % 4 && c % 4 == d % 4
    ensures (a + c) % 4 == (b + d) % 4
  {
  }

  lemma ModNegates(a: int, b: int)
    requires a % 4 == b % 4
    ensures (-a) % 4 == (-b) % 4
  {
  }

  lemma ApartChains(t: Trig, a: real, b: real, c: real, k: int, l: int)
    requires Apart(t, a, b, k) && Apart(t, b, c, l)
    ensures Apart(t, a, c, k + l)
  {
    var m: int :| b == QuarterPhase(t, a, m) && m % 4 == k % 4;
    var n: int :| c == QuarterPhase(t, b, n) && n % 4 == l % 4;
    QuartersAdd(t, a, m, n);
    ModAdds(m, k, n, l);
  }

  lemma ApartBack(t: Trig, a: real, b: real, k: int)
    requires Apart(t, a, b, k)
    ensures Apart(t, b, a, -k)
  {
    var m: int :| b == QuarterPhase(t, a, m) && m % 4 == k % 4;
    QuartersAdd(t, a, m, -m);
    ModNegates(m, k);
    assert QuarterPhase(t, a, 0) == a;
  }

  lemma ApartMoves(t: Trig, a: real, b: real, k: int, step: real)
    requires Apart(t, a, b, k)
    ensures Apart(t, a + step, b + step, k)
  {
    var m: int :| b == QuarterPhase(t, a, m) && m % 4 == k % 4;
    assert b + step == QuarterPhase(t, a + step, m);
  }

  // ---- Wrapping ----

  lemma NearestIsNear(q: real)
    ensures -0.5 <= q - Nearest(q) as real <= 0.5
  {
  }

  // Wrapping takes off whole turns and ends in the half-open range above -pi.
  lemma RemainderBounds(x: real, y: real)
    requires y > 0.0
    ensures -0.5 * y <= Remainder(x, y) <= 0.5 * y
  {
    hide Nearest;
    var q := x / y;
    NearestIsNear(q);
    var rest := q - Nearest(q) as real;
    assert q * y == x;
    assert Remainder(x, y) == rest * y;
    ScaledBounds(rest, y);
  }

  lemma ScaledBounds(rest: real, y: real)
    requires y > 0.0 && -0.5 <= rest <= 0.5
    ensures -0.5 * y <= rest * y <= 0.5 * y
  {
    assert (rest + 0.5) * y >= 0.0 && (0.5 - rest) * y >= 0.0;
  }

  lemma RemainderApart(t: Trig, phase: real)
    requires t.pi > 0.0
    ensures Apart(t, phase, Remainder(phase, 2.0 * t.pi), 0)
  {
    var n := Nearest(phase / (2.0 * t.pi));
    assert n as real * (2.0 * t.pi) == (4 * n) as real * (t.pi / 2.0);
    ApartBy(t, phase, Remainder(phase, 2.0 * t.pi), 0, -4 * n);
  }

  lemma WrappedApart(t: Trig, phase: real)
    requires t.pi > 0.0
    ensures Apart(t, phase, WrappedPhase(t, phase), 0)
    ensures -t.pi < WrappedPhase(t, phase) <= t.pi
  {
    hide Remainder, Apart;
    RemainderApart(t, phase);
    RemainderBounds(phase, 2.0 * t.pi);
    if Remainder(phase, 2.0 * t.pi) <= -t.pi {
      ApartBy(t, -t.pi, t.pi, 0, 4);
      ApartChains(t, phase, -t.pi, t.pi, 0, 0);
    }
  }

  // ---- The trigonometric laws of a quarter turn ----

  ghost predicate QuarterLaws(t: Trig)
  {
    t.pi > 0.0 && forall x :: QuarterLawAt(t, x)
  }

  ghost predicate QuarterLawAt(t: Trig, x: real)
  {
    t.cos(QuarterPhase(t, x, 1)) == -t.sin(x) && t.sin(QuarterPhase(t, x, 1)) == t.cos(x)
  }

  // A pair turned by k quarters.
  function Quarter(v: Complex, k: int): Complex
  {
    if k % 4 == 0 then v
    else if k % 4 == 1 then Complex(-v.im, v.re)
    else if k % 4 == 2 then Complex(-v.re, -v.im)
    else Complex(v.im, -v.re)
  }

  function Phasor(t: Trig, phase: real): Complex { Complex(t.cos(phase), t.sin(phase)) }

  lemma {:induction false} PhasorTurns(t: Trig, x: real, m: int)
    requires QuarterLaws(t)
    ensures Phasor(t, QuarterPhase(t, x, m)) == Quarter(Phasor(t, x), m)
    decreases if m < 0 then -m else m
  {
    hide QuarterPhase, Quarter;
    if m == 0 {
      QuarterNone(t, x, Phasor(t, x));
    } else if m > 0 {
      PhasorTurns(t, x, m - 1);
      QuartersAdd(t, x, m - 1, 1);
      assert QuarterLawAt(t, QuarterPhase(t, x, m - 1));
      QuarterStep(Phasor(t, x), m - 1);
    } else {
      PhasorTurns(t, x, m + 1);
      QuartersAdd(t, x, m, 1);
      assert QuarterLawAt(t, QuarterPhase(t, x, m));
      QuarterBack(Phasor(t, x), Phasor(t, QuarterPhase(t, x, m)), m);
    }
  }

  lemma QuarterNone(t: Trig, x: real, v: Complex)
    ensures QuarterPhase(t, x, 0) == x && Quarter(v, 0) == v
  {
  }

  lemma QuarterStep(v: Complex, k: int)
    ensures Quarter(v, k + 1) == Complex(-Quarter(v, k).im, Quarter(v, k).re)
  {
  }

  lemma QuarterBack(v: Complex, w: Complex, k: int)
    requires Complex(-w.im, w.re) == Quarter(v, k + 1)
    ensures w == Quarter(v, k)
  {
  }

  // ---- Turned lanes ----

  // The same loop with its oscillator k quarter turns ahead.
  ghost predicate Turned(t: Trig, a: Lane, b: Lane, k: int)
  {
    && Complex(b.cos, b.sin) == Quarter(Complex(a.cos, a.sin), k) && Apart(t, a.phase, b.phase, k)
    && b.frequency == a.frequency && b.lastError == a.lastError && b.pending == a.pending
  }

  // Outputs turn the other way.
  function OutputTurned(y: Complex, k: int): Complex { Quarter(y, -k) }

  // Whether a sample turns without a signed zero: after one quarter a zero real part, after
  // three a zero imaginary part, after two either of them would need the sign of its new place.
  predicate Tolerates(y: Complex, k: int)
  {
    if k % 4 == 0 then true
    else if k % 4 == 1 then y.re == 0.0 ==> y.im == 0.0
    else if k % 4 == 2 then y.re == 0.0 <==> y.im == 0.0
    else y.im == 0.0 ==> y.re == 0.0
  }

  lemma DerotatedTurns(a: Lane, b: Lane, k: int, gain: real, x: Complex)
    requires Complex(b.cos, b.sin) == Quarter(Complex(a.cos, a.sin), k)
    ensures Derotated(b, gain, x) == OutputTurned(Derotated(a, gain, x), k)
  {
    hide Against, Derotated, Gained;
    TurnsBack(k);
    AgainstTurned(Gained(gain, x), Complex(a.cos, a.sin));
    DerotatedIsAgainst(a, gain, x);
    DerotatedIsAgainst(b, gain, x);
  }

  lemma TurnsBack(k: int)
    ensures -k % 4 == (if k % 4 == 0 then 0 else 4 - k % 4)
  {
  }

  function Gained(gain: real, x: Complex): Complex { Complex(x.re * gain, x.im * gain) }

  // A sample against a phasor.
  function Against(x: Complex, v: Complex): Complex { Complex(x.re * v.re + x.im * v.im, x.im * v.re - x.re * v.im) }

  lemma DerotatedIsAgainst(a: Lane, gain: real, x: Complex)
    ensures Derotated(a, gain, x) == Against(Gained(gain, x), Complex(a.cos, a.sin))
  {
  }

  lemma AgainstTurned(x: Complex, v: Complex)
    ensures
      var y := Against(x, v);
      && Against(x, Complex(-v.im, v.re)) == Complex(y.im, -y.re)
      && Against(x, Complex(-v.re, -v.im)) == Complex(-y.re, -y.im)
      && Against(x, Complex(v.im, -v.re)) == Complex(-y.im, y.re)
  {
    Negates(x.re, v.re);
    Negates(x.re, v.im);
    Negates(x.im, v.re);
    Negates(x.im, v.im);
  }

  lemma Negates(x: real, y: real)
    ensures x * -y == -(x * y) && -x * y == -(x * y) && -x * -y == x * y
  {
  }

  // The detector is blind to k quarter turns exactly on samples that tolerate them; on any
  // other sample it sees the opposite error.
  lemma DetectorIsBlind(y: Complex, k: int)
    ensures Tolerates(y, k) <==> Detected(OutputTurned(y, k)) == Detected(y)
    ensures !Tolerates(y, k) ==> Detected(OutputTurned(y, k)) == -Detected(y)
  {
    hide Detected;
    TurnsBack(k);
    DetectedBySigns(y);
    DetectedBySigns(OutputTurned(y, k));
  }

  // An input where the turn shows: a sample on the imaginary axis, one quarter.
  lemma QuarterShows()
    ensures
      var y := Complex(0.0, 1.0);
      !Tolerates(y, 1) && Detected(y) == 1.0 && Detected(OutputTurned(y, 1)) == -1.0
  {
    hide Detected;
    var y := Complex(0.0, 1.0);
    DetectedBySigns(y);
    DetectorIsBlind(y, 1);
  }

  // It survives clipping.
  lemma ClippedApart(error: real, clip: real)
    requires error != 0.0
    ensures Clamped(-error, clip) != Clamped(error, clip)
  {
  }

  lemma FollowTurns(t: Trig, p: LaneParams, a: Lane, b: Lane, k: int, error: real)
    requires Turned(t, a, b, k)
    ensures Turned(t, Follow(t, p, a, error), Follow(t, p, b, error), k)
  {
    hide Apart, SinCos, NextFrequency, NextStep, Quarter, Stepping;
    var oldest := a.pending[0];
    ApartMoves(t, a.phase, b.phase, k, oldest.step);
    PhasorStepTurns(Complex(a.cos, a.sin), oldest.cos, oldest.sin, k);
    FollowSteps(t, p, a, error);
    FollowSteps(t, p, b, error);
  }

  lemma FollowSteps(t: Trig, p: LaneParams, a: Lane, error: real)
    ensures
      var next := Follow(t, p, a, error);
      Complex(next.cos, next.sin) == Stepping(Complex(a.cos, a.sin), a.pending[0].cos, a.pending[0].sin)
  {
  }

  function Stepping(v: Complex, c: real, s: real): Complex { Complex(v.re * c - v.im * s, v.im * c + v.re * s) }

  lemma PhasorStepTurns(v: Complex, c: real, s: real, k: int)
    ensures Stepping(Quarter(v, k), c, s) == Quarter(Stepping(v, c, s), k)
  {
    hide Stepping;
    StepNegates(v, c, s);
  }

  lemma StepNegates(v: Complex, c: real, s: real)
    ensures
      var w := Stepping(v, c, s);
      && Stepping(Complex(-v.im, v.re), c, s) == Complex(-w.im, w.re)
      && Stepping(Complex(-v.re, -v.im), c, s) == Complex(-w.re, -w.im)
      && Stepping(Complex(v.im, -v.re), c, s) == Complex(w.im, -w.re)
  {
    Negates(v.re, c);
    Negates(v.re, s);
    Negates(v.im, c);
    Negates(v.im, s);
  }

  // One sample: the loops stay turned exactly if the sample tolerates the turn. If it does
  // not, their errors differ.
  lemma StepTurns(t: Trig, p: LaneParams, a: Lane, b: Lane, k: int, x: Complex)
    requires Turned(t, a, b, k)
    ensures Derotated(b, p.gain, x) == OutputTurned(Derotated(a, p.gain, x), k)
    ensures Tolerates(Derotated(a, p.gain, x), k) <==> Turned(t, Step(t, p, a, x), Step(t, p, b, x), k)
    ensures Tolerates(Derotated(a, p.gain, x), k) <==> Step(t, p, b, x).lastError == Step(t, p, a, x).lastError
  {
    hide Follow, Apart, Derotated, Detected, Clamped, Quarter, Tolerates, OutputTurned;
    var y := Derotated(a, p.gain, x);
    DerotatedTurns(a, b, k, p.gain, x);
    DetectorIsBlind(y, k);
    ErrorOfStep(t, p, a, x);
    ErrorOfStep(t, p, b, x);
    if Tolerates(y, k) {
      FollowTurns(t, p, a, b, k, Clamped(Detected(y), p.clip));
    } else {
      ClippedApart(Detected(y), p.clip);
    }
  }

  lemma ErrorOfStep(t: Trig, p: LaneParams, a: Lane, x: Complex)
    ensures Step(t, p, a, x).lastError == Clamped(Detected(Derotated(a, p.gain, x)), p.clip)
  {
    hide Derotated, Detected, Clamped, NextFrequency, NextStep, SinCos;
  }

  lemma NormTurns(v: Complex, k: int, r: real)
    ensures Norm2(Quarter(v, k)) == Norm2(v)
    ensures Scale(r, Quarter(v, k)) == Quarter(Scale(r, v), k)
  {
    Negates(v.re, v.re);
    Negates(v.im, v.im);
    Negates(r, v.re);
    Negates(r, v.im);
  }

  // Normalisation by cases of the phasor's length.
  lemma NormalizedIs(t: Trig, a: Lane)
    requires t.pi > 0.0
    ensures
      var n, v, phase := Normalized(t, a), Complex(a.cos, a.sin), WrappedPhase(t, a.phase);
      && n == a.(phase := phase, cos := n.cos, sin := n.sin)
      && Complex(n.cos, n.sin) == if Norm2(v) > 0.0 then Scale(t.inverseRoot(Norm2(v)), v) else Phasor(t, phase)
  {
    hide WrappedPhase, Norm2;
  }

  lemma NormalizedTurns(t: Trig, a: Lane, b: Lane, k: int)
    requires QuarterLaws(t) && Turned(t, a, b, k)
    ensures Turned(t, Normalized(t, a), Normalized(t, b), k)
  {
    hide Apart, Quarter, WrappedPhase, QuarterLaws, Normalized, Norm2, Scale, Phasor;
    LawsHavePi(t);
    var x, y := WrappedPhase(t, a.phase), WrappedPhase(t, b.phase);
    WrappedApart(t, a.phase);
    WrappedApart(t, b.phase);
    ApartBack(t, a.phase, x, 0);
    ApartChains(t, x, a.phase, b.phase, 0, k);
    ApartChains(t, x, b.phase, y, k, 0);
    var v := Complex(a.cos, a.sin);
    NormTurns(v, k, t.inverseRoot(Norm2(v)));
    RebuiltTurns(t, x, y, k);
    NormalizedIs(t, a);
    NormalizedIs(t, b);
  }

  lemma LawsHavePi(t: Trig)
    requires QuarterLaws(t)
    ensures t.pi > 0.0
  {
  }

  lemma RebuiltTurns(t: Trig, x: real, y: real, k: int)
    requires QuarterLaws(t) && Apart(t, x, y, k)
    ensures Phasor(t, y) == Quarter(Phasor(t, x), k)
  {
    hide QuarterPhase, QuarterLaws;
    var m: int :| y == QuarterPhase(t, x, m) && m % 4 == k % 4;
    PhasorTurns(t, x, m);
  }

  // ---- Whole runs ----

  // Every output of the run tolerates the turn.
  ghost predicate TolerantRun(t: Trig, p: LaneParams, a: Lane, since: nat, x: seq<Complex>, k: int)
    requires t.pi > 0.0
  {
    forall i :: 0 <= i < |x| ==> Tolerates(OutputAt(t, p, a, since, x, i), k)
  }

  // Loop error after sample i.
  function ErrorAt(t: Trig, p: LaneParams, a: Lane, since: nat, x: seq<Complex>, i: nat): real
    requires t.pi > 0.0 && i < |x|
  {
    Stepped(t, p, a, since, x[..i + 1]).lastError
  }

  lemma OutputOfPrefix(t: Trig, p: LaneParams, a: Lane, since: nat, x: seq<Complex>, n: nat)
    requires t.pi > 0.0 && n <= |x|
    ensures forall i :: 0 <= i < n ==> OutputAt(t, p, a, since, x, i) == OutputAt(t, p, a, since, x[..n], i)
  {
    hide After, Derotated;
    forall i | 0 <= i < n ensures OutputAt(t, p, a, since, x, i) == OutputAt(t, p, a, since, x[..n], i) {
      assert x[..i] == x[..n][..i];
    }
  }

  // A tolerant run of a turned lane keeps it turned, and turns every output back by the same
  // number of quarters.
  lemma {:induction false} TolerantRunTurns(t: Trig, p: LaneParams, a: Lane, b: Lane, k: int, since: nat, x: seq<Complex>)
    requires QuarterLaws(t) && Turned(t, a, b, k) && TolerantRun(t, p, a, since, x, k)
    ensures Turned(t, After(t, p, a, since, x), After(t, p, b, since, x), k)
    ensures forall i :: 0 <= i < |x| ==> OutputAt(t, p, b, since, x, i) == OutputTurned(OutputAt(t, p, a, since, x, i), k)
    decreases |x|
  {
    hide Turned, Step, Normalized, Derotated, Tolerates, QuarterLaws, OutputTurned;
    LawsHavePi(t);
    if x != [] {
      var n := |x| - 1;
      var prefix := x[..n];
      OutputOfPrefix(t, p, a, since, x, n);
      OutputOfPrefix(t, p, b, since, x, n);
      TolerantRunTurns(t, p, a, b, k, since, prefix);
      var before, before' := After(t, p, a, since, prefix), After(t, p, b, since, prefix);
      assert Tolerates(OutputAt(t, p, a, since, x, n), k);
      StepTurns(t, p, before, before', k, x[n]);
      if (since + |x|) % PERIOD == 0 {
        NormalizedTurns(t, Stepped(t, p, a, since, x), Stepped(t, p, b, since, x), k);
      }
    }
  }

  // As long as all outputs before it tolerate the turn, an output tolerates it exactly if the
  // two lanes see the same error there.
  lemma ErrorsTell(t: Trig, p: LaneParams, a: Lane, b: Lane, k: int, since: nat, x: seq<Complex>, i: nat)
    requires QuarterLaws(t) && Turned(t, a, b, k) && i < |x|
    requires t.pi > 0.0 ==> TolerantRun(t, p, a, since, x[..i], k)
    ensures t.pi > 0.0
    ensures Tolerates(OutputAt(t, p, a, since, x, i), k) <==> ErrorAt(t, p, b, since, x, i) == ErrorAt(t, p, a, since, x, i)
  {
    hide Turned, Step, Normalized, Tolerates, QuarterLaws, OutputTurned, TolerantRun, After, Derotated;
    LawsHavePi(t);
    TolerantRunTurns(t, p, a, b, k, since, x[..i]);
    StepTurns(t, p, After(t, p, a, since, x[..i]), After(t, p, b, since, x[..i]), k, x[i]);
    StepsAfter(t, p, a, since, x, i);
    StepsAfter(t, p, b, since, x, i);
  }

  lemma StepsAfter(t: Trig, p: LaneParams, a: Lane, since: nat, x: seq<Complex>, i: nat)
    requires t.pi > 0.0 && i < |x|
    ensures Stepped(t, p, a, since, x[..i + 1]) == Step(t, p, After(t, p, a, since, x[..i]), x[i])
  {
    hide Step, After;
    assert x[..i + 1][..i] == x[..i];
  }

  // Main result: a later run of a turned lane keeps the same errors exactly if every output
  // tolerates the turn. Then it also keeps frequencies and pending steps, and turns every
  // output back by the same number of quarters.
  lemma RunTurns(t: Trig, p: LaneParams, a: Lane, b: Lane, k: int, since: nat, x: seq<Complex>)
    requires QuarterLaws(t) && Turned(t, a, b, k)
    ensures t.pi > 0.0
    ensures TolerantRun(t, p, a, since, x, k) <==>
            forall i :: 0 <= i < |x| ==> ErrorAt(t, p, b, since, x, i) == ErrorAt(t, p, a, since, x, i)
    ensures TolerantRun(t, p, a, since, x, k) ==>
              && Turned(t, After(t, p, a, since, x), After(t, p, b, since, x), k)
              && forall i :: 0 <= i < |x| ==> OutputAt(t, p, b, since, x, i) == OutputTurned(OutputAt(t, p, a, since, x, i), k)
  {
    hide Turned, ErrorAt, After, Tolerates, QuarterLaws, OutputTurned, TolerantRun, OutputAt;
    LawsHavePi(t);
    if TolerantRun(t, p, a, since, x, k) {
      TolerantRunTurns(t, p, a, b, k, since, x);
      forall i | 0 <= i < |x| ensures ErrorAt(t, p, b, since, x, i) == ErrorAt(t, p, a, since, x, i) {
        TolerantPrefix(t, p, a, since, x, k, i);
        ErrorsTell(t, p, a, b, k, since, x, i);
        TolerantAt(t, p, a, since, x, k, i);
      }
    } else {
      var i := FirstIntolerant(t, p, a, since, x, k);
      ErrorsTell(t, p, a, b, k, since, x, i);
    }
  }

  lemma TolerantAt(t: Trig, p: LaneParams, a: Lane, since: nat, x: seq<Complex>, k: int, i: nat)
    requires t.pi > 0.0 && TolerantRun(t, p, a, since, x, k) && i < |x|
    ensures Tolerates(OutputAt(t, p, a, since, x, i), k)
  {
  }

  lemma TolerantPrefix(t: Trig, p: LaneParams, a: Lane, since: nat, x: seq<Complex>, k: int, n: nat)
    requires t.pi > 0.0 && TolerantRun(t, p, a, since, x, k) && n <= |x|
    ensures TolerantRun(t, p, a, since, x[..n], k)
  {
    hide OutputAt, Tolerates;
    OutputOfPrefix(t, p, a, since, x, n);
  }

  lemma {:induction false} FirstIntolerant(t: Trig, p: LaneParams, a: Lane, since: nat, x: seq<Complex>, k: int) returns (i: nat)
    requires t.pi > 0.0 && !TolerantRun(t, p, a, since, x, k)
    ensures i < |x| && TolerantRun(t, p, a, since, x[..i], k) && !Tolerates(OutputAt(t, p, a, since, x, i), k)
    decreases |x|
  {
    hide OutputAt, Tolerates;
    var n := |x| - 1;
    OutputOfPrefix(t, p, a, since, x, n);
    if TolerantRun(t, p, a, since, x[..n], k) {
      i := n;
    } else {
      i := FirstIntolerant(t, p, a, since, x[..n], k);
      assert x[..n][..i] == x[..i];
    }
  }

  // A lane the caller rotates is a turned lane.
  lemma RotatedIsTurned(t: Trig, a: Lane, b: Lane, turns: nat)
    requires t.pi > 0.0 && turns < 4 && b == a.(cos := b.cos, sin := b.sin, phase := b.phase)
    requires Complex(b.cos, b.sin) == Quarter(Complex(a.cos, a.sin), turns)
    requires b.phase == Remainder(QuarterPhase(t, a.phase, turns), 2.0 * t.pi)
    ensures Turned(t, a, b, turns)
  {
    hide Remainder;
    var phase := QuarterPhase(t, a.phase, turns);
    ApartBy(t, a.phase, phase, turns, turns);
    RemainderApart(t, phase);
    ApartChains(t, a.phase, phase, b.phase, turns, 0);
  }
}
