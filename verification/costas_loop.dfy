// One lane of the QPSK Costas loop: derotation, detector, loop filter, the queue of pending
// phase steps, and periodic normalisation, over whole streams.
module CostasLoop {
  import opened ComplexNumbers

  const DELAY: nat := 4
  const PERIOD: nat := 512

  // Pi and the library functions; only the laws a property needs are asked of them.
  datatype Trig = Trig(pi: real, sin: real -> real, cos: real -> real, inverseRoot: real -> real)

  // A step decided but not yet applied, with its phasor.
  datatype Pending = Pending(step: real, cos: real, sin: real)

  // Oldest step first.
  type Queue = q: seq<Pending> | |q| == DELAY witness seq(DELAY, _ => Pending(0.0, 1.0, 0.0))

  datatype Lane = Lane(phase: real, cos: real, sin: real, frequency: real, lastError: real, pending: Queue)

  // Loop gains, detector clip, input gain and frequency limit; a bound of zero is disabled.
  datatype LaneParams = LaneParams(alpha: real, beta: real, clip: real, gain: real, limit: real)

  function Abs(x: real): real { if x < 0.0 then -x else x }

  function Sign(x: real): real { if x < 0.0 then -1.0 else 1.0 }

  function Clamped(value: real, bound: real): real
  {
    if bound > 0.0 then
      var low := if value < -bound then -bound else value;
      if low > bound then bound else low
    else value
  }

  // Polynomials for small steps, the library functions otherwise.
  function SmallSin(delta: real): real
  {
    var squared := delta * delta;
    (delta * squared) * (squared * (1.0 / 120.0) - 1.0 / 6.0) + delta
  }

  function SmallCos(delta: real): real
  {
    var squared := delta * delta;
    squared * (squared * (1.0 / 24.0) - 0.5) + 1.0
  }

  function SinCos(t: Trig, delta: real): (s: Pending)
    ensures s.step == delta
  {
    if Abs(delta) <= 0.25 then Pending(delta, SmallCos(delta), SmallSin(delta))
    else Pending(delta, t.cos(delta), t.sin(delta))
  }

  // ---- One sample ----

  function Derotated(lane: Lane, gain: real, x: Complex): Complex
  {
    var re, im := x.re * gain, x.im * gain;
    Complex(re * lane.cos + im * lane.sin, im * lane.cos - re * lane.sin)
  }

  lemma DetectedBySigns(y: Complex)
    ensures Detected(y) == SignTimes(y.re, y.im) - SignTimes(y.im, y.re)
  {
    SignProduct(y.re, y.im);
    SignProduct(y.im, y.re);
  }

  lemma SignProduct(decision: real, value: real)
    ensures Sign(decision) * value == SignTimes(decision, value)
  {
  }

  function Detected(y: Complex): real { Sign(y.re) * y.im - Sign(y.im) * y.re }

  function RawFrequency(p: LaneParams, frequency: real, error: real): real { p.beta * error + frequency }

  function NextFrequency(p: LaneParams, frequency: real, error: real): real { Clamped(RawFrequency(p, frequency, error), p.limit) }

  function NextStep(p: LaneParams, frequency: real, error: real): real { p.alpha * error + frequency }

  // The loop after an error: the oldest pending step turns the phasor, the new one is queued.
  function Follow(t: Trig, p: LaneParams, lane: Lane, error: real): Lane
  {
    var frequency := NextFrequency(p, lane.frequency, error);
    var oldest := lane.pending[0];
    Lane(lane.phase + oldest.step,
         lane.cos * oldest.cos - lane.sin * oldest.sin, lane.sin * oldest.cos + lane.cos * oldest.sin,
         frequency, error, lane.pending[1..] + [SinCos(t, NextStep(p, frequency, error))])
  }

  function Step(t: Trig, p: LaneParams, lane: Lane, x: Complex): Lane
  {
    Follow(t, p, lane, Clamped(Detected(Derotated(lane, p.gain, x)), p.clip))
  }

  // ---- Normalisation ----

  // The integer nearest to a quotient, halfway cases to even.
  function Nearest(q: real): int
  {
    var low := q.Floor;
    var rest := q - low as real;
    if rest < 0.5 || (rest == 0.5 && low % 2 == 0) then low else low + 1
  }

  function Remainder(x: real, y: real): real
    requires y != 0.0
  {
    x - Nearest(x / y) as real * y
  }

  function WrappedPhase(t: Trig, phase: real): real
    requires t.pi > 0.0
  {
    var wrapped := Remainder(phase, 2.0 * t.pi);
    if wrapped <= -t.pi then t.pi else wrapped
  }

  function Norm2(v: Complex): real { v.re * v.re + v.im * v.im }

  // A phasor of no length cannot be scaled; it is rebuilt from the phase.
  function Normalized(t: Trig, lane: Lane): Lane
    requires t.pi > 0.0
  {
    var phase := WrappedPhase(t, lane.phase);
    var norm2 := Norm2(Complex(lane.cos, lane.sin));
    if norm2 > 0.0 then
      var inverse := t.inverseRoot(norm2);
      lane.(phase := phase, cos := lane.cos * inverse, sin := lane.sin * inverse)
    else
      lane.(phase := phase, cos := t.cos(phase), sin := t.sin(phase))
  }

  // ---- Streams ----

  // The lane after some samples, the last of them not yet followed by normalisation.
  function Stepped(t: Trig, p: LaneParams, lane: Lane, since: nat, x: seq<Complex>): Lane
    requires t.pi > 0.0
    decreases |x|, 0
  {
    if x == [] then lane else Step(t, p, After(t, p, lane, since, x[..|x| - 1]), x[|x| - 1])
  }

  // Normalisation follows every sample that completes a period, counted from `since`.
  function After(t: Trig, p: LaneParams, lane: Lane, since: nat, x: seq<Complex>): Lane
    requires t.pi > 0.0
    decreases |x|, 1
  {
    var stepped := Stepped(t, p, lane, since, x);
    if x != [] && (since + |x|) % PERIOD == 0 then Normalized(t, stepped) else stepped
  }

  // Output for sample i.
  function OutputAt(t: Trig, p: LaneParams, lane: Lane, since: nat, x: seq<Complex>, i: nat): Complex
    requires t.pi > 0.0 && i < |x|
  {
    Derotated(After(t, p, lane, since, x[..i]), p.gain, x[i])
  }

  lemma CounterInTwo(since: nat, a: nat, b: nat)
    ensures ((since + a) % PERIOD + b) % PERIOD == (since + (a + b)) % PERIOD
  {
  }

  // Main result on block splits: a stream in two blocks is the stream in one, the counter of
  // the second block being where the first one left it.
  lemma {:induction false} SplitStream(t: Trig, p: LaneParams, lane: Lane, since: nat, a: seq<Complex>, b: seq<Complex>)
    requires t.pi > 0.0
    ensures After(t, p, After(t, p, lane, since, a), (since + |a|) % PERIOD, b) == After(t, p, lane, since, a + b)
    decreases |b|
  {
    hide Step, Normalized;
    if b == [] {
      assert a + b == a;
    } else {
      var n := |b| - 1;
      SplitStream(t, p, lane, since, a, b[..n]);
      assert (a + b)[..|a| + n] == a + b[..n];
      CounterInTwo(since, |a|, |b|);
    }
  }

  lemma SplitOutputs(t: Trig, p: LaneParams, lane: Lane, since: nat, a: seq<Complex>, b: seq<Complex>, i: nat)
    requires t.pi > 0.0 && i < |b|
    ensures OutputAt(t, p, lane, since, a + b, |a| + i) == OutputAt(t, p, After(t, p, lane, since, a), (since + |a|) % PERIOD, b, i)
  {
    hide After, Derotated;
    SplitStream(t, p, lane, since, a, b[..i]);
    assert (a + b)[..|a| + i] == a + b[..i];
  }
}
