// The timing loop of one symbol synchronizer lane: interpolation, detectors, loop filter
// and lock tracking as one step, and runs of steps up to a time limit.
module SyncLoop {
  import opened ComplexNumbers
  import opened IfftTransform

  // ---- Interpolation ----

  // The four samples around a position.
  datatype Stencil = Stencil(x0: Complex, x1: Complex, x2: Complex, x3: Complex)

  // Lagrange weights of the nodes -1, 0, 1, 2, as the scalar backend factors them.
  function Weights(mu: real): (real, real, real, real)
  {
    var a, b, c := mu - 1.0, mu - 2.0, mu + 1.0;
    var ab, cm := a * b, c * mu;
    ((mu * (-1.0 / 6.0)) * ab, (c * 0.5) * ab, cm * (b * -0.5), cm * (a * (1.0 / 6.0)))
  }

  function Interpolate(cubic: bool, s: Stencil, mu: real): Complex
  {
    if cubic then
      var w := Weights(mu);
      Add(Add(Scale(w.1, s.x1), Scale(w.0, s.x0)), Add(Scale(w.3, s.x3), Scale(w.2, s.x2)))
    else
      Add(Scale(mu, s.x2), Scale(1.0 - mu, s.x1))
  }

  // A position inside the 32-bit range is truncated toward zero, any other gives the lowest value.
  function TruncateToInt32(value: real): int
  {
    if -2147483649.0 < value < 2147483648.0 then
      if value >= 0.0 then value.Floor else -((-value).Floor)
    else -2147483648
  }

  // The clamped index whose stencil starts one sample before it.
  function StencilIndex(length: nat, position: real): (index: int)
    requires length >= 4
    ensures 1 <= index && index + 2 < length
  {
    var at := TruncateToInt32(position);
    var low := if at < 1 then 1 else at;
    if low < length - 3 then low else length - 3
  }

  function Fraction(position: real): real { position - position.Floor as real }

  // Clamping keeps a position at its own sample as far as the stencil fits; a position that
  // does not fit 32 bits ends at the front, whichever side it left on.
  lemma ClampedIndex(length: nat, position: real)
    requires 4 <= length < 0x8000_0000
    ensures StencilIndex(length, position) ==
            if position < 2.0 || position >= 2147483648.0 then 1
            else if position >= (length - 3) as real then length - 3
            else position.Floor
  {
  }

  // Interpolated value of a buffer, stencil clamped into the data.
  function DataValue(cubic: bool, data: seq<Complex>, position: real): Complex
    requires |data| >= 4
  {
    var index := StencilIndex(|data|, position);
    Interpolate(cubic, Stencil(data[index - 1], data[index], data[index + 1], data[index + 2]), Fraction(position))
  }

  // Interpolated value of a whole stream, zero around it; nothing is clamped.
  function StreamValue(cubic: bool, x: seq<Complex>, position: real): Complex
  {
    var index := position.Floor;
    Interpolate(cubic, Stencil(At(x, index - 1), At(x, index), At(x, index + 1), At(x, index + 2)), Fraction(position))
  }

  // ---- Detectors and loop filter ----

  function DetectorError(muellerMuller: bool, previous: Complex, mid: Complex, current: Complex): real
  {
    if muellerMuller then
      (SignTimes(previous.re, current.re) - SignTimes(current.re, previous.re)) +
      (SignTimes(previous.im, current.im) - SignTimes(current.im, previous.im))
    else
      mid.re * (previous.re - current.re) + mid.im * (previous.im - current.im)
  }

  // The nearest QPSK point, up to its size.
  function Decision(a: Complex): Complex { Complex(SignTimes(a.re, 1.0), SignTimes(a.im, 1.0)) }

  // Both detectors as products of complex values: the mid-point against the change of the
  // symbols, and each symbol against the decision on the other.
  lemma DetectorsAreProducts(previous: Complex, mid: Complex, current: Complex)
    ensures DetectorError(false, previous, mid, current) == Mul(mid, Conjugate(Sub(previous, current))).re
    ensures DetectorError(true, previous, mid, current) ==
            Mul(current, Conjugate(Decision(previous))).re - Mul(previous, Conjugate(Decision(current))).re
  {
    hide Mul, SignTimes, Conjugate;
    AgainstConjugate(mid, Sub(previous, current));
    AgainstConjugate(current, Decision(previous));
    AgainstConjugate(previous, Decision(current));
    SignIsFactor(previous.re, current.re);
    SignIsFactor(previous.im, current.im);
    SignIsFactor(current.re, previous.re);
    SignIsFactor(current.im, previous.im);
  }

  lemma AgainstConjugate(a: Complex, b: Complex)
    ensures Mul(a, Conjugate(b)).re == a.re * b.re + a.im * b.im
  {
    assert a.im * -b.im == -(a.im * b.im);
  }

  lemma SignIsFactor(decision: real, value: real)
    ensures value * SignTimes(decision, 1.0) == SignTimes(decision, value)
  {
  }

  // Which way they point: on a straight crossing from a positive to a negative symbol a clock
  // that is late by less than a symbol sees a negative error, an early one a positive error, in
  // proportion to how late it is.
  lemma LateClock(slope: real, late: real)
    requires slope > 0.0 && -1.0 < late < 1.0
    ensures
      var previous, mid, current := Crossing(slope, late - 1.0), Crossing(slope, late), Crossing(slope, late + 1.0);
      && DetectorError(false, previous, mid, current) == -2.0 * (slope * slope) * late
      && DetectorError(true, previous, mid, current) == -2.0 * slope * late
  {
    var x, y := slope * (1.0 - late), slope * (1.0 + late);
    PositiveProduct(slope, 1.0 - late);
    PositiveProduct(slope, 1.0 + late);
    assert slope * (late - 1.0) == -x && slope * (late + 1.0) == y;
    assert slope * late * (slope * 2.0) == 2.0 * (slope * slope) * late;
    assert x == slope - slope * late && y == slope + slope * late;
  }

  lemma PositiveProduct(a: real, b: real)
    requires a > 0.0 && b > 0.0
    ensures a * b > 0.0
  {
  }

  // A real signal that falls through zero at time 0.
  function Crossing(slope: real, time: real): Complex { Complex(-(slope * time), 0.0) }

  function Square(x: real): (r: real)
    ensures r >= 0.0
  {
    x * x
  }

  // Power of the samples the detector used.
  function Energy(muellerMuller: bool, previous: Complex, mid: Complex, current: Complex): (power: real)
    ensures power >= 0.0
  {
    var re, im := Square(previous.re) + Square(current.re), Square(previous.im) + Square(current.im);
    if muellerMuller then re + im else (Square(mid.re) + re) + (Square(mid.im) + im)
  }

  function ErrorNorm2(error: real, energy: real): real
    requires energy >= 0.0
  {
    Square(error / (energy + 0.000000000001))
  }

  // The norm relates the squared error to the squared power of the samples it was taken from,
  // the mid-point included where the detector uses it; a trillionth keeps it finite.
  lemma NormIsRelative(muellerMuller: bool, previous: Complex, mid: Complex, current: Complex, error: real)
    ensures
      var power := (Mul(previous, Conjugate(previous)).re + Mul(current, Conjugate(current)).re
                    + if muellerMuller then 0.0 else Mul(mid, Conjugate(mid)).re) + 1.0 / 1000000000000.0;
      ErrorNorm2(error, Energy(muellerMuller, previous, mid, current)) * (power * power) == error * error
  {
    var energy := Energy(muellerMuller, previous, mid, current);
    var power := energy + 0.000000000001;
    var q := error / power;
    assert q * power == error;
    assert q * q * (power * power) == (q * power) * (q * power);
    PowersAdd(muellerMuller, previous, mid, current);
  }

  lemma PowersAdd(muellerMuller: bool, previous: Complex, mid: Complex, current: Complex)
    ensures Energy(muellerMuller, previous, mid, current) ==
            Mul(previous, Conjugate(previous)).re + Mul(current, Conjugate(current)).re
            + if muellerMuller then 0.0 else Mul(mid, Conjugate(mid)).re
  {
    AgainstConjugate(previous, previous);
    AgainstConjugate(mid, mid);
    AgainstConjugate(current, current);
    hide Mul;
  }

  // A hold count; a count of zero disables the switch.
  datatype Hold = Never | After(count: nat)

  function HoldCount(hold: nat): Hold { if hold == 0 then Never else After(hold) }

  predicate Reached(run: nat, hold: Hold) { hold.After? && run >= hold.count }

  datatype LockParams = LockParams(autoTed: bool, fallback: bool, emaAlpha: real, minSymbols: nat, mmHold: Hold, fallbackHold: Hold,
                                   mmThreshold: real, fallbackThreshold: real)

  datatype Params = Params(cubic: bool, omegaMin: real, omegaMax: real, alpha: real, beta: real, lock: LockParams)

  predicate ValidParams(p: Params) { 1.0 <= p.omegaMin <= p.omegaMax <= 100.0 }

  datatype Lock = Lock(ema: real, lockRun: nat, unlockRun: nat, muellerMuller: bool, switches: nat)

  datatype LaneState = LaneState(time: real, omega: real, previous: Complex, havePrevious: bool, symbols: nat, lock: Lock)

  function Switched(lock: Lock): Lock { Lock(0.0, 0, 0, !lock.muellerMuller, lock.switches + 1) }

  function Smoothed(p: LockParams, ema: real, norm2: real): real { (1.0 - p.emaAlpha) * ema + p.emaAlpha * norm2 }

  // One symbol of lock tracking.
  function TrackLock(p: LockParams, lock: Lock, symbols: nat, norm2: real): Lock
  {
    var ema := Smoothed(p, lock.ema, norm2);
    var tracked := lock.(ema := ema);
    if !lock.muellerMuller then
      if symbols >= p.minSymbols then
        var run := if ema < p.mmThreshold then lock.lockRun + 1 else 0;
        if Reached(run, p.mmHold) then Switched(tracked) else tracked.(lockRun := run)
      else tracked
    else if p.fallback then
      var run := if ema > p.fallbackThreshold then lock.unlockRun + 1 else 0;
      if Reached(run, p.fallbackHold) then Switched(tracked) else tracked.(unlockRun := run)
    else tracked
  }

  datatype Motion = Motion(time: real, omega: real)

  function Max(value: real, bound: real): real { if value > bound then value else bound }

  function Min(value: real, bound: real): real { if value < bound then value else bound }

  // The loop filter, with the shortcut it takes while omega stays inside its bounds.
  function Advance(p: Params, time: real, omega: real, error: real): Motion
  {
    var raw := p.beta * error + omega;
    var next := Min(Max(raw, p.omegaMin), p.omegaMax);
    if next != raw then Motion(time + (p.alpha * error + next), next)
    else Motion((p.alpha + p.beta) * error + (time + omega), next)
  }

  // Either way omega moves by beta times the error as far as its bounds allow, and the next
  // symbol lies the new omega plus alpha times the error ahead.
  lemma AdvanceMeans(p: Params, time: real, omega: real, error: real)
    requires ValidParams(p)
    ensures
      var m := Advance(p, time, omega, error);
      && p.omegaMin <= m.omega <= p.omegaMax
      && m.time == time + m.omega + p.alpha * error
      && (p.omegaMin <= omega + p.beta * error <= p.omegaMax ==> m.omega == omega + p.beta * error)
      && (omega + p.beta * error > p.omegaMax ==> m.omega == p.omegaMax)
      && (omega + p.beta * error < p.omegaMin ==> m.omega == p.omegaMin)
  {
    assert (p.alpha + p.beta) * error == p.alpha * error + p.beta * error;
  }

  function ErrorOf(s: LaneState, mid: Complex, current: Complex): real
  {
    if s.havePrevious then DetectorError(s.lock.muellerMuller, s.previous, mid, current) else 0.0
  }

  function LockAfter(p: LockParams, s: LaneState, mid: Complex, current: Complex): Lock
  {
    if p.autoTed && s.havePrevious then
      TrackLock(p, s.lock, s.symbols, ErrorNorm2(ErrorOf(s, mid, current), Energy(s.lock.muellerMuller, s.previous, mid, current)))
    else s.lock
  }

  // One symbol: `current` and `mid` are the samples at the symbol and half a symbol before.
  function Step(p: Params, s: LaneState, current: Complex, mid: Complex): LaneState
  {
    var m := Advance(p, s.time, s.omega, ErrorOf(s, mid, current));
    LaneState(m.time, m.omega, current, true, s.symbols + 1, LockAfter(p.lock, s, mid, current))
  }

  // ---- Runs ----

  // An interpolated signal: a value for every time.
  type Signal = real -> Complex

  function DataSignal(cubic: bool, data: seq<Complex>): Signal
    requires |data| >= 4
  {
    t => DataValue(cubic, data, t)
  }

  function StreamSignal(cubic: bool, x: seq<Complex>): Signal { t => StreamValue(cubic, x, t) }

  function MidTime(s: LaneState): real { s.time - 0.5 * s.omega }

  function Next(p: Params, s: LaneState, v: Signal): LaneState { Step(p, s, v(s.time), v(MidTime(s))) }

  // Without an error the mid-point of the next symbol lies halfway between the two.
  lemma MidIsHalfway(p: Params, s: LaneState, v: Signal)
    requires ValidParams(p) && InBounds(p, s) && ErrorOf(s, v(MidTime(s)), v(s.time)) == 0.0
    ensures 2.0 * MidTime(Next(p, s, v)) == s.time + Next(p, s, v).time
  {
    hide Advance, ErrorOf, LockAfter;
    assert p.beta * 0.0 == 0.0 && p.alpha * 0.0 == 0.0;
    AdvanceMeans(p, s.time, s.omega, 0.0);
  }

  // Symbols until the next one would lie at or past the limit or there is no room left.
  function Run(p: Params, s: LaneState, v: Signal, limit: real, room: nat): (r: (LaneState, seq<Complex>))
    ensures |r.1| <= room
    decreases room
  {
    if room == 0 || s.time >= limit then (s, [])
    else
      var rest := Run(p, Next(p, s, v), v, limit, room - 1);
      (rest.0, [v(s.time)] + rest.1)
  }

  // No step of the run goes back in time.
  ghost predicate Forward(p: Params, s: LaneState, v: Signal, limit: real, room: nat)
    decreases room
  {
    room > 0 && s.time < limit ==> Next(p, s, v).time >= s.time && Forward(p, Next(p, s, v), v, limit, room - 1)
  }

  predicate InBounds(p: Params, s: LaneState) { p.omegaMin <= s.omega <= p.omegaMax }

  // A run keeps omega in its bounds and stops only at the limit or when it is out of room.
  lemma {:induction false} RunStops(p: Params, s: LaneState, v: Signal, limit: real, room: nat)
    requires ValidParams(p) && InBounds(p, s)
    ensures InBounds(p, Run(p, s, v, limit, room).0)
    ensures |Run(p, s, v, limit, room).1| < room ==> Run(p, s, v, limit, room).0.time >= limit
    ensures Run(p, s, v, limit, room).0.symbols == s.symbols + |Run(p, s, v, limit, room).1|
    decreases room
  {
    hide Advance, ValidParams;
    if room > 0 && s.time < limit {
      AdvanceMeans(p, s.time, s.omega, ErrorOf(s, v(MidTime(s)), v(s.time)));
      RunStops(p, Next(p, s, v), v, limit, room - 1);
    }
  }

  // If every step gains at least `gain`, a run of n symbols covers at least n - 1 gains.
  ghost predicate Gains(p: Params, s: LaneState, v: Signal, limit: real, room: nat, gain: real)
    decreases room
  {
    room > 0 && s.time < limit ==> Next(p, s, v).time >= s.time + gain && Gains(p, Next(p, s, v), v, limit, room - 1, gain)
  }

  lemma {:induction false} SymbolsFit(p: Params, s: LaneState, v: Signal, limit: real, room: nat, gain: real)
    requires gain > 0.0 && Gains(p, s, v, limit, room, gain)
    ensures
      var n := |Run(p, s, v, limit, room).1|;
      n > 0 ==> s.time + (n - 1) as real * gain < limit
    decreases room
  {
    hide Next;
    if room > 0 && s.time < limit {
      var next := Next(p, s, v);
      SymbolsFit(p, next, v, limit, room - 1, gain);
      var rest := |Run(p, next, v, limit, room - 1).1|;
      if rest > 0 {
        assert rest as real * gain == (rest - 1) as real * gain + gain;
      }
    }
  }

  // A run with more room continues where the shorter one stopped.
  lemma {:induction false} RunThen(p: Params, s: LaneState, v: Signal, limit: real, room: nat, later: real, more: nat)
    requires limit <= later && |Run(p, s, v, limit, room).1| == room
    ensures
      var first := Run(p, s, v, limit, room);
      var second := Run(p, first.0, v, later, more);
      Run(p, s, v, later, room + more) == (second.0, first.1 + second.1)
    decreases room
  {
    hide Next;
    if room > 0 && s.time < limit {
      var next := Next(p, s, v);
      RunThen(p, next, v, limit, room - 1, later, more);
      var rest := Run(p, next, v, limit, room - 1);
      var second := Run(p, rest.0, v, later, more);
      assert ([v(s.time)] + rest.1) + second.1 == [v(s.time)] + (rest.1 + second.1);
    } else {
      var second := Run(p, s, v, later, more);
      assert [] + second.1 == second.1;
    }
  }

  // Room that is not used makes no difference.
  lemma {:induction false} UnusedRoom(p: Params, s: LaneState, v: Signal, limit: real, room: nat)
    ensures Run(p, s, v, limit, |Run(p, s, v, limit, room).1|) == Run(p, s, v, limit, room)
    decreases room
  {
    hide Next;
    if room > 0 && s.time < limit {
      UnusedRoom(p, Next(p, s, v), v, limit, room - 1);
    }
  }

  // ---- One signal seen from two time origins ----

  function Shifted(s: LaneState, d: real): LaneState { s.(time := s.time + d) }

  lemma NextShifted(p: Params, s: LaneState, v: Signal, v': Signal, d: real)
    requires v'(s.time + d) == v(s.time) && v'(MidTime(s) + d) == v(MidTime(s))
    ensures Next(p, Shifted(s, d), v') == Shifted(Next(p, s, v), d)
  {
    hide LockAfter, DetectorError;
    assert MidTime(Shifted(s, d)) == MidTime(s) + d;
    ShiftedLock(p.lock, s, d, v(MidTime(s)), v(s.time));
  }

  lemma ShiftedLock(p: LockParams, s: LaneState, d: real, mid: Complex, current: Complex)
    ensures LockAfter(p, Shifted(s, d), mid, current) == LockAfter(p, s, mid, current)
    ensures ErrorOf(Shifted(s, d), mid, current) == ErrorOf(s, mid, current)
  {
    hide TrackLock, DetectorError, Energy, ErrorNorm2;
  }

  // Two signals show the same at every position a run looks at.
  ghost predicate SameAlong(p: Params, s: LaneState, v: Signal, v': Signal, d: real, limit: real, room: nat)
    decreases room
  {
    room > 0 && s.time < limit ==>
      && v'(s.time + d) == v(s.time) && v'(MidTime(s) + d) == v(MidTime(s))
      && SameAlong(p, Next(p, s, v), v, v', d, limit, room - 1)
  }

  // Then the run over the one is the run over the other, time origin aside.
  lemma {:induction false} RunShifted(p: Params, s: LaneState, v: Signal, v': Signal, d: real, limit: real, room: nat)
    requires SameAlong(p, s, v, v', d, limit, room)
    ensures Run(p, Shifted(s, d), v', limit + d, room) ==
            (Shifted(Run(p, s, v, limit, room).0, d), Run(p, s, v, limit, room).1)
    decreases room
  {
    hide Next;
    if room > 0 && s.time < limit {
      NextShifted(p, s, v, v', d);
      RunShifted(p, Next(p, s, v), v, v', d, limit, room - 1);
    }
  }

  // Signals that agree before the limit show the same to any run up to it.
  ghost predicate Agree(v: Signal, v': Signal, limit: real)
  {
    forall t :: t < limit ==> v'(t) == v(t)
  }

  lemma {:induction false} AgreeAlong(p: Params, s: LaneState, v: Signal, v': Signal, limit: real, room: nat)
    requires ValidParams(p) && InBounds(p, s) && Agree(v, v', limit)
    ensures SameAlong(p, s, v, v', 0.0, limit, room)
    decreases room
  {
    hide Next;
    if room > 0 && s.time < limit {
      assert s.time + 0.0 == s.time && MidTime(s) + 0.0 == MidTime(s) < limit;
      NextInBounds(p, s, v);
      AgreeAlong(p, Next(p, s, v), v, v', limit, room - 1);
    }
  }

  lemma NextInBounds(p: Params, s: LaneState, v: Signal)
    requires ValidParams(p)
    ensures InBounds(p, Next(p, s, v))
  {
    hide Advance;
    AdvanceMeans(p, s.time, s.omega, ErrorOf(s, v(MidTime(s)), v(s.time)));
  }

  // Inside the data no stencil is clamped: the buffer shows the stream.
  lemma NothingClamped(cubic: bool, data: seq<Complex>, x: seq<Complex>, origin: int, t: real)
    requires |data| < 0x8000_0000 && 1.0 <= t - origin as real < |data| as real - 2.0
    requires forall j :: 0 <= j < |data| ==> data[j] == At(x, origin + j)
    ensures |data| >= 4 && StencilIndex(|data|, t - origin as real) == TruncateToInt32(t - origin as real) == t.Floor - origin
    ensures DataValue(cubic, data, t - origin as real) == StreamValue(cubic, x, t)
  {
    hide At, Interpolate;
    var at := t - origin as real;
    assert at.Floor == t.Floor - origin;
    assert Fraction(at) == Fraction(t);
  }

  // Samples that arrive later do not change what lies two samples before them.
  lemma LaterSamples(cubic: bool, x: seq<Complex>, y: seq<Complex>, limit: real)
    requires |x| <= |y| && y[..|x|] == x && limit <= |x| as real - 2.0
    ensures Agree(StreamSignal(cubic, y), StreamSignal(cubic, x), limit)
  {
    hide Interpolate;
    var v, v' := StreamSignal(cubic, y), StreamSignal(cubic, x);
    forall t | t < limit ensures v'(t) == v(t) {
      var index := t.Floor;
      forall i | index - 1 <= i <= index + 2 ensures At(y, i) == At(x, i) {}
      assert StreamValue(cubic, y, t) == StreamValue(cubic, x, t);
    }
  }

  // ---- Stencils inside the data ----

  // The stencil of a position lies in a buffer that starts at `origin`.
  predicate Fits(origin: int, length: nat, position: real)
  {
    origin + 1 <= position.Floor && position.Floor + 2 < origin + length
  }

  // Every symbol of a run, and every mid-point, has its whole stencil inside the buffer.
  ghost predicate AllFit(p: Params, s: LaneState, v: Signal, origin: int, length: nat, limit: real, room: nat)
    decreases room
  {
    room > 0 && s.time < limit ==>
      Fits(origin, length, s.time) && Fits(origin, length, MidTime(s)) && AllFit(p, Next(p, s, v), v, origin, length, limit, room - 1)
  }

  lemma FitsFrom(origin: int, length: nat, position: real)
    ensures Fits(0, length, position) <==> Fits(origin, length, position + origin as real)
  {
    assert (position + origin as real).Floor == position.Floor + origin;
  }

  lemma FittingValue(cubic: bool, data: seq<Complex>, x: seq<Complex>, origin: int, position: real)
    requires 4 <= |data| < 0x8000_0000 && Fits(0, |data|, position)
    requires forall j :: 0 <= j < |data| ==> data[j] == At(x, origin + j)
    ensures StreamSignal(cubic, x)(position + origin as real) == DataSignal(cubic, data)(position)
  {
    hide At, Interpolate;
    var t := position + origin as real;
    assert t - origin as real == position;
    NothingClamped(cubic, data, x, origin, t);
  }

  // A run over a buffer never leaves it exactly if the run over the stream never leaves the
  // buffer's place in it, and then they are the same run.
  lemma {:induction false} FittingRun(p: Params, s: LaneState, data: seq<Complex>, x: seq<Complex>, origin: int, limit: real, room: nat)
    requires 4 <= |data| < 0x8000_0000 && forall j :: 0 <= j < |data| ==> data[j] == At(x, origin + j)
    ensures
      var v, v', d := DataSignal(p.cubic, data), StreamSignal(p.cubic, x), origin as real;
      AllFit(p, s, v, 0, |data|, limit, room) <==> AllFit(p, Shifted(s, d), v', origin, |data|, limit + d, room)
    ensures
      var v, v', d := DataSignal(p.cubic, data), StreamSignal(p.cubic, x), origin as real;
      AllFit(p, s, v, 0, |data|, limit, room) ==> SameAlong(p, s, v, v', d, limit, room)
    decreases room
  {
    hide Next, At, DataSignal, StreamSignal, Fits;
    var v, v', d := DataSignal(p.cubic, data), StreamSignal(p.cubic, x), origin as real;
    if room > 0 && s.time < limit {
      assert MidTime(Shifted(s, d)) == MidTime(s) + d;
      FitsFrom(origin, |data|, s.time);
      FitsFrom(origin, |data|, MidTime(s));
      if Fits(0, |data|, s.time) && Fits(0, |data|, MidTime(s)) {
        FittingValue(p.cubic, data, x, origin, s.time);
        FittingValue(p.cubic, data, x, origin, MidTime(s));
        NextShifted(p, s, v, v', d);
        FittingRun(p, Next(p, s, v), data, x, origin, limit, room - 1);
      }
    }
  }

  // A forward run that starts far enough inside stays inside.
  lemma {:induction false} ForwardFits(p: Params, s: LaneState, v: Signal, origin: int, length: nat, limit: real, room: nat)
    requires ValidParams(p) && InBounds(p, s) && Forward(p, s, v, limit, room)
    requires limit <= (origin + length) as real - 2.0 && (room == 0 || origin as real + 1.0 <= s.time - 0.5 * p.omegaMax)
    ensures AllFit(p, s, v, origin, length, limit, room)
    decreases room
  {
    hide Next;
    if room > 0 && s.time < limit {
      NextInBounds(p, s, v);
      ForwardFits(p, Next(p, s, v), v, origin, length, limit, room - 1);
    }
  }
}
