// When a timing loop cannot step back in time: a bound on the samples that a caller can check.
module SyncBounds {
  import opened ComplexNumbers
  import opened IfftTransform
  import opened SyncLoop
  import opened SyncStream

  predicate Between(value: real, bound: real) { -bound <= value <= bound }

  // Both components are at most `bound` in magnitude.
  predicate Within(v: Complex, bound: real) { Between(v.re, bound) && Between(v.im, bound) }

  // ---- Interpolation ----

  lemma SignOfProduct(a: real, b: real)
    ensures (a >= 0.0 && b >= 0.0) || (a <= 0.0 && b <= 0.0) ==> a * b >= 0.0
    ensures (a >= 0.0 && b <= 0.0) || (a <= 0.0 && b >= 0.0) ==> a * b <= 0.0
  {
  }

  function Magnitude(value: real): (m: real)
    ensures m >= 0.0 && Between(value, m)
  {
    if value < 0.0 then -value else value
  }

  function Product(a: real, b: real): real { a * b }

  lemma ProductWithin(w: real, value: real, bound: real)
    requires Between(value, bound)
    ensures Between(Product(w, value), Product(Magnitude(w), bound))
  {
    var m := Magnitude(w);
    SignOfProduct(m, bound - value);
    SignOfProduct(m, bound + value);
    assert m * (bound - value) == m * bound - m * value && m * (bound + value) == m * bound + m * value;
    assert w * value == if w < 0.0 then -(m * value) else m * value;
  }

  lemma ProductGrows(a: real, b: real, bound: real)
    requires a <= b && bound >= 0.0
    ensures Product(a, bound) <= Product(b, bound)
  {
    SignOfProduct(b - a, bound);
    assert (b - a) * bound == b * bound - a * bound;
  }

  lemma ProductOfSum(a: real, b: real, bound: real)
    ensures Product(a, bound) + Product(b, bound) == Product(a + b, bound)
  {
  }

  lemma ScaledWithin(w: real, v: Complex, bound: real)
    requires Within(v, bound)
    ensures Within(Scale(w, v), Product(Magnitude(w), bound))
  {
    hide Magnitude;
    ProductWithin(w, v.re, bound);
    ProductWithin(w, v.im, bound);
  }

  lemma SumWithin(a: Complex, b: Complex, x: real, y: real)
    requires Within(a, x) && Within(b, y)
    ensures Within(Add(a, b), x + y)
  {
  }

  lemma SignOf(a: real, b: real)
    ensures (a >= 0.0 && b >= 0.0) || (a <= 0.0 && b <= 0.0) ==> Product(a, b) >= 0.0
    ensures (a >= 0.0 && b <= 0.0) || (a <= 0.0 && b >= 0.0) ==> Product(a, b) <= 0.0
  {
    SignOfProduct(a, b);
  }

  lemma WeightsAreProducts(mu: real)
    ensures
      var w, ab, cm := Weights(mu), Product(mu - 1.0, mu - 2.0), Product(mu + 1.0, mu);
      && w.0 == Product(mu * (-1.0 / 6.0), ab) && w.1 == Product((mu + 1.0) * 0.5, ab)
      && w.2 == Product(cm, (mu - 2.0) * -0.5) && w.3 == Product(cm, (mu - 1.0) * (1.0 / 6.0))
  {
  }

  // Between two nodes the outer weights are not positive, the inner ones not negative.
  lemma WeightSigns(mu: real)
    requires 0.0 <= mu <= 1.0
    ensures
      var w := Weights(mu);
      w.0 <= 0.0 && w.1 >= 0.0 && w.2 >= 0.0 && w.3 <= 0.0
  {
    hide Product, Weights;
    var ab, cm := Product(mu - 1.0, mu - 2.0), Product(mu + 1.0, mu);
    WeightsAreProducts(mu);
    SignOf(mu - 1.0, mu - 2.0);
    SignOf(mu + 1.0, mu);
    SignOf(mu * (-1.0 / 6.0), ab);
    SignOf((mu + 1.0) * 0.5, ab);
    SignOf(cm, (mu - 2.0) * -0.5);
    SignOf(cm, (mu - 1.0) * (1.0 / 6.0));
  }

  // Together they exceed one by at most a quarter.
  lemma WeightsBounded(mu: real)
    requires 0.0 <= mu <= 1.0
    ensures
      var w := Weights(mu);
      Magnitude(w.0) + Magnitude(w.1) + Magnitude(w.2) + Magnitude(w.3) <= 1.25
  {
    hide Weights;
    WeightSigns(mu);
    WeightsAddUp(mu);
    SignOfProduct(mu - 0.5, mu - 0.5);
    assert (mu - 0.5) * (mu - 0.5) == mu * mu - mu + 0.25;
  }

  lemma WeightsAddUp(mu: real)
    ensures
      var w := Weights(mu);
      w.0 + w.1 + w.2 + w.3 == 1.0 && w.0 + w.3 == (mu * mu - mu) * 0.5
  {
    var a, b, c := mu - 1.0, mu - 2.0, mu + 1.0;
    var square, cube := mu * mu, mu * mu * mu;
    assert a * b == square - 3.0 * mu + 2.0;
    assert c * mu == square + mu;
    assert mu * (a * b) == cube - 3.0 * square + 2.0 * mu;
    assert c * (a * b) == cube - 2.0 * square - mu + 2.0;
    assert c * mu * b == cube - square - 2.0 * mu;
    assert c * mu * a == cube - mu;
  }

  lemma CubicWithin(s: Stencil, mu: real, bound: real)
    requires 0.0 <= mu <= 1.0 && bound >= 0.0 && Within(s.x0, bound) && Within(s.x1, bound) && Within(s.x2, bound) && Within(s.x3, bound)
    ensures Within(Interpolate(true, s, mu), Product(1.25, bound))
  {
    hide Weights, Add, Scale, Product, Magnitude;
    var w := Weights(mu);
    var m0, m1, m2, m3 := Magnitude(w.0), Magnitude(w.1), Magnitude(w.2), Magnitude(w.3);
    WeightsBounded(mu);
    ScaledWithin(w.0, s.x0, bound);
    ScaledWithin(w.1, s.x1, bound);
    ScaledWithin(w.2, s.x2, bound);
    ScaledWithin(w.3, s.x3, bound);
    SumWithin(Scale(w.1, s.x1), Scale(w.0, s.x0), Product(m1, bound), Product(m0, bound));
    SumWithin(Scale(w.3, s.x3), Scale(w.2, s.x2), Product(m3, bound), Product(m2, bound));
    SumWithin(Add(Scale(w.1, s.x1), Scale(w.0, s.x0)), Add(Scale(w.3, s.x3), Scale(w.2, s.x2)),
              Product(m1, bound) + Product(m0, bound), Product(m3, bound) + Product(m2, bound));
    ProductOfSum(m1, m0, bound);
    ProductOfSum(m3, m2, bound);
    ProductOfSum(m1 + m0, m3 + m2, bound);
    ProductGrows(m1 + m0 + (m3 + m2), 1.25, bound);
  }

  lemma LinearWithin(s: Stencil, mu: real, bound: real)
    requires 0.0 <= mu <= 1.0 && bound >= 0.0 && Within(s.x1, bound) && Within(s.x2, bound)
    ensures Within(Interpolate(false, s, mu), Product(1.25, bound))
  {
    hide Add, Scale, Product;
    ScaledWithin(mu, s.x2, bound);
    ScaledWithin(1.0 - mu, s.x1, bound);
    SumWithin(Scale(mu, s.x2), Scale(1.0 - mu, s.x1), Product(mu, bound), Product(1.0 - mu, bound));
    ProductOfSum(mu, 1.0 - mu, bound);
    ProductGrows(1.0, 1.25, bound);
  }

  // Main result on interpolation: values between samples exceed the samples by at most a quarter.
  lemma StreamWithin(cubic: bool, x: seq<Complex>, bound: real, t: real)
    requires bound >= 0.0 && forall i :: 0 <= i < |x| ==> Within(x[i], bound)
    ensures Within(StreamSignal(cubic, x)(t), Grown(bound))
  {
    hide Interpolate, Within, Product;
    var i, mu := t.Floor, Fraction(t);
    NothingWithin(bound);
    forall k ensures Within(At(x, k), bound) {}
    var s := Stencil(At(x, i - 1), At(x, i), At(x, i + 1), At(x, i + 2));
    CubicWithin(s, mu, bound);
    LinearWithin(s, mu, bound);
  }

  lemma NothingWithin(bound: real)
    requires bound >= 0.0
    ensures Within(ZERO, bound)
  {
  }

  // Largest value between samples of at most `bound`.
  function Grown(bound: real): (g: real)
    ensures bound >= 0.0 ==> g >= 0.0
  {
    Product(1.25, bound)
  }

  // ---- Errors ----

  // The largest error either detector can see on values of that size.
  function LargestError(bound: real): real { Max(4.0 * bound, 4.0 * (bound * bound)) }

  lemma DifferenceWithin(mid: real, difference: real, bound: real)
    requires bound >= 0.0 && Between(mid, bound) && Between(difference, 2.0 * bound)
    ensures Between(Product(mid, difference), 2.0 * (bound * bound))
  {
    hide Product;
    ProductWithin(mid, difference, 2.0 * bound);
    ProductGrows(Magnitude(mid), bound, 2.0 * bound);
    TwiceSquare(bound);
  }

  lemma TwiceSquare(bound: real)
    ensures Product(bound, 2.0 * bound) == 2.0 * (bound * bound)
  {
  }

  lemma ErrorWithin(muellerMuller: bool, previous: Complex, mid: Complex, current: Complex, bound: real)
    requires bound >= 0.0 && Within(previous, bound) && Within(mid, bound) && Within(current, bound)
    ensures Between(DetectorError(muellerMuller, previous, mid, current), LargestError(bound))
  {
    hide Product;
    ErrorForms(previous, mid, current);
    DifferenceWithin(mid.re, previous.re - current.re, bound);
    DifferenceWithin(mid.im, previous.im - current.im, bound);
    hide DetectorError;
    LargestErrorIs(bound);
  }

  lemma LargestErrorIs(bound: real)
    ensures LargestError(bound) >= 4.0 * bound && LargestError(bound) >= 4.0 * (bound * bound)
  {
  }

  lemma ErrorForms(previous: Complex, mid: Complex, current: Complex)
    ensures DetectorError(false, previous, mid, current) ==
            Product(mid.re, previous.re - current.re) + Product(mid.im, previous.im - current.im)
    ensures DetectorError(true, previous, mid, current) ==
            (SignTimes(previous.re, current.re) - SignTimes(current.re, previous.re)) +
            (SignTimes(previous.im, current.im) - SignTimes(current.im, previous.im))
  {
  }

  // ---- Runs ----

  ghost predicate PreviousWithin(s: LaneState, bound: real) { s.havePrevious ==> Within(s.previous, bound) }

  // Every step of a loop over such values gains what the proportional gain leaves of the
  // smallest omega, and the loop keeps remembering such a value.
  lemma {:induction false} BoundedGains(p: Params, s: LaneState, v: Signal, limit: real, room: nat, bound: real)
    requires ValidParams(p) && InBounds(p, s) && p.alpha >= 0.0 && bound >= 0.0
    requires PreviousWithin(s, bound) && forall t :: Within(v(t), bound)
    ensures Gains(p, s, v, limit, room, p.omegaMin - Product(p.alpha, LargestError(bound)))
    ensures PreviousWithin(Run(p, s, v, limit, room).0, bound)
    decreases room
  {
    hide Advance, DetectorError, LargestError, LockAfter, Product;
    if room > 0 && s.time < limit {
      var mid, current := v(MidTime(s)), v(s.time);
      if s.havePrevious { ErrorWithin(s.lock.muellerMuller, s.previous, mid, current, bound); }
      ErrorIsWithin(s, mid, current, bound);
      NextGains(p, s, v);
      ProductWithin(p.alpha, ErrorOf(s, mid, current), LargestError(bound));
      BoundedGains(p, Next(p, s, v), v, limit, room - 1, bound);
    }
  }

  lemma NextGains(p: Params, s: LaneState, v: Signal)
    requires ValidParams(p)
    ensures InBounds(p, Next(p, s, v)) && Next(p, s, v).time >= s.time + p.omegaMin + Product(p.alpha, ErrorOf(s, v(MidTime(s)), v(s.time)))
  {
    hide Advance, ErrorOf, LockAfter;
    AdvanceMeans(p, s.time, s.omega, ErrorOf(s, v(MidTime(s)), v(s.time)));
  }

  lemma ErrorIsWithin(s: LaneState, mid: Complex, current: Complex, bound: real)
    requires bound >= 0.0
    requires s.havePrevious ==> Between(DetectorError(s.lock.muellerMuller, s.previous, mid, current), LargestError(bound))
    ensures Between(ErrorOf(s, mid, current), LargestError(bound))
  {
    hide DetectorError;
  }

  // Main result: if no sample is larger than `bound` and the proportional gain times the
  // largest error such samples can cause is at most the smallest omega, no step of the loop
  // goes back in time, for any detector, interpolator and stream.
  lemma BoundedIsForward(p: Params, s: LaneState, x: seq<Complex>, limit: real, room: nat, bound: real)
    requires ValidParams(p) && InBounds(p, s) && p.alpha >= 0.0 && bound >= 0.0
    requires PreviousWithin(s, Grown(bound)) && forall i :: 0 <= i < |x| ==> Within(x[i], bound)
    requires Product(p.alpha, LargestError(Grown(bound))) <= p.omegaMin
    ensures Forward(p, s, StreamSignal(p.cubic, x), limit, room)
    ensures PreviousWithin(Run(p, s, StreamSignal(p.cubic, x), limit, room).0, Grown(bound))
  {
    hide StreamSignal, Within, LargestError, Run, Forward, PreviousWithin, Product, Grown;
    var v := StreamSignal(p.cubic, x);
    forall t ensures Within(v(t), Grown(bound)) {
      StreamWithin(p.cubic, x, bound, t);
    }
    BoundedGains(p, s, v, limit, room, Grown(bound));
    GainsAreForward(p, s, v, limit, room, p.omegaMin - Product(p.alpha, LargestError(Grown(bound))));
  }

  // Main result for calls: then no call clamps a stencil, its passes are the loop over the
  // stream, and the next call starts from such a state again.
  lemma BoundedCall(p: Params, s: LaneState, omegaMax: real, history: nat, kept: seq<Complex>, x: seq<Complex>, block: seq<Complex>, capacity: nat,
                    bound: real)
    requires Placed(p, s, omegaMax, history, kept, x) && |block| < 0x4000_0000 && p.alpha >= 0.0 && bound >= 0.0
    requires PreviousWithin(s, Grown(bound)) && forall i :: 0 <= i < |x + block| ==> Within((x + block)[i], bound)
    requires Product(p.alpha, LargestError(Grown(bound))) <= p.omegaMin
    ensures |kept| == history >= 4 && Unclamped(p, s, history, kept, block, capacity)
    ensures
      var e := TwoPasses(p, s, history, kept, block, capacity);
      && Run(p, Shifted(s, |x| as real), StreamSignal(p.cubic, x + block), |x + block| as real - 2.0, capacity) == (Shifted(e.0, |x| as real), e.1)
      && PreviousWithin(e.0, Grown(bound))
  {
    hide Within, LargestError, Run, Forward, Placed, TwoPasses, Unclamped, Product, Grown;
    PlacedMeans(p, s, omegaMax, history, kept, x);
    PlacedKeeps(p, s, omegaMax, history, kept, x);
    BoundedIsForward(p, Shifted(s, |x| as real), x + block, |x + block| as real - 2.0, capacity, bound);
    PassesNeverClamp(p, s, omegaMax, history, kept, x, block, capacity);
    PassesAreOneLoop(p, s, history, kept, x, block, capacity);
  }

  // And the output capacity follows from what every step gains at least.
  lemma BoundedCapacity(p: Params, s: LaneState, omegaMax: real, history: nat, kept: seq<Complex>, x: seq<Complex>, block: seq<Complex>, capacity: nat,
                        bound: real)
    requires Placed(p, s, omegaMax, history, kept, x) && |block| < 0x4000_0000 && s.time >= -2.0 && p.alpha >= 0.0 && bound >= 0.0
    requires PreviousWithin(s, Grown(bound)) && forall i :: 0 <= i < |x + block| ==> Within((x + block)[i], bound)
    requires
      var gain := p.omegaMin - Product(p.alpha, LargestError(Grown(bound)));
      gain > 0.0 && capacity as real >= |block| as real / gain + 2.0
    ensures |kept| == history >= 4
    ensures |TwoPasses(p, s, history, kept, block, capacity).1| < capacity
  {
    hide Within, LargestError, Run, Gains, Placed, TwoPasses, Product, Grown, StreamSignal;
    PlacedMeans(p, s, omegaMax, history, kept, x);
    var v := StreamSignal(p.cubic, x + block);
    forall t ensures Within(v(t), Grown(bound)) {
      StreamWithin(p.cubic, x + block, bound, t);
    }
    BoundedGains(p, Shifted(s, |x| as real), v, |x + block| as real - 2.0, capacity, Grown(bound));
    CapacitySuffices(p, s, history, kept, x, omegaMax, block, capacity, p.omegaMin - Product(p.alpha, LargestError(Grown(bound))));
  }
}
