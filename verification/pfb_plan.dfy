// Creation of a channelizer: validation, ring size, coefficient rows, and the post-phase
// table whose period is built from greatest common divisors.
module PfbPlan {
  import opened Bits
  import opened ComplexNumbers
  import opened IfftTransform
  import opened PfbFilterBank

  // ---- Divisors and multiples ----

  function Gcd(a: nat, b: nat): (g: nat)
    requires a > 0
    ensures g > 0
    decreases b
  {
    if b == 0 then a else if a % b == 0 then b else Gcd(b, a % b)
  }

  lemma GcdFactors(a: nat, b: nat) returns (p: nat, q: nat)
    requires a > 0
    ensures a == Gcd(a, b) * p && b == Gcd(a, b) * q && p > 0
    decreases b
  {
    if b == 0 {
      p, q := 1, 0;
    } else {
      DivMod(a, b);
      if a % b == 0 {
        p, q := a / b, 1;
      } else {
        var p', q' := GcdFactors(b, a % b);
        var g := Gcd(b, a % b);
        p, q := p' * (a / b) + q', p';
        FactorOut(g, p', a / b, q');
      }
    }
    if p == 0 { assert false; }
  }

  lemma FactorOut(g: int, p: int, d: int, q: int)
    ensures g * p * d + g * q == g * (p * d + q)
  {
    assert g * (p * d + q) == g * (p * d) + g * q;
  }

  function Lcm(a: nat, b: nat): (l: nat)
    requires a > 0 && b > 0
    ensures l > 0
  {
    var g := Gcd(a, b);
    LcmPositive(a, b);
    a / g * b
  }

  lemma LcmPositive(a: nat, b: nat)
    requires a > 0 && b > 0
    ensures a / Gcd(a, b) * b > 0
  {
    var p, q := GcdFactors(a, b);
    DivUnique(a, Gcd(a, b), p, 0);
    assert p * b >= b by { MulStrict(b, 0, p); }
  }

  // The least common multiple is a multiple of both.
  lemma LcmMultiples(a: nat, b: nat) returns (s: nat, t: nat)
    requires a > 0 && b > 0
    ensures Lcm(a, b) == a * s && Lcm(a, b) == b * t
  {
    var g := Gcd(a, b);
    var p, q := GcdFactors(a, b);
    DivUnique(a, g, p, 0);
    s, t := q, p;
    assert p * b == g * p * q by { assert p * (g * q) == g * p * q; }
    assert p * b == b * p;
  }

  // Euclid's algorithm also writes the greatest common divisor as a combination.
  lemma Bezout(a: nat, b: nat) returns (s: int, t: int)
    requires a > 0
    ensures a * s + b * t == Gcd(a, b)
    decreases b
  {
    if b == 0 {
      s, t := 1, 0;
    } else if a % b == 0 {
      s, t := 0, 1;
    } else {
      DivMod(a, b);
      var u, v := Bezout(b, a % b);
      s, t := v, u - a / b * v;
      EuclidStep(a, b, a / b, a % b, u, v);
    }
  }

  lemma EuclidStep(a: int, b: int, d: int, r: int, u: int, v: int)
    requires a == b * d + r
    ensures a * v + b * (u - d * v) == b * u + r * v
  {
    assert a * v == b * d * v + r * v;
    assert b * (u - d * v) == b * u - b * (d * v);
    assert b * d * v == b * (d * v);
  }

  // The cofactors of the greatest common divisor have a combination of 1.
  lemma CofactorsAreCoprime(g: int, p: int, q: int, s: int, t: int)
    requires g > 0 && g * p * s + g * q * t == g
    ensures p * s + q * t == 1
  {
    assert g * (p * s + q * t) == g * p * s + g * q * t;
    var one := p * s + q * t;
    if one > 1 { MulStrict(g, 1, one); }
    if one < 1 { MulStrict(g, one, 1); }
  }

  // If q * h is a multiple of p and p, q have a combination of 1, then h is.
  lemma CoprimeDivides(p: int, q: int, h: int, k: int, s: int, t: int)
    requires p * s + q * t == 1 && q * h == p * k
    ensures h == p * (s * h + k * t)
  {
    assert h * (p * s + q * t) == h * 1;
    assert h * (p * s + q * t) == h * (p * s) + h * (q * t);
    assert h * (p * s) == p * (s * h) && h * (q * t) == q * h * t;
    assert p * k * t == p * (k * t);
    assert p * (s * h + k * t) == p * (s * h) + p * (k * t);
  }

  lemma MultipleMod(h: nat, p: nat, k: int)
    requires p > 0 && h == p * k
    ensures h % p == 0
  {
    DivUnique(h, p, k, 0);
  }

  // The least common multiple divides every common multiple.
  lemma LcmIsLeast(a: nat, b: nat, h: nat)
    requires a > 0 && b > 0 && h % a == 0 && h % b == 0
    ensures h % Lcm(a, b) == 0
  {
    hide Gcd;
    var g := Gcd(a, b);
    var p, q := GcdFactors(a, b);
    var s, t := Bezout(a, b);
    CofactorsAreCoprime(g, p, q, s, t);
    DivUnique(a, g, p, 0);
    DivMod(h, a);
    DivMod(h, b);
    var u, v := h / a, h / b;
    CommonMultiple(g, p, q, h, u, v, s, t);
    MultipleMod(h, Lcm(a, b), v * s + u * t);
  }

  lemma CommonMultiple(g: int, p: int, q: int, h: int, u: int, v: int, s: int, t: int)
    requires p * s + q * t == 1 && h == g * p * u && h == g * q * v
    ensures h == p * (g * q) * (v * s + u * t)
  {
    var b := g * q;
    assert h * (p * s + q * t) == h * 1;
    assert h * (p * s + q * t) == h * (p * s) + h * (q * t);
    assert b * v * (p * s) == p * b * (v * s);
    assert g * p * u * (q * t) == p * b * (u * t) by { assert g * p * u * (q * t) == p * (g * q) * (u * t); }
    assert p * b * (v * s + u * t) == p * b * (v * s) + p * b * (u * t);
  }

  // ---- The phase period ----

  function Modulus(c: Config): nat { if c.halfGrid then 2 * c.bins else c.bins }

  function Numerator(c: Config, b: int): int { if c.halfGrid then 2 * b + 1 else b }

  function Magnitude(a: int): nat { if a < 0 then -a else a }

  // Hops after which the post phase of one bin repeats.
  function BinPeriod(c: Config, b: int): (p: nat)
    requires c.bins > 0
    ensures p > 0
  {
    var step := Magnitude(Numerator(c, b) * c.decimation);
    QuotientPositive(Modulus(c), step);
    Modulus(c) / Gcd(Modulus(c), step)
  }

  lemma QuotientPositive(a: nat, b: nat)
    requires a > 0
    ensures a / Gcd(a, b) > 0
  {
    var p, q := GcdFactors(a, b);
    DivUnique(a, Gcd(a, b), p, 0);
  }

  // Common period of the first n selected bins.
  function Period(c: Config, n: nat): (p: nat)
    requires c.bins > 0 && n <= |c.logical|
    ensures p > 0
  {
    if n == 0 then 1 else Lcm(Period(c, n - 1), BinPeriod(c, c.logical[n - 1]))
  }

  lemma {:induction false} PeriodIsMultiple(c: Config, n: nat, i: nat) returns (t: nat)
    requires c.bins > 0 && i < n <= |c.logical|
    ensures Period(c, n) == BinPeriod(c, c.logical[i]) * t
  {
    hide BinPeriod, Lcm;
    var s, u := LcmMultiples(Period(c, n - 1), BinPeriod(c, c.logical[n - 1]));
    if i == n - 1 {
      t := u;
    } else {
      var v := PeriodIsMultiple(c, n - 1, i);
      t := v * s;
      Reassociate(BinPeriod(c, c.logical[i]), v, s);
    }
  }

  lemma Reassociate(a: int, b: int, c: int)
    ensures a * b * c == a * (b * c)
  {
  }

  // A bin's own period spans whole turns.
  lemma BinPeriodTurns(c: Config, b: int) returns (turns: int)
    requires c.bins > 0
    ensures Numerator(c, b) * c.decimation * BinPeriod(c, b) == turns * Modulus(c)
  {
    hide Gcd, Modulus, Numerator;
    var signed := Numerator(c, b) * c.decimation;
    var step := Magnitude(signed);
    ModulusPositive(c);
    var p, q := GcdFactors(Modulus(c), step);
    var g := Gcd(Modulus(c), step);
    DivUnique(Modulus(c), g, p, 0);
    turns := SignedTurns(signed, g, p, q);
  }

  lemma ModulusPositive(c: Config)
    requires c.bins > 0
    ensures Modulus(c) > 0
  {
  }

  lemma SignedTurns(signed: int, g: int, p: int, q: int) returns (turns: int)
    requires Magnitude(signed) == g * q
    ensures signed * p == turns * (g * p)
  {
    turns := if signed < 0 then -q else q;
    assert signed == g * turns by { assert g * -q == -(g * q); }
    assert g * turns * p == turns * (g * p) by { assert g * turns == turns * g; Reassociate(turns, g, p); }
  }

  // Frequency times decimation times the common period is whole turns.
  lemma PeriodTurns(c: Config, i: nat) returns (turns: int)
    requires c.bins > 0 && i < |c.logical|
    ensures Frequency(c, c.logical[i]) * (c.decimation * Period(c, |c.logical|)) == turns * (2 * c.bins)
  {
    hide Period, BinPeriod;
    var b, n := c.logical[i], |c.logical|;
    var t := PeriodIsMultiple(c, n, i);
    var u := BinPeriodTurns(c, b);
    var d, p, v := c.decimation, BinPeriod(c, b), Numerator(c, b);
    turns := u * t;
    assert v * (d * (p * t)) == u * t * Modulus(c) by {
      assert v * (d * (p * t)) == v * d * p * t by { Regroup(v, d, p, t); }
      assert u * Modulus(c) * t == u * t * Modulus(c);
    }
    if !c.halfGrid {
      assert Frequency(c, b) == 2 * v;
      assert 2 * v * (d * (p * t)) == 2 * (v * (d * (p * t)));
      assert 2 * (u * t * c.bins) == u * t * (2 * c.bins);
    }
  }

  lemma Regroup(v: int, d: int, p: int, t: int)
    ensures v * (d * (p * t)) == v * d * p * t
  {
    assert d * (p * t) == d * p * t;
    assert v * (d * p * t) == v * (d * p) * t;
    assert v * (d * p) == v * d * p;
  }

  // Some hops are whole turns of a bin only if its period divides them.
  lemma BinPeriodDivides(c: Config, b: int, hops: nat)
    requires c.bins > 0 && Numerator(c, b) * c.decimation * hops % Modulus(c) == 0
    ensures hops % BinPeriod(c, b) == 0
  {
    hide Gcd, Modulus, Numerator;
    var signed, m := Numerator(c, b) * c.decimation, Modulus(c);
    var step := Magnitude(signed);
    ModulusPositive(c);
    var g := Gcd(m, step);
    var p, q := GcdFactors(m, step);
    var s, t := Bezout(m, step);
    CofactorsAreCoprime(g, p, q, s, t);
    DivUnique(m, g, p, 0);
    var turns := signed * hops / m;
    assert signed * hops == m * turns;
    var k := if signed < 0 then -turns else turns;
    assert step * hops == m * k by { NegatedTurns(signed, hops, m, turns); }
    CancelFactor(g, q * hops, p * k) by {
      assert g * q * hops == g * (q * hops) && g * p * k == g * (p * k);
    }
    CoprimeDivides(p, q, hops, k, s, t);
    MultipleMod(hops, p, s * hops + k * t);
  }

  lemma NegatedTurns(signed: int, hops: int, m: int, turns: int)
    requires signed * hops == m * turns
    ensures -signed * hops == m * -turns
  {
    assert -signed * hops == -(signed * hops) && m * -turns == -(m * turns);
  }

  lemma CancelFactor(g: int, a: int, b: int)
    requires g > 0 && g * a == g * b
    ensures a == b
  {
    if a < b { MulStrict(g, a, b); }
    if b < a { MulStrict(g, b, a); }
  }

  lemma {:induction false} PeriodDivides(c: Config, n: nat, hops: nat)
    requires c.bins > 0 && n <= |c.logical|
    requires forall i :: 0 <= i < n ==> hops % BinPeriod(c, c.logical[i]) == 0
    ensures hops % Period(c, n) == 0
  {
    hide BinPeriod, Lcm;
    if n == 0 {
      assert hops % 1 == 0;
    } else {
      PeriodDivides(c, n - 1, hops);
      LcmIsLeast(Period(c, n - 1), BinPeriod(c, c.logical[n - 1]), hops);
    }
  }

  // Whether some hops turn every selected bin by whole turns.
  predicate WholeTurns(c: Config, hops: nat)
    requires c.bins > 0
  {
    forall i :: 0 <= i < |c.logical| ==> (2 * c.logical[i] + if c.halfGrid then 1 else 0) * c.decimation * hops % (2 * c.bins) == 0
  }

  // Main result on the period: the multiples of it, and no others, are whole turns of every
  // selected bin.
  lemma PeriodIsLeast(c: Config, hops: nat)
    requires c.bins > 0
    ensures WholeTurns(c, hops) <==> hops % Period(c, |c.logical|) == 0
  {
    hide Period, BinPeriod, Modulus, Numerator;
    var p := Period(c, |c.logical|);
    if WholeTurns(c, hops) {
      forall i | 0 <= i < |c.logical| ensures hops % BinPeriod(c, c.logical[i]) == 0 {
        HalvedTurns(c, c.logical[i], hops);
        BinPeriodDivides(c, c.logical[i], hops);
      }
      PeriodDivides(c, |c.logical|, hops);
    } else if hops % p == 0 {
      var k := hops / p;
      DivMod(hops, p);
      forall i | 0 <= i < |c.logical|
        ensures (2 * c.logical[i] + if c.halfGrid then 1 else 0) * c.decimation * hops % (2 * c.bins) == 0
      {
        var turns := PeriodTurns(c, i);
        var f := Frequency(c, c.logical[i]);
        ManyTurns(f, c.decimation, p, k, turns, 2 * c.bins);
        ZeroRemainder(f * c.decimation * hops, 2 * c.bins, turns * k);
      }
      assert false;
    }
  }

  lemma ManyTurns(f: int, d: int, p: int, k: int, turns: int, order: int)
    requires f * (d * p) == turns * order
    ensures f * d * (p * k) == order * (turns * k)
  {
    assert f * d * (p * k) == f * (d * p) * k;
    assert turns * order * k == order * (turns * k);
  }

  lemma ZeroRemainder(x: int, m: int, k: int)
    requires m > 0 && x == m * k
    ensures x % m == 0
  {
    DivUnique(x, m, k, 0);
  }

  // The same turns counted on the grid of the bins.
  lemma HalvedTurns(c: Config, b: int, hops: nat)
    requires c.bins > 0 && (2 * b + if c.halfGrid then 1 else 0) * c.decimation * hops % (2 * c.bins) == 0
    ensures Numerator(c, b) * c.decimation * hops % Modulus(c) == 0
  {
    if !c.halfGrid {
      var x := b * c.decimation * hops;
      assert 2 * b * c.decimation * hops == 2 * x by { assert 2 * b * c.decimation == 2 * (b * c.decimation); }
      var turns := 2 * x / (2 * c.bins);
      assert 2 * x == 2 * c.bins * turns;
      assert 2 * c.bins * turns == 2 * (c.bins * turns);
      ZeroRemainder(x, c.bins, turns);
    }
  }

  // Main result on the table: the phase of hop h is the table entry at h modulo the period.
  lemma PhaseRepeats(c: Config, w: int -> Complex, i: nat, h: nat)
    requires c.bins > 0 && i < |c.logical| && RootsOfUnity(w, 2 * c.bins)
    ensures
      var f := Frequency(c, c.logical[i]);
      w(-f * (h * c.decimation)) == w(-f * (c.decimation * (h % Period(c, |c.logical|))))
  {
    hide RootsOfUnity, Period, Frequency;
    var f, d, p := Frequency(c, c.logical[i]), c.decimation, Period(c, |c.logical|);
    var turns := PeriodTurns(c, i);
    var q, r := h / p, h % p;
    DivMod(h, p);
    WholePeriods(f, d, p, q, r, turns, 2 * c.bins);
    RootPeriod(w, 2 * c.bins, -f * (d * r), -q * turns);
  }

  lemma WholePeriods(f: int, d: int, p: int, q: int, r: int, turns: int, order: int)
    requires f * (d * p) == turns * order
    ensures -f * ((p * q + r) * d) == -f * (d * r) + -q * turns * order
  {
    assert (p * q + r) * d == d * r + d * p * q by {
      assert (p * q + r) * d == p * q * d + r * d;
      assert p * q * d == d * p * q by { assert p * q * d == d * (p * q); }
    }
    assert f * (d * p * q) == q * (turns * order) by {
      assert f * (d * p * q) == f * (d * p) * q;
    }
    assert f * (d * r + d * p * q) == f * (d * r) + f * (d * p * q);
    assert -q * turns * order == -(q * (turns * order)) by { assert -q * turns * order == -q * (turns * order); }
    NegatedProduct(f, d * r + d * p * q);
    NegatedProduct(f, d * r);
  }

  lemma NegatedProduct(a: int, b: int)
    ensures -a * b == -(a * b)
  {
  }

  // ---- The plan ----

  // What creation derives from a configuration. Tables hold exact values.
  datatype Plan = Plan(config: Config, rows: nat, historySize: nat, logHistory: nat, coefficients: seq<real>,
                       rotation: seq<Complex>, period: nat, postPhase: seq<Complex>, weights: seq<Complex>)

  function Cell(row: nat, width: nat, column: nat): nat { row * width + column }

  lemma CellRange(row: nat, rows: nat, width: nat, column: nat)
    requires row < rows && column < width
    ensures Cell(row, width, column) < rows * width
    ensures Cell(row, width, column) / width == row && Cell(row, width, column) % width == column
  {
    assert row * width == width * row;
    DivUnique(Cell(row, width, column), width, row, column);
    MulStrict(width, row, rows);
    assert rows * width == width * rows;
  }

  // Longest stretch of samples one hop reads.
  function Span(c: Config): nat
    requires c.bins > 0
  {
    Rows(c) * c.bins
  }

  ghost predicate CoefficientsFor(r: seq<real>, c: Config)
    requires c.bins > 0
  {
    && |r| == Span(c)
    && forall i :: 0 <= i < |r| ==> r[i] == Coefficient(c, i / c.bins, c.bins - 1 - i % c.bins)
  }

  ghost predicate PostPhasesFor(r: seq<Complex>, c: Config, w: int -> Complex, period: nat)
  {
    && period > 0 && |r| == |c.logical| * period
    && forall i :: 0 <= i < |r| ==> r[i] == PostPhase(c, w, i / period, i % period)
  }

  ghost predicate RotationsFor(r: seq<Complex>, c: Config, w: int -> Complex)
  {
    |r| == c.bins && forall branch :: 0 <= branch < c.bins ==> r[branch] == w(Offset(c) * branch)
  }

  ghost predicate WeightsFor(r: seq<Complex>, c: Config, w: int -> Complex)
  {
    |c.logical| == 1 ==> |r| == c.bins && forall branch :: 0 <= branch < c.bins ==> r[branch] == Weight(c, w, branch)
  }

  ghost predicate PlanFor(p: Plan, w: int -> Complex, staging: nat)
  {
    && ValidConfig(p.config) && p.rows == Rows(p.config)
    && p.historySize == Pow2(p.logHistory) && p.historySize >= Span(p.config) + staging + 3 * p.config.decimation
    && p.period == Period(p.config, |p.config.logical|)
    && CoefficientsFor(p.coefficients, p.config) && RotationsFor(p.rotation, p.config, w)
    && PostPhasesFor(p.postPhase, p.config, w, p.period) && WeightsFor(p.weights, p.config, w)
  }

  // Table entry of one output at one phase.
  function PostPhase(c: Config, w: int -> Complex, output: int, phase: int): Complex
  {
    if 0 <= output < |c.logical| then w(-Frequency(c, c.logical[output]) * (c.decimation * phase)) else ZERO
  }

  // Rotation and transform weight of a branch for a single selected output.
  function Weight(c: Config, w: int -> Complex, branch: int): Complex
    requires |c.logical| == 1
  {
    Mul(w(Offset(c) * branch), w(2 * branch * FftBin(c, c.logical[0])))
  }

  method NextPowerOfTwo(value: nat) returns (result: nat, log: nat)
    ensures result == Pow2(log) && result >= value
    ensures log > 0 ==> Pow2(log - 1) < value
  {
    result, log := 1, 0;
    while result < value
      invariant result == Pow2(log) && (log > 0 ==> Pow2(log - 1) < value)
      decreases value - result
    {
      result, log := result * 2, log + 1;
    }
  }

  // Place i of the coefficient rows: the rows hold the taps in reverse, padded with zeros, and
  // every other row changes sign on the half-bin grid.
  function RowTap(taps: seq<real>, bins: nat, halfGrid: bool, i: nat): real
    requires bins > 0
  {
    var row := i / bins;
    var k := row * bins + (bins - 1 - i % bins);
    var tap := if k < |taps| then taps[k] else 0.0;
    if halfGrid && row % 2 == 1 then -tap else tap
  }

  lemma CoefficientsAreTaps(r: seq<real>, c: Config)
    requires c.bins > 0 && CoefficientsFor(r, c)
    ensures forall i :: 0 <= i < |r| ==> r[i] == RowTap(c.taps, c.bins, c.halfGrid, i)
  {
    hide Rows;
  }

  method Coefficients(c: Config) returns (r: seq<real>)
    requires c.bins > 0
    ensures CoefficientsFor(r, c)
    ensures forall i :: 0 <= i < |r| ==> r[i] == RowTap(c.taps, c.bins, c.halfGrid, i)
  {
    hide Coefficient, RowSign, Tap, Cell;
    r := [];
    for row := 0 to Rows(c)
      invariant |r| == row * c.bins
      invariant forall i :: 0 <= i < |r| ==> r[i] == Coefficient(c, i / c.bins, c.bins - 1 - i % c.bins)
    {
      CellNext(row, c.bins, 0);
      for lane := 0 to c.bins
        invariant |r| == Cell(row, c.bins, lane)
        invariant forall i :: 0 <= i < |r| ==> r[i] == Coefficient(c, i / c.bins, c.bins - 1 - i % c.bins)
      {
        CellRange(row, row + 1, c.bins, lane);
        r := r + [Coefficient(c, row, c.bins - 1 - lane)];
        CellNext(row, c.bins, lane);
      }
      CellEnd(row, c.bins);
    }
    CoefficientsAreTaps(r, c);
  }

  lemma CellNext(row: nat, width: nat, column: nat)
    ensures Cell(row, width, column + 1) == Cell(row, width, column) + 1
    ensures Cell(row, width, 0) == row * width
  {
  }

  lemma CellEnd(row: nat, width: nat)
    ensures Cell(row, width, width) == (row + 1) * width
  {
  }

  method PhasePeriod(c: Config) returns (period: nat)
    requires c.bins > 0
    ensures period == Period(c, |c.logical|)
  {
    period := 1;
    for i := 0 to |c.logical|
      invariant period > 0 && period == Period(c, i)
    {
      period := Lcm(period, BinPeriod(c, c.logical[i]));
    }
  }

  method PostPhases(c: Config, w: int -> Complex, period: nat) returns (r: seq<Complex>)
    requires period > 0
    ensures PostPhasesFor(r, c, w, period)
  {
    hide PostPhase, Cell;
    r := [];
    for output := 0 to |c.logical|
      invariant |r| == output * period
      invariant forall i :: 0 <= i < |r| ==> r[i] == PostPhase(c, w, i / period, i % period)
    {
      CellNext(output, period, 0);
      for phase := 0 to period
        invariant |r| == Cell(output, period, phase)
        invariant forall i :: 0 <= i < |r| ==> r[i] == PostPhase(c, w, i / period, i % period)
      {
        CellRange(output, output + 1, period, phase);
        r := r + [PostPhase(c, w, output, phase)];
        CellNext(output, period, phase);
      }
      CellEnd(output, period);
    }
  }

  datatype Created = Rejected | Created(plan: Plan)

  // Samples written ahead of their filters: none, 64, or 256 in the exact layout.
  function WrittenAhead(c: Config, avx2: bool, runs: bool): nat
  {
    if !avx2 || c.bins != 8 || c.decimation != 4 || |c.logical| < 2 then 0
    else if runs && c.halfGrid && c.logical == [-2, -1, 0, 1] then 256 else 64
  }

  // The ring is the least power of two that holds the rows, what is written ahead, and three hops.
  ghost predicate LeastRing(c: Config, size: nat, log: nat, ahead: nat)
    requires c.bins > 0
  {
    var needed := (|c.taps| + c.bins - 1) / c.bins * c.bins + ahead + 3 * c.decimation;
    size == Pow2(log) && size >= needed && (log > 0 ==> Pow2(log - 1) < needed)
  }

  method RingSize(c: Config, avx2: bool, runs: bool) returns (size: nat, log: nat)
    requires ValidConfig(c)
    ensures LeastRing(c, size, log, WrittenAhead(c, avx2, runs))
    ensures size == Pow2(log) && size >= Span(c) + WrittenAhead(c, avx2, runs) + 3 * c.decimation
  {
    hide Pow2;
    var staged := avx2 && c.bins == 8 && c.decimation == 4 && |c.logical| > 1;
    var exact := staged && runs && c.halfGrid && c.logical == [-2, -1, 0, 1];
    var staging := if exact then 256 else if staged then 64 else 0;
    size, log := NextPowerOfTwo(Rows(c) * c.bins + staging + 3 * c.decimation);
  }

  // Creation succeeds exactly for valid configurations, and then every table is the one
  // the filter bank needs, the rows written out in the taps.
  method MakePlan(c: Config, w: int -> Complex, avx2: bool, runs: bool) returns (r: Created)
    ensures r.Created? <==>
              && (c.bins == 4 || c.bins == 8 || c.bins == 16 || c.bins == 32) && 1 <= c.decimation <= c.bins
              && 1 <= |c.taps| <= 1025 && |c.logical| <= c.bins && |c.logical| <= 8
              && (forall i :: 0 <= i < |c.logical| ==> -(c.bins / 2) <= c.logical[i] < c.bins / 2)
              && (forall i, j :: 0 <= i < j < |c.logical| ==> c.logical[i] != c.logical[j])
    ensures r.Created? ==> r.plan.config == c && PlanFor(r.plan, w, WrittenAhead(c, avx2, runs))
    ensures r.Created? ==> c.bins > 0 && LeastRing(c, r.plan.historySize, r.plan.logHistory, WrittenAhead(c, avx2, runs))
    ensures r.Created? ==> c.bins > 0 && forall i :: 0 <= i < |r.plan.coefficients| ==>
              r.plan.coefficients[i] == RowTap(c.taps, c.bins, c.halfGrid, i)
  {
    if !ValidConfig(c) {
      return Rejected;
    }
    hide Coefficient, PostPhasesFor, CoefficientsFor, Weight, Period, Pow2, WrittenAhead, RowTap, LeastRing, Rows, Span;
    var size, log := RingSize(c, avx2, runs);
    var coefficients := Coefficients(c);
    var period := PhasePeriod(c);
    var postPhase := PostPhases(c, w, period);
    var rotation := seq(c.bins, branch requires 0 <= branch < c.bins => w(Offset(c) * branch));
    var weights: seq<Complex> := [];
    if |c.logical| == 1 {
      weights := seq(c.bins, branch requires 0 <= branch < c.bins => Weight(c, w, branch));
    }
    r := Created(Plan(c, Rows(c), size, log, coefficients, rotation, period, postPhase, weights));
  }
}
