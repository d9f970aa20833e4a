// One hop of the channelizer: branch accumulation over the history ring, branch rotation,
// inverse transform and post phase, computed in place as the generic backend does.
module PfbHop {
  import opened Bits
  import opened ComplexNumbers
  import opened IfftTransform
  import Ifft = IfftKernel
  import opened PfbFilterBank
  import opened PfbPlan
  import opened PfbRing

  // ---- The roots of unity of the parts ----

  // Root table of the inverse transform, of order 32.
  function TransformRoot(table: int -> Complex): int -> Complex
  {
    e => table(2 * e)
  }

  lemma ScaledRoots(table: int -> Complex, order: nat, scale: nat)
    requires RootsOfUnity(table, order) && scale > 0 && order % scale == 0 && order / scale % 2 == 0
    ensures RootsOfUnity(e => table(scale * e), order / scale)
  {
    hide Mul;
    var w: int -> Complex := e => table(scale * e);
    var m := order / scale;
    DivMod(order, scale);
    RootSpecial(table, order);
    forall a, b ensures AddsExponents(w, a, b) {
      assert scale * (a + b) == scale * a + scale * b;
      RootProduct(table, order, scale * a, scale * b);
    }
    assert scale * 0 == 0;
    assert scale * (m / 2) == order / 2 by { assert m == 2 * (m / 2); assert scale * (2 * (m / 2)) == 2 * (scale * (m / 2)); }
    QuarterOf(table, order, scale, m);
  }

  lemma QuarterOf(table: int -> Complex, order: nat, scale: nat, m: nat)
    requires RootsOfUnity(table, order) && scale > 0 && order == scale * m
    ensures m % 4 == 0 ==> order % 4 == 0 && table(scale * (m / 4)) == I
  {
    hide Mul;
    if m % 4 == 0 {
      var k := m / 4;
      assert order == 4 * (scale * k) by { assert scale * (4 * k) == 4 * (scale * k); }
    }
  }

  lemma GridRoots(c: Config, table: int -> Complex)
    requires SupportedBins(c.bins) && RootsOfUnity(table, ORDER)
    ensures RootsOfUnity(Root(c, table), 2 * c.bins)
    ensures RootsOfUnity(TransformRoot(table), Ifft.ORDER)
  {
    hide RootsOfUnity;
    ScaledRoots(table, ORDER, RootStep(c.bins));
    ScaledRoots(table, ORDER, 2);
  }

  // ---- The hop in terms of the stream ----

  // Branch accumulator over the first `rows` rows.
  function PartialBranch(c: Config, x: seq<Complex>, n: int, branch: int, rows: nat): Complex
    requires c.bins > 0
  {
    Sum(rows, row => Scale(Coefficient(c, row, branch), At(x, n - row * c.bins - branch)))
  }

  lemma PartialBranchStep(c: Config, x: seq<Complex>, n: int, branch: int, row: nat)
    requires c.bins > 0
    ensures PartialBranch(c, x, n, branch, 0) == ZERO
    ensures PartialBranch(c, x, n, branch, row + 1) ==
            Add(PartialBranch(c, x, n, branch, row), Scale(Coefficient(c, row, branch), At(x, n - row * c.bins - branch)))
    ensures PartialBranch(c, x, n, branch, Rows(c)) == BranchSum(c, x, n, branch)
  {
    hide Add, Scale, Coefficient, At;
  }

  function Rotated(c: Config, w: int -> Complex, x: seq<Complex>, n: int, branch: int): Complex
    requires c.bins > 0
  {
    Mul(BranchSum(c, x, n, branch), w(Offset(c) * branch))
  }

  // A transform bin of the rotated branches is the sum of the polyphase form.
  lemma BinIsPolyphaseSum(c: Config, table: int -> Complex, x: seq<Complex>, n: int, view: seq<Complex>, b: int, k: nat)
    requires SupportedBins(c.bins) && |view| == c.bins && k == FftBin(c, b)
    requires forall branch :: 0 <= branch < c.bins ==> view[branch] == Rotated(c, Root(c, table), x, n, branch)
    ensures
      var w := Root(c, table);
      Dft(view, TransformRoot(table), Ifft.ORDER / c.bins, k) ==
      Sum(c.bins, branch => Mul(Mul(BranchSum(c, x, n, branch), w(Offset(c) * branch)), w(2 * branch * FftBin(c, b))))
  {
    hide Mul, BranchSum, Sum, FftBin;
    var w, w32, unit := Root(c, table), TransformRoot(table), Ifft.ORDER / c.bins;
    var f, g := (i: int) => Mul(At(view, i), w32(unit * i * k)),
                branch => Mul(Mul(BranchSum(c, x, n, branch), w(Offset(c) * branch)), w(2 * branch * FftBin(c, b)));
    assert unit == RootStep(c.bins);
    forall i | 0 <= i < c.bins ensures f(i) == g(i) {
      DoubledExponent(unit, i, k);
      assert w32(unit * i * k) == w(2 * i * k);
    }
    SumCongruence(c.bins, f, g);
  }

  lemma DoubledExponent(unit: int, i: int, k: int)
    ensures 2 * (unit * i * k) == unit * (2 * i * k)
  {
    assert unit * (2 * i * k) == unit * (2 * (i * k));
    assert unit * i * k == unit * (i * k);
  }

  // The outputs of a hop depend only on samples up to its own time.
  lemma DirectIsCausal(c: Config, w: int -> Complex, x: seq<Complex>, x': seq<Complex>, b: int, n: int)
    requires |x| <= |x'| && x == x'[..|x|] && n < |x|
    ensures Direct(c, w, x, b, n) == Direct(c, w, x', b, n)
  {
    hide Mul, Scale, Frequency, Tap;
    var f, f' := DirectTerm(c, w, x, b, n), DirectTerm(c, w, x', b, n);
    forall k | 0 <= k < |c.taps| ensures f(k) == f'(k) {
      assert At(x, n - k) == At(x', n - k);
    }
    SumCongruence(|c.taps|, f, f');
  }

  // ---- Accumulation ----

  ghost predicate Accumulated(re: seq<real>, im: seq<real>, c: Config, x: seq<Complex>, n: int, row: nat, lane: nat)
    requires c.bins > 0
  {
    && |re| == c.bins && |im| == c.bins
    && forall branch :: 0 <= branch < c.bins ==>
         Complex(re[branch], im[branch]) == PartialBranch(c, x, n, branch, if branch >= c.bins - lane then row + 1 else row)
  }

  // The ring slot of one lane of one row, for a hop whose newest sample sits at `cursor`.
  function Slot(cursor: nat, size: nat, row: nat, bins: nat, lane: nat): int
  {
    cursor + size - row * bins - (bins - 1) + lane
  }

  lemma SlotHoldsSample(re: seq<real>, im: seq<real>, size: nat, x: seq<Complex>, c: Config, n: nat, cursor: nat, row: nat, lane: nat)
    requires c.bins > 0 && RingHolds(re, im, size, x) && Span(c) <= size
    requires cursor == n % size && n < |x| <= n + 1 + (size - Span(c))
    requires row < Rows(c) && lane < c.bins
    ensures
      var p := Slot(cursor, size, row, c.bins, lane);
      0 <= p < 2 * size && Complex(re[p], im[p]) == At(x, n - row * c.bins - (c.bins - 1 - lane))
  {
    DivMod(n, size);
    var p, branch := Slot(cursor, size, row, c.bins, lane), c.bins - 1 - lane;
    CellRange(row, Rows(c), c.bins, branch);
    var back := row * c.bins + branch;
    assert p == cursor + size - back;
    var turns := 1 - n / size;
    assert turns * size == size - size * (n / size);
    ReadSlot(re, im, size, x, p, n - back, turns);
  }

  method AccumulateLane(re: array<real>, im: array<real>, historyI: array<real>, historyQ: array<real>, p: Plan, cursor: nat,
                        row: nat, lane: nat, ghost w: int -> Complex, ghost staging: nat, ghost x: seq<Complex>, ghost n: nat)
    requires PlanFor(p, w, staging) && re != im && re != historyI && re != historyQ && im != historyI && im != historyQ
    requires RingHolds(historyI[..], historyQ[..], p.historySize, x)
    requires cursor == n % p.historySize && n < |x| <= n + 1 + (p.historySize - Span(p.config))
    requires row < p.rows && lane < p.config.bins
    requires Accumulated(re[..], im[..], p.config, x, n, row, lane)
    modifies re, im
    ensures Accumulated(re[..], im[..], p.config, x, n, row, lane + 1)
  {
    hide Coefficient, Accumulated, At, RingHolds, Slot, Span, Rows, PlanFor, ValidConfig, Scale;
    PlanBasics(p, w, staging);
    RingLengths(historyI[..], historyQ[..], p.historySize, x);
    ghost var c := p.config;
    var bins := p.config.bins;
    var branch := bins - 1 - lane;
    SlotHoldsSample(historyI[..], historyQ[..], p.historySize, x, c, n, cursor, row, lane);
    PlanCoefficient(p, w, staging, row, lane);
    var slot := Slot(cursor, p.historySize, row, bins, lane);
    var coefficient := p.coefficients[Cell(row, bins, lane)];
    var product := Scale(coefficient, Complex(historyI[slot], historyQ[slot]));
    AccumulateStep(re[..], im[..], c, x, n, row, lane, product);
    var nextRe, nextIm := re[branch] + product.re, im[branch] + product.im;
    ghost var re', im' := re[..][branch := nextRe], im[..][branch := nextIm];
    re[branch] := nextRe;
    im[branch] := nextIm;
    assert re[..] == re' && im[..] == im';
  }

  lemma AccumulateStep(re: seq<real>, im: seq<real>, c: Config, x: seq<Complex>, n: int, row: nat, lane: nat, product: Complex)
    requires c.bins > 0 && lane < c.bins && Accumulated(re, im, c, x, n, row, lane)
    requires product == Scale(Coefficient(c, row, c.bins - 1 - lane), At(x, n - row * c.bins - (c.bins - 1 - lane)))
    ensures
      var branch := c.bins - 1 - lane;
      && |re| == c.bins && |im| == c.bins
      && Accumulated(re[branch := re[branch] + product.re], im[branch := im[branch] + product.im], c, x, n, row, lane + 1)
  {
    hide PartialBranch, At, Coefficient, Scale;
    var branch := c.bins - 1 - lane;
    PartialBranchStep(c, x, n, branch, row);
    assert Complex(re[branch], im[branch]) == PartialBranch(c, x, n, branch, row);
  }

  lemma PlanBasics(p: Plan, w: int -> Complex, staging: nat)
    requires PlanFor(p, w, staging)
    ensures ValidConfig(p.config) && SupportedBins(p.config.bins) && p.config.decimation > 0 && p.rows == Rows(p.config)
    ensures p.historySize == Pow2(p.logHistory) && p.historySize >= Span(p.config) + staging + 3 * p.config.decimation
    ensures p.period == Period(p.config, |p.config.logical|)
  {
  }

  lemma PlanCoefficient(p: Plan, w: int -> Complex, staging: nat, row: nat, lane: nat)
    requires PlanFor(p, w, staging) && row < p.rows && lane < p.config.bins
    ensures Cell(row, p.config.bins, lane) < |p.coefficients|
    ensures p.coefficients[Cell(row, p.config.bins, lane)] == Coefficient(p.config, row, p.config.bins - 1 - lane)
  {
    hide Coefficient, Period, Pow2, PostPhasesFor, RotationsFor, WeightsFor, ValidConfig, Rows;
    PlanBasics(p, w, staging);
    PlanHasBins(p.config);
    CellRange(row, p.rows, p.config.bins, lane);
  }

  lemma RingLengths(re: seq<real>, im: seq<real>, size: nat, x: seq<Complex>)
    requires RingHolds(re, im, size, x)
    ensures size > 0 && |re| == 2 * size && |im| == 2 * size
  {
  }

  // All rows and lanes of one hop.
  method Accumulate(re: array<real>, im: array<real>, historyI: array<real>, historyQ: array<real>, p: Plan, cursor: nat,
                    ghost w: int -> Complex, ghost staging: nat, ghost x: seq<Complex>, ghost n: nat)
    requires PlanFor(p, w, staging) && re != im && re != historyI && re != historyQ && im != historyI && im != historyQ
    requires re.Length == p.config.bins && im.Length == p.config.bins
    requires RingHolds(historyI[..], historyQ[..], p.historySize, x)
    requires cursor == n % p.historySize && n < |x| <= n + 1 + (p.historySize - Span(p.config))
    modifies re, im
    ensures forall branch :: 0 <= branch < p.config.bins ==> Complex(re[branch], im[branch]) == BranchSum(p.config, x, n, branch)
  {
    hide Coefficient, PartialBranch, BranchSum, At, RingHolds, Slot, Span, Rows, PlanFor, ValidConfig, Scale, SupportedBins, Accumulated;
    PlanBasics(p, w, staging);
    PlanHasBins(p.config);
    ghost var c := p.config;
    for branch := 0 to p.config.bins
      invariant forall i :: 0 <= i < branch ==> re[i] == 0.0 && im[i] == 0.0
    {
      re[branch], im[branch] := 0.0, 0.0;
    }
    NothingAccumulated(re[..], im[..], c, x, n);
    for row := 0 to p.rows
      invariant Accumulated(re[..], im[..], c, x, n, row, 0)
    {
      for lane := 0 to p.config.bins
        invariant Accumulated(re[..], im[..], c, x, n, row, lane)
      {
        AccumulateLane(re, im, historyI, historyQ, p, cursor, row, lane, w, staging, x, n);
      }
      RowAccumulated(re[..], im[..], c, x, n, row);
    }
    AllAccumulated(re[..], im[..], c, x, n);
    assert forall branch :: 0 <= branch < c.bins ==> re[..][branch] == re[branch] && im[..][branch] == im[branch];
  }

  lemma PlanHasBins(c: Config)
    requires SupportedBins(c.bins)
    ensures c.bins > 0 && c.bins <= 32
  {
  }

  lemma NothingAccumulated(re: seq<real>, im: seq<real>, c: Config, x: seq<Complex>, n: int)
    requires c.bins > 0 && |re| == c.bins && |im| == c.bins
    requires forall i :: 0 <= i < c.bins ==> re[i] == 0.0 && im[i] == 0.0
    ensures Accumulated(re, im, c, x, n, 0, 0)
  {
    hide PartialBranch, At, Coefficient, Scale;
    forall branch | 0 <= branch < c.bins ensures PartialBranch(c, x, n, branch, 0) == ZERO {
      PartialBranchStep(c, x, n, branch, 0);
    }
  }

  lemma RowAccumulated(re: seq<real>, im: seq<real>, c: Config, x: seq<Complex>, n: int, row: nat)
    requires c.bins > 0 && Accumulated(re, im, c, x, n, row, c.bins)
    ensures Accumulated(re, im, c, x, n, row + 1, 0)
  {
    hide PartialBranch;
  }

  lemma AllAccumulated(re: seq<real>, im: seq<real>, c: Config, x: seq<Complex>, n: int)
    requires c.bins > 0 && Accumulated(re, im, c, x, n, Rows(c), 0)
    ensures |re| == c.bins && |im| == c.bins
    ensures forall branch :: 0 <= branch < c.bins ==> Complex(re[branch], im[branch]) == BranchSum(c, x, n, branch)
  {
    hide PartialBranch, BranchSum, Rows;
    forall branch | 0 <= branch < c.bins ensures PartialBranch(c, x, n, branch, Rows(c)) == BranchSum(c, x, n, branch) {
      PartialBranchStep(c, x, n, branch, 0);
    }
  }

  // ---- Rotation, transform, post phase ----

  // Branch rotation, skipped on the integer grid where every rotation is 1.
  method Rotate(re: array<real>, im: array<real>, p: Plan, ghost w: int -> Complex, ghost staging: nat, ghost x: seq<Complex>, ghost n: nat)
    requires PlanFor(p, w, staging) && w(0) == ONE && re != im
    requires re.Length == p.config.bins && im.Length == p.config.bins
    requires forall branch :: 0 <= branch < p.config.bins ==> Complex(re[branch], im[branch]) == BranchSum(p.config, x, n, branch)
    modifies re, im
    ensures forall branch :: 0 <= branch < p.config.bins ==> Complex(re[branch], im[branch]) == Rotated(p.config, w, x, n, branch)
  {
    hide PlanFor, BranchSum, Mul, ValidConfig, SupportedBins;
    PlanBasics(p, w, staging);
    PlanHasBins(p.config);
    ghost var c := p.config;
    if p.config.halfGrid {
      for branch := 0 to p.config.bins
        invariant forall i :: 0 <= i < branch ==> Complex(re[i], im[i]) == Rotated(c, w, x, n, i)
        invariant forall i :: branch <= i < c.bins ==> Complex(re[i], im[i]) == BranchSum(c, x, n, i)
      {
        PlanRotation(p, w, staging, branch);
        var value := Mul(Complex(re[branch], im[branch]), p.rotation[branch]);
        re[branch], im[branch] := value.re, value.im;
      }
    } else {
      forall branch | 0 <= branch < c.bins ensures Rotated(c, w, x, n, branch) == BranchSum(c, x, n, branch) {
        assert Offset(c) * branch == 0;
        MulOne(BranchSum(c, x, n, branch));
      }
    }
  }

  lemma PlanRotation(p: Plan, w: int -> Complex, staging: nat, branch: nat)
    requires PlanFor(p, w, staging) && branch < p.config.bins
    ensures |p.rotation| == p.config.bins && p.rotation[branch] == w(Offset(p.config) * branch)
  {
  }

  // Multiplication by a table entry, with the quarter turns written out.
  function ApplyPostPhase(phase: Complex, v: Complex): (r: Complex)
    ensures r == Mul(phase, v)
  {
    if phase.im == 0.0 && (phase.re == 1.0 || phase.re == -1.0) then Complex(phase.re * v.re, phase.re * v.im)
    else if phase.re == 0.0 && (phase.im == 1.0 || phase.im == -1.0) then Complex(-phase.im * v.im, phase.im * v.re)
    else Complex(v.re * phase.re - v.im * phase.im, v.re * phase.im + v.im * phase.re)
  }

  lemma PlanPostPhase(p: Plan, w: int -> Complex, staging: nat, output: nat, h: nat)
    requires PlanFor(p, w, staging) && output < |p.config.logical| && RootsOfUnity(w, 2 * p.config.bins)
    ensures p.period > 0 && Cell(output, p.period, h % p.period) < |p.postPhase|
    ensures p.postPhase[Cell(output, p.period, h % p.period)] ==
            Post(p.config, w, p.config.logical[output], h * p.config.decimation)
  {
    hide CoefficientsFor, Period, WeightsFor, RotationsFor, Pow2, RootsOfUnity;
    CellRange(output, |p.config.logical|, p.period, h % p.period);
    PhaseRepeats(p.config, w, output, h);
  }

  lemma PlanWeight(p: Plan, w: int -> Complex, staging: nat, branch: nat)
    requires PlanFor(p, w, staging) && |p.config.logical| == 1 && branch < p.config.bins
    ensures |p.weights| == p.config.bins && p.weights[branch] == Weight(p.config, w, branch)
  {
  }

  // Inverse transform of the rotated branches: every bin is a polyphase sum.
  method TransformBranches(re: array<real>, im: array<real>, c: Config, t: Ifft.Twiddles, ghost table: int -> Complex, ghost x: seq<Complex>, ghost n: nat)
    requires SupportedBins(c.bins) && RootsOfUnity(table, ORDER) && Ifft.TableOf(t, TransformRoot(table)) && re != im
    requires re.Length == c.bins && im.Length == c.bins
    requires forall branch :: 0 <= branch < c.bins ==> Complex(re[branch], im[branch]) == Rotated(c, Root(c, table), x, n, branch)
    modifies re, im
    ensures forall b :: 0 <= FftBin(c, b) < c.bins ==>
      Mul(Post(c, Root(c, table), b, n), Complex(re[FftBin(c, b)], im[FftBin(c, b)])) == Polyphase(c, Root(c, table), x, b, n)
  {
    hide RootsOfUnity, Ifft.TableOf, Mul, Rotated, Sum, BranchSum, Ifft.IsTransformOf;
    GridRoots(c, table);
    ghost var view := Ifft.View(re, im, 0, c.bins);
    assert Ifft.Start(0, c.bins) == 0;
    Ifft.IfftGeneric(re, im, c.bins, 1, c.bins, t, TransformRoot(table));
    ghost var now := Ifft.View(re, im, 0, c.bins);
    TransformedBins(c, table, view, now);
    forall b | 0 <= FftBin(c, b) < c.bins
      ensures Mul(Post(c, Root(c, table), b, n), Complex(re[FftBin(c, b)], im[FftBin(c, b)])) == Polyphase(c, Root(c, table), x, b, n)
    {
      BinIsPolyphaseSum(c, table, x, n, view, b, FftBin(c, b));
      assert now[FftBin(c, b)] == Complex(re[FftBin(c, b)], im[FftBin(c, b)]);
    }
  }

  lemma TransformedBins(c: Config, table: int -> Complex, view: seq<Complex>, now: seq<Complex>)
    requires c.bins > 0 && |view| == c.bins && Ifft.IsTransformOf(now, view, TransformRoot(table))
    ensures |now| == c.bins
    ensures forall k :: 0 <= k < c.bins ==> now[k] == Dft(view, TransformRoot(table), Ifft.ORDER / c.bins, k)
  {
  }

  // ---- The outputs of a hop ----

  // What hop h must emit: one promised output per selected bin.
  ghost predicate HopOutputs(outs: seq<Complex>, c: Config, w: int -> Complex, x: seq<Complex>, h: nat)
  {
    && |outs| == |c.logical|
    && forall o :: 0 <= o < |outs| ==> outs[o] == Direct(c, w, x, c.logical[o], h * c.decimation)
  }

  lemma FftBinInRange(c: Config, o: nat)
    requires ValidConfig(c) && o < |c.logical|
    ensures 0 <= FftBin(c, c.logical[o]) < c.bins
  {
  }

  // Several outputs: rotate, transform once, pick the bins.
  method EmitTransformed(re: array<real>, im: array<real>, p: Plan, t: Ifft.Twiddles, phase: nat,
                         ghost table: int -> Complex, ghost staging: nat, ghost x: seq<Complex>, ghost h: nat)
    returns (outs: seq<Complex>)
    requires PlanFor(p, Root(p.config, table), staging) && RootsOfUnity(table, ORDER) && Ifft.TableOf(t, TransformRoot(table))
    requires re != im && re.Length == p.config.bins && im.Length == p.config.bins
    requires forall branch :: 0 <= branch < p.config.bins ==>
               Complex(re[branch], im[branch]) == BranchSum(p.config, x, h * p.config.decimation, branch)
    requires p.period > 0 && phase == h % p.period
    modifies re, im
    ensures HopOutputs(outs, p.config, Root(p.config, table), x, h)
  {
    hide PlanFor, BranchSum, Mul, ValidConfig, SupportedBins, RootsOfUnity, Ifft.TableOf, Root, Polyphase, Direct, Post, FftBin, ApplyPostPhase, Rotated;
    var c := p.config;
    ghost var w := Root(c, table);
    PlanBasics(p, w, staging);
    GridRoots(c, table);
    RootSpecial(w, 2 * c.bins);
    Rotate(re, im, p, w, staging, x, h * c.decimation);
    TransformBranches(re, im, c, t, table, x, h * c.decimation);
    outs := [];
    for output := 0 to |c.logical|
      modifies {}
      invariant |outs| == output
      invariant forall o :: 0 <= o < output ==> outs[o] == Direct(c, w, x, c.logical[o], h * c.decimation)
    {
      FftBinInRange(c, output);
      var bin := FftBin(c, c.logical[output]);
      OneOutput(p, w, staging, x, h, output, Complex(re[bin], im[bin]));
      outs := outs + [ApplyPostPhase(p.postPhase[Cell(output, p.period, phase)], Complex(re[bin], im[bin]))];
    }
  }

  lemma OneOutput(p: Plan, w: int -> Complex, staging: nat, x: seq<Complex>, h: nat, output: nat, value: Complex)
    requires PlanFor(p, w, staging) && output < |p.config.logical| && p.config.bins > 0 && RootsOfUnity(w, 2 * p.config.bins)
    requires
      var b, n := p.config.logical[output], h * p.config.decimation;
      Mul(Post(p.config, w, b, n), value) == Polyphase(p.config, w, x, b, n)
    ensures p.period > 0 && Cell(output, p.period, h % p.period) < |p.postPhase|
    ensures Mul(p.postPhase[Cell(output, p.period, h % p.period)], value) ==
            Direct(p.config, w, x, p.config.logical[output], h * p.config.decimation)
  {
    hide PlanFor, Mul, RootsOfUnity, Polyphase, Direct, Post;
    PlanPostPhase(p, w, staging, output, h);
    PolyphaseIsDirect(p.config, w, x, p.config.logical[output], h * p.config.decimation);
  }

  // A single output: the branches weighted directly, without a transform.
  method EmitDirect(re: array<real>, im: array<real>, p: Plan, phase: nat,
                    ghost table: int -> Complex, ghost staging: nat, ghost x: seq<Complex>, ghost h: nat)
    returns (out: Complex)
    requires PlanFor(p, Root(p.config, table), staging) && RootsOfUnity(table, ORDER) && |p.config.logical| == 1
    requires re != im && re.Length == p.config.bins && im.Length == p.config.bins
    requires forall branch :: 0 <= branch < p.config.bins ==>
               Complex(re[branch], im[branch]) == BranchSum(p.config, x, h * p.config.decimation, branch)
    requires p.period > 0 && phase == h % p.period
    ensures HopOutputs([out], p.config, Root(p.config, table), x, h)
  {
    hide PlanFor, BranchSum, Mul, Add, ValidConfig, SupportedBins, RootsOfUnity, Root, Polyphase, Direct, Post, FftBin, Weight, ApplyPostPhase;
    var c := p.config;
    ghost var w := Root(c, table);
    PlanBasics(p, w, staging);
    GridRoots(c, table);
    ghost var term: int -> Complex := branch =>
      Mul(Mul(BranchSum(c, x, h * c.decimation, branch), w(Offset(c) * branch)), w(2 * branch * FftBin(c, c.logical[0])));
    var value := ZERO;
    for branch := 0 to c.bins
      invariant value == Sum(branch, term)
    {
      PlanWeight(p, w, staging, branch);
      WeightedBranch(c, w, x, h * c.decimation, branch);
      value := Add(value, Mul(Complex(re[branch], im[branch]), p.weights[branch]));
    }
    PlanPostPhase(p, w, staging, 0, h);
    out := ApplyPostPhase(p.postPhase[Cell(0, p.period, phase)], value);
    PolyphaseIs(c, w, x, c.logical[0], h * c.decimation);
    PolyphaseIsDirect(c, w, x, c.logical[0], h * c.decimation);
  }

  lemma WeightedBranch(c: Config, w: int -> Complex, x: seq<Complex>, n: int, branch: int)
    requires c.bins > 0 && |c.logical| == 1
    ensures Mul(BranchSum(c, x, n, branch), Weight(c, w, branch)) ==
            Mul(Mul(BranchSum(c, x, n, branch), w(Offset(c) * branch)), w(2 * branch * FftBin(c, c.logical[0])))
  {
    hide Mul, BranchSum, FftBin;
    MulAssoc(BranchSum(c, x, n, branch), w(Offset(c) * branch), w(2 * branch * FftBin(c, c.logical[0])));
  }

  lemma PolyphaseIs(c: Config, w: int -> Complex, x: seq<Complex>, b: int, n: int)
    requires c.bins > 0
    ensures Polyphase(c, w, x, b, n) ==
            Mul(Post(c, w, b, n),
                Sum(c.bins, branch => Mul(Mul(BranchSum(c, x, n, branch), w(Offset(c) * branch)), w(2 * branch * FftBin(c, b)))))
  {
  }

  // One hop from the ring, given where its newest sample sits and how far the phase
  // counter has come. The ring may already hold later samples, up to the headroom.
  method ComputeHop(historyI: array<real>, historyQ: array<real>, p: Plan, t: Ifft.Twiddles, cursor: nat, phase: nat,
                    ghost table: int -> Complex, ghost staging: nat, ghost x: seq<Complex>, ghost h: nat)
    returns (outs: seq<Complex>)
    requires PlanFor(p, Root(p.config, table), staging) && RootsOfUnity(table, ORDER) && Ifft.TableOf(t, TransformRoot(table))
    requires RingHolds(historyI[..], historyQ[..], p.historySize, x) && |p.config.logical| > 0
    requires cursor == h * p.config.decimation % p.historySize
    requires h * p.config.decimation < |x| <= h * p.config.decimation + 1 + (p.historySize - Span(p.config))
    requires p.period > 0 && phase == h % p.period
    ensures HopOutputs(outs, p.config, Root(p.config, table), x, h)
  {
    hide PlanFor, BranchSum, ValidConfig, SupportedBins, RootsOfUnity, Ifft.TableOf, Root, HopOutputs, RingHolds, Span;
    PlanBasics(p, Root(p.config, table), staging);
    PlanHasBins(p.config);
    var re, im := new real[p.config.bins], new real[p.config.bins];
    Accumulate(re, im, historyI, historyQ, p, cursor, Root(p.config, table), staging, x, h * p.config.decimation);
    if |p.config.logical| == 1 {
      var out := EmitDirect(re, im, p, phase, table, staging, x, h);
      outs := [out];
    } else {
      outs := EmitTransformed(re, im, p, t, phase, table, staging, x, h);
    }
  }
}
