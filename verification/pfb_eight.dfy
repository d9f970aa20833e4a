// The batches of the eight-bin, decimate-by-4 layouts outside the exact one: four hops through
// the network and the post-phase table, fewer of them through the batched transform.
module PfbEight {
  import opened Bits
  import opened ComplexNumbers
  import opened IfftTransform
  import Ifft = IfftKernel
  import Vector = IfftAvx2
  import opened PfbFilterBank
  import opened PfbPlan
  import opened PfbRing
  import opened PfbHop
  import opened PfbStream
  import opened PfbD4x4
  import opened PfbExact

  // ---- Rows of any number of hops ----

  // Row by row, every hop of the batch before the next row.
  method AccumulateRows(fma: (Window, Window, Window) -> Window, history: seq<real>, coefficients: seq<real>, cursors: seq<nat>, size: nat, rows: nat)
    returns (accumulators: seq<Window>)
    requires |history| == 2 * size && rows * 8 <= |coefficients| && rows * 8 <= size
    requires forall j: nat :: j < |cursors| ==> cursors[j] < size
    ensures |accumulators| == |cursors|
    ensures forall j: nat :: j < |cursors| ==> accumulators[j] == RowByRow(fma, history, coefficients, cursors[j], size, rows)
  {
    hide RowByRow, Load, Row, RowAddress;
    accumulators := seq(|cursors|, _ => seq(8, _ => 0.0));
    forall j: nat | j < |cursors| ensures RowByRow(fma, history, coefficients, cursors[j], size, 0) == seq(8, _ => 0.0) {
      NoRows(fma, history, coefficients, cursors[j], size);
    }
    for row := 0 to rows
      invariant |accumulators| == |cursors|
      invariant forall j: nat :: j < |cursors| ==> accumulators[j] == RowByRow(fma, history, coefficients, cursors[j], size, row)
    {
      var c := Row(coefficients, row);
      for hop := 0 to |cursors|
        invariant |accumulators| == |cursors|
        invariant forall j: nat :: j < hop ==> accumulators[j] == RowByRow(fma, history, coefficients, cursors[j], size, row + 1)
        invariant forall j: nat :: hop <= j < |cursors| ==> accumulators[j] == RowByRow(fma, history, coefficients, cursors[j], size, row)
      {
        InRingOnce(cursors[hop], size, row);
        RowStep(fma, history, coefficients, cursors[hop], size, row);
        accumulators := accumulators[hop := fma(Load(history, RowAddress(cursors[hop], size, row)), c, accumulators[hop])];
      }
    }
  }

  // ---- Rotation ----

  // Lanes reversed into branch order; rotated on the half-bin grid only.
  function BranchLanes(halfGrid: bool, rotation: seq<Complex>, re: Window, im: Window): (v: seq<Complex>)
    requires |rotation| == 8
    ensures |v| == 8
  {
    if halfGrid then RotatedLanes(rotation, re, im)
    else seq(8, branch requires 0 <= branch < 8 => Complex(re[7 - branch], im[7 - branch]))
  }

  // Leaving the rotation out on the integer grid changes nothing.
  lemma IntegerGridIsRotated(p: Plan, w: int -> Complex, staging: nat, re: Window, im: Window)
    requires PlanFor(p, w, staging) && p.config.bins == 8 && w(0) == ONE
    ensures |p.rotation| == 8 && BranchLanes(p.config.halfGrid, p.rotation, re, im) == RotatedLanes(p.rotation, re, im)
  {
    hide PlanFor, Mul;
    RotationCount(p, w, staging);
    if !p.config.halfGrid {
      forall branch: nat | branch < 8
        ensures RotatedLanes(p.rotation, re, im)[branch] == Complex(re[7 - branch], im[7 - branch])
      {
        PlanRotation(p, w, staging, branch);
        assert Offset(p.config) * branch == 0;
        MulOne(Complex(re[7 - branch], im[7 - branch]));
      }
    }
  }

  // Accumulators of a hop become its rotated branches.
  lemma LanesReady(p: Plan, w: int -> Complex, staging: nat, re: seq<real>, im: seq<real>, x: seq<Complex>, cursor: nat, h: nat,
                   accumulatedRe: Window, accumulatedIm: Window)
    requires PlanFor(p, w, staging) && p.config.bins == 8 && w(0) == ONE && RingHolds(re, im, p.historySize, x)
    requires cursor == h * 4 % p.historySize && h * 4 < |x| <= h * 4 + 1 + (p.historySize - Span(p.config))
    requires HopAccumulated(p, re, im, cursor, accumulatedRe, accumulatedIm)
    ensures |p.rotation| == 8
    ensures BranchLanes(p.config.halfGrid, p.rotation, accumulatedRe, accumulatedIm) == HopBranches(p.config, w, x, h * 4)
  {
    hide PlanFor, RingHolds, HopAccumulated, HopBranches, RotatedLanes, BranchLanes;
    IntegerGridIsRotated(p, w, staging, accumulatedRe, accumulatedIm);
    AccumulatedIsReady(p, w, staging, re, im, x, cursor, h, accumulatedRe, accumulatedIm);
  }

  // What every batch starts from: hops of the ring, oldest first, with their phases.
  ghost predicate HopsOfRing(p: Plan, re: seq<real>, im: seq<real>, cursors: seq<nat>, phases: seq<nat>, x: seq<Complex>, h: nat)
    requires p.historySize > 0 && p.period > 0 && p.config.bins > 0
  {
    && RingHolds(re, im, p.historySize, x) && |phases| == |cursors|
    && (forall j: nat :: j < |cursors| ==> cursors[j] == (h + j) * 4 % p.historySize)
    && (forall j: nat :: j < |cursors| ==> phases[j] == (h + j) % p.period)
    && (|cursors| > 0 ==> (h + |cursors| - 1) * 4 < |x|) && |x| <= h * 4 + 1 + (p.historySize - Span(p.config))
  }

  // ---- Four hops through the network ----

  // The outputs of one hop from the slots of the network, by blends of the table's phases.
  function BlendedHop(p: Plan, bins: seq<Complex>, phase: nat): (outs: seq<Complex>)
    requires |bins| == 8 && phase < p.period && |p.config.logical| * p.period <= |p.postPhase|
    requires forall o :: 0 <= o < |p.config.logical| ==> 0 <= FftBin(p.config, p.config.logical[o]) < 8
    ensures |outs| == |p.config.logical|
  {
    seq(|p.config.logical|, o requires 0 <= o < |p.config.logical| =>
      assert Cell(o, p.period, phase) < |p.postPhase| by { CellRange(o, |p.config.logical|, p.period, phase); }
      BlendedPhase(p.postPhase[Cell(o, p.period, phase)], bins[BIT_REVERSED[FftBin(p.config, p.config.logical[o])]]))
  }

  lemma TableCount(p: Plan, w: int -> Complex, staging: nat)
    requires PlanFor(p, w, staging) && p.config.bins == 8
    ensures |p.postPhase| == |p.config.logical| * p.period && p.period > 0
    ensures forall o :: 0 <= o < |p.config.logical| ==> 0 <= FftBin(p.config, p.config.logical[o]) < 8
  {
    hide CoefficientsFor, RotationsFor, WeightsFor, Period, FftBin, Pow2;
    PlanBasics(p, w, staging);
    forall o | 0 <= o < |p.config.logical| ensures 0 <= FftBin(p.config, p.config.logical[o]) < 8 {
      FftBinInRange(p.config, o);
    }
  }

  lemma BlendedIsPromised(p: Plan, table: int -> Complex, staging: nat, x: seq<Complex>, half: real, h: nat, bins: seq<Complex>)
    requires PlanFor(p, Root(p.config, table), staging) && p.config.bins == 8 && p.config.decimation == 4
    requires RootsOfUnity(table, ORDER) && table(8) == Complex(half, half)
    requires bins == EightPoint(HopBranches(p.config, Root(p.config, table), x, h * 4), half)
    ensures p.period > 0 && |p.config.logical| * p.period <= |p.postPhase|
    ensures forall o :: 0 <= o < |p.config.logical| ==> 0 <= FftBin(p.config, p.config.logical[o]) < 8
    ensures HopOutputs(BlendedHop(p, bins, h % p.period), p.config, Root(p.config, table), x, h)
  {
    hide PlanFor, RootsOfUnity, EightPoint, HopBranches, Direct, Root, BlendedPhase, Mul, Post, FftBin, Cell;
    var c, w := p.config, Root(p.config, table);
    TableCount(p, w, staging);
    GridRoots(c, table);
    PlanBasics(p, w, staging);
    var outs := BlendedHop(p, bins, h % p.period);
    forall o | 0 <= o < |outs| ensures outs[o] == Direct(c, w, x, c.logical[o], h * 4) {
      var b := c.logical[o];
      var z := bins[BIT_REVERSED[FftBin(c, b)]];
      PlanPostPhase(p, w, staging, o, h);
      AxisPhases(c, w, b, h, z);
      NetworkHopIsDirect(c, table, x, half, h * 4, b);
    }
  }

  // Main result: the four-hop batch of any eight-bin, decimate-by-4 layout gives the promised
  // outputs, whatever its bins and grid.
  method FourByTable(p: Plan, re: seq<real>, im: seq<real>, cursors: seq<nat>, phases: seq<nat>, half: real,
                     ghost table: int -> Complex, ghost staging: nat, ghost x: seq<Complex>, ghost h: nat)
    returns (outs: seq<seq<Complex>>)
    requires PlanFor(p, Root(p.config, table), staging) && p.config.bins == 8 && p.config.decimation == 4
    requires RootsOfUnity(table, ORDER) && table(8) == Complex(half, half) && p.historySize > 0 && p.period > 0
    requires |cursors| == 4 && HopsOfRing(p, re, im, cursors, phases, x, h)
    ensures |outs| == 4 && forall j: nat :: j < 4 ==> HopOutputs(outs[j], p.config, Root(p.config, table), x, h + j)
  {
    hide PlanFor, RootsOfUnity, RingHolds, RowByRow, HopOutputs, Root, ExactFma, BranchLanes, HopBranches, EightPoint, BlendedHop, FftBin, Span;
    ghost var w := Root(p.config, table);
    PlanBasics(p, w, staging);
    CoefficientCount(p, w, staging);
    TableCount(p, w, staging);
    RootSpecial(table, ORDER);
    RootOfNothing(p.config, table);
    RingIsMirrored(re, im, p.historySize, x);
    RingLengths(re, im, p.historySize, x);
    forall j: nat | j < 4 ensures cursors[j] < p.historySize {
      DivMod((h + j) * 4, p.historySize);
    }
    SumModulo(h * 4, 8, p.historySize);
    SumModulo((h + 1) * 4, 8, p.historySize);
    var accumulatedRe := AccumulatePaired(ExactFma, re, p.coefficients, cursors, p.historySize, p.rows);
    var accumulatedIm := AccumulatePaired(ExactFma, im, p.coefficients, cursors, p.historySize, p.rows);
    RotationCount(p, w, staging);
    outs := [];
    for j := 0 to 4
      invariant |outs| == j && forall i: nat :: i < j ==> HopOutputs(outs[i], p.config, w, x, h + i)
    {
      var lanes := BranchLanes(p.config.halfGrid, p.rotation, accumulatedRe[j], accumulatedIm[j]);
      LanesReady(p, w, staging, re, im, x, cursors[j], h + j, accumulatedRe[j], accumulatedIm[j]);
      var bins := EightPoint(lanes, half);
      BlendedIsPromised(p, table, staging, x, half, h + j, bins);
      outs := outs + [BlendedHop(p, bins, phases[j])];
    }
  }

  lemma RootOfNothing(c: Config, table: int -> Complex)
    requires table(0) == ONE
    ensures Root(c, table)(0) == ONE
  {
    assert RootStep(c.bins) * 0 == 0;
  }

  // ---- Fewer hops through the batched transform ----

  // Transforms of up to four hops, stored one after another.
  method TransformHops(lanes: seq<seq<Complex>>, t: Ifft.Twiddles, half: real, ghost w: int -> Complex) returns (bins: seq<seq<Complex>>)
    requires |lanes| <= 4 && forall j: nat :: j < |lanes| ==> |lanes[j]| == 8
    requires RootsOfUnity(w, Ifft.ORDER) && Ifft.TableOf(t, w) && w(4) == Complex(half, half)
    ensures |bins| == |lanes| && forall j: nat :: j < |lanes| ==> Ifft.IsTransformOf(bins[j], lanes[j], w)
  {
    hide RootsOfUnity, Ifft.TableOf, Ifft.IsTransformOf, Ifft.ViewOf;
    var count := |lanes|;
    var re, im := new real[32](_ => 0.0), new real[32](_ => 0.0);
    for hop := 0 to count
      invariant forall j: nat :: j < hop ==> Ifft.ViewOf(re[..], im[..], 8 * j, 8) == lanes[j]
    {
      StoreHop(re, im, lanes, hop);
    }
    ghost var re0, im0 := re[..], im[..];
    forall k: nat ensures Ifft.Start(k, 8) == 8 * k {}
    Vector.IfftVector(re, im, 8, count, 8, t, half, w);
    bins := [];
    for hop := 0 to count
      invariant |bins| == hop
      invariant forall j: nat :: j < hop ==> Ifft.IsTransformOf(bins[j], lanes[j], w)
      modifies {}
    {
      assert Ifft.View(re, im, Ifft.Start(hop, 8), 8) == Ifft.View(re, im, 8 * hop, 8);
      bins := bins + [Ifft.View(re, im, 8 * hop, 8)];
    }
  }

  method StoreHop(re: array<real>, im: array<real>, lanes: seq<seq<Complex>>, hop: nat)
    requires re != im && re.Length == im.Length == 32 && hop < |lanes| <= 4 && |lanes[hop]| == 8
    requires forall j: nat :: j < hop ==> Ifft.ViewOf(re[..], im[..], 8 * j, 8) == lanes[j]
    modifies re, im
    ensures forall j: nat :: j < hop + 1 ==> Ifft.ViewOf(re[..], im[..], 8 * j, 8) == lanes[j]
  {
    ghost var re0, im0 := re[..], im[..];
    for branch := 0 to 8
      invariant forall i :: 0 <= i < 8 * hop ==> re[i] == re0[i] && im[i] == im0[i]
      invariant forall i :: 0 <= i < branch ==> re[8 * hop + i] == lanes[hop][i].re && im[8 * hop + i] == lanes[hop][i].im
    {
      re[8 * hop + branch], im[8 * hop + branch] := lanes[hop][branch].re, lanes[hop][branch].im;
    }
    assert Ifft.ViewOf(re[..], im[..], 8 * hop, 8) == lanes[hop];
    forall j: nat | j < hop ensures Ifft.ViewOf(re[..], im[..], 8 * j, 8) == lanes[j] {
      assert Ifft.ViewOf(re[..], im[..], 8 * j, 8) == Ifft.ViewOf(re0, im0, 8 * j, 8);
    }
  }

  // The outputs of one hop from its bins, by the post-phase table.
  function PickedHop(p: Plan, bins: seq<Complex>, phase: nat): (outs: seq<Complex>)
    requires |bins| == 8 && phase < p.period && |p.config.logical| * p.period <= |p.postPhase|
    requires forall o :: 0 <= o < |p.config.logical| ==> 0 <= FftBin(p.config, p.config.logical[o]) < 8
    ensures |outs| == |p.config.logical|
  {
    seq(|p.config.logical|, o requires 0 <= o < |p.config.logical| =>
      assert Cell(o, p.period, phase) < |p.postPhase| by { CellRange(o, |p.config.logical|, p.period, phase); }
      ApplyPostPhase(p.postPhase[Cell(o, p.period, phase)], bins[FftBin(p.config, p.config.logical[o])]))
  }

  lemma PickedIsPromised(p: Plan, table: int -> Complex, staging: nat, x: seq<Complex>, h: nat, bins: seq<Complex>)
    requires PlanFor(p, Root(p.config, table), staging) && p.config.bins == 8 && p.config.decimation == 4 && RootsOfUnity(table, ORDER)
    requires Ifft.IsTransformOf(bins, HopBranches(p.config, Root(p.config, table), x, h * 4), TransformRoot(table))
    ensures |bins| == 8 && p.period > 0 && |p.config.logical| * p.period <= |p.postPhase|
    ensures forall o :: 0 <= o < |p.config.logical| ==> 0 <= FftBin(p.config, p.config.logical[o]) < 8
    ensures HopOutputs(PickedHop(p, bins, h % p.period), p.config, Root(p.config, table), x, h)
  {
    hide PlanFor, RootsOfUnity, Direct, Root, Mul, Post, FftBin, Cell, ApplyPostPhase, Ifft.IsTransformOf, Polyphase, Rotated, Dft, Sum, BranchSum;
    var c, w := p.config, Root(p.config, table);
    TableCount(p, w, staging);
    GridRoots(c, table);
    PlanBasics(p, w, staging);
    var branches := HopBranches(c, w, x, h * 4);
    TransformedBins(c, table, branches, bins);
    var outs := PickedHop(p, bins, h % p.period);
    forall o | 0 <= o < |outs| ensures outs[o] == Direct(c, w, x, c.logical[o], h * 4) {
      var b := c.logical[o];
      BinIsPolyphaseSum(c, table, x, h * 4, branches, b, FftBin(c, b));
      PolyphaseIs(c, w, x, b, h * 4);
      OneOutput(p, w, staging, x, h, o, bins[FftBin(c, b)]);
    }
  }

  // Main result: a batch of fewer than four hops gives the promised outputs.
  method FewByTable(p: Plan, t: Ifft.Twiddles, re: seq<real>, im: seq<real>, cursors: seq<nat>, phases: seq<nat>, half: real,
                    ghost table: int -> Complex, ghost staging: nat, ghost x: seq<Complex>, ghost h: nat)
    returns (outs: seq<seq<Complex>>)
    requires PlanFor(p, Root(p.config, table), staging) && p.config.bins == 8 && p.config.decimation == 4
    requires RootsOfUnity(table, ORDER) && table(8) == Complex(half, half) && Ifft.TableOf(t, TransformRoot(table))
    requires p.historySize > 0 && p.period > 0 && |cursors| <= 4 && HopsOfRing(p, re, im, cursors, phases, x, h)
    ensures |outs| == |cursors| && forall j: nat :: j < |cursors| ==> HopOutputs(outs[j], p.config, Root(p.config, table), x, h + j)
  {
    hide PlanFor, RootsOfUnity, RingHolds, RowByRow, HopOutputs, Root, ExactFma, BranchLanes, HopBranches, PickedHop, FftBin, Span, Ifft.IsTransformOf,
         Ifft.TableOf, TransformRoot;
    ghost var w := Root(p.config, table);
    PlanBasics(p, w, staging);
    CoefficientCount(p, w, staging);
    TableCount(p, w, staging);
    RootSpecial(table, ORDER);
    RootOfNothing(p.config, table);
    RingLengths(re, im, p.historySize, x);
    forall j: nat | j < |cursors| ensures cursors[j] < p.historySize {
      DivMod((h + j) * 4, p.historySize);
    }
    var accumulatedRe := AccumulateRows(ExactFma, re, p.coefficients, cursors, p.historySize, p.rows);
    var accumulatedIm := AccumulateRows(ExactFma, im, p.coefficients, cursors, p.historySize, p.rows);
    RotationCount(p, w, staging);
    var lanes: seq<seq<Complex>> := [];
    for j := 0 to |cursors|
      invariant |lanes| == j && forall i: nat :: i < j ==> |lanes[i]| == 8 && lanes[i] == HopBranches(p.config, w, x, (h + i) * 4)
    {
      LanesReady(p, w, staging, re, im, x, cursors[j], h + j, accumulatedRe[j], accumulatedIm[j]);
      lanes := lanes + [BranchLanes(p.config.halfGrid, p.rotation, accumulatedRe[j], accumulatedIm[j])];
    }
    GridRoots(p.config, table);
    RootAt(table);
    var bins := TransformHops(lanes, t, half, TransformRoot(table));
    outs := [];
    for j := 0 to |cursors|
      invariant |outs| == j && forall i: nat :: i < j ==> HopOutputs(outs[i], p.config, w, x, h + i)
    {
      PickedIsPromised(p, table, staging, x, h + j, bins[j]);
      outs := outs + [PickedHop(p, bins[j], phases[j])];
    }
  }
}
