// The exact layout from the ring to its outputs: shared-window accumulation, rotation, the
// eight-point network and the phase maps together.
module PfbExact {
  import opened Bits
  import opened ComplexNumbers
  import opened IfftTransform
  import opened PfbFilterBank
  import opened PfbPlan
  import opened PfbRing
  import opened PfbHop
  import opened PfbStream
  import opened PfbD4x4
  import opened PfbWide

  // ---- Accumulators are branches ----

  function Fused(a: real, c: real, s: real): real { a * c + s }

  // The exact multiply-add.
  function ExactFma(a: Window, c: Window, s: Window): Window
  {
    seq(8, l requires 0 <= l < 8 => Fused(a[l], c[l], s[l]))
  }

  lemma RingIsMirrored(re: seq<real>, im: seq<real>, size: nat, stream: seq<Complex>)
    requires RingHolds(re, im, size, stream)
    ensures Mirrored(re, size) && Mirrored(im, size)
  {
    hide Newest;
    forall p | 0 <= p < size ensures re[p] == re[p + size] && im[p] == im[p + size] {
      HalvesAgree(re, im, size, stream, p);
    }
  }

  // One lane of one more row.
  lemma LaneStep(a: Window, b: Window, c: Window, s: Window, u: Window, l: nat)
    requires l < 8
    ensures Complex(ExactFma(a, c, s)[l], ExactFma(b, c, u)[l]) == Add(Complex(s[l], u[l]), Scale(c[l], Complex(a[l], b[l])))
  {
  }

  // Row by row, lane l of the accumulators is branch 7 - l.
  lemma {:induction false} RowsAreBranches(p: Plan, w: int -> Complex, staging: nat, re: seq<real>, im: seq<real>, x: seq<Complex>,
                                           cursor: nat, n: nat, rows: nat, l: nat)
    requires PlanFor(p, w, staging) && p.config.bins == 8 && rows <= p.rows && l < 8
    requires RingHolds(re, im, p.historySize, x)
    requires cursor == n % p.historySize && n < |x| <= n + 1 + (p.historySize - Span(p.config))
    ensures rows * 8 <= |p.coefficients| && rows * 8 <= p.historySize && cursor < p.historySize
    ensures |re| == 2 * p.historySize && |im| == 2 * p.historySize
    ensures Complex(RowByRow(ExactFma, re, p.coefficients, cursor, p.historySize, rows)[l],
                    RowByRow(ExactFma, im, p.coefficients, cursor, p.historySize, rows)[l]) ==
            PartialBranch(p.config, x, n, 7 - l, rows)
    decreases rows
  {
    hide RingHolds, PlanFor, RowByRow, PartialBranch, Coefficient, ExactFma, Load, Row, At, Pow2, ValidConfig, Add, Scale;
    PlanBasics(p, w, staging);
    RingLengths(re, im, p.historySize, x);
    CoefficientCount(p, w, staging);
    DivMod(n, p.historySize);
    PartialBranchStep(p.config, x, n, 7 - l, rows);
    if rows == 0 {
      NoRows(ExactFma, re, p.coefficients, cursor, p.historySize);
      NoRows(ExactFma, im, p.coefficients, cursor, p.historySize);
    } else {
      var row := rows - 1;
      RowsAreBranches(p, w, staging, re, im, x, cursor, n, row, l);
      InRingOnce(cursor, p.historySize, row);
      RowStep(ExactFma, re, p.coefficients, cursor, p.historySize, row);
      RowStep(ExactFma, im, p.coefficients, cursor, p.historySize, row);
      LaneStep(Load(re, RowAddress(cursor, p.historySize, row)), Load(im, RowAddress(cursor, p.historySize, row)), Row(p.coefficients, row),
               RowByRow(ExactFma, re, p.coefficients, cursor, p.historySize, row), RowByRow(ExactFma, im, p.coefficients, cursor, p.historySize, row), l);
      LaneSample(p, re, im, x, cursor, n, row, l);
      LaneCoefficient(p, w, staging, row, l);
      PartialBranchStep(p.config, x, n, 7 - l, row);
    }
  }

  lemma CoefficientCount(p: Plan, w: int -> Complex, staging: nat)
    requires PlanFor(p, w, staging) && p.config.bins == 8
    ensures p.rows * 8 == |p.coefficients| == Span(p.config) && Span(p.config) + staging + 3 * p.config.decimation <= p.historySize
  {
    hide Coefficient, Period, Pow2, PostPhasesFor, RotationsFor, WeightsFor, Rows;
  }

  lemma LaneSample(p: Plan, re: seq<real>, im: seq<real>, x: seq<Complex>, cursor: nat, n: nat, row: nat, l: nat)
    requires p.config.bins == 8 && RingHolds(re, im, p.historySize, x) && Span(p.config) <= p.historySize
    requires cursor == n % p.historySize && n < |x| <= n + 1 + (p.historySize - Span(p.config))
    requires row < Rows(p.config) && l < 8
    ensures
      var at := RowAddress(cursor, p.historySize, row);
      && 0 <= at && at + 8 <= 2 * p.historySize == |re| == |im|
      && Complex(Load(re, at)[l], Load(im, at)[l]) == At(x, n - row * 8 - (7 - l))
  {
    hide Newest, At, Rows;
    DivMod(n, p.historySize);
    InRingOnce(cursor, p.historySize, row);
    SlotHoldsSample(re, im, p.historySize, x, p.config, n, cursor, row, l);
  }

  lemma LaneCoefficient(p: Plan, w: int -> Complex, staging: nat, row: nat, l: nat)
    requires PlanFor(p, w, staging) && p.config.bins == 8 && row < p.rows && l < 8
    ensures (row + 1) * 8 <= |p.coefficients| && Row(p.coefficients, row)[l] == Coefficient(p.config, row, 7 - l)
  {
    hide Coefficient, PlanFor, Rows;
    CoefficientCount(p, w, staging);
    PlanCoefficient(p, w, staging, row, l);
  }

  // ---- From accumulators to outputs ----

  // The lanes of a hop reversed into branch order and rotated.
  function RotatedLanes(rotation: seq<Complex>, re: Window, im: Window): (v: seq<Complex>)
    requires |rotation| == 8
    ensures |v| == 8
  {
    seq(8, branch requires 0 <= branch < 8 => Mul(Complex(re[7 - branch], im[7 - branch]), rotation[branch]))
  }

  // What any of the accumulation loops leaves for the hop at time n.
  ghost predicate HopAccumulated(p: Plan, re: seq<real>, im: seq<real>, cursor: nat, accumulatedRe: Window, accumulatedIm: Window)
  {
    && |re| == |im| == 2 * p.historySize && p.rows * 8 <= |p.coefficients| && p.rows * 8 <= p.historySize && cursor < p.historySize
    && accumulatedRe == RowByRow(ExactFma, re, p.coefficients, cursor, p.historySize, p.rows)
    && accumulatedIm == RowByRow(ExactFma, im, p.coefficients, cursor, p.historySize, p.rows)
  }

  lemma LanesAreBranches(p: Plan, w: int -> Complex, staging: nat, re: seq<real>, im: seq<real>, x: seq<Complex>, cursor: nat, n: nat,
                         accumulatedRe: Window, accumulatedIm: Window)
    requires PlanFor(p, w, staging) && p.config.bins == 8 && RingHolds(re, im, p.historySize, x)
    requires cursor == n % p.historySize && n < |x| <= n + 1 + (p.historySize - Span(p.config))
    requires HopAccumulated(p, re, im, cursor, accumulatedRe, accumulatedIm)
    ensures |p.rotation| == 8 && RotatedLanes(p.rotation, accumulatedRe, accumulatedIm) == HopBranches(p.config, w, x, n)
  {
    hide RingHolds, RowByRow, PartialBranch, BranchSum, Coefficient, ExactFma, At, Pow2, ValidConfig, Mul, CoefficientsFor, PostPhasesFor, WeightsFor;
    PlanBasics(p, w, staging);
    forall branch | 0 <= branch < 8
      ensures RotatedLanes(p.rotation, accumulatedRe, accumulatedIm)[branch] == Rotated(p.config, w, x, n, branch)
    {
      RowsAreBranches(p, w, staging, re, im, x, cursor, n, p.rows, 7 - branch);
      PartialBranchStep(p.config, x, n, branch, 0);
    }
  }

  // One output slot of four hops.
  function SlotOfHops(bins: seq<seq<Complex>>, slot: nat): (v: seq<Complex>)
    requires |bins| == 4 && slot < 8 && forall j :: 0 <= j < 4 ==> |bins[j]| == 8
    ensures |v| == 4
  {
    [bins[0][slot], bins[1][slot], bins[2][slot], bins[3][slot]]
  }

  // The four outputs of hop j of a batch.
  function EmittedHop(bins: seq<seq<Complex>>, m: PhaseMap, j: nat): (outs: seq<Complex>)
    requires |bins| == 4 && WellFormed(m) && j < 4 && forall i :: 0 <= i < 4 ==> |bins[i]| == 8
    ensures |outs| == 4
  {
    [EmittedAt(SlotOfHops(bins, OutputSlot(0)), m, TurnsForward(0), j), EmittedAt(SlotOfHops(bins, OutputSlot(1)), m, TurnsForward(1), j),
     EmittedAt(SlotOfHops(bins, OutputSlot(2)), m, TurnsForward(2), j), EmittedAt(SlotOfHops(bins, OutputSlot(3)), m, TurnsForward(3), j)]
  }

  lemma EmittedIsPromised(c: Config, table: int -> Complex, x: seq<Complex>, half: real, h: nat, bins: seq<seq<Complex>>, j: nat)
    requires ExactLayout(c) && RootsOfUnity(table, ORDER) && table(8) == Complex(half, half) && j < 4
    requires |bins| == 4 && forall i :: 0 <= i < 4 ==> |bins[i]| == 8
    requires forall i: nat :: i < 4 ==> bins[i] == EightPoint(HopBranches(c, Root(c, table), x, (h + i) * 4), half)
    ensures WellFormed(PhaseMapOf(h % 4)) && HopOutputs(EmittedHop(bins, PhaseMapOf(h % 4), j), c, Root(c, table), x, h + j)
  {
    hide RootsOfUnity, EmittedAt, PhaseMapOf, EightPoint, HopBranches, Direct, Root, OutputSlot;
    forall output: nat | output < 4
      ensures WellFormed(PhaseMapOf(h % 4))
      ensures EmittedAt(SlotOfHops(bins, OutputSlot(output)), PhaseMapOf(h % 4), TurnsForward(output), j) ==
              Direct(c, Root(c, table), x, c.logical[output], (h + j) * 4)
    {
      FourHopsAreDirect(c, table, x, half, h, output, j);
      assert SlotOfHops(bins, OutputSlot(output)) == FourHops(c, Root(c, table), x, half, h, output);
    }
    FourHopsAreDirect(c, table, x, half, h, 0, j);
  }

  // The rotated lanes of hop h + j of a batch, and what the ring must still hold for it.
  ghost predicate HopReady(p: Plan, w: int -> Complex, re: Window, im: Window, x: seq<Complex>, h: nat)
  {
    |p.rotation| == 8 && p.config.bins == 8 && RotatedLanes(p.rotation, re, im) == HopBranches(p.config, w, x, h * 4)
  }

  // Rotation, network and phase maps of four hops.
  method EmitFour(p: Plan, accumulatedRe: seq<Window>, accumulatedIm: seq<Window>, phase: nat, half: real,
                  ghost table: int -> Complex, ghost x: seq<Complex>, ghost h: nat)
    returns (outs: seq<seq<Complex>>)
    requires ExactLayout(p.config) && RootsOfUnity(table, ORDER) && table(8) == Complex(half, half) && |p.rotation| == 8
    requires |accumulatedRe| == |accumulatedIm| == 4 && phase == h % 4
    requires forall j: nat :: j < 4 ==> HopReady(p, Root(p.config, table), accumulatedRe[j], accumulatedIm[j], x, h + j)
    ensures |outs| == 4 && forall j: nat :: j < 4 ==> HopOutputs(outs[j], p.config, Root(p.config, table), x, h + j)
  {
    hide RootsOfUnity, EightPoint, HopBranches, PhaseMapOf, EmittedHop, HopOutputs, RotatedLanes, Root, ExactLayout;
    var bins := [EightPoint(RotatedLanes(p.rotation, accumulatedRe[0], accumulatedIm[0]), half),
                 EightPoint(RotatedLanes(p.rotation, accumulatedRe[1], accumulatedIm[1]), half),
                 EightPoint(RotatedLanes(p.rotation, accumulatedRe[2], accumulatedIm[2]), half),
                 EightPoint(RotatedLanes(p.rotation, accumulatedRe[3], accumulatedIm[3]), half)];
    BinsAreNetwork(p, table, x, half, h, accumulatedRe, accumulatedIm, bins);
    EmittedIsPromised(p.config, table, x, half, h, bins, 0);
    EmittedIsPromised(p.config, table, x, half, h, bins, 1);
    EmittedIsPromised(p.config, table, x, half, h, bins, 2);
    EmittedIsPromised(p.config, table, x, half, h, bins, 3);
    var m := PhaseMapOf(phase);
    outs := [EmittedHop(bins, m, 0), EmittedHop(bins, m, 1), EmittedHop(bins, m, 2), EmittedHop(bins, m, 3)];
  }

  lemma BinsAreNetwork(p: Plan, table: int -> Complex, x: seq<Complex>, half: real, h: nat, accumulatedRe: seq<Window>, accumulatedIm: seq<Window>,
                       bins: seq<seq<Complex>>)
    requires |p.rotation| == 8 && |accumulatedRe| == |accumulatedIm| == |bins| == 4
    requires forall j: nat :: j < 4 ==> HopReady(p, Root(p.config, table), accumulatedRe[j], accumulatedIm[j], x, h + j)
    requires forall j: nat :: j < 4 ==> bins[j] == EightPoint(RotatedLanes(p.rotation, accumulatedRe[j], accumulatedIm[j]), half)
    ensures p.config.bins == 8
    ensures forall j: nat :: j < 4 ==> bins[j] == EightPoint(HopBranches(p.config, Root(p.config, table), x, (h + j) * 4), half)
  {
    hide EightPoint, HopBranches, RotatedLanes, Root;
    assert HopReady(p, Root(p.config, table), accumulatedRe[0], accumulatedIm[0], x, h + 0);
  }

  // Accumulators of a hop whose span the ring still holds make it ready.
  lemma AccumulatedIsReady(p: Plan, w: int -> Complex, staging: nat, re: seq<real>, im: seq<real>, x: seq<Complex>, cursor: nat, h: nat,
                           accumulatedRe: Window, accumulatedIm: Window)
    requires PlanFor(p, w, staging) && p.config.bins == 8 && RingHolds(re, im, p.historySize, x)
    requires cursor == h * 4 % p.historySize && h * 4 < |x| <= h * 4 + 1 + (p.historySize - Span(p.config))
    requires HopAccumulated(p, re, im, cursor, accumulatedRe, accumulatedIm)
    ensures HopReady(p, w, accumulatedRe, accumulatedIm, x, h)
  {
    hide PlanFor, RingHolds, HopAccumulated, HopBranches, RotatedLanes;
    LanesAreBranches(p, w, staging, re, im, x, cursor, h * 4, accumulatedRe, accumulatedIm);
  }

  // Main result: the four-hop batch of the exact layout gives the promised outputs, from
  // any starting phase.
  method BatchOfFour(p: Plan, re: seq<real>, im: seq<real>, cursors: seq<nat>, phase: nat, half: real,
                     ghost table: int -> Complex, ghost staging: nat, ghost x: seq<Complex>, ghost h: nat)
    returns (outs: seq<seq<Complex>>)
    requires PlanFor(p, Root(p.config, table), staging) && ExactLayout(p.config) && RootsOfUnity(table, ORDER) && table(8) == Complex(half, half)
    requires RingHolds(re, im, p.historySize, x) && phase == h % 4
    requires |cursors| == 4 && forall j: nat :: j < 4 ==> cursors[j] == (h + j) * 4 % p.historySize
    requires (h + 3) * 4 < |x| <= h * 4 + 1 + (p.historySize - Span(p.config))
    ensures |outs| == 4 && forall j: nat :: j < 4 ==> HopOutputs(outs[j], p.config, Root(p.config, table), x, h + j)
  {
    hide PlanFor, RootsOfUnity, RingHolds, RowByRow, HopOutputs, Root, ExactFma, HopReady;
    PlanBasics(p, Root(p.config, table), staging);
    CoefficientCount(p, Root(p.config, table), staging);
    RingIsMirrored(re, im, p.historySize, x);
    RingLengths(re, im, p.historySize, x);
    forall j: nat | j < 4 ensures cursors[j] < p.historySize {
      DivMod((h + j) * 4, p.historySize);
    }
    SumModulo(h * 4, 8, p.historySize);
    SumModulo((h + 1) * 4, 8, p.historySize);
    var accumulatedRe := AccumulatePaired(ExactFma, re, p.coefficients, cursors, p.historySize, p.rows);
    var accumulatedIm := AccumulatePaired(ExactFma, im, p.coefficients, cursors, p.historySize, p.rows);
    forall j: nat | j < 4 ensures HopReady(p, Root(p.config, table), accumulatedRe[j], accumulatedIm[j], x, h + j) {
      AccumulatedIsReady(p, Root(p.config, table), staging, re, im, x, cursors[j], h + j, accumulatedRe[j], accumulatedIm[j]);
    }
    RotationCount(p, Root(p.config, table), staging);
    outs := EmitFour(p, accumulatedRe, accumulatedIm, phase, half, table, x, h);
  }

  lemma RotationCount(p: Plan, w: int -> Complex, staging: nat)
    requires PlanFor(p, w, staging)
    ensures |p.rotation| == p.config.bins
  {
    hide Period, Pow2, PostPhasesFor, CoefficientsFor, WeightsFor, Rows, ValidConfig;
  }

  // The same for eight hops of the wide backend: both halves of its registers run the
  // four-hop epilogue from the same phase.
  method BatchOfEightHops(p: Plan, re: seq<real>, im: seq<real>, fixedRows: nat, batchCursor: nat, phase: nat, half: real,
                          ghost table: int -> Complex, ghost staging: nat, ghost x: seq<Complex>, ghost h: nat)
    returns (low: seq<seq<Complex>>, high: seq<seq<Complex>>)
    requires PlanFor(p, Root(p.config, table), staging) && ExactLayout(p.config) && RootsOfUnity(table, ORDER) && table(8) == Complex(half, half)
    requires RingHolds(re, im, p.historySize, x) && phase == h % 4 && staging >= 16 && (fixedRows == 0 || fixedRows == p.rows)
    requires batchCursor == h * 4 % p.historySize
    requires (h + 7) * 4 < |x| <= h * 4 + 1 + (p.historySize - Span(p.config))
    ensures |low| == 4 && forall j: nat :: j < 4 ==> HopOutputs(low[j], p.config, Root(p.config, table), x, h + j)
    ensures |high| == 4 && forall j: nat :: j < 4 ==> HopOutputs(high[j], p.config, Root(p.config, table), x, h + 4 + j)
  {
    hide PlanFor, RootsOfUnity, RingHolds, RowByRow, HopOutputs, Root, ExactFma, HopReady;
    PlanBasics(p, Root(p.config, table), staging);
    CoefficientCount(p, Root(p.config, table), staging);
    RingIsMirrored(re, im, p.historySize, x);
    RingLengths(re, im, p.historySize, x);
    DivMod(h * 4, p.historySize);
    var hopsRe := BatchOfEight(ExactFma, re, p.coefficients, fixedRows, p.rows, batchCursor, p.historySize);
    var hopsIm := BatchOfEight(ExactFma, im, p.coefficients, fixedRows, p.rows, batchCursor, p.historySize);
    EightReady(p, Root(p.config, table), staging, re, im, x, batchCursor, h, hopsRe, hopsIm);
    RotationCount(p, Root(p.config, table), staging);
    low := EmitFour(p, hopsRe[..4], hopsIm[..4], phase, half, table, x, h);
    PhaseOfFour(h);
    high := EmitFour(p, hopsRe[4..], hopsIm[4..], phase, half, table, x, h + 4);
  }

  lemma PhaseOfFour(h: nat)
    ensures (h + 4) % 4 == h % 4
  {
  }

  lemma HopCursor(h: nat, k: nat, size: nat)
    requires size > 0
    ensures (h * 4 % size + 4 * k) % size == (h + k) * 4 % size
  {
    SumModulo(h * 4, 4 * k, size);
  }

  lemma EightReady(p: Plan, w: int -> Complex, staging: nat, re: seq<real>, im: seq<real>, x: seq<Complex>, batchCursor: nat, h: nat,
                   hopsRe: seq<Window>, hopsIm: seq<Window>)
    requires PlanFor(p, w, staging) && p.config.bins == 8 && RingHolds(re, im, p.historySize, x)
    requires p.historySize > 0 && batchCursor == h * 4 % p.historySize
    requires (h + 7) * 4 < |x| <= h * 4 + 1 + (p.historySize - Span(p.config))
    requires |hopsRe| == |hopsIm| == 8
    requires forall k: nat :: k < 8 ==> HopAccumulated(p, re, im, (batchCursor + 4 * k) % p.historySize, hopsRe[k], hopsIm[k])
    ensures forall k: nat :: k < 4 ==> HopReady(p, w, hopsRe[..4][k], hopsIm[..4][k], x, h + k)
    ensures forall k: nat :: k < 4 ==> HopReady(p, w, hopsRe[4..][k], hopsIm[4..][k], x, h + 4 + k)
  {
    hide PlanFor, RingHolds, HopAccumulated, HopReady, Span;
    forall k: nat | k < 4
      ensures HopReady(p, w, hopsRe[..4][k], hopsIm[..4][k], x, h + k)
      ensures HopReady(p, w, hopsRe[4..][k], hopsIm[4..][k], x, h + 4 + k)
    {
      HopCursor(h, k, p.historySize);
      HopCursor(h, 4 + k, p.historySize);
      AccumulatedIsReady(p, w, staging, re, im, x, (batchCursor + 4 * k) % p.historySize, h + k, hopsRe[k], hopsIm[k]);
      AccumulatedIsReady(p, w, staging, re, im, x, (batchCursor + 4 * (4 + k)) % p.historySize, h + (4 + k), hopsRe[4 + k], hopsIm[4 + k]);
    }
  }
}
