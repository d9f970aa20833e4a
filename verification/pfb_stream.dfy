// The streaming channelizer: one sample at a time, hops batched behind the newest sample,
// and samples staged ahead of the filters. All of them produce the promised filter-bank
// outputs of the whole stream, wherever it is split into blocks.
module PfbStream {
  import opened Bits
  import opened ComplexNumbers
  import opened IfftTransform
  import Ifft = IfftKernel
  import opened PfbFilterBank
  import opened PfbPlan
  import opened PfbRing
  import opened PfbHop

  // Hops that start before sample time n.
  function Hops(n: nat, decimation: nat): nat
    requires decimation > 0
  {
    (n + decimation - 1) / decimation
  }

  lemma HopsStep(n: nat, decimation: nat)
    requires decimation > 0
    ensures n % decimation == 0 ==> Hops(n, decimation) * decimation == n && Hops(n + 1, decimation) == Hops(n, decimation) + 1
    ensures n % decimation != 0 ==> Hops(n + 1, decimation) == Hops(n, decimation)
  {
    var d, q, r := decimation, n / decimation, n % decimation;
    DivMod(n, d);
    if r == 0 {
      assert n + d - 1 == d * q + (d - 1);
      DivUnique(n + d - 1, d, q, d - 1);
      assert n + d == d * (q + 1) + 0;
      DivUnique(n + 1 + d - 1, d, q + 1, 0);
      assert q * d == d * q;
    } else {
      assert n + d - 1 == d * (q + 1) + (r - 1);
      DivUnique(n + d - 1, d, q + 1, r - 1);
      assert n + d == d * (q + 1) + r;
      DivUnique(n + 1 + d - 1, d, q + 1, r);
    }
  }

  // The counter that wraps at its period follows the remainder.
  lemma WrapIsModulo(n: nat, period: nat)
    requires period > 0
    ensures (n + 1) % period == if n % period + 1 == period then 0 else n % period + 1
  {
    var q, r := n / period, n % period;
    DivMod(n, period);
    if r + 1 == period {
      assert n + 1 == period * (q + 1) + 0;
      DivUnique(n + 1, period, q + 1, 0);
    } else {
      DivUnique(n + 1, period, q, r + 1);
    }
  }

  // Outputs of consecutive hops from `first` on.
  ghost predicate BlockOutputs(outs: seq<seq<Complex>>, c: Config, w: int -> Complex, x: seq<Complex>, first: nat)
  {
    forall i :: 0 <= i < |outs| ==> HopOutputs(outs[i], c, w, x, first + i)
  }

  // Longer streams do not change outputs already determined.
  lemma HopIsCausal(outs: seq<Complex>, c: Config, w: int -> Complex, x: seq<Complex>, x': seq<Complex>, h: nat)
    requires HopOutputs(outs, c, w, x, h) && |x| <= |x'| && x == x'[..|x|] && h * c.decimation < |x|
    ensures HopOutputs(outs, c, w, x', h)
  {
    hide Direct;
    forall o | 0 <= o < |outs| ensures outs[o] == Direct(c, w, x', c.logical[o], h * c.decimation) {
      DirectIsCausal(c, w, x, x', c.logical[o], h * c.decimation);
    }
  }

  // Output count of the next `count` samples, as the kernel predicts it from the
  // decimation phase alone.
  function OutputCount(decimationPhase: nat, decimation: nat, count: nat): nat
    requires decimationPhase < decimation
  {
    if count == 0 then 0
    else
      var first := if decimationPhase == 0 then 0 else decimation - decimationPhase;
      if first >= count then 0 else 1 + (count - 1 - first) / decimation
  }

  // Rounding up to the next hop.
  lemma HopsAt(m: nat, decimation: nat, slack: nat, hops: nat)
    requires slack < decimation && m + slack == decimation * hops
    ensures Hops(m, decimation) == hops
  {
    DivUnique(m + decimation - 1, decimation, hops, decimation - 1 - slack);
  }

  lemma MoreHops(d: int, base: int, k: int)
    ensures d * (base + 1 + k) == d * base + d + d * k
  {
  }

  // The prediction is the number of hops in the block.
  lemma OutputCountIsHops(n: nat, decimation: nat, count: nat)
    requires decimation > 0
    ensures OutputCount(n % decimation, decimation, count) == Hops(n + count, decimation) - Hops(n, decimation)
  {
    hide Hops;
    var d, q, r := decimation, n / decimation, n % decimation;
    DivMod(n, d);
    var first := if r == 0 then 0 else d - r;
    var base := if r == 0 then q else q + 1;
    MoreHops(d, q, 0);
    HopsAt(n, d, first, base);
    if count > first {
      var rest := count - 1 - first;
      DivMod(rest, d);
      MoreHops(d, base, rest / d);
      HopsAt(n + count, d, d - 1 - rest % d, base + 1 + rest / d);
    } else {
      HopsAt(n + count, d, first - count, base);
    }
  }

  class Channelizer {
    const plan: Plan
    const twiddles: Ifft.Twiddles
    // Real and imaginary history, each a ring stored twice.
    const historyI: array<real>
    const historyQ: array<real>
    var cursor: nat
    var decimationPhase: nat
    var postPhase: nat

    ghost const table: int -> Complex
    ghost const staging: nat
    // Every sample consumed since creation or the last reset.
    ghost var stream: seq<Complex>

    // The root of unity of the filter bank's grid.
    ghost function W(): int -> Complex { Root(plan.config, table) }

    ghost predicate Ready()
    {
      && RootsOfUnity(table, ORDER) && Ifft.TableOf(twiddles, TransformRoot(table))
      && PlanFor(plan, W(), staging)
      && historyI != historyQ && historyI.Length == 2 * plan.historySize && historyQ.Length == 2 * plan.historySize
      && plan.historySize > 0 && plan.period > 0 && plan.config.decimation > 0 && plan.config.bins > 0
    }

    ghost predicate Ring()
      requires plan.historySize > 0
      reads this, historyI, historyQ
    {
      RingHolds(historyI[..], historyQ[..], plan.historySize, stream)
    }

    // The state is a function of the stream: counters are remainders, and with any output
    // selected the ring holds the newest samples.
    ghost predicate Valid()
      reads this, historyI, historyQ
    {
      && Ready()
      && cursor == |stream| % plan.historySize
      && decimationPhase == |stream| % plan.config.decimation
      && postPhase == Hops(|stream|, plan.config.decimation) % plan.period
      && (plan.config.logical != [] ==> Ring())
    }

    constructor (plan: Plan, twiddles: Ifft.Twiddles, ghost table: int -> Complex, ghost staging: nat)
      requires RootsOfUnity(table, ORDER) && Ifft.TableOf(twiddles, TransformRoot(table))
      requires PlanFor(plan, Root(plan.config, table), staging)
      ensures Valid() && stream == [] && fresh(historyI) && fresh(historyQ)
      ensures this.plan == plan && this.table == table
    {
      hide CoefficientsFor, RotationsFor, PostPhasesFor, WeightsFor, RootsOfUnity, Ifft.TableOf, Period;
      this.plan, this.twiddles, this.table, this.staging := plan, twiddles, table, staging;
      historyI := new real[2 * plan.historySize](_ => 0.0);
      historyQ := new real[2 * plan.historySize](_ => 0.0);
      cursor, decimationPhase, postPhase := 0, 0, 0;
      stream := [];
      new;
      EmptyRing(historyI[..], historyQ[..], plan.historySize);
      DivUnique(plan.config.decimation - 1, plan.config.decimation, 0, plan.config.decimation - 1);
    }

    method Reset()
      requires Valid()
      modifies this, historyI, historyQ
      ensures Valid() && stream == []
    {
      hide PlanFor, RootsOfUnity, Ifft.TableOf, RingHolds;
      forall i | 0 <= i < historyI.Length { historyI[i] := 0.0; }
      forall i | 0 <= i < historyQ.Length { historyQ[i] := 0.0; }
      cursor, decimationPhase, postPhase := 0, 0, 0;
      stream := [];
      EmptyRing(historyI[..], historyQ[..], plan.historySize);
      DivUnique(plan.config.decimation - 1, plan.config.decimation, 0, plan.config.decimation - 1);
    }

    // Writes one sample to both copies of its slot.
    method WriteSample(target: nat, v: Complex, ghost x: seq<Complex>)
      requires Ready() && target == |x| % plan.historySize
      requires RingHolds(historyI[..], historyQ[..], plan.historySize, x)
      modifies historyI, historyQ
      ensures RingHolds(historyI[..], historyQ[..], plan.historySize, x + [v])
    {
      hide PlanFor, RootsOfUnity, Ifft.TableOf, RingHolds;
      ghost var size := plan.historySize;
      WriteSlot(historyI[..], historyQ[..], size, x, v);
      ghost var i', q' := historyI[..][target := v.re][target + size := v.re], historyQ[..][target := v.im][target + size := v.im];
      historyI[target] := v.re;
      historyI[target + plan.historySize] := v.re;
      historyQ[target] := v.im;
      historyQ[target + plan.historySize] := v.im;
      assert historyI[..] == i' && historyQ[..] == q';
    }

    // The counters after one more sample; both wrap as the kernel's counters do.
    method Tick()
      requires Ready()
      requires cursor == |stream| % plan.historySize && decimationPhase == |stream| % plan.config.decimation
      modifies this`cursor, this`decimationPhase
      ensures cursor == (|stream| + 1) % plan.historySize && decimationPhase == (|stream| + 1) % plan.config.decimation
    {
      hide RootsOfUnity, Ifft.TableOf, CoefficientsFor, RotationsFor, PostPhasesFor, WeightsFor, Pow2, Period;
      WrapIsModulo(|stream|, plan.historySize);
      WrapIsModulo(|stream|, plan.config.decimation);
      AndMask(cursor + 1, plan.logHistory);
      MaskedStep(cursor, plan.historySize);
      cursor := And(cursor + 1, plan.historySize - 1);
      decimationPhase := if decimationPhase + 1 == plan.config.decimation then 0 else decimationPhase + 1;
    }

    // One sample, and the hop that ends on it if there is one.
    method Consume(v: Complex) returns (outs: seq<seq<Complex>>)
      requires Valid() && plan.config.logical != []
      modifies this`cursor, this`decimationPhase, this`postPhase, this`stream, historyI, historyQ
      ensures Valid() && stream == old(stream) + [v]
      ensures |outs| == Hops(|stream|, plan.config.decimation) - Hops(old(|stream|), plan.config.decimation)
      ensures BlockOutputs(outs, plan.config, W(), stream, Hops(old(|stream|), plan.config.decimation))
    {
      hide PlanFor, RootsOfUnity, Ifft.TableOf, RingHolds, Hops, Span, HopOutputs;
      Headroom();
      ghost var n, d := |stream|, plan.config.decimation;
      ghost var h, x := Hops(n, d), stream + [v];
      HopsStep(n, d);
      WriteSample(cursor, v, stream);
      outs := [];
      if decimationPhase == 0 {
        var out := ComputeHop(historyI, historyQ, plan, twiddles, cursor, postPhase, table, staging, x, h);
        outs := [out];
        WrapIsModulo(h, plan.period);
        postPhase := if postPhase + 1 == plan.period then 0 else postPhase + 1;
      }
      Tick();
      stream := x;
    }

    // What the ring size leaves between the oldest sample kept and the span of a hop.
    lemma Headroom()
      requires Ready()
      ensures plan.historySize >= Span(plan.config) + staging + 3 * plan.config.decimation && ValidConfig(plan.config)
    {
      PlanBasics(plan, W(), staging);
    }

    // With no output selected nothing is filtered: the counters move, the ring does not.
    method SkipUnselected(count: nat, ghost input: seq<Complex>) returns (produced: nat)
      requires Valid() && plan.config.logical == [] && |input| == count
      modifies this`cursor, this`decimationPhase, this`postPhase, this`stream
      ensures Valid() && stream == old(stream) + input
      ensures produced == OutputCount(old(decimationPhase), plan.config.decimation, count)
    {
      hide RootsOfUnity, Ifft.TableOf, RingHolds, Hops, CoefficientsFor, RotationsFor, PostPhasesFor, WeightsFor, Period, Pow2;
      produced := OutputCount(decimationPhase, plan.config.decimation, count);
      OutputCountIsHops(|stream|, plan.config.decimation, count);
      AndMask(cursor + count, plan.logHistory);
      SumModulo(|stream|, count, plan.historySize);
      SumModulo(|stream|, count, plan.config.decimation);
      SumModulo(Hops(|stream|, plan.config.decimation), produced, plan.period);
      cursor := And(cursor + count, plan.historySize - 1);
      decimationPhase := (decimationPhase + count) % plan.config.decimation;
      postPhase := (postPhase + produced) % plan.period;
      stream := stream + input;
    }

    // The generic backend: filter each hop as its newest sample arrives. Whatever came
    // before, the block's outputs are those promised for the stream so far.
    method Process(input: seq<Complex>) returns (outputs: seq<seq<Complex>>)
      requires Valid()
      modifies this`cursor, this`decimationPhase, this`postPhase, this`stream, historyI, historyQ
      ensures Valid() && stream == old(stream) + input
      ensures |outputs| == OutputCount(old(decimationPhase), plan.config.decimation, |input|)
      ensures BlockOutputs(outputs, plan.config, W(), stream, Hops(old(|stream|), plan.config.decimation))
    {
      hide PlanFor, RootsOfUnity, Ifft.TableOf, RingHolds, Hops, HopOutputs, ValidConfig, BlockOutputs, OutputCount;
      ghost var n, d := |stream|, plan.config.decimation;
      ghost var first := Hops(n, d);
      OutputCountIsHops(n, d, |input|);
      if |plan.config.logical| == 0 {
        var produced := SkipUnselected(|input|, input);
        outputs := seq(produced, _ => []);
        EmptyOutputs(outputs, plan.config, W(), stream, first);
        return;
      }
      outputs := [];
      NoOutputs(plan.config, W(), stream, first);
      assert input[..0] == [];
      for index := 0 to |input|
        invariant Valid() && stream == old(stream) + input[..index]
        invariant |outputs| == Hops(n + index, d) - first
        invariant BlockOutputs(outputs, plan.config, W(), stream, first)
      {
        ghost var x := stream;
        var outs := Consume(input[index]);
        assert stream == old(stream) + input[..index + 1];
        HopsBefore(|x|, d);
        ExtendBlock(outputs, outs, plan.config, W(), x, stream, first);
        outputs := outputs + outs;
      }
      assert input[..|input|] == input;
    }
  }

  // A unit impulse sent through a channelizer in its initial state: every output of hop h is
  // the tap h * decimation of the filter, for every bin, grid and split of the answer.
  method MeasureResponse(k: Channelizer, length: nat) returns (outputs: seq<seq<Complex>>)
    requires k.Valid() && k.stream == []
    modifies k`cursor, k`decimationPhase, k`postPhase, k`stream, k.historyI, k.historyQ
    ensures k.Valid() && |k.stream| == length + 1
    ensures |outputs| == Hops(length + 1, k.plan.config.decimation)
    ensures forall h: nat :: h < |outputs| ==>
      && |outputs[h]| == |k.plan.config.logical|
      && forall o: nat :: o < |outputs[h]| ==>
           outputs[h][o] == Complex(TapAt(k.plan.config.taps, h * k.plan.config.decimation), 0.0)
  {
    hide PlanFor, RootsOfUnity, Ifft.TableOf, RingHolds, Direct, Hops, OutputCount, BlockOutputs;
    ghost var c, w := k.plan.config, k.W();
    var impulse := [ONE] + seq(length, _ => ZERO);
    OutputCountIsHops(0, c.decimation, |impulse|);
    HopsStep(0, c.decimation);
    outputs := k.Process(impulse);
    assert k.stream == impulse;
    RootSpecial(k.table, ORDER);
    assert w(0) == ONE by { assert RootStep(c.bins) * 0 == 0; }
    forall h: nat, o: nat | h < |outputs| && o < |c.logical|
      ensures |outputs[h]| == |c.logical| && outputs[h][o] == Complex(TapAt(c.taps, h * c.decimation), 0.0)
    {
      HopInBlock(outputs, c, w, k.stream, h);
      ImpulseResponse(c, w, k.stream, c.logical[o], h * c.decimation);
    }
    forall h: nat | h < |outputs| ensures |outputs[h]| == |c.logical| {
      HopInBlock(outputs, c, w, k.stream, h);
    }
  }

  function TapAt(taps: seq<real>, n: nat): real { if n < |taps| then taps[n] else 0.0 }

  lemma HopInBlock(outputs: seq<seq<Complex>>, c: Config, w: int -> Complex, x: seq<Complex>, h: nat)
    requires c.decimation > 0 && h < |outputs| && BlockOutputs(outputs, c, w, x, Hops(0, c.decimation))
    ensures HopOutputs(outputs[h], c, w, x, h)
  {
    hide HopOutputs;
    HopsAt(0, c.decimation, 0, 0);
  }

  lemma NoOutputs(c: Config, w: int -> Complex, x: seq<Complex>, first: nat)
    ensures BlockOutputs([], c, w, x, first)
  {
  }

  lemma EmptyOutputs(outs: seq<seq<Complex>>, c: Config, w: int -> Complex, x: seq<Complex>, first: nat)
    requires c.logical == [] && forall i :: 0 <= i < |outs| ==> outs[i] == []
    ensures BlockOutputs(outs, c, w, x, first)
  {
  }

  // Every hop before a time has its newest sample before it.
  lemma HopsBefore(n: nat, decimation: nat)
    requires decimation > 0
    ensures forall h: nat :: h < Hops(n, decimation) ==> h * decimation < n
  {
    var d := decimation;
    DivMod(n + d - 1, d);
    forall h: nat | h < Hops(n, d) ensures h * d < n {
      if h + 1 < Hops(n, d) { MulStrict(d, h + 1, Hops(n, d)); }
      assert d * (h + 1) == d * h + d;
      assert h * d == d * h;
    }
  }

  lemma ExtendBlock(outputs: seq<seq<Complex>>, outs: seq<seq<Complex>>, c: Config, w: int -> Complex,
                    x: seq<Complex>, x': seq<Complex>, first: nat)
    requires BlockOutputs(outputs, c, w, x, first) && BlockOutputs(outs, c, w, x', first + |outputs|)
    requires |x| <= |x'| && x == x'[..|x|]
    requires forall h: nat :: h < first + |outputs| ==> h * c.decimation < |x|
    ensures BlockOutputs(outputs + outs, c, w, x', first)
  {
    hide HopOutputs;
    forall i | 0 <= i < |outputs| ensures HopOutputs(outputs[i], c, w, x', first + i) {
      HopIsCausal(outputs[i], c, w, x, x', first + i);
    }
    forall i | |outputs| <= i < |outputs + outs| ensures HopOutputs((outputs + outs)[i], c, w, x', first + i) {
      assert (outputs + outs)[i] == outs[i - |outputs|];
    }
  }

  lemma SumModulo(a: nat, b: nat, m: nat)
    requires m > 0
    ensures (a % m + b) % m == (a + b) % m
  {
    var t := a % m + b;
    DivMod(a, m);
    DivMod(t, m);
    assert a + b == m * (a / m + t / m) + t % m by { assert m * (a / m + t / m) == m * (a / m) + m * (t / m); }
    DivUnique(a + b, m, a / m + t / m, t % m);
  }

  lemma MaskedStep(r: nat, size: nat)
    requires r < size
    ensures (r + 1) % size == if r + 1 == size then 0 else r + 1
  {
    if r + 1 == size {
      DivUnique(r + 1, size, 1, 0);
    } else {
      DivUnique(r + 1, size, 0, r + 1);
    }
  }
}
