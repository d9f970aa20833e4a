// The vector backends' common schedule, hops queued up to a batch limit, and advancing
// without output. Every hop still reads its own samples, and the state and outputs are those
// of the sample-by-sample loop.
module PfbBatched {
  import opened Bits
  import opened ComplexNumbers
  import opened IfftTransform
  import Ifft = IfftKernel
  import opened PfbFilterBank
  import opened PfbPlan
  import opened PfbRing
  import opened PfbHop
  import opened PfbStream

  // A queued hop: where its newest sample sits and the phase it was given.
  datatype Queued = Queued(cursor: nat, phase: nat)

  ghost predicate QueueOf(queue: seq<Queued>, p: Plan, first: nat)
    requires p.historySize > 0 && p.period > 0
  {
    forall i :: 0 <= i < |queue| ==>
      queue[i].cursor == (first + i) * p.config.decimation % p.historySize && queue[i].phase == (first + i) % p.period
  }

  // Filters all queued hops. The ring may already hold samples past the oldest of them,
  // as long as that one's span is still there.
  method ProcessBatch(k: Channelizer, queue: seq<Queued>, ghost x: seq<Complex>, ghost first: nat) returns (outputs: seq<seq<Complex>>)
    requires k.Ready() && k.plan.config.logical != []
    requires RingHolds(k.historyI[..], k.historyQ[..], k.plan.historySize, x)
    requires QueueOf(queue, k.plan, first)
    requires |x| <= first * k.plan.config.decimation + 1 + (k.plan.historySize - Span(k.plan.config))
    requires |queue| > 0 ==> (first + |queue| - 1) * k.plan.config.decimation < |x|
    ensures |outputs| == |queue|
    ensures BlockOutputs(outputs, k.plan.config, k.W(), x, first)
  {
    hide PlanFor, RootsOfUnity, Ifft.TableOf, RingHolds, HopOutputs, Span;
    outputs := [];
    ghost var d := k.plan.config.decimation;
    for i := 0 to |queue|
      modifies {}
      invariant |outputs| == i && BlockOutputs(outputs, k.plan.config, k.W(), x, first)
    {
      HopOrder(first, i, |queue| - 1, d);
      var out := ComputeHop(k.historyI, k.historyQ, k.plan, k.twiddles, queue[i].cursor, queue[i].phase, k.table, k.staging, x, first + i);
      outputs := outputs + [out];
    }
  }

  lemma HopOrder(first: nat, i: nat, last: nat, d: nat)
    requires i <= last
    ensures first * d <= (first + i) * d <= (first + last) * d
  {
    assert (first + i) * d == first * d + i * d;
    assert (first + last) * d == (first + i) * d + (last - i) * d;
  }

  // Hops shared per batch by the vector backends.
  function BatchLimit(p: Plan): (limit: nat)
    requires p.config.decimation > 0 && p.config.bins > 0 && p.historySize >= Span(p.config)
    ensures limit >= 1
  {
    var room := 1 + (p.historySize - Span(p.config)) / p.config.decimation;
    if room < 4 then room else 4
  }

  lemma BatchFits(p: Plan)
    requires p.config.decimation > 0 && p.config.bins > 0 && p.historySize >= Span(p.config)
    ensures (BatchLimit(p) - 1) * p.config.decimation <= p.historySize - Span(p.config)
  {
    hide Span;
    var room, d := p.historySize - Span(p.config), p.config.decimation;
    DivMod(room, d);
    var q, l := room / d, BatchLimit(p) - 1;
    assert l <= q;
    assert q * d == d * q && l * d == d * l;
    if l < q { MulStrict(d, l, q); }
  }

  // The ring size the plan chooses always admits four hops per batch.
  lemma FourHopsFit(p: Plan, w: int -> Complex, staging: nat)
    requires PlanFor(p, w, staging)
    ensures p.config.decimation > 0 && p.config.bins > 0 && p.historySize >= Span(p.config) && BatchLimit(p) == 4
  {
    hide CoefficientsFor, RotationsFor, PostPhasesFor, WeightsFor, Span;
    PlanBasics(p, w, staging);
    var room, d := p.historySize - Span(p.config), p.config.decimation;
    DivMod(room, d);
    var q := room / d;
    if q < 3 {
      MulStrict(d, q, 3);
      assert false;
    }
  }

  lemma HopsCover(n: nat, decimation: nat)
    requires decimation > 0
    ensures n <= Hops(n, decimation) * decimation
  {
    DivMod(n + decimation - 1, decimation);
    assert Hops(n, decimation) * decimation == decimation * Hops(n, decimation);
  }

  // Writes one sample; a hop that ends on it joins the queue instead of being filtered.
  method Enqueue(k: Channelizer, v: Complex, queue: seq<Queued>, ghost first: nat) returns (longer: seq<Queued>)
    requires k.Valid() && k.plan.config.logical != []
    requires QueueOf(queue, k.plan, first) && first + |queue| == Hops(|k.stream|, k.plan.config.decimation)
    modifies k`cursor, k`decimationPhase, k`postPhase, k`stream, k.historyI, k.historyQ
    ensures k.Valid() && k.stream == old(k.stream) + [v]
    ensures QueueOf(longer, k.plan, first) && first + |longer| == Hops(|k.stream|, k.plan.config.decimation)
    ensures |longer| == |queue| + if old(k.decimationPhase) == 0 then 1 else 0
    ensures |longer| > |queue| ==> (first + |queue|) * k.plan.config.decimation == old(|k.stream|)
  {
    hide PlanFor, RootsOfUnity, Ifft.TableOf, RingHolds, Hops;
    ghost var n, d := |k.stream|, k.plan.config.decimation;
    HopsStep(n, d);
    k.WriteSample(k.cursor, v, k.stream);
    longer := queue;
    if k.decimationPhase == 0 {
      longer := queue + [Queued(k.cursor, k.postPhase)];
      WrapIsModulo(Hops(n, d), k.plan.period);
      k.postPhase := if k.postPhase + 1 == k.plan.period then 0 else k.postPhase + 1;
    }
    k.Tick();
    k.stream := k.stream + [v];
  }

  // The same, running the batch as soon as the queue is full.
  method EnqueueAndRun(k: Channelizer, v: Complex, queue: seq<Queued>, batchLimit: nat, ghost first: nat)
    returns (rest: seq<Queued>, outs: seq<seq<Complex>>)
    requires k.Valid() && k.plan.config.logical != []
    requires |queue| < batchLimit && (batchLimit - 1) * k.plan.config.decimation <= k.plan.historySize - Span(k.plan.config)
    requires QueueOf(queue, k.plan, first) && first + |queue| == Hops(|k.stream|, k.plan.config.decimation)
    modifies k`cursor, k`decimationPhase, k`postPhase, k`stream, k.historyI, k.historyQ
    ensures k.Valid() && k.stream == old(k.stream) + [v]
    ensures |rest| < batchLimit && QueueOf(rest, k.plan, first + |outs|)
    ensures first + |outs| + |rest| == Hops(|k.stream|, k.plan.config.decimation)
    ensures BlockOutputs(outs, k.plan.config, k.W(), k.stream, first)
  {
    hide PlanFor, RootsOfUnity, Ifft.TableOf, RingHolds, Hops, Span, BlockOutputs, QueueOf;
    ghost var n := |k.stream|;
    rest := Enqueue(k, v, queue, first);
    outs := [];
    NoOutputs(k.plan.config, k.W(), k.stream, first);
    if |rest| == batchLimit {
      FullQueueFits(first, batchLimit, k.plan.config.decimation, n);
      outs := ProcessBatch(k, rest, k.stream, first);
      rest := [];
      EmptyQueue(k.plan, first + |outs|);
    }
  }

  // The batched schedule: the same outputs and the same state as filtering every hop at
  // once, and never more than the batch limit in the queue.
  method ProcessStreaming(k: Channelizer, input: seq<Complex>) returns (outputs: seq<seq<Complex>>)
    requires k.Valid()
    modifies k`cursor, k`decimationPhase, k`postPhase, k`stream, k.historyI, k.historyQ
    ensures k.Valid() && k.stream == old(k.stream) + input
    ensures |outputs| == OutputCount(old(k.decimationPhase), k.plan.config.decimation, |input|)
    ensures BlockOutputs(outputs, k.plan.config, k.W(), k.stream, Hops(old(|k.stream|), k.plan.config.decimation))
  {
    hide PlanFor, RootsOfUnity, Ifft.TableOf, RingHolds, Hops, Span, ValidConfig, BlockOutputs, OutputCount, QueueOf, BatchLimit;
    ghost var n, d := |k.stream|, k.plan.config.decimation;
    ghost var start := Hops(n, d);
    OutputCountIsHops(n, d, |input|);
    if |k.plan.config.logical| == 0 {
      var produced := k.SkipUnselected(|input|, input);
      outputs := seq(produced, _ => []);
      EmptyOutputs(outputs, k.plan.config, k.W(), k.stream, start);
      return;
    }
    k.Headroom();
    BatchFits(k.plan);
    var batchLimit := BatchLimit(k.plan);
    var queue: seq<Queued> := [];
    outputs := [];
    EmptyQueue(k.plan, start);
    NoOutputs(k.plan.config, k.W(), k.stream, start);
    assert input[..0] == [];
    for index := 0 to |input|
      invariant k.Valid() && k.stream == old(k.stream) + input[..index]
      invariant QueueOf(queue, k.plan, start + |outputs|) && |queue| < batchLimit
      invariant start + |outputs| + |queue| == Hops(n + index, d)
      invariant BlockOutputs(outputs, k.plan.config, k.W(), k.stream, start)
    {
      ghost var x := k.stream;
      HopsBefore(|x|, d);
      var outs;
      queue, outs := EnqueueAndRun(k, input[index], queue, batchLimit, start + |outputs|);
      assert k.stream == old(k.stream) + input[..index + 1];
      ExtendBlock(outputs, outs, k.plan.config, k.W(), x, k.stream, start);
      outputs := outputs + outs;
    }
    assert input[..|input|] == input;
    if |queue| != 0 {
      RestFits(start + |outputs|, |queue|, batchLimit, d, |k.stream|);
      var outs := ProcessBatch(k, queue, k.stream, start + |outputs|);
      JoinOutputs(outputs, outs, k.plan.config, k.W(), k.stream, start);
      outputs := outputs + outs;
    }
  }

  lemma EmptyQueue(p: Plan, first: nat)
    requires p.historySize > 0 && p.period > 0
    ensures QueueOf([], p, first)
  {
  }

  lemma JoinOutputs(outputs: seq<seq<Complex>>, outs: seq<seq<Complex>>, c: Config, w: int -> Complex, x: seq<Complex>, first: nat)
    requires BlockOutputs(outputs, c, w, x, first) && BlockOutputs(outs, c, w, x, first + |outputs|)
    ensures BlockOutputs(outputs + outs, c, w, x, first)
  {
    hide HopOutputs;
  }

  // A queue that has just filled up ends on the newest sample.
  lemma FullQueueFits(first: nat, limit: nat, d: nat, n: nat)
    requires limit >= 1 && (first + limit - 1) * d == n
    ensures n + 1 == first * d + 1 + (limit - 1) * d
  {
    assert (first + (limit - 1)) * d == first * d + (limit - 1) * d;
  }

  // What is left at the end of a block lies within the last hops.
  lemma RestFits(first: nat, queued: nat, limit: nat, d: nat, n: nat)
    requires 0 < queued < limit && d > 0 && first + queued == Hops(n, d)
    ensures n <= first * d + 1 + (limit - 1) * d && (first + queued - 1) * d < n
  {
    HopsCover(n, d);
    HopsBefore(n, d);
    hide Hops;
    assert (first + queued) * d == first * d + queued * d;
    if queued < limit - 1 { MulStrict(d, queued, limit - 1); }
    assert d * queued == queued * d && d * (limit - 1) == (limit - 1) * d;
  }

  // ---- Advancing without output ----

  // The slots once `done` samples are behind the cursor, of which the first `skipped` were
  // left out because the ring cannot keep them anyway.
  ghost predicate PartlyWritten(re: seq<real>, im: seq<real>, size: nat, x: seq<Complex>, input: seq<Complex>, skipped: nat, done: nat)
  {
    && size > 0 && |re| == 2 * size && |im| == 2 * size
    && forall p :: 0 <= p < 2 * size ==> Complex(re[p], im[p]) == PartialSample(size, x, input, skipped, done, p)
  }

  ghost function PartialSample(size: nat, x: seq<Complex>, input: seq<Complex>, skipped: nat, done: nat, p: int): Complex
    requires size > 0
  {
    var i := Newest(|x| + done, size, p);
    if i >= |x| + skipped then At(x + input, i) else At(x, Newest(|x|, size, p))
  }

  lemma NothingWritten(re: seq<real>, im: seq<real>, size: nat, x: seq<Complex>, input: seq<Complex>, skipped: nat)
    requires RingHolds(re, im, size, x)
    ensures PartlyWritten(re, im, size, x, input, skipped, skipped)
  {
    hide Newest;
    forall p | 0 <= p < 2 * size ensures PartialSample(size, x, input, skipped, skipped, p) == At(x, Newest(|x|, size, p)) {
      var turns := NewestTurns(|x| + skipped, size, p);
    }
  }

  lemma OneMoreWritten(re: seq<real>, im: seq<real>, size: nat, x: seq<Complex>, input: seq<Complex>, skipped: nat, done: nat)
    requires PartlyWritten(re, im, size, x, input, skipped, done) && skipped <= done < |input|
    ensures
      var p, v := (|x| + done) % size, input[done];
      p < size && PartlyWritten(re[p := v.re][p + size := v.re], im[p := v.im][p + size := v.im], size, x, input, skipped, done + 1)
  {
    hide Newest;
    var n := |x| + done;
    var p := n % size;
    DivMod(n, size);
    assert At(x + input, n) == input[done];
    forall q | 0 <= q < 2 * size
      ensures (q == p || q == p + size) ==> Newest(n + 1, size, q) == n
      ensures q != p && q != p + size ==> Newest(n + 1, size, q) == Newest(n, size, q)
    {
      NextNewest(n, size, p, q);
    }
  }

  // Everything the ring keeps has been written, whether or not samples were skipped.
  lemma AllWritten(re: seq<real>, im: seq<real>, size: nat, x: seq<Complex>, input: seq<Complex>, skipped: nat)
    requires PartlyWritten(re, im, size, x, input, skipped, |input|)
    requires skipped == if |input| > size then |input| - size else 0
    ensures RingHolds(re, im, size, x + input)
  {
    hide Newest;
    forall p | 0 <= p < 2 * size ensures Complex(re[p], im[p]) == At(x + input, Newest(|x + input|, size, p)) {
      var turns := NewestTurns(|x| + |input|, size, p);
      var i := Newest(|x| + |input|, size, p);
      if i < |x| + skipped {
        assert skipped == 0;
        NewestIs(|x|, size, p, i, turns);
      }
    }
  }

  // Writes the samples the ring can keep.
  method WriteNewest(k: Channelizer, input: seq<Complex>)
    requires k.Ready() && k.cursor == |k.stream| % k.plan.historySize
    modifies k.historyI, k.historyQ
    ensures old(RingHolds(k.historyI[..], k.historyQ[..], k.plan.historySize, k.stream)) ==>
              RingHolds(k.historyI[..], k.historyQ[..], k.plan.historySize, k.stream + input)
  {
    hide RootsOfUnity, Ifft.TableOf, RingHolds, PlanFor, Pow2, PartlyWritten, ValidConfig;
    PlanBasics(k.plan, k.W(), k.staging);
    var size, start, count := k.plan.historySize, k.cursor, |input|;
    var skipped := if count > size then count - size else 0;
    ghost var x, held := k.stream, RingHolds(k.historyI[..], k.historyQ[..], size, k.stream);
    if held { NothingWritten(k.historyI[..], k.historyQ[..], size, x, input, skipped); }
    for sample := skipped to count
      invariant held ==> PartlyWritten(k.historyI[..], k.historyQ[..], size, x, input, skipped, sample)
    {
      AndMask(start + sample, k.plan.logHistory);
      SumModulo(|x|, sample, size);
      if held { OneMoreWritten(k.historyI[..], k.historyQ[..], size, x, input, skipped, sample); }
      WriteBoth(k, And(start + sample, size - 1), input[sample]);
    }
    if held { AllWritten(k.historyI[..], k.historyQ[..], size, x, input, skipped); }
  }

  // Consumes a block without producing output: the state is exactly that of processing
  // it, even for blocks longer than the ring, whose older samples are never written.
  method AdvanceOnly(k: Channelizer, input: seq<Complex>)
    requires k.Valid()
    modifies k`cursor, k`decimationPhase, k`postPhase, k`stream, k.historyI, k.historyQ
    ensures k.Valid() && k.stream == old(k.stream) + input
  {
    hide RootsOfUnity, Ifft.TableOf, RingHolds, PlanFor, Pow2, Hops, OutputCount, ValidConfig;
    PlanBasics(k.plan, k.W(), k.staging);
    var size, d, count := k.plan.historySize, k.plan.config.decimation, |input|;
    ghost var n := |k.stream|;
    WriteNewest(k, input);
    var hops := OutputCount(k.decimationPhase, d, count);
    OutputCountIsHops(n, d, count);
    AndMask(k.cursor + count, k.plan.logHistory);
    SumModulo(n, count, size);
    SumModulo(n, count, d);
    SumModulo(Hops(n, d), hops, k.plan.period);
    k.postPhase := (k.postPhase + hops) % k.plan.period;
    k.cursor := And(k.cursor + count, size - 1);
    k.decimationPhase := (k.decimationPhase + count) % d;
    k.stream := k.stream + input;
  }

  method WriteBoth(k: Channelizer, target: nat, v: Complex)
    requires k.Ready() && target < k.plan.historySize
    modifies k.historyI, k.historyQ
    ensures k.historyI[..] == old(k.historyI[..])[target := v.re][target + k.plan.historySize := v.re]
    ensures k.historyQ[..] == old(k.historyQ[..])[target := v.im][target + k.plan.historySize := v.im]
  {
    hide RootsOfUnity, Ifft.TableOf, PlanFor;
    k.historyI[target], k.historyI[target + k.plan.historySize] := v.re, v.re;
    k.historyQ[target], k.historyQ[target + k.plan.historySize] := v.im, v.im;
  }

  // Whatever mixture of processing, batching, staging and advancing consumed it, the same
  // stream leaves the same state: counters and both copies of the ring.
  lemma StateIsDetermined(a: Channelizer, b: Channelizer)
    requires a.Valid() && b.Valid() && a.plan == b.plan && a.stream == b.stream
    ensures a.cursor == b.cursor && a.decimationPhase == b.decimationPhase && a.postPhase == b.postPhase
    ensures a.plan.config.logical != [] ==> a.historyI[..] == b.historyI[..] && a.historyQ[..] == b.historyQ[..]
  {
    hide RootsOfUnity, Ifft.TableOf, RingHolds, PlanFor, Hops;
    if a.plan.config.logical != [] {
      RingIsDetermined(a.historyI[..], a.historyQ[..], b.historyI[..], b.historyQ[..], a.plan.historySize, a.stream);
    }
  }
}
