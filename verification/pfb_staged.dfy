// The staged schedule of the eight-bin, decimate-by-4 layouts: samples written 64 or 256 at a
// time ahead of the filters, and the vector batches that filter them, from a block of samples
// to its outputs.
module PfbStaged {
  import opened Bits
  import opened ComplexNumbers
  import opened IfftTransform
  import Ifft = IfftKernel
  import opened PfbFilterBank
  import opened PfbPlan
  import opened PfbRing
  import opened PfbHop
  import opened PfbStream
  import opened PfbBatched
  import opened PfbD4x4
  import opened PfbExact
  import opened PfbEight

  // ---- Staging samples ahead of the filters (decimation 4) ----

  // Writes consecutive samples into the ring, wrapping by mask.
  method WriteRun(k: Channelizer, input: seq<Complex>, index: nat, count: nat, ghost x: seq<Complex>)
    requires k.Ready() && index + count <= |input|
    requires RingHolds(k.historyI[..], k.historyQ[..], k.plan.historySize, x) && k.cursor == |x| % k.plan.historySize
    modifies k`cursor, k.historyI, k.historyQ
    ensures RingHolds(k.historyI[..], k.historyQ[..], k.plan.historySize, x + input[index..index + count])
    ensures k.cursor == (|x| + count) % k.plan.historySize
  {
    hide RootsOfUnity, Ifft.TableOf, RingHolds, PlanFor, Pow2;
    PlanBasics(k.plan, k.W(), k.staging);
    var start, size := k.cursor, k.plan.historySize;
    ghost var y := x;
    assert input[index..index] == [];
    for offset := 0 to count
      modifies k.historyI, k.historyQ
      invariant y == x + input[index..index + offset]
      invariant RingHolds(k.historyI[..], k.historyQ[..], size, y)
    {
      AndMask(start + offset, k.plan.logHistory);
      SumModulo(|x|, offset, size);
      k.WriteSample(And(start + offset, size - 1), input[index + offset], y);
      y := y + [input[index + offset]];
      assert input[index..index + offset + 1] == input[index..index + offset] + [input[index + offset]];
    }
    AndMask(start + count, k.plan.logHistory);
    SumModulo(|x|, count, size);
    k.cursor := And(start + count, size - 1);
  }

  // The exact layout has a period of four hops; its phases come from a mask and are not
  // carried along, other layouts step a wrapping counter.
  method StagedQueue(p: Plan, cursor: nat, phase: nat, hops: nat, exact: bool, ghost first: nat)
    returns (queue: seq<Queued>, nextPhase: nat)
    requires p.historySize == Pow2(p.logHistory) && p.period > 0 && p.config.decimation == 4
    requires cursor == first * 4 % p.historySize && phase == first % p.period
    requires exact ==> p.period == 4 && hops % 4 == 0
    ensures |queue| == hops && QueueOf(queue, p, first) && nextPhase == (first + hops) % p.period
  {
    hide Pow2;
    queue, nextPhase := [], phase;
    for j := 0 to hops
      invariant |queue| == j && QueueOf(queue, p, first)
      invariant nextPhase == if exact then phase else (first + j) % p.period
    {
      AndMask(cursor + 4 * j, p.logHistory);
      SumModulo(first * 4, 4 * j, p.historySize);
      WrapIsModulo(first + j, p.period);
      MaskedPhase(first, j);
      queue := queue + [Queued(And(cursor + 4 * j, p.historySize - 1), if exact then And(phase + j % 4, 3) else nextPhase)];
      if !exact {
        nextPhase := if nextPhase + 1 == p.period then 0 else nextPhase + 1;
      }
    }
    if exact { WholeTurns(first, hops); }
  }

  lemma MaskedPhase(first: nat, j: nat)
    ensures And(first % 4 + j % 4, 3) == (first + j) % 4
  {
    Powers();
    AndMask(first % 4 + j % 4, 2);
    SumModulo(j, first % 4, 4);
    SumModulo(first, j, 4);
  }

  lemma WholeTurns(first: nat, hops: nat)
    requires hops % 4 == 0
    ensures (first + hops) % 4 == first % 4
  {
  }

  // ---- Batches ----

  // The vector backend a plan is served by: the exact layout or not, the square root of one
  // half, and a row count known when it was compiled, 0 if none.
  datatype Backend = Backend(exact: bool, half: real, fixedRows: nat)

  ghost predicate Serves(b: Backend, k: Channelizer)
  {
    && k.Ready() && k.plan.config.bins == 8 && k.plan.config.decimation == 4 && |k.plan.config.logical| >= 2
    && k.table(8) == Complex(b.half, b.half) && (b.exact <==> ExactLayout(k.plan.config))
    && (b.fixedRows == 0 || b.fixedRows == k.plan.rows)
  }

  // Queued hops whose spans the ring still holds.
  ghost predicate Fed(k: Channelizer, queue: seq<Queued>, x: seq<Complex>, first: nat)
    requires k.plan.historySize > 0 && k.plan.period > 0 && k.plan.config.bins > 0
    reads k.historyI, k.historyQ
  {
    && RingHolds(k.historyI[..], k.historyQ[..], k.plan.historySize, x) && QueueOf(queue, k.plan, first)
    && |x| <= first * k.plan.config.decimation + 1 + (k.plan.historySize - Span(k.plan.config))
    && (|queue| > 0 ==> (first + |queue| - 1) * k.plan.config.decimation < |x|)
  }

  lemma ExactPhases(b: Backend, k: Channelizer)
    requires Serves(b, k) && b.exact
    ensures k.plan.period == 4
  {
    hide PlanFor, RootsOfUnity, Ifft.TableOf, Period;
    PlanBasics(k.plan, k.W(), k.staging);
    ExactPeriod(k.plan.config);
  }

  function CursorsOf(queue: seq<Queued>): (cursors: seq<nat>)
    ensures |cursors| == |queue|
  {
    seq(|queue|, i requires 0 <= i < |queue| => queue[i].cursor)
  }

  function PhasesOf(queue: seq<Queued>): (phases: seq<nat>)
    ensures |phases| == |queue|
  {
    seq(|queue|, i requires 0 <= i < |queue| => queue[i].phase)
  }

  lemma FedHops(k: Channelizer, queue: seq<Queued>, x: seq<Complex>, first: nat)
    requires k.plan.historySize > 0 && k.plan.period > 0 && k.plan.config.bins > 0 && k.plan.config.decimation == 4
    requires Fed(k, queue, x, first)
    ensures HopsOfRing(k.plan, k.historyI[..], k.historyQ[..], CursorsOf(queue), PhasesOf(queue), x, first)
  {
    hide RingHolds, Span;
  }

  // One batch of up to four hops.
  method FilterBatch(k: Channelizer, b: Backend, queue: seq<Queued>, ghost x: seq<Complex>, ghost first: nat) returns (outputs: seq<seq<Complex>>)
    requires Serves(b, k) && |queue| <= 4 && Fed(k, queue, x, first)
    ensures |outputs| == |queue| && BlockOutputs(outputs, k.plan.config, k.W(), x, first)
  {
    hide PlanFor, RootsOfUnity, Ifft.TableOf, RingHolds, Span, HopOutputs, ExactLayout, Root;
    FedHops(k, queue, x, first);
    var cursors, phases := CursorsOf(queue), PhasesOf(queue);
    if |queue| == 4 {
      if b.exact {
        ExactPhases(b, k);
        outputs := BatchOfFour(k.plan, k.historyI[..], k.historyQ[..], cursors, phases[0], b.half, k.table, k.staging, x, first);
      } else {
        outputs := FourByTable(k.plan, k.historyI[..], k.historyQ[..], cursors, phases, b.half, k.table, k.staging, x, first);
      }
    } else {
      outputs := FewByTable(k.plan, k.twiddles, k.historyI[..], k.historyQ[..], cursors, phases, b.half, k.table, k.staging, x, first);
    }
  }

  // Eight hops of the exact layout in the registers of the wide backend.
  method FilterEight(k: Channelizer, b: Backend, queue: seq<Queued>, ghost x: seq<Complex>, ghost first: nat) returns (outputs: seq<seq<Complex>>)
    requires Serves(b, k) && b.exact && k.staging >= 16 && |queue| == 8 && Fed(k, queue, x, first)
    ensures |outputs| == |queue| && BlockOutputs(outputs, k.plan.config, k.W(), x, first)
  {
    hide PlanFor, RootsOfUnity, Ifft.TableOf, RingHolds, Span, HopOutputs, ExactLayout, Root;
    FedHops(k, queue, x, first);
    ExactPhases(b, k);
    var low, high := BatchOfEightHops(k.plan, k.historyI[..], k.historyQ[..], b.fixedRows, queue[0].cursor, queue[0].phase, b.half,
                                      k.table, k.staging, x, first);
    outputs := low + high;
  }

  // A group of a longer queue.
  lemma FedGroup(k: Channelizer, queue: seq<Queued>, done: nat, group: nat, x: seq<Complex>, first: nat)
    requires k.plan.historySize > 0 && k.plan.period > 0 && k.plan.config.bins > 0
    requires Fed(k, queue, x, first) && 0 < group && done + group <= |queue|
    ensures Fed(k, queue[done..done + group], x, first + done)
  {
    hide RingHolds, Span;
    HopOrder(first, done, |queue| - 1, k.plan.config.decimation);
    HopOrder(first + done, group - 1, |queue| - 1 - done, k.plan.config.decimation);
  }

  // Filters a staged run batch by batch, four hops at a time, or eight in the wide backend.
  method ProcessGroups(k: Channelizer, b: Backend, queue: seq<Queued>, group: nat, ghost x: seq<Complex>, ghost first: nat) returns (outputs: seq<seq<Complex>>)
    requires Serves(b, k) && (group == 4 || (group == 8 && b.exact && k.staging >= 16)) && |queue| % group == 0
    requires Fed(k, queue, x, first)
    ensures |outputs| == |queue| && BlockOutputs(outputs, k.plan.config, k.W(), x, first)
  {
    hide PlanFor, RootsOfUnity, Ifft.TableOf, RingHolds, BlockOutputs, Span, Fed, ExactLayout;
    outputs := [];
    NoOutputs(k.plan.config, k.W(), x, first);
    var done := 0;
    while done < |queue|
      modifies {}
      invariant done <= |queue| && done % group == 0 && |outputs| == done
      invariant BlockOutputs(outputs, k.plan.config, k.W(), x, first)
    {
      GroupFits(done, group, |queue|);
      FedGroup(k, queue, done, group, x, first);
      var outs;
      if group == 8 {
        outs := FilterEight(k, b, queue[done..done + group], x, first + done);
      } else {
        outs := FilterBatch(k, b, queue[done..done + group], x, first + done);
      }
      JoinOutputs(outputs, outs, k.plan.config, k.W(), x, first);
      outputs := outputs + outs;
      done := done + group;
    }
  }

  lemma GroupFits(done: nat, group: nat, total: nat)
    requires group > 0 && done % group == 0 && total % group == 0 && done < total
    ensures done + group <= total && (done + group) % group == 0
  {
    DivMod(done, group);
    DivMod(total, group);
    var a, b := done / group, total / group;
    if a >= b {
      if a > b { MulStrict(group, b, a); }
      assert false;
    }
    MulStrict(group, a, b);
    assert group * (a + 1) == group * a + group;
    DivUnique(done + group, group, a + 1, 0);
  }

  // A span written ahead of its filters leaves every hop of it its own samples.
  lemma StagedIsFed(k: Channelizer, queue: seq<Queued>, before: seq<Complex>, x: seq<Complex>, hops: nat)
    requires k.Ready() && k.plan.config.decimation == 4 && |before| % 4 == 0 && 0 < 4 * hops <= k.staging
    requires |x| == |before| + 4 * hops && |queue| == hops && QueueOf(queue, k.plan, Hops(|before|, 4))
    requires RingHolds(k.historyI[..], k.historyQ[..], k.plan.historySize, x)
    ensures Fed(k, queue, x, Hops(|before|, 4)) && |x| % 4 == 0 && Hops(|x|, 4) == Hops(|before|, 4) + hops
  {
    hide PlanFor, RootsOfUnity, Ifft.TableOf, RingHolds, Span, QueueOf, Hops;
    k.Headroom();
    AlignedHops(|before|, hops);
  }

  // Stages a whole span of samples, then filters its hops in groups.
  method StageSpan(k: Channelizer, b: Backend, input: seq<Complex>, index: nat, hops: nat, group: nat) returns (outputs: seq<seq<Complex>>)
    requires k.Valid() && Serves(b, k) && |k.stream| % 4 == 0
    requires index + 4 * hops <= |input| && 0 < 4 * hops <= k.staging && hops % 4 == 0
    requires (group == 4 || (group == 8 && b.exact)) && hops % group == 0
    modifies k`cursor, k`postPhase, k`stream, k.historyI, k.historyQ
    ensures k.Valid() && k.stream == old(k.stream) + input[index..index + 4 * hops]
    ensures |outputs| == hops && Hops(|k.stream|, 4) == Hops(old(|k.stream|), 4) + hops
    ensures BlockOutputs(outputs, k.plan.config, k.W(), k.stream, Hops(old(|k.stream|), 4))
  {
    hide PlanFor, RootsOfUnity, Ifft.TableOf, RingHolds, BlockOutputs, Span, Pow2, QueueOf, Hops, OutputCount, Fed, ExactLayout;
    PlanBasics(k.plan, k.W(), k.staging);
    ghost var first := Hops(|k.stream|, 4);
    AlignedHops(|k.stream|, hops);
    if b.exact { ExactPhases(b, k); }
    var queue, nextPhase := StagedQueue(k.plan, k.cursor, k.postPhase, hops, b.exact, first);
    ghost var x := k.stream + input[index..index + 4 * hops];
    WriteRun(k, input, index, 4 * hops, k.stream);
    StagedIsFed(k, queue, k.stream, x, hops);
    outputs := ProcessGroups(k, b, queue, group, x, first);
    k.postPhase := nextPhase;
    k.stream := x;
  }

  lemma AlignedHops(n: nat, hops: nat)
    requires n % 4 == 0
    ensures Hops(n, 4) * 4 == n && Hops(n + 4 * hops, 4) == Hops(n, 4) + hops && (n + 4 * hops) % 4 == 0
  {
  }

  // A group of sixteen samples in lockstep: thirteen complete its four hops, the other
  // three follow.
  method StageGroup(k: Channelizer, b: Backend, input: seq<Complex>, index: nat) returns (outputs: seq<seq<Complex>>)
    requires k.Valid() && Serves(b, k) && |k.stream| % 4 == 0 && index + 16 <= |input|
    modifies k`cursor, k`postPhase, k`stream, k.historyI, k.historyQ
    ensures k.Valid() && k.stream == old(k.stream) + input[index..index + 16]
    ensures |outputs| == 4 && Hops(|k.stream|, 4) == Hops(old(|k.stream|), 4) + 4
    ensures BlockOutputs(outputs, k.plan.config, k.W(), k.stream, Hops(old(|k.stream|), 4))
  {
    hide PlanFor, RootsOfUnity, Ifft.TableOf, RingHolds, BlockOutputs, Span, Pow2, QueueOf, Hops, Fed, ExactLayout;
    PlanBasics(k.plan, k.W(), k.staging);
    ghost var before, first := k.stream, Hops(|k.stream|, 4);
    ghost var x := before + input[index..index + 13];
    AlignedHops(|before|, 4);
    if b.exact { ExactPhases(b, k); }
    var queue, nextPhase := StagedQueue(k.plan, k.cursor, k.postPhase, 4, b.exact, first);
    WriteRun(k, input, index, 13, before);
    ThirteenFeedFour(k, queue, before, x);
    outputs := FilterBatch(k, b, queue, x, first);
    WriteRun(k, input, index + 13, 3, x);
    assert x + input[index + 13..index + 16] == before + input[index..index + 16];
    k.postPhase := nextPhase;
    k.stream := before + input[index..index + 16];
    NoOutputs(k.plan.config, k.W(), k.stream, first + 4);
    ExtendBlock(outputs, [], k.plan.config, k.W(), x, k.stream, first);
    assert outputs + [] == outputs;
  }

  lemma ThirteenFeedFour(k: Channelizer, queue: seq<Queued>, before: seq<Complex>, x: seq<Complex>)
    requires k.Ready() && k.plan.config.decimation == 4 && |before| % 4 == 0 && |x| == |before| + 13
    requires |queue| == 4 && QueueOf(queue, k.plan, Hops(|before|, 4))
    requires RingHolds(k.historyI[..], k.historyQ[..], k.plan.historySize, x)
    ensures Fed(k, queue, x, Hops(|before|, 4))
  {
    hide PlanFor, RootsOfUnity, Ifft.TableOf, RingHolds, Span, QueueOf, Hops;
    k.Headroom();
    AlignedHops(|before|, 4);
  }

  // What every loop below keeps: the state is that of the samples consumed so far and the
  // outputs so far are all of theirs.
  ghost predicate UpTo(k: Channelizer, before: seq<Complex>, input: seq<Complex>, index: nat, outputs: seq<seq<Complex>>)
    requires k.Ready() && index <= |input|
    reads k, k.historyI, k.historyQ
  {
    && k.stream == before + input[..index]
    && Hops(|before|, k.plan.config.decimation) + |outputs| == Hops(|k.stream|, k.plan.config.decimation)
    && BlockOutputs(outputs, k.plan.config, k.W(), k.stream, Hops(|before|, k.plan.config.decimation))
  }

  lemma NothingYet(k: Channelizer, input: seq<Complex>)
    requires k.Ready()
    ensures UpTo(k, k.stream, input, 0, [])
  {
    assert k.stream + input[..0] == k.stream;
  }

  // Appending the outputs of the samples just consumed; x was the stream before them.
  lemma Advanced(k: Channelizer, before: seq<Complex>, input: seq<Complex>, index: nat, count: nat, x: seq<Complex>,
                 outputs: seq<seq<Complex>>, outs: seq<seq<Complex>>)
    requires k.Ready() && index + count <= |input| && x == before + input[..index] && k.stream == x + input[index..index + count]
    requires Hops(|before|, k.plan.config.decimation) + |outputs| == Hops(|x|, k.plan.config.decimation)
    requires BlockOutputs(outputs, k.plan.config, k.W(), x, Hops(|before|, k.plan.config.decimation))
    requires BlockOutputs(outs, k.plan.config, k.W(), k.stream, Hops(|x|, k.plan.config.decimation))
    requires Hops(|x|, k.plan.config.decimation) + |outs| == Hops(|k.stream|, k.plan.config.decimation)
    ensures UpTo(k, before, input, index + count, outputs + outs)
  {
    hide PlanFor, RootsOfUnity, Ifft.TableOf, Hops, BlockOutputs;
    assert input[..index + count] == input[..index] + input[index..index + count];
    HopsBefore(|x|, k.plan.config.decimation);
    ExtendBlock(outputs, outs, k.plan.config, k.W(), x, k.stream, Hops(|before|, k.plan.config.decimation));
  }

  // Single samples up to the next hop boundary: no hop ends on any of them.
  method Align(k: Channelizer, input: seq<Complex>) returns (index: nat)
    requires k.Valid() && k.plan.config.logical != []
    modifies k`cursor, k`decimationPhase, k`postPhase, k`stream, k.historyI, k.historyQ
    ensures index <= |input| && k.Valid() && UpTo(k, old(k.stream), input, index, [])
    ensures index < |input| ==> |k.stream| % k.plan.config.decimation == 0
  {
    hide PlanFor, RootsOfUnity, Ifft.TableOf, RingHolds, Hops, BlockOutputs, Span, UpTo;
    index := 0;
    NothingYet(k, input);
    while index < |input| && k.decimationPhase != 0
      invariant index <= |input| && k.Valid() && UpTo(k, old(k.stream), input, index, [])
    {
      ghost var x := k.stream;
      WhatUpToMeans(k, old(k.stream), input, index, []);
      EmptyQueue(k.plan, Hops(|x|, k.plan.config.decimation));
      var queue := Enqueue(k, input[index], [], Hops(|x|, k.plan.config.decimation));
      assert input[index..index + 1] == [input[index]];
      NoOutputs(k.plan.config, k.W(), k.stream, Hops(|x|, k.plan.config.decimation));
      ghost var none: seq<seq<Complex>> := [];
      Advanced(k, old(k.stream), input, index, 1, x, none, none);
      assert none + none == none;
      index := index + 1;
    }
  }

  lemma WhatUpToMeans(k: Channelizer, before: seq<Complex>, input: seq<Complex>, index: nat, outputs: seq<seq<Complex>>)
    requires k.Ready() && index <= |input| && UpTo(k, before, input, index, outputs)
    ensures k.stream == before + input[..index]
    ensures Hops(|before|, k.plan.config.decimation) + |outputs| == Hops(|k.stream|, k.plan.config.decimation)
    ensures BlockOutputs(outputs, k.plan.config, k.W(), k.stream, Hops(|before|, k.plan.config.decimation))
  {
  }

  // As many staged spans as the input still fills.
  method StageSpans(k: Channelizer, b: Backend, input: seq<Complex>, from: nat, hops: nat, group: nat,
                    ghost before: seq<Complex>, soFar: seq<seq<Complex>>) returns (index: nat, outputs: seq<seq<Complex>>)
    requires k.Valid() && Serves(b, k) && from <= |input| && (from < |input| ==> |k.stream| % 4 == 0)
    requires 0 < 4 * hops <= k.staging && hops % 4 == 0 && (group == 4 || (group == 8 && b.exact)) && hops % group == 0
    requires UpTo(k, before, input, from, soFar)
    modifies k`cursor, k`postPhase, k`stream, k.historyI, k.historyQ
    ensures from <= index <= |input| && |input| - index < 4 * hops && k.Valid() && UpTo(k, before, input, index, outputs)
    ensures index < |input| ==> |k.stream| % 4 == 0
  {
    hide PlanFor, RootsOfUnity, Ifft.TableOf, RingHolds, Hops, BlockOutputs, Span, UpTo;
    index, outputs := from, soFar;
    while |input| - index >= 4 * hops
      invariant from <= index <= |input| && k.Valid() && UpTo(k, before, input, index, outputs)
      invariant index < |input| ==> |k.stream| % 4 == 0
    {
      ghost var x := k.stream;
      WhatUpToMeans(k, before, input, index, outputs);
      var outs := StageSpan(k, b, input, index, hops, group);
      Advanced(k, before, input, index, 4 * hops, x, outputs, outs);
      outputs := outputs + outs;
      index := index + 4 * hops;
    }
  }

  // Main result: the vector backends of an eight-bin, decimate-by-4 layout, from samples to
  // outputs. Align, spans of 256 samples if the wide backend takes part, spans of 64, groups
  // of 16, and the rest through a queue of at most four. Outputs and state are those of the
  // sample-by-sample loop.
  method ProcessStaged(k: Channelizer, b: Backend, input: seq<Complex>, runs: bool) returns (outputs: seq<seq<Complex>>)
    requires k.Valid() && Serves(b, k) && k.staging >= 64 && (runs ==> b.exact && k.staging >= 256)
    modifies k`cursor, k`decimationPhase, k`postPhase, k`stream, k.historyI, k.historyQ
    ensures k.Valid() && k.stream == old(k.stream) + input
    ensures |outputs| == OutputCount(old(k.decimationPhase), 4, |input|)
    ensures BlockOutputs(outputs, k.plan.config, k.W(), k.stream, Hops(old(|k.stream|), 4))
  {
    hide PlanFor, RootsOfUnity, Ifft.TableOf, RingHolds, Hops, BlockOutputs, Span, UpTo, OutputCount, ExactLayout;
    ghost var before := k.stream;
    OutputCountIsHops(|before|, 4, |input|);
    outputs := [];
    var index := Align(k, input);
    if runs {
      index, outputs := StageSpans(k, b, input, index, 64, 8, before, outputs);
    }
    index, outputs := StageSpans(k, b, input, index, 16, 4, before, outputs);
    while |input| - index >= 16
      invariant index <= |input| && k.Valid() && UpTo(k, before, input, index, outputs)
      invariant index < |input| ==> |k.stream| % 4 == 0
    {
      ghost var x := k.stream;
      WhatUpToMeans(k, before, input, index, outputs);
      var outs := StageGroup(k, b, input, index);
      Advanced(k, before, input, index, 16, x, outputs, outs);
      outputs := outputs + outs;
      index := index + 16;
    }
    ghost var x := k.stream;
    WhatUpToMeans(k, before, input, index, outputs);
    var outs := ProcessRest(k, b, input, index);
    assert input[index..] == input[index..index + (|input| - index)];
    Advanced(k, before, input, index, |input| - index, x, outputs, outs);
    outputs := outputs + outs;
    WhatUpToMeans(k, before, input, |input|, outputs);
    assert input[..|input|] == input;
  }

  // Fewer than sixteen samples: queue their hops and filter them together.
  method ProcessRest(k: Channelizer, b: Backend, input: seq<Complex>, index: nat) returns (outs: seq<seq<Complex>>)
    requires k.Valid() && Serves(b, k) && k.staging >= 64
    requires index <= |input| && |input| - index < 16 && (index < |input| ==> |k.stream| % 4 == 0)
    modifies k`cursor, k`decimationPhase, k`postPhase, k`stream, k.historyI, k.historyQ
    ensures k.Valid() && k.stream == old(k.stream) + input[index..]
    ensures BlockOutputs(outs, k.plan.config, k.W(), k.stream, Hops(old(|k.stream|), 4))
    ensures Hops(old(|k.stream|), 4) + |outs| == Hops(|k.stream|, 4)
  {
    hide PlanFor, RootsOfUnity, Ifft.TableOf, RingHolds, Hops, BlockOutputs, Span, QueueOf, ExactLayout;
    k.Headroom();
    ghost var n, first := |k.stream|, Hops(|k.stream|, 4);
    var queue: seq<Queued> := [];
    EmptyQueue(k.plan, first);
    var next := index;
    assert input[index..index] == [];
    while next < |input|
      invariant index <= next <= |input| && k.Valid() && k.stream == old(k.stream) + input[index..next]
      invariant QueueOf(queue, k.plan, first) && first + |queue| == Hops(|k.stream|, 4) && |queue| <= 4
    {
      queue := Enqueue(k, input[next], queue, first);
      assert input[index..next + 1] == input[index..next] + [input[next]];
      next := next + 1;
      FewHops(n, next - index);
    }
    assert input[index..next] == input[index..];
    outs := [];
    NoOutputs(k.plan.config, k.W(), k.stream, first);
    if |queue| != 0 {
      AlignedHops(n, 0);
      HopsBefore(|k.stream|, 4);
      outs := FilterBatch(k, b, queue, k.stream, first);
    }
  }

  lemma FewHops(n: nat, count: nat)
    requires n % 4 == 0 && count <= 16
    ensures Hops(n + count, 4) <= Hops(n, 4) + 4
  {
  }
}
