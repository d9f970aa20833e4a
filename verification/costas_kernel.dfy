// The four-lane Costas kernel: the sample-by-sample loop, the vector loop with its masked
// ring, chunked normalisation and lazy clamping, and the calls between blocks.
module CostasKernel {
  import opened Bits
  import opened ComplexNumbers
  import opened CostasEquations
  import opened CostasLoop
  import opened CostasRotation
  import opened CostasSkip

  const LANES: nat := 4

  // One channel of a block, samples and outputs in place.
  function Row(data: array2<Complex>, lane: nat): (row: seq<Complex>)
    requires lane < data.Length0
    reads data
    ensures |row| == data.Length1 && forall i :: 0 <= i < data.Length1 ==> row[i] == data[lane, i]
  {
    seq(data.Length1, i requires 0 <= i < data.Length1 reads data => data[lane, i])
  }

  // Lane l after a block, and the block with its first n samples replaced by outputs.
  ghost predicate RowDone(t: Trig, p: LaneParams, lane: Lane, since: nat, before: seq<Complex>, row: seq<Complex>, n: nat)
    requires t.pi > 0.0
  {
    && |row| == |before| && n <= |row|
    && (forall i :: 0 <= i < n ==> row[i] == OutputAt(t, p, lane, since, before, i))
    && (forall i :: n <= i < |row| ==> row[i] == before[i])
  }

  // ---- The sample-by-sample loop ----

  // The queue moves on by one place and takes in the newest step.
  method ShiftQueue(queue: Queue, newest: Pending) returns (pending: Queue)
    ensures pending == queue[1..] + [newest]
  {
    var shifted: seq<Pending> := queue;
    for delay := 0 to DELAY - 1
      invariant |shifted| == DELAY
      invariant forall k :: 0 <= k < delay ==> shifted[k] == queue[k + 1]
      invariant forall k :: delay <= k < DELAY ==> shifted[k] == queue[k]
    {
      shifted := shifted[delay := shifted[delay + 1]];
    }
    pending := shifted[DELAY - 1 := newest];
  }

  // One sample of one lane.
  method StepLane(t: Trig, p: LaneParams, lane: Lane, x: Complex) returns (next: Lane, output: Complex)
    ensures next == Step(t, p, lane, x) && output == Derotated(lane, p.gain, x)
  {
    hide SinCos, Clamped, Derotated, Detected, NextFrequency, NextStep;
    output := Derotated(lane, p.gain, x);
    var error := Clamped(Detected(output), p.clip);
    var frequency := NextFrequency(p, lane.frequency, error);
    var oldest := lane.pending[0];
    var pending := ShiftQueue(lane.pending, SinCos(t, NextStep(p, frequency, error)));
    next := Lane(lane.phase + oldest.step,
                 lane.cos * oldest.cos - lane.sin * oldest.sin, lane.sin * oldest.cos + lane.cos * oldest.sin,
                 frequency, error, pending);
  }

  // Where a lane stands after n samples of a block, before or after normalisation.
  ghost predicate Along(t: Trig, p: LaneParams, start: Lane, since: nat, before: seq<Complex>, lane: Lane, row: seq<Complex>, n: nat, raw: bool)
    requires t.pi > 0.0
  {
    && RowDone(t, p, start, since, before, row, n)
    && lane == if raw then Stepped(t, p, start, since, before[..n]) else After(t, p, start, since, before[..n])
  }

  lemma AlongStarts(t: Trig, p: LaneParams, start: Lane, since: nat, before: seq<Complex>)
    requires t.pi > 0.0
    ensures Along(t, p, start, since, before, start, before, 0, false)
  {
    assert before[..0] == [];
  }

  // One more sample.
  lemma AlongStep(t: Trig, p: LaneParams, start: Lane, since: nat, before: seq<Complex>, lane: Lane, row: seq<Complex>, n: nat, row': seq<Complex>)
    requires t.pi > 0.0 && Along(t, p, start, since, before, lane, row, n, false) && n < |row|
    requires row' == row[n := Derotated(lane, p.gain, row[n])]
    ensures Along(t, p, start, since, before, Step(t, p, lane, row[n]), row', n + 1, true)
  {
    hide After, Derotated, Step;
    assert before[..n + 1][..n] == before[..n];
  }

  // Samples that do not complete a period are not followed by normalisation.
  lemma AlongUnchanged(t: Trig, p: LaneParams, start: Lane, since: nat, before: seq<Complex>, lane: Lane, row: seq<Complex>, n: nat)
    requires t.pi > 0.0 && Along(t, p, start, since, before, lane, row, n, true) && 0 < n && (since + n) % PERIOD != 0
    ensures Along(t, p, start, since, before, lane, row, n, false)
  {
    hide Stepped;
  }

  lemma AlongNormalized(t: Trig, p: LaneParams, start: Lane, since: nat, before: seq<Complex>, lane: Lane, row: seq<Complex>, n: nat)
    requires t.pi > 0.0 && Along(t, p, start, since, before, lane, row, n, true) && 0 < n && (since + n) % PERIOD == 0
    ensures Along(t, p, start, since, before, Normalized(t, lane), row, n, false)
  {
    hide Stepped, Normalized;
  }

  lemma Counting(since: nat, n: nat, counter: nat)
    requires counter == (since + n) % PERIOD
    ensures counter + 1 == PERIOD ==> (since + (n + 1)) % PERIOD == 0
    ensures counter + 1 != PERIOD ==> (since + (n + 1)) % PERIOD == counter + 1 != 0
  {
  }

  // ---- The vector loop ----

  // Registers of one lane; the ring's slot `slot` holds the oldest pending step.
  datatype VectorLane = VectorLane(phase: real, cos: real, sin: real, frequency: real, lastError: real, ring: Queue)

  function Unrolled(v: VectorLane, slot: nat): Lane
    requires slot < DELAY
  {
    Lane(v.phase, v.cos, v.sin, v.frequency, v.lastError, v.ring[slot..] + v.ring[..slot])
  }

  lemma NextSlot(slot: nat)
    ensures And(slot, DELAY - 1) == slot % DELAY
  {
    AndMask(slot, 2);
    Powers();
  }

  // Overwriting the oldest slot and moving on is shifting the queue.
  lemma RingShifts(ring: Queue, slot: nat, newest: Pending)
    requires slot < DELAY
    ensures
      var next := (slot + 1) % DELAY;
      var written := ring[slot := newest];
      written[next..] + written[..next] == (ring[slot..] + ring[..slot])[1..] + [newest]
  {
    var written := ring[slot := newest];
    if slot == DELAY - 1 {
      assert written[0..] + written[..0] == (ring[slot..] + ring[..slot])[1..] + [newest];
    } else {
      assert written[slot + 1..] + written[..slot + 1] == (ring[slot..] + ring[..slot])[1..] + [newest];
    }
  }

  function VectorOutput(v: VectorLane, gain: real, unit: bool, x: Complex): Complex
  {
    var re, im := if unit then x.re else x.re * gain, if unit then x.im else x.im * gain;
    Complex(re * v.cos + im * v.sin, im * v.cos - re * v.sin)
  }

  function VectorError(y: Complex): real { SignTimes(y.re, y.im) - SignTimes(y.im, y.re) }

  predicate Beyond(value: real, bound: real) { bound > 0.0 && Abs(value) > bound }

  // Whether a lane leaves its clip or its frequency limit.
  predicate Leaves(p: LaneParams, v: VectorLane, error: real)
  {
    Beyond(error, p.clip) || Beyond(RawFrequency(p, v.frequency, error), p.limit)
  }

  function VectorSinCos(t: Trig, delta: real): Pending
  {
    var small := Pending(delta, SmallCos(delta), SmallSin(delta));
    if Abs(delta) > 0.25 then SinCos(t, delta) else small
  }

  // The loop filter: clamped only when some lane leaves its bounds.
  function VectorFilter(p: LaneParams, v: VectorLane, y: Complex, clamp: bool): (real, real)
  {
    var error := VectorError(y);
    if clamp then
      var clipped := Clamped(error, p.clip);
      (clipped, Clamped(RawFrequency(p, v.frequency, clipped), p.limit))
    else (error, RawFrequency(p, v.frequency, error))
  }

  lemma SignsApplied(y: Complex)
    ensures Detected(y) == VectorError(y)
  {
    DetectedBySigns(y);
  }

  lemma NotBeyond(value: real, bound: real)
    requires !Beyond(value, bound)
    ensures Clamped(value, bound) == value
  {
  }

  lemma FilterIsClamped(p: LaneParams, v: VectorLane, y: Complex, clamp: bool)
    requires Leaves(p, v, VectorError(y)) ==> clamp
    ensures
      var error := Clamped(Detected(y), p.clip);
      VectorFilter(p, v, y, clamp) == (error, NextFrequency(p, v.frequency, error))
  {
    hide Clamped, Beyond, Detected, VectorError, RawFrequency;
    SignsApplied(y);
    if !clamp {
      NotBeyond(VectorError(y), p.clip);
      NotBeyond(RawFrequency(p, v.frequency, VectorError(y)), p.limit);
    }
  }

  function VectorStep(t: Trig, p: LaneParams, v: VectorLane, slot: nat, y: Complex, clamp: bool): VectorLane
    requires slot < DELAY
  {
    var filtered := VectorFilter(p, v, y, clamp);
    var newest, oldest := VectorSinCos(t, NextStep(p, filtered.1, filtered.0)), v.ring[slot];
    VectorLane(v.phase + oldest.step, v.cos * oldest.cos - v.sin * oldest.sin, v.sin * oldest.cos + v.cos * oldest.sin,
               filtered.1, filtered.0, v.ring[slot := newest])
  }

  lemma OutputIsDerotated(p: LaneParams, v: VectorLane, slot: nat, unit: bool, x: Complex)
    requires slot < DELAY && (unit ==> p.gain == 1.0)
    ensures VectorOutput(v, p.gain, unit, x) == Derotated(Unrolled(v, slot), p.gain, x)
  {
  }

  // One sample of a vector lane is one of the scalar lane.
  lemma VectorStepIsStep(t: Trig, p: LaneParams, v: VectorLane, slot: nat, unit: bool, x: Complex, clamp: bool)
    requires slot < DELAY && (unit ==> p.gain == 1.0)
    requires Leaves(p, v, VectorError(VectorOutput(v, p.gain, unit, x))) ==> clamp
    ensures And(slot + 1, DELAY - 1) < DELAY
    ensures Unrolled(VectorStep(t, p, v, slot, VectorOutput(v, p.gain, unit, x), clamp), And(slot + 1, DELAY - 1)) ==
            Step(t, p, Unrolled(v, slot), x)
  {
    hide Clamped, Detected, VectorError, VectorOutput, Derotated, VectorFilter, Leaves, NextFrequency, NextStep, SmallCos, SmallSin;
    var y := VectorOutput(v, p.gain, unit, x);
    OutputIsDerotated(p, v, slot, unit, x);
    FilterIsClamped(p, v, y, clamp);
    var error := Clamped(Detected(y), p.clip);
    var newest := VectorSinCos(t, NextStep(p, NextFrequency(p, v.frequency, error), error));
    NextSlot(slot + 1);
    RingShifts(v.ring, slot, newest);
    assert (v.ring[slot..] + v.ring[..slot])[0] == v.ring[slot];
  }

  function NormalizedRegisters(t: Trig, v: VectorLane, slot: nat): VectorLane
    requires t.pi > 0.0 && slot < DELAY
  {
    var n := Normalized(t, Unrolled(v, slot));
    v.(phase := n.phase, cos := n.cos, sin := n.sin)
  }

  lemma NormalizedUnrolls(t: Trig, v: VectorLane, slot: nat)
    requires t.pi > 0.0 && slot < DELAY
    ensures Unrolled(NormalizedRegisters(t, v, slot), slot) == Normalized(t, Unrolled(v, slot))
  {
    hide WrappedPhase;
  }

  // The queue written back oldest first.
  method StoreQueue(ring: Queue, slot: nat) returns (pending: Queue)
    requires slot < DELAY
    ensures pending == ring[slot..] + ring[..slot]
  {
    var stored: seq<Pending> := [];
    for index := 0 to DELAY
      invariant stored == (ring[slot..] + ring[..slot])[..index]
    {
      NextSlot(slot + index);
      stored := stored + [ring[And(slot + index, DELAY - 1)]];
    }
    pending := stored;
  }

  // Inside a chunk the counter has not wrapped.
  lemma InsideChunk(counter: nat, begin: nat, since: nat, sample: nat)
    requires since == (counter + begin) % PERIOD && begin < sample && since + (sample - begin) <= PERIOD
    ensures since + (sample - begin) < PERIOD ==> (counter + sample) % PERIOD == since + (sample - begin) != 0
    ensures since + (sample - begin) == PERIOD ==> (counter + sample) % PERIOD == 0
  {
  }

  class Kernel {
    const trig: Trig
    const config: seq<LaneConfig>
    const vector: bool
    const initial: seq<Lane>
    var lanes: array<Lane>
    var since: nat

    ghost predicate Valid()
      reads this
    {
      trig.pi > 0.0 && |config| == LANES && |initial| == LANES && lanes.Length == LANES && since < PERIOD
    }

    // A fresh kernel: no pending turn, oscillator at the configured phase.
    constructor (trig: Trig, config: seq<LaneConfig>, vector: bool)
      requires trig.pi > 0.0 && ValidConfig(config)
      ensures Valid() && fresh(lanes) && this.trig == trig && this.config == config && this.vector == vector
      ensures since == 0 && lanes[..] == initial
      ensures forall l :: 0 <= l < LANES ==> AtStart(trig, config[l], initial[l])
    {
      hide Remainder, AtStart;
      this.trig, this.config, this.vector, since := trig, config, vector, 0;
      initial := [InitialLane(trig, config[0]), InitialLane(trig, config[1]), InitialLane(trig, config[2]), InitialLane(trig, config[3])];
      lanes := new Lane[LANES](l requires 0 <= l < LANES && |config| == LANES && trig.pi > 0.0 => InitialLane(trig, config[l]));
      new;
      forall l | 0 <= l < LANES ensures AtStart(trig, config[l], initial[l]) {
        InitialAtStart(trig, config[l]);
      }
    }

    // Back to the initial lanes, the normalisation counter included.
    method Reset()
      requires Valid()
      modifies this`since, lanes
      ensures Valid() && since == 0 && lanes[..] == initial
    {
      since := 0;
      forall l | 0 <= l < LANES {
        lanes[l] := initial[l];
      }
    }

    // All lanes n samples into a block.
    ghost predicate AllAlong(params: seq<LaneParams>, start: seq<Lane>, counter: nat, before: seq<seq<Complex>>, data: array2<Complex>, n: nat, raw: bool, from: nat, to: nat)
      requires trig.pi > 0.0
      reads this, lanes, data
    {
      && |params| == |start| == |before| == LANES && lanes.Length == LANES && data.Length0 == LANES && to <= LANES
      && forall l :: from <= l < to ==> Along(trig, params[l], start[l], counter, before[l], lanes[l], Row(data, l), n, raw)
    }

    method NormalizeAll(params: seq<LaneParams>, ghost start: seq<Lane>, ghost counter: nat, ghost before: seq<seq<Complex>>, data: array2<Complex>, ghost n: nat)
      requires Valid() && 0 < n && (counter + n) % PERIOD == 0 && AllAlong(params, start, counter, before, data, n, true, 0, LANES)
      modifies lanes
      ensures AllAlong(params, start, counter, before, data, n, false, 0, LANES)
    {
      hide Along, Normalized;
      for lane := 0 to LANES
        modifies lanes
        invariant AllAlong(params, start, counter, before, data, n, false, 0, lane)
        invariant AllAlong(params, start, counter, before, data, n, true, lane, LANES)
      {
        AlongNormalized(trig, params[lane], start[lane], counter, before[lane], lanes[lane], Row(data, lane), n);
        lanes[lane] := Normalized(trig, lanes[lane]);
      }
    }

    // One sample of every lane.
    method SampleAll(params: seq<LaneParams>, ghost start: seq<Lane>, ghost counter: nat, ghost before: seq<seq<Complex>>, data: array2<Complex>, n: nat)
      requires Valid() && n < data.Length1 && AllAlong(params, start, counter, before, data, n, false, 0, LANES)
      modifies lanes, data
      ensures AllAlong(params, start, counter, before, data, n + 1, true, 0, LANES)
    {
      hide Along, Step, Derotated;
      for lane := 0 to LANES
        modifies lanes, data
        invariant AllAlong(params, start, counter, before, data, n + 1, true, 0, lane)
        invariant AllAlong(params, start, counter, before, data, n, false, lane, LANES)
      {
        ghost var rows := [Row(data, 0), Row(data, 1), Row(data, 2), Row(data, 3)];
        var next, output := StepLane(trig, params[lane], lanes[lane], data[lane, n]);
        ghost var row' := rows[lane][n := output];
        AlongStep(trig, params[lane], start[lane], counter, before[lane], lanes[lane], rows[lane], n, row');
        data[lane, n] := output;
        lanes[lane] := next;
        assert Row(data, lane) == row';
        assert forall l :: 0 <= l < LANES && l != lane ==> Row(data, l) == rows[l];
      }
    }

    // The generic backend.
    method ProcessGeneric(params: seq<LaneParams>, data: array2<Complex>)
      requires Valid() && |params| == LANES && data.Length0 == LANES
      modifies this`since, lanes, data
      ensures Valid() && since == (old(since) + data.Length1) % PERIOD
      ensures AllAlong(params, old(lanes[..]), old(since), old([Row(data, 0), Row(data, 1), Row(data, 2), Row(data, 3)]), data, data.Length1, false, 0, LANES)
    {
      hide Along;
      ghost var start, counter, before := lanes[..], since, [Row(data, 0), Row(data, 1), Row(data, 2), Row(data, 3)];
      forall l | 0 <= l < LANES ensures Along(trig, params[l], start[l], counter, before[l], lanes[l], Row(data, l), 0, false) {
        AlongStarts(trig, params[l], start[l], counter, before[l]);
      }
      for sample := 0 to data.Length1
        modifies this`since, lanes, data
        invariant since == (counter + sample) % PERIOD
        invariant AllAlong(params, start, counter, before, data, sample, false, 0, LANES)
      {
        SampleAll(params, start, counter, before, data, sample);
        Counting(counter, sample, since);
        since := since + 1;
        if since == PERIOD {
          since := 0;
          NormalizeAll(params, start, counter, before, data, sample + 1);
        } else {
          forall l | 0 <= l < LANES ensures Along(trig, params[l], start[l], counter, before[l], lanes[l], Row(data, l), sample + 1, false) {
            AlongUnchanged(trig, params[l], start[l], counter, before[l], lanes[l], Row(data, l), sample + 1);
          }
        }
      }
    }

    // All vector lanes n samples into a block.
    ghost predicate VectorAlong(params: seq<LaneParams>, start: seq<Lane>, counter: nat, before: seq<seq<Complex>>, data: array2<Complex>,
                                v: seq<VectorLane>, slot: nat, n: nat, raw: bool)
      requires trig.pi > 0.0
      reads data
    {
      && |params| == |start| == |before| == |v| == LANES && data.Length0 == LANES && slot < DELAY
      && forall l :: 0 <= l < LANES ==> Along(trig, params[l], start[l], counter, before[l], Unrolled(v[l], slot), Row(data, l), n, raw)
    }

    // One sample of all four lanes.
    method VectorSample(params: seq<LaneParams>, ghost start: seq<Lane>, ghost counter: nat, ghost before: seq<seq<Complex>>, data: array2<Complex>,
                        v: seq<VectorLane>, slot: nat, unit: bool, n: nat) returns (next: seq<VectorLane>)
      requires trig.pi > 0.0 && n < data.Length1 && VectorAlong(params, start, counter, before, data, v, slot, n, false)
      requires unit ==> params[0].gain == params[1].gain == params[2].gain == params[3].gain == 1.0
      modifies data
      ensures And(slot + 1, DELAY - 1) < DELAY
      ensures VectorAlong(params, start, counter, before, data, next, And(slot + 1, DELAY - 1), n + 1, true)
    {
      hide Along, Step, Derotated, VectorOutput, VectorStep, Leaves, VectorError, Unrolled;
      ghost var rows := [Row(data, 0), Row(data, 1), Row(data, 2), Row(data, 3)];
      var y0, y1 := VectorOutput(v[0], params[0].gain, unit, data[0, n]), VectorOutput(v[1], params[1].gain, unit, data[1, n]);
      var y2, y3 := VectorOutput(v[2], params[2].gain, unit, data[2, n]), VectorOutput(v[3], params[3].gain, unit, data[3, n]);
      var clamp := Leaves(params[0], v[0], VectorError(y0)) || Leaves(params[1], v[1], VectorError(y1))
                   || Leaves(params[2], v[2], VectorError(y2)) || Leaves(params[3], v[3], VectorError(y3));
      next := [VectorStep(trig, params[0], v[0], slot, y0, clamp), VectorStep(trig, params[1], v[1], slot, y1, clamp),
               VectorStep(trig, params[2], v[2], slot, y2, clamp), VectorStep(trig, params[3], v[3], slot, y3, clamp)];
      LaneSample(params[0], start[0], counter, before[0], v[0], slot, unit, rows[0], n, clamp);
      LaneSample(params[1], start[1], counter, before[1], v[1], slot, unit, rows[1], n, clamp);
      LaneSample(params[2], start[2], counter, before[2], v[2], slot, unit, rows[2], n, clamp);
      LaneSample(params[3], start[3], counter, before[3], v[3], slot, unit, rows[3], n, clamp);
      data[0, n], data[1, n], data[2, n], data[3, n] := y0, y1, y2, y3;
      assert Row(data, 0) == rows[0][n := y0] && Row(data, 1) == rows[1][n := y1];
      assert Row(data, 2) == rows[2][n := y2] && Row(data, 3) == rows[3][n := y3];
    }

    lemma LaneSample(p: LaneParams, start: Lane, counter: nat, before: seq<Complex>, v: VectorLane, slot: nat, unit: bool, row: seq<Complex>, n: nat, clamp: bool)
      requires trig.pi > 0.0 && slot < DELAY && (unit ==> p.gain == 1.0) && n < |row|
      requires Along(trig, p, start, counter, before, Unrolled(v, slot), row, n, false)
      requires Leaves(p, v, VectorError(VectorOutput(v, p.gain, unit, row[n]))) ==> clamp
      ensures And(slot + 1, DELAY - 1) < DELAY
      ensures
        var y := VectorOutput(v, p.gain, unit, row[n]);
        Along(trig, p, start, counter, before, Unrolled(VectorStep(trig, p, v, slot, y, clamp), And(slot + 1, DELAY - 1)), row[n := y], n + 1, true)
    {
      hide Along, Step, Derotated, VectorOutput, VectorStep, Leaves, VectorError, Unrolled;
      OutputIsDerotated(p, v, slot, unit, row[n]);
      VectorStepIsStep(trig, p, v, slot, unit, row[n], clamp);
      AlongStep(trig, p, start, counter, before, Unrolled(v, slot), row, n, row[n := VectorOutput(v, p.gain, unit, row[n])]);
    }

    // Not at the end of a period: nothing to normalise.
    lemma NoneNormalized(params: seq<LaneParams>, start: seq<Lane>, counter: nat, before: seq<seq<Complex>>, data: array2<Complex>,
                         v: seq<VectorLane>, slot: nat, n: nat)
      requires trig.pi > 0.0 && VectorAlong(params, start, counter, before, data, v, slot, n, true) && 0 < n && (counter + n) % PERIOD != 0
      ensures VectorAlong(params, start, counter, before, data, v, slot, n, false)
    {
      hide Along, Unrolled;
      forall l | 0 <= l < LANES ensures Along(trig, params[l], start[l], counter, before[l], Unrolled(v[l], slot), Row(data, l), n, false) {
        AlongUnchanged(trig, params[l], start[l], counter, before[l], Unrolled(v[l], slot), Row(data, l), n);
      }
    }

    method NormalizeRegisters(params: seq<LaneParams>, ghost start: seq<Lane>, ghost counter: nat, ghost before: seq<seq<Complex>>, data: array2<Complex>,
                              v: seq<VectorLane>, slot: nat, ghost n: nat) returns (next: seq<VectorLane>)
      requires trig.pi > 0.0 && VectorAlong(params, start, counter, before, data, v, slot, n, true) && 0 < n && (counter + n) % PERIOD == 0
      ensures VectorAlong(params, start, counter, before, data, next, slot, n, false)
    {
      hide Along, Unrolled, Normalized, NormalizedRegisters;
      forall l | 0 <= l < LANES
        ensures Along(trig, params[l], start[l], counter, before[l], Unrolled(NormalizedRegisters(trig, v[l], slot), slot), Row(data, l), n, false)
      {
        AlongNormalized(trig, params[l], start[l], counter, before[l], Unrolled(v[l], slot), Row(data, l), n);
        NormalizedUnrolls(trig, v[l], slot);
      }
      next := [NormalizedRegisters(trig, v[0], slot), NormalizedRegisters(trig, v[1], slot),
               NormalizedRegisters(trig, v[2], slot), NormalizedRegisters(trig, v[3], slot)];
    }

    // One chunk: samples up to the next normalisation or the end of the block.
    method VectorChunk(params: seq<LaneParams>, ghost start: seq<Lane>, ghost counter: nat, ghost before: seq<seq<Complex>>, data: array2<Complex>,
                       v: seq<VectorLane>, slot: nat, unit: bool, begin: nat, end: nat, since: nat) returns (next: seq<VectorLane>, nextSlot: nat)
      requires trig.pi > 0.0 && begin < end <= data.Length1 && since < PERIOD && since + (end - begin) <= PERIOD && since == (counter + begin) % PERIOD
      requires VectorAlong(params, start, counter, before, data, v, slot, begin, false)
      requires unit ==> params[0].gain == params[1].gain == params[2].gain == params[3].gain == 1.0
      modifies data
      ensures VectorAlong(params, start, counter, before, data, next, nextSlot, end, true)
    {
      hide Along, Unrolled;
      next, nextSlot := v, slot;
      for sample := begin to end
        modifies data
        invariant VectorAlong(params, start, counter, before, data, next, nextSlot, sample, sample != begin)
      {
        if sample != begin {
          InsideChunk(counter, begin, since, sample);
          NoneNormalized(params, start, counter, before, data, next, nextSlot, sample);
        }
        next := VectorSample(params, start, counter, before, data, next, nextSlot, unit, sample);
        nextSlot := And(nextSlot + 1, DELAY - 1);
      }
    }

    // The vector backend: the same lanes, counter and outputs as the generic one.
    method ProcessVector(params: seq<LaneParams>, data: array2<Complex>)
      requires Valid() && |params| == LANES && data.Length0 == LANES
      modifies this`since, lanes, data
      ensures Valid() && since == (old(since) + data.Length1) % PERIOD
      ensures AllAlong(params, old(lanes[..]), old(since), old([Row(data, 0), Row(data, 1), Row(data, 2), Row(data, 3)]), data, data.Length1, false, 0, LANES)
    {
      hide Along;
      ghost var start, counter, before := lanes[..], since, [Row(data, 0), Row(data, 1), Row(data, 2), Row(data, 3)];
      var v, slot: nat := [Loaded(lanes[0]), Loaded(lanes[1]), Loaded(lanes[2]), Loaded(lanes[3])], 0;
      forall l | 0 <= l < LANES ensures Along(trig, params[l], start[l], counter, before[l], Unrolled(v[l], 0), Row(data, l), 0, false) {
        AlongStarts(trig, params[l], start[l], counter, before[l]);
        LoadedUnrolls(lanes[l]);
      }
      var unit := params[0].gain == 1.0 && params[1].gain == 1.0 && params[2].gain == 1.0 && params[3].gain == 1.0;
      var begin := 0;
      while begin < data.Length1
        modifies this`since, data
        invariant begin <= data.Length1 && since == (counter + begin) % PERIOD
        invariant VectorAlong(params, start, counter, before, data, v, slot, begin, false)
      {
        var until := PERIOD - since;
        var end := if begin + until < data.Length1 then begin + until else data.Length1;
        InsideChunk(counter, begin, since, end);
        v, slot := VectorChunk(params, start, counter, before, data, v, slot, unit, begin, end, since);
        since := since + (end - begin);
        begin := end;
        if since == PERIOD {
          since := 0;
          v := NormalizeRegisters(params, start, counter, before, data, v, slot, begin);
        } else {
          NoneNormalized(params, start, counter, before, data, v, slot, begin);
        }
      }
      for lane := 0 to LANES
        modifies lanes
        invariant forall l :: 0 <= l < lane ==> lanes[l] == Unrolled(v[l], slot)
      {
        var pending := StoreQueue(v[lane].ring, slot);
        lanes[lane] := Lane(v[lane].phase, v[lane].cos, v[lane].sin, v[lane].frequency, v[lane].lastError, pending);
      }
    }

    // Gains of the kernel and of the block, per lane.
    function ParamsFor(block: Block): (params: seq<LaneParams>)
      requires |config| == LANES && ValidBlock(block)
      ensures |params| == LANES
    {
      [ParamsOf(config[0], block, 0), ParamsOf(config[1], block, 1), ParamsOf(config[2], block, 2), ParamsOf(config[3], block, 3)]
    }

    // One block in place: an invalid block is rejected and an empty one changes nothing;
    // otherwise the overridden frequencies take effect first.
    method Execute(block: Block, data: array2<Complex>) returns (accepted: bool)
      requires Valid() && data.Length0 == LANES && |block.gain| == |block.limit| == |block.override| == LANES
      modifies this`since, lanes, data
      ensures Valid() && (accepted <==> forall l :: 0 <= l < LANES ==> block.limit[l] >= 0.0 && block.gain[l] > 0.0)
      ensures !accepted || data.Length1 == 0 ==> since == old(since) && lanes[..] == old(lanes[..])
      ensures !accepted ==> forall l: nat :: l < LANES ==> Row(data, l) == old(Row(data, l))
      ensures accepted && data.Length1 > 0 ==>
        && since == (old(since) + data.Length1) % 512
        && forall l :: 0 <= l < LANES ==>
             var start := old(lanes[l]).(frequency := if block.override[l].Some? then block.override[l].frequency else old(lanes[l]).frequency);
             Followed(trig, config[l].alpha, config[l].beta, config[l].clip, block.gain[l], block.limit[l],
                      start, old(Row(data, l)), Row(data, l), lanes[l])
      ensures accepted && data.Length1 > 0 ==>
        && AllAlong(ParamsFor(block), Overridden(old(lanes[..]), block), old(since), old([Row(data, 0), Row(data, 1), Row(data, 2), Row(data, 3)]),
                    data, data.Length1, false, 0, LANES)
    {
      hide Along, ParamsOf, Followed, Started;
      accepted := ValidBlock(block);
      if accepted && data.Length1 != 0 {
        ghost var rows := [Row(data, 0), Row(data, 1), Row(data, 2), Row(data, 3)];
        for lane := 0 to LANES
          modifies lanes
          invariant forall l :: 0 <= l < lane ==> lanes[l] == Started(old(lanes[l]), block.override[l])
          invariant forall l :: lane <= l < LANES ==> lanes[l] == old(lanes[l])
        {
          StartedBy(lanes[lane], block.override[lane]);
          if block.override[lane].Some? {
            lanes[lane] := lanes[lane].(frequency := block.override[lane].frequency);
          }
        }
        assert lanes[..] == Overridden(old(lanes[..]), block);
        assert rows == [Row(data, 0), Row(data, 1), Row(data, 2), Row(data, 3)];
        if vector {
          ProcessVector(ParamsFor(block), data);
        } else {
          ProcessGeneric(ParamsFor(block), data);
        }
        forall l | 0 <= l < LANES
          ensures
            var start := old(lanes[l]).(frequency := if block.override[l].Some? then block.override[l].frequency else old(lanes[l]).frequency);
            Followed(trig, config[l].alpha, config[l].beta, config[l].clip, block.gain[l], block.limit[l], start, rows[l], Row(data, l), lanes[l])
        {
          StartedBy(old(lanes[l]), block.override[l]);
          BlockIsFollowed(trig, config[l], block, l, old(lanes[l]), old(since), rows[l], Row(data, l), lanes[l]);
        }
      }
    }

    // Moves every lane past some samples.
    method Skip(count: nat)
      requires Valid()
      modifies lanes
      ensures forall l :: 0 <= l < LANES ==> lanes[l] == SkipLane(trig, old(lanes[l]), count) && Skipped(trig, old(lanes[l]), count, lanes[l])
    {
      hide SkipLane, Skipped;
      if count == 0 {
        forall l | 0 <= l < LANES ensures lanes[l] == SkipLane(trig, lanes[l], 0) && Skipped(trig, lanes[l], 0, lanes[l]) {
          SkipNone(trig, lanes[l]);
          SkipIsSkipped(trig, lanes[l], 0);
        }
        return;
      }
      for lane := 0 to LANES
        invariant forall l :: 0 <= l < lane ==> lanes[l] == SkipLane(trig, old(lanes[l]), count) && Skipped(trig, old(lanes[l]), count, lanes[l])
        invariant forall l :: lane <= l < LANES ==> lanes[l] == old(lanes[l])
      {
        SkipIsSkipped(trig, lanes[lane], count);
        lanes[lane] := SkipOne(trig, lanes[lane], count);
      }
    }

    // Turns the oscillator of every lane by its number of quarters.
    method Rotate(quarters: seq<int>)
      requires Valid() && |quarters| == LANES
      modifies lanes
      ensures forall l :: 0 <= l < LANES ==> Turned(trig, old(lanes[l]), lanes[l], quarters[l]) && -trig.pi <= lanes[l].phase <= trig.pi
    {
      hide Turned;
      for lane := 0 to LANES
        invariant forall l :: 0 <= l < lane ==> Turned(trig, old(lanes[l]), lanes[l], quarters[l]) && -trig.pi <= lanes[l].phase <= trig.pi
        invariant forall l :: lane <= l < LANES ==> lanes[l] == old(lanes[l])
      {
        lanes[lane] := RotateOne(trig, lanes[lane], quarters[lane]);
      }
    }
  }

  datatype Outcome = Accepted(kernel: Kernel) | Rejected

  // Creation: rejected if the clip of a lane is negative.
  method Initialize(trig: Trig, config: seq<LaneConfig>, vector: bool) returns (r: Outcome)
    requires trig.pi > 0.0 && |config| == LANES
    ensures r.Accepted? <==> forall l :: 0 <= l < LANES ==> config[l].clip >= 0.0
    ensures r.Accepted? ==>
              && r.kernel.Valid() && fresh(r.kernel) && r.kernel.trig == trig && r.kernel.config == config && r.kernel.vector == vector
              && r.kernel.since == 0 && forall l :: 0 <= l < LANES ==> AtStart(trig, config[l], r.kernel.lanes[l])
  {
    if !ValidConfig(config) {
      return Rejected;
    }
    var kernel := new Kernel(trig, config, vector);
    assert forall l :: 0 <= l < LANES ==> kernel.lanes[l] == kernel.lanes[..][l];
    r := Accepted(kernel);
  }

  datatype Override = None | Some(frequency: real)

  datatype Block = Block(gain: seq<real>, limit: seq<real>, override: seq<Override>)

  predicate ValidBlock(b: Block)
  {
    |b.gain| == |b.limit| == |b.override| == LANES && forall l :: 0 <= l < LANES ==> b.limit[l] >= 0.0 && b.gain[l] > 0.0
  }

  function ParamsOf(c: LaneConfig, b: Block, l: nat): LaneParams
    requires ValidBlock(b) && l < LANES
  {
    LaneParams(c.alpha, c.beta, c.clip, b.gain[l], b.limit[l])
  }

  function Overridden(lanes: seq<Lane>, b: Block): (r: seq<Lane>)
    requires |lanes| == |b.override| == LANES
    ensures |r| == LANES && forall l :: 0 <= l < LANES ==> r[l] == Started(lanes[l], b.override[l])
  {
    seq(LANES, l requires 0 <= l < LANES => Started(lanes[l], b.override[l]))
  }

  // A lane as a block starts it, its frequency replaced where the block says so.
  function Started(lane: Lane, override: Override): Lane
  {
    if override.Some? then lane.(frequency := override.frequency) else lane
  }

  lemma StartedBy(lane: Lane, override: Override)
    ensures override.Some? ==> Started(lane, override) == lane.(frequency := override.frequency)
    ensures override.None? ==> Started(lane, override) == lane
  {
  }

  // ---- Skips and turns of one lane ----

  // The steps already decided take effect first; later samples step by the loop frequency.
  method SkipOne(t: Trig, lane: Lane, count: nat) returns (next: Lane)
    requires t.pi > 0.0 && count > 0
    ensures next == SkipLane(t, lane, count)
  {
    hide SinCos, Remainder, FrequencySteps;
    var applied: nat := if count < DELAY then count else DELAY;
    var sum := 0.0;
    for step := 0 to applied
      invariant sum == PendingSum(lane.pending, step)
    {
      sum := sum + lane.pending[step].step;
    }
    var pending := MoveQueue(t, lane.pending, lane.frequency, applied);
    assert pending == SkippedQueue(t, lane.pending, lane.frequency, count);
    var phase := Remainder(lane.phase + sum + FrequencySteps(lane.frequency, count - applied), 2.0 * t.pi);
    next := Lane(phase, t.cos(phase), t.sin(phase), lane.frequency, 0.0, pending);
  }

  // The queue moves on by `applied` places, in place, and fills with frequency steps.
  method MoveQueue(t: Trig, queue: Queue, frequency: real, applied: nat) returns (pending: Queue)
    requires applied <= DELAY
    ensures pending == queue[applied..] + seq(applied, _ => SinCos(t, frequency))
  {
    hide SinCos;
    var moved: seq<Pending> := queue;
    for slot := 0 to DELAY
      invariant |moved| == DELAY
      invariant forall k :: 0 <= k < slot ==> moved[k] == if k + applied < DELAY then queue[k + applied] else SinCos(t, frequency)
      invariant forall k :: slot <= k < DELAY ==> moved[k] == queue[k]
    {
      moved := moved[slot := if slot + applied < DELAY then moved[slot + applied] else SinCos(t, frequency)];
    }
    pending := moved;
  }

  method RotateOne(t: Trig, lane: Lane, quarters: int) returns (next: Lane)
    requires t.pi > 0.0
    ensures Turned(t, lane, next, quarters) && -t.pi <= next.phase <= t.pi
  {
    hide Remainder, Apart;
    var turns: nat := quarters % 4;
    var c, s := lane.cos, lane.sin;
    for turn := 0 to turns
      invariant Complex(c, s) == Quarter(Complex(lane.cos, lane.sin), turn)
    {
      c, s := -s, c;
    }
    next := lane.(cos := c, sin := s, phase := Remainder(QuarterPhase(t, lane.phase, turns), 2.0 * t.pi));
    RemainderBounds(QuarterPhase(t, lane.phase, turns), 2.0 * t.pi);
    RotatedIsTurned(t, lane, next, turns);
    TurnedModulo(t, lane, next, turns, quarters);
  }

  lemma TurnedModulo(t: Trig, a: Lane, b: Lane, k: int, l: int)
    requires Turned(t, a, b, k) && k % 4 == l % 4
    ensures Turned(t, a, b, l)
  {
  }

  function Loaded(lane: Lane): VectorLane { VectorLane(lane.phase, lane.cos, lane.sin, lane.frequency, lane.lastError, lane.pending) }

  lemma LoadedUnrolls(lane: Lane)
    ensures Unrolled(Loaded(lane), 0) == lane
  {
    assert lane.pending[0..] + lane.pending[..0] == lane.pending;
  }

  datatype LaneConfig = LaneConfig(alpha: real, beta: real, clip: real, initialPhase: real, initialFrequency: real)

  predicate ValidConfig(config: seq<LaneConfig>) { |config| == LANES && forall l :: 0 <= l < LANES ==> config[l].clip >= 0.0 }

  function InitialLane(t: Trig, c: LaneConfig): Lane
    requires t.pi > 0.0
  {
    var phase := Remainder(c.initialPhase, 2.0 * t.pi);
    Lane(phase, t.cos(phase), t.sin(phase), c.initialFrequency, 0.0, seq(DELAY, _ => Pending(0.0, 1.0, 0.0)))
  }

  // A lane before its first sample: the oscillator at the configured phase, brought into one
  // turn around zero, the configured frequency, and four pending steps that turn nothing.
  ghost predicate AtStart(t: Trig, c: LaneConfig, lane: Lane)
  {
    && Apart(t, c.initialPhase, lane.phase, 0) && -t.pi <= lane.phase <= t.pi
    && lane.cos == t.cos(lane.phase) && lane.sin == t.sin(lane.phase)
    && lane.frequency == c.initialFrequency && lane.lastError == 0.0
    && lane.pending == [Pending(0.0, 1.0, 0.0), Pending(0.0, 1.0, 0.0), Pending(0.0, 1.0, 0.0), Pending(0.0, 1.0, 0.0)]
  }

  lemma InitialAtStart(t: Trig, c: LaneConfig)
    requires t.pi > 0.0
    ensures AtStart(t, c, InitialLane(t, c))
  {
    hide Remainder, Apart;
    RemainderApart(t, c.initialPhase);
    RemainderBounds(c.initialPhase, 2.0 * t.pi);
  }

  // What a processed block says about one lane, in the configured and the block's own values.
  lemma BlockIsFollowed(t: Trig, c: LaneConfig, b: Block, l: nat, lane: Lane, since: nat, before: seq<Complex>, row: seq<Complex>, end: Lane)
    requires t.pi > 0.0 && l < LANES && ValidBlock(b) && before != []
    requires Along(t, ParamsOf(c, b, l), Started(lane, b.override[l]), since, before, end, row, |before|, false)
    ensures Followed(t, c.alpha, c.beta, c.clip, b.gain[l], b.limit[l], Started(lane, b.override[l]), before, row, end)
  {
    hide Followed, After, OutputAt, Started;
    assert before[..|before|] == before;
    RunIsFollowed(t, ParamsOf(c, b, l), Started(lane, b.override[l]), since, before, row);
  }
}
