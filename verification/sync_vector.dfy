// The vector backend of the synchronizer: batches of steps with speculated stencils, lock
// tracking replayed after each batch, and masked single steps at the edges.
module SyncVector {
  import opened ComplexNumbers
  import opened SyncLoop
  import opened SyncLock
  import opened SyncFarrow
  import opened SyncGeneric

  const BATCH: nat := 64

  // ---- Replaying lock tracking ----

  // A stretch in which the detector cannot switch.
  predicate CannotSwitch(p: LockParams, s: LaneState, n: nat)
  {
    p.autoTed && n > 0 ==> !Reached(RunOf(s.lock) + n, HoldOf(p, s.lock.muellerMuller))
  }

  lemma ShorterCannotSwitch(p: LockParams, s: LaneState, n: nat, steps: nat)
    requires CannotSwitch(p, s, steps) && n <= steps
    ensures CannotSwitch(p, s, n)
  {
  }

  // In such a stretch the detector stays, and the lock state is what tracking the logged errors
  // afterwards gives.
  lemma LockIsReplayed(p: Params, s: LaneState, v: Signal, n: nat)
    requires s.havePrevious && CannotSwitch(p.lock, s, n)
    ensures
      var end := Iterate(p, s, v, n);
      && end.havePrevious && end.symbols == s.symbols + n
      && end.lock.muellerMuller == s.lock.muellerMuller
      && end.lock == if p.lock.autoTed then TrackAll(p.lock, s.lock, s.symbols, NormsOf(p, s, v, n)) else s.lock
  {
    hide TrackAll, Iterate, NormsOf, RunOf, HoldOf, Reached;
    LockIsTracked(p, s, v, n);
    if p.lock.autoTed {
      NoSwitchInside(p.lock, s.lock, s.symbols, NormsOf(p, s, v, n));
    }
  }

  // ---- One lane of a batch ----

  // What a batch carries from step to step.
  datatype BatchLane = BatchLane(time: real, omega: real, midTime: real, previous: Complex, stencil: Farrow, midStencil: Farrow)

  predicate Speculated(cubic: bool, mm: bool, data: seq<Complex>, lane: BatchLane)
  {
    Loaded(cubic, data, lane.stencil) && (!mm ==> Loaded(cubic, data, lane.midStencil))
  }

  function OffStencil(position: real, f: Farrow): bool
  {
    var mu := position - f.base as real;
    mu < 0.0 || mu >= 1.0
  }

  predicate Outside(mm: bool, lane: BatchLane)
  {
    OffStencil(lane.time, lane.stencil) || (!mm && OffStencil(lane.midTime, lane.midStencil))
  }

  // Positions a lane in batch range may load from.
  predicate MayLoad(data: seq<Complex>, lane: BatchLane)
  {
    && Centred(data, TruncateToInt32(lane.time)) && Centred(data, TruncateToInt32(lane.midTime))
    && Centred(data, TruncateToInt32(lane.time + lane.omega))
    && Centred(data, TruncateToInt32(0.5 * lane.omega + lane.time))
  }

  // The symbol, from the speculated stencil unless some lane left its own.
  function CurrentOf(cubic: bool, data: seq<Complex>, lane: BatchLane, outside: bool): Complex
    requires MayLoad(data, lane)
  {
    if outside then UnclampedValue(cubic, data, lane.time)
    else Evaluate(cubic, lane.stencil, lane.time - lane.stencil.base as real)
  }

  function MidOf(cubic: bool, mm: bool, data: seq<Complex>, lane: BatchLane, outside: bool): Complex
    requires MayLoad(data, lane)
  {
    if mm then CurrentOf(cubic, data, lane, outside)
    else if outside then UnclampedValue(cubic, data, lane.midTime)
    else Evaluate(cubic, lane.midStencil, lane.midTime - lane.midStencil.base as real)
  }

  // The vector loop filter: all lanes take the clamped form when one of them needs it.
  predicate Clamps(p: Params, omega: real, error: real)
  {
    var raw := p.beta * error + omega;
    Min(Max(raw, p.omegaMin), p.omegaMax) != raw
  }

  datatype Advanced = Advanced(time: real, omega: real, mid: real)

  function AdvanceLane(p: Params, time: real, omega: real, error: real, clamped: bool): Advanced
  {
    var next := Min(Max(p.beta * error + omega, p.omegaMin), p.omegaMax);
    if clamped then
      var ahead := time + (p.alpha * error + next);
      Advanced(ahead, next, ahead - 0.5 * next)
    else
      Advanced((p.alpha + p.beta) * error + (time + omega), next,
               (p.alpha + p.beta - 0.5 * p.beta) * error + (0.5 * omega + time))
  }

  // Both forms give the scalar loop filter and the next mid-point.
  lemma AdvanceLaneMeans(p: Params, time: real, omega: real, error: real, clamped: bool)
    requires Clamps(p, omega, error) ==> clamped
    ensures
      var a, m := AdvanceLane(p, time, omega, error, clamped), Advance(p, time, omega, error);
      a.time == m.time && a.omega == m.omega && a.mid == m.time - 0.5 * m.omega
  {
    assert (p.alpha + p.beta) * error == p.alpha * error + p.beta * error;
    assert (p.alpha + p.beta - 0.5 * p.beta) * error == (p.alpha + p.beta) * error - 0.5 * (p.beta * error);
  }

  // A lane after a step: the stencils of the next symbol were loaded from positions that
  // ignore this symbol's error.
  function LaneAfter(p: Params, mm: bool, data: seq<Complex>, lane: BatchLane, current: Complex, error: real, clamped: bool): BatchLane
    requires MayLoad(data, lane)
  {
    var next := AdvanceLane(p, lane.time, lane.omega, error, clamped);
    var stencil := LoadFarrow(p.cubic, data, lane.time + lane.omega);
    var midStencil := if mm then stencil else LoadFarrow(p.cubic, data, 0.5 * lane.omega + lane.time);
    BatchLane(next.time, next.omega, next.mid, current, stencil, midStencil)
  }

  // ---- A batch lane follows the scalar loop ----

  ghost predicate Follows(cubic: bool, mm: bool, data: seq<Complex>, s: LaneState, lane: BatchLane)
  {
    && lane.time == s.time && lane.omega == s.omega && lane.midTime == MidTime(s) && lane.previous == s.previous
    && s.havePrevious && s.lock.muellerMuller == mm && Speculated(cubic, mm, data, lane)
  }

  // A segment the vector backend may run over: its limit leaves room for the stencils.
  predicate VectorSegment(segment: Segment)
  {
    && ValidSegment(segment) && |segment.data| < 0x8000_0000
    && (segment.limit.Until? ==> segment.limit.bound <= |segment.data| as real - 2.0)
  }

  function LowerLimit(p: Params): real { 0.5 * p.omegaMax + 2.0 }

  predicate InBatch(p: Params, segment: Segment, time: real)
  {
    segment.limit.Until? && LowerLimit(p) <= time < segment.limit.bound - p.omegaMax - 2.0
  }

  // No load of a batch leaves the data.
  lemma BatchLoadsInside(p: Params, segment: Segment, s: LaneState, lane: BatchLane)
    requires ValidParams(p) && VectorSegment(segment) && InBounds(p, s) && InBatch(p, segment, s.time)
    requires lane.time == s.time && lane.omega == s.omega && lane.midTime == MidTime(s)
    ensures MayLoad(segment.data, lane) && Below(s.time, segment.limit)
  {
    InsideData(segment.data, lane.time);
    InsideData(segment.data, lane.midTime);
    InsideData(segment.data, lane.time + lane.omega);
    InsideData(segment.data, 0.5 * lane.omega + lane.time);
  }

  lemma InsideData(data: seq<Complex>, position: real)
    requires |data| < 0x8000_0000 && 1.0 <= position < |data| as real - 2.0
    ensures Centred(data, TruncateToInt32(position))
  {
  }

  lemma ValuesOfLane(p: Params, mm: bool, data: seq<Complex>, s: LaneState, lane: BatchLane, outside: bool)
    requires 4 <= |data| < 0x8000_0000 && Follows(p.cubic, mm, data, s, lane) && MayLoad(data, lane)
    requires Outside(mm, lane) ==> outside
    ensures CurrentOf(p.cubic, data, lane, outside) == DataValue(p.cubic, data, s.time)
    ensures !mm ==> MidOf(p.cubic, mm, data, lane, outside) == DataValue(p.cubic, data, MidTime(s))
  {
    hide Evaluate, DataValue, UnclampedValue, Loaded, Centred, TruncateToInt32, LoadFarrow;
    if outside {
      UnclampedIsClamped(p.cubic, data, lane.time);
      UnclampedIsClamped(p.cubic, data, lane.midTime);
    } else {
      SpeculationHolds(p.cubic, data, lane.stencil, lane.time);
      if !mm {
        SpeculationHolds(p.cubic, data, lane.midStencil, lane.midTime);
      }
    }
  }

  // Error and energy do not depend on the mid sample for the symbol-spaced detector.
  lemma DetectorValues(p: Params, mm: bool, data: seq<Complex>, s: LaneState, lane: BatchLane, outside: bool)
    requires 4 <= |data| < 0x8000_0000 && Follows(p.cubic, mm, data, s, lane) && MayLoad(data, lane)
    requires Outside(mm, lane) ==> outside
    ensures
      var v := DataSignal(p.cubic, data);
      var current, mid := CurrentOf(p.cubic, data, lane, outside), MidOf(p.cubic, mm, data, lane, outside);
      && current == v(s.time)
      && DetectorError(mm, lane.previous, mid, current) == ErrorOf(s, v(MidTime(s)), v(s.time))
      && ErrorNorm2(DetectorError(mm, lane.previous, mid, current), Energy(mm, lane.previous, mid, current)) == NormOf(p, s, v)
  {
    hide CurrentOf, MidOf, DataValue, Loaded, Centred, TruncateToInt32, SignTimes, Square, ErrorNorm2, MayLoad, Outside, Speculated;
    ValuesOfLane(p, mm, data, s, lane, outside);
  }

  // One step of a batch lane is one step of the scalar loop.
  lemma LaneFollows(p: Params, mm: bool, data: seq<Complex>, s: LaneState, lane: BatchLane, outside: bool, clamped: bool)
    requires 4 <= |data| < 0x8000_0000 && Follows(p.cubic, mm, data, s, lane) && MayLoad(data, lane)
    requires Outside(mm, lane) ==> outside
    requires Next(p, s, DataSignal(p.cubic, data)).lock.muellerMuller == mm
    requires
      var current, mid := CurrentOf(p.cubic, data, lane, outside), MidOf(p.cubic, mm, data, lane, outside);
      Clamps(p, lane.omega, DetectorError(mm, lane.previous, mid, current)) ==> clamped
    ensures
      var current, mid := CurrentOf(p.cubic, data, lane, outside), MidOf(p.cubic, mm, data, lane, outside);
      Follows(p.cubic, mm, data, Next(p, s, DataSignal(p.cubic, data)),
              LaneAfter(p, mm, data, lane, current, DetectorError(mm, lane.previous, mid, current), clamped))
  {
    hide CurrentOf, MidOf, DataValue, Centred, TruncateToInt32, DetectorError, ErrorNorm2, Energy, Outside, LockAfter, Clamps, AdvanceLane, Advance,
      NormOf, Polynomial;
    DetectorValues(p, mm, data, s, lane, outside);
    var current, mid := CurrentOf(p.cubic, data, lane, outside), MidOf(p.cubic, mm, data, lane, outside);
    AdvanceLaneMeans(p, lane.time, lane.omega, DetectorError(mm, lane.previous, mid, current), clamped);
    LoadedThere(p.cubic, data, lane.time + lane.omega);
    LoadedThere(p.cubic, data, 0.5 * lane.omega + lane.time);
  }

  lemma LoadedThere(cubic: bool, data: seq<Complex>, position: real)
    requires Centred(data, TruncateToInt32(position))
    ensures Loaded(cubic, data, LoadFarrow(cubic, data, position))
  {
  }

  // ---- Batches ----

  // Registers, output and logs of one lane during a batch.
  datatype Tape = Tape(lane: BatchLane, output: seq<Complex>, errors: seq<real>, energies: seq<real>)

  function ErrorIn(cubic: bool, mm: bool, data: seq<Complex>, lane: BatchLane, outside: bool): real
    requires MayLoad(data, lane)
  {
    DetectorError(mm, lane.previous, MidOf(cubic, mm, data, lane, outside), CurrentOf(cubic, data, lane, outside))
  }

  function EnergyIn(cubic: bool, mm: bool, data: seq<Complex>, lane: BatchLane, outside: bool): (energy: real)
    requires MayLoad(data, lane)
    ensures energy >= 0.0
  {
    Energy(mm, lane.previous, MidOf(cubic, mm, data, lane, outside), CurrentOf(cubic, data, lane, outside))
  }

  function TapeAfter(p: Params, mm: bool, data: seq<Complex>, tape: Tape, outside: bool, clamped: bool): Tape
    requires MayLoad(data, tape.lane)
  {
    var lane := tape.lane;
    var current, error := CurrentOf(p.cubic, data, lane, outside), ErrorIn(p.cubic, mm, data, lane, outside);
    Tape(LaneAfter(p, mm, data, lane, current, error, clamped), tape.output + [current],
         if p.lock.autoTed then tape.errors + [error] else tape.errors,
         if p.lock.autoTed then tape.energies + [EnergyIn(p.cubic, mm, data, lane, outside)] else tape.energies)
  }

  // The logs hold the squared normalised errors of the steps taken.
  ghost predicate Logged(p: Params, s: LaneState, v: Signal, n: nat, errors: seq<real>, energies: seq<real>)
  {
    p.lock.autoTed ==>
      && |errors| == n && |energies| == n
      && forall i :: 0 <= i < n ==> energies[i] >= 0.0 && ErrorNorm2(errors[i], energies[i]) == NormsOf(p, s, v, n)[i]
  }

  // A lane n steps into a batch that started in state s.
  ghost predicate OnTrack(p: Params, mm: bool, segment: Segment, start: LaneState, s: LaneState, from: nat, n: nat, steps: nat, tape: Tape)
    requires ValidSegment(segment)
  {
    var v := DataSignal(p.cubic, segment.data);
    var now := Iterate(p, s, v, n);
    && n <= steps && |tape.output| == from + n && from + steps <= segment.capacity
    && Follows(p.cubic, mm, segment.data, now, tape.lane) && InBounds(p, now)
    && Continues(p, segment, start, now, tape.output)
    && Logged(p, s, v, n, tape.errors, tape.energies)
  }

  // Every step of a batch is one of the scalar loop, lock tracking aside.
  lemma TapeFollows(p: Params, mm: bool, segment: Segment, start: LaneState, s: LaneState, from: nat, n: nat, steps: nat, tape: Tape, outside: bool, clamped: bool)
    requires ValidParams(p) && VectorSegment(segment) && n < steps && OnTrack(p, mm, segment, start, s, from, n, steps, tape)
    requires s.havePrevious && CannotSwitch(p.lock, s, steps) && InBatch(p, segment, tape.lane.time)
    requires MayLoad(segment.data, tape.lane) && (Outside(mm, tape.lane) ==> outside)
    requires Clamps(p, tape.lane.omega, ErrorIn(p.cubic, mm, segment.data, tape.lane, outside)) ==> clamped
    ensures OnTrack(p, mm, segment, start, s, from, n + 1, steps, TapeAfter(p, mm, segment.data, tape, outside, clamped))
  {
    hide Next, Continues, Follows, LaneAfter, CurrentOf, MidOf, DataValue, Outside, Clamps, MayLoad, DetectorError, Energy, ErrorNorm2, NormOf, ErrorOf,
      RunOf, HoldOf, Reached, TrackAll;
    var v := DataSignal(p.cubic, segment.data);
    var now := Iterate(p, s, v, n);
    TimeFollows(p.cubic, mm, segment.data, now, tape.lane);
    OneMore(p, segment, start, now, tape.output);
    NextInBounds(p, now, v);
    ShorterCannotSwitch(p.lock, s, n, steps);
    ShorterCannotSwitch(p.lock, s, n + 1, steps);
    LockIsReplayed(p, s, v, n);
    LockIsReplayed(p, s, v, n + 1);
    LaneFollows(p, mm, segment.data, now, tape.lane, outside, clamped);
    DetectorValues(p, mm, segment.data, now, tape.lane, outside);
  }

  lemma TimeFollows(cubic: bool, mm: bool, data: seq<Complex>, s: LaneState, lane: BatchLane)
    requires Follows(cubic, mm, data, s, lane)
    ensures lane.time == s.time && lane.omega == s.omega && lane.midTime == MidTime(s) && lane.previous == s.previous
    ensures s.havePrevious && s.lock.muellerMuller == mm
  {
  }

  function FirstLane(p: Params, mm: bool, data: seq<Complex>, s: LaneState): BatchLane
    requires Centred(data, TruncateToInt32(s.time)) && Centred(data, TruncateToInt32(MidTime(s)))
  {
    var stencil := LoadFarrow(p.cubic, data, s.time);
    BatchLane(s.time, s.omega, MidTime(s), s.previous, stencil, if mm then stencil else LoadFarrow(p.cubic, data, MidTime(s)))
  }

  // A lane from which a batch of up to `steps` symbols may start.
  ghost predicate MayBatch(p: Params, mm: bool, segment: Segment, start: LaneState, s: LaneState, output: seq<Complex>, steps: nat)
  {
    && ValidParams(p) && VectorSegment(segment) && InBounds(p, s) && InBatch(p, segment, s.time)
    && s.havePrevious && s.lock.muellerMuller == mm && CannotSwitch(p.lock, s, steps)
    && Continues(p, segment, start, s, output) && |output| + steps <= segment.capacity
  }

  lemma FirstFollows(p: Params, mm: bool, segment: Segment, start: LaneState, s: LaneState, steps: nat, output: seq<Complex>)
    requires MayBatch(p, mm, segment, start, s, output, steps)
    ensures Centred(segment.data, TruncateToInt32(s.time)) && Centred(segment.data, TruncateToInt32(MidTime(s)))
    ensures FirstLane(p, mm, segment.data, s).time == s.time
    ensures OnTrack(p, mm, segment, start, s, |output|, 0, steps, Tape(FirstLane(p, mm, segment.data, s), output, [], []))
  {
    hide Continues, LoadFarrow, Loaded, Centred, TruncateToInt32;
    InsideData(segment.data, s.time);
    InsideData(segment.data, MidTime(s));
    LoadedThere(p.cubic, segment.data, s.time);
    LoadedThere(p.cubic, segment.data, MidTime(s));
  }

  lemma TapeMayLoad(p: Params, mm: bool, segment: Segment, start: LaneState, s: LaneState, from: nat, n: nat, steps: nat, tape: Tape)
    requires ValidParams(p) && VectorSegment(segment) && OnTrack(p, mm, segment, start, s, from, n, steps, tape)
    requires InBatch(p, segment, tape.lane.time)
    ensures MayLoad(segment.data, tape.lane)
  {
    hide Iterate, Continues, Logged, MayLoad, Speculated;
    BatchLoadsInside(p, segment, Iterate(p, s, DataSignal(p.cubic, segment.data), n), tape.lane);
  }

  // The four lanes of a batch: up to `steps` symbols while every lane stays in range.
  method Batch(params: seq<Params>, mm: bool, segments: seq<Segment>, ghost start: seq<LaneState>, now: seq<LaneState>,
               outputs: seq<seq<Complex>>, steps: nat) returns (done: nat, tapes: seq<Tape>)
    requires |params| == |segments| == |start| == |now| == |outputs| == LANES && steps > 0
    requires forall l :: 0 <= l < LANES ==> ValidSegment(segments[l])
    requires forall l :: 0 <= l < LANES ==> MayBatch(params[l], mm, segments[l], start[l], now[l], outputs[l], steps)
    ensures 0 < done <= steps && |tapes| == LANES
    ensures forall l :: 0 <= l < LANES ==> OnTrack(params[l], mm, segments[l], start[l], now[l], |outputs[l]|, done, steps, tapes[l])
  {
    hide OnTrack, MayLoad, InBatch, Continues, Outside, Clamps, TapeAfter, ErrorIn, FirstLane, CannotSwitch, Centred, TruncateToInt32;
    forall l | 0 <= l < LANES
      ensures Centred(segments[l].data, TruncateToInt32(now[l].time)) && Centred(segments[l].data, TruncateToInt32(MidTime(now[l])))
      ensures FirstLane(params[l], mm, segments[l].data, now[l]).time == now[l].time
      ensures OnTrack(params[l], mm, segments[l], start[l], now[l], |outputs[l]|, 0, steps, Tape(FirstLane(params[l], mm, segments[l].data, now[l]), outputs[l], [], []))
    {
      FirstFollows(params[l], mm, segments[l], start[l], now[l], steps, outputs[l]);
    }
    tapes := [Tape(FirstLane(params[0], mm, segments[0].data, now[0]), outputs[0], [], []),
              Tape(FirstLane(params[1], mm, segments[1].data, now[1]), outputs[1], [], []),
              Tape(FirstLane(params[2], mm, segments[2].data, now[2]), outputs[2], [], []),
              Tape(FirstLane(params[3], mm, segments[3].data, now[3]), outputs[3], [], [])];
    done := 0;
    var more := true;
    while more
      invariant done <= steps && |tapes| == LANES && (more ==> done < steps) && (!more ==> done > 0)
      invariant more ==> forall l :: 0 <= l < LANES ==> InBatch(params[l], segments[l], tapes[l].lane.time)
      invariant forall l :: 0 <= l < LANES ==> OnTrack(params[l], mm, segments[l], start[l], now[l], |outputs[l]|, done, steps, tapes[l])
      decreases steps - done, more
    {
      forall l | 0 <= l < LANES ensures MayLoad(segments[l].data, tapes[l].lane) {
        TapeMayLoad(params[l], mm, segments[l], start[l], now[l], |outputs[l]|, done, steps, tapes[l]);
      }
      var outside := Outside(mm, tapes[0].lane) || Outside(mm, tapes[1].lane) || Outside(mm, tapes[2].lane) || Outside(mm, tapes[3].lane);
      var clamped :=
        || Clamps(params[0], tapes[0].lane.omega, ErrorIn(params[0].cubic, mm, segments[0].data, tapes[0].lane, outside))
        || Clamps(params[1], tapes[1].lane.omega, ErrorIn(params[1].cubic, mm, segments[1].data, tapes[1].lane, outside))
        || Clamps(params[2], tapes[2].lane.omega, ErrorIn(params[2].cubic, mm, segments[2].data, tapes[2].lane, outside))
        || Clamps(params[3], tapes[3].lane.omega, ErrorIn(params[3].cubic, mm, segments[3].data, tapes[3].lane, outside));
      TapeFollows(params[0], mm, segments[0], start[0], now[0], |outputs[0]|, done, steps, tapes[0], outside, clamped);
      TapeFollows(params[1], mm, segments[1], start[1], now[1], |outputs[1]|, done, steps, tapes[1], outside, clamped);
      TapeFollows(params[2], mm, segments[2], start[2], now[2], |outputs[2]|, done, steps, tapes[2], outside, clamped);
      TapeFollows(params[3], mm, segments[3], start[3], now[3], |outputs[3]|, done, steps, tapes[3], outside, clamped);
      tapes := [TapeAfter(params[0], mm, segments[0].data, tapes[0], outside, clamped),
                TapeAfter(params[1], mm, segments[1].data, tapes[1], outside, clamped),
                TapeAfter(params[2], mm, segments[2].data, tapes[2], outside, clamped),
                TapeAfter(params[3], mm, segments[3].data, tapes[3], outside, clamped)];
      done := done + 1;
      more := done < steps && InBatch(params[0], segments[0], tapes[0].lane.time) && InBatch(params[1], segments[1], tapes[1].lane.time)
              && InBatch(params[2], segments[2], tapes[2].lane.time) && InBatch(params[3], segments[3], tapes[3].lane.time);
    }
  }

  // ---- Replay ----

  // Squared normalised errors of a log.
  function NormLog(errors: seq<real>, energies: seq<real>): (norms: seq<real>)
    requires |errors| == |energies| && forall i :: 0 <= i < |energies| ==> energies[i] >= 0.0
    ensures |norms| == |errors|
  {
    seq(|errors|, i requires 0 <= i < |errors| => ErrorNorm2(errors[i], energies[i]))
  }

  // Lock tracking of a batch from its logs, one lane.
  method ReplayLock(p: LockParams, before: Lock, symbols: nat, errors: seq<real>, energies: seq<real>) returns (lock: Lock)
    requires |errors| == |energies| && forall i :: 0 <= i < |energies| ==> energies[i] >= 0.0
    requires |errors| > 0 ==> !Reached(RunOf(before) + |errors|, HoldOf(p, before.muellerMuller))
    ensures lock == TrackAll(p, before, symbols, NormLog(errors, energies))
  {
    hide ErrorNorm2, Smoothed;
    var norms := NormLog(errors, energies);
    var smoothed := before.ema;
    var run: nat := if before.muellerMuller then before.unlockRun else before.lockRun;
    for index := 0 to |norms|
      invariant smoothed == TrackAll(p, before, symbols, norms[..index]).ema
      invariant !before.muellerMuller ==> TrackAll(p, before, symbols, norms[..index]) == before.(ema := smoothed, lockRun := run)
      invariant before.muellerMuller && p.fallback ==> TrackAll(p, before, symbols, norms[..index]) == before.(ema := smoothed, unlockRun := run)
      invariant before.muellerMuller && !p.fallback ==> TrackAll(p, before, symbols, norms[..index]) == before.(ema := smoothed)
    {
      assert norms[..index + 1][..index] == norms[..index] && norms[..index + 1][index] == norms[index];
      NoSwitchInside(p, before, symbols, norms[..index + 1]);
      smoothed := Smoothed(p, smoothed, norms[index]);
      if before.muellerMuller {
        run := if smoothed > p.fallbackThreshold then run + 1 else 0;
      } else if symbols + index >= p.minSymbols {
        run := if smoothed < p.mmThreshold then run + 1 else 0;
      }
    }
    assert norms[..|norms|] == norms;
    lock := before.(ema := smoothed);
    if !before.muellerMuller {
      lock := lock.(lockRun := run);
    } else if p.fallback {
      lock := lock.(unlockRun := run);
    }
  }

  // The end of a batch is where the scalar loop is after as many steps.
  lemma BatchEnds(p: Params, mm: bool, segment: Segment, start: LaneState, s: LaneState, from: nat, done: nat, steps: nat, tape: Tape, norms: seq<real>)
    requires ValidSegment(segment) && OnTrack(p, mm, segment, start, s, from, done, steps, tape)
    requires s.havePrevious && CannotSwitch(p.lock, s, steps) && 0 < done
    requires p.lock.autoTed ==> |tape.errors| == |tape.energies| && forall i :: 0 <= i < |tape.energies| ==> tape.energies[i] >= 0.0
    requires p.lock.autoTed ==> norms == NormLog(tape.errors, tape.energies)
    ensures
      var lock := if p.lock.autoTed then TrackAll(p.lock, s.lock, s.symbols, norms) else s.lock;
      var now := LaneState(tape.lane.time, tape.lane.omega, tape.lane.previous, true, s.symbols + done, lock);
      Continues(p, segment, start, now, tape.output) && InBounds(p, now)
    ensures |tape.output| == from + done
  {
    hide Iterate, TrackAll, ErrorNorm2, Continues, Follows, RunOf, HoldOf, Reached;
    var v := DataSignal(p.cubic, segment.data);
    ShorterCannotSwitch(p.lock, s, done, steps);
    LockIsReplayed(p, s, v, done);
    TimeFollows(p.cubic, mm, segment.data, Iterate(p, s, v, done), tape.lane);
    if p.lock.autoTed {
      assert norms == NormsOf(p, s, v, done);
    }
  }

  lemma ReplayReady(p: Params, mm: bool, segment: Segment, start: LaneState, s: LaneState, from: nat, done: nat, steps: nat, tape: Tape)
    requires ValidSegment(segment) && OnTrack(p, mm, segment, start, s, from, done, steps, tape)
    requires CannotSwitch(p.lock, s, steps) && 0 < done && p.lock.autoTed
    ensures |tape.errors| == |tape.energies| && forall i :: 0 <= i < |tape.energies| ==> tape.energies[i] >= 0.0
    ensures |tape.errors| > 0 ==> !Reached(RunOf(s.lock) + |tape.errors|, HoldOf(p.lock, s.lock.muellerMuller))
  {
    hide Iterate, ErrorNorm2, Continues, Follows;
  }

  // One lane after a batch: the trajectory, and the lock tracking replayed from the logs.
  method FinishLane(p: Params, mm: bool, segment: Segment, ghost start: LaneState, s: LaneState, ghost from: nat, done: nat, ghost steps: nat, tape: Tape)
    returns (now: LaneState)
    requires ValidSegment(segment) && OnTrack(p, mm, segment, start, s, from, done, steps, tape)
    requires s.havePrevious && CannotSwitch(p.lock, s, steps) && 0 < done
    ensures Continues(p, segment, start, now, tape.output) && InBounds(p, now) && |tape.output| == from + done
  {
    hide OnTrack, Continues, CannotSwitch, TrackAll, ErrorNorm2, Reached, RunOf, HoldOf, InBounds;
    var lock := s.lock;
    ghost var norms: seq<real> := [];
    if p.lock.autoTed {
      ReplayReady(p, mm, segment, start, s, from, done, steps, tape);
      norms := NormLog(tape.errors, tape.energies);
      lock := ReplayLock(p.lock, lock, s.symbols, tape.errors, tape.energies);
    }
    BatchEnds(p, mm, segment, start, s, from, done, steps, tape, norms);
    now := LaneState(tape.lane.time, tape.lane.omega, tape.lane.previous, true, s.symbols + done, lock);
  }

  // ---- Masked steps ----

  // Lock tracking of one symbol on the lanes an update mask selects, by blends.
  method TrackMasked(p: LockParams, lock: Lock, symbols: nat, norm2: real, update: bool) returns (tracked: Lock, switching: bool)
    ensures (if switching then Switched(tracked) else tracked) == if update then TrackLock(p, lock, symbols, norm2) else lock
  {
    hide Smoothed;
    var ema := if update then Smoothed(p, lock.ema, norm2) else lock.ema;
    var gardner := update && !lock.muellerMuller && symbols >= p.minSymbols;
    var locked: nat := if ema < p.mmThreshold then lock.lockRun + 1 else 0;
    var lockRun := if gardner then locked else lock.lockRun;
    var toMuellerMuller := gardner && Reached(lockRun, p.mmHold);
    var fallback := update && lock.muellerMuller && p.fallback;
    var unlocked: nat := if ema > p.fallbackThreshold then lock.unlockRun + 1 else 0;
    var unlockRun := if fallback then unlocked else lock.unlockRun;
    var toGardner := fallback && Reached(unlockRun, p.fallbackHold);
    tracked := Lock(ema, lockRun, unlockRun, lock.muellerMuller, lock.switches);
    switching := toMuellerMuller || toGardner;
  }

  function CurrentAt(p: Params, data: seq<Complex>, s: LaneState): Complex
    requires |data| >= 4
  {
    DataValue(p.cubic, data, s.time)
  }

  function MidAt(p: Params, data: seq<Complex>, s: LaneState): Complex
    requires |data| >= 4
  {
    DataValue(p.cubic, data, s.time - 0.5 * s.omega)
  }

  function ErrorAt(p: Params, data: seq<Complex>, s: LaneState): real
    requires |data| >= 4
  {
    if s.havePrevious then DetectorError(s.lock.muellerMuller, s.previous, MidAt(p, data, s), CurrentAt(p, data, s)) else 0.0
  }

  // One lane of a masked step; an idle lane keeps its state.
  method MaskedLane(p: Params, data: seq<Complex>, s: LaneState, output: seq<Complex>, active: bool, clamped: bool)
    returns (next: LaneState, out: seq<Complex>)
    requires |data| >= 4 && (Clamps(p, s.omega, ErrorAt(p, data, s)) ==> clamped)
    ensures active ==> next == Next(p, s, DataSignal(p.cubic, data)) && out == output + [DataSignal(p.cubic, data)(s.time)]
    ensures !active ==> next == s && out == output
  {
    hide DataValue, DetectorError, Energy, ErrorNorm2, TrackLock, Advance, AdvanceLane, Clamps;
    var current, mid, error := CurrentAt(p, data, s), MidAt(p, data, s), ErrorAt(p, data, s);
    var a := AdvanceLane(p, s.time, s.omega, error, clamped);
    AdvanceLaneMeans(p, s.time, s.omega, error, clamped);
    var lock := s.lock;
    if p.lock.autoTed {
      var tracked, switching := TrackMasked(p.lock, lock, s.symbols, ErrorNorm2(error, Energy(lock.muellerMuller, s.previous, mid, current)),
                                            active && s.havePrevious);
      lock := if switching then Switched(tracked) else tracked;
    }
    next := LaneState(if active then a.time else s.time, if active then a.omega else s.omega, if active then current else s.previous,
                      s.havePrevious || active, if active then s.symbols + 1 else s.symbols, lock);
    out := if active then output + [current] else output;
  }

  // ---- The vector pass ----

  // Symbols a batch may take: no lane may reach its hold count inside it.
  function SafeBudget(hold: Hold, run: nat, budget: nat): nat
  {
    match hold
    case Never => budget
    case After(count) =>
      if (count as int) - run > budget then budget else if (count as int) - run - 1 > 0 then count - run - 1 else 0
  }

  lemma SafeBudgetIsSafe(p: LockParams, s: LaneState, run: nat, budget: nat)
    requires RunOf(s.lock) <= run
    ensures SafeBudget(HoldOf(p, s.lock.muellerMuller), run, budget) <= budget
    ensures CannotSwitch(p, s, SafeBudget(HoldOf(p, s.lock.muellerMuller), run, budget))
  {
  }

  function Larger(a: nat, b: nat): nat { if a > b then a else b }

  function Smaller(a: nat, b: nat): nat { if a < b then a else b }

  // Output still to come, which every round of the vector pass reduces.
  function Left(segments: seq<Segment>, outputs: seq<seq<Complex>>): int
    requires |segments| == |outputs| == LANES
  {
    (segments[0].capacity - |outputs[0]|) + (segments[1].capacity - |outputs[1]|)
    + (segments[2].capacity - |outputs[2]|) + (segments[3].capacity - |outputs[3]|)
  }

  // All lanes somewhere inside their passes.
  ghost predicate UnderWay(params: seq<Params>, segments: seq<Segment>, start: seq<LaneState>, now: seq<LaneState>, outputs: seq<seq<Complex>>)
  {
    && |params| == |segments| == |start| == |now| == |outputs| == LANES
    && forall l :: 0 <= l < LANES ==> LaneUnderWay(params[l], segments[l], start[l], now[l], outputs[l])
  }

  ghost predicate LaneUnderWay(p: Params, segment: Segment, start: LaneState, now: LaneState, output: seq<Complex>)
  {
    ValidParams(p) && VectorSegment(segment) && InBounds(p, now) && Continues(p, segment, start, now, output)
  }

  // Four lanes, one batch and its replay.
  method RunBatch(params: seq<Params>, mm: bool, segments: seq<Segment>, ghost start: seq<LaneState>, now: seq<LaneState>,
                  outputs: seq<seq<Complex>>, steps: nat) returns (next: seq<LaneState>, outs: seq<seq<Complex>>)
    requires UnderWay(params, segments, start, now, outputs) && steps > 0
    requires forall l :: 0 <= l < LANES ==> MayBatch(params[l], mm, segments[l], start[l], now[l], outputs[l], steps)
    ensures UnderWay(params, segments, start, next, outs) && 0 <= Left(segments, outs) < Left(segments, outputs)
  {
    hide OnTrack, Continues, CannotSwitch, InBatch, InBounds, VectorSegment, ValidParams;
    SegmentsValid(params, segments, start, now, outputs);
    var done, tapes := Batch(params, mm, segments, start, now, outputs, steps);
    var n0 := FinishLane(params[0], mm, segments[0], start[0], now[0], |outputs[0]|, done, steps, tapes[0]);
    var n1 := FinishLane(params[1], mm, segments[1], start[1], now[1], |outputs[1]|, done, steps, tapes[1]);
    var n2 := FinishLane(params[2], mm, segments[2], start[2], now[2], |outputs[2]|, done, steps, tapes[2]);
    var n3 := FinishLane(params[3], mm, segments[3], start[3], now[3], |outputs[3]|, done, steps, tapes[3]);
    next, outs := [n0, n1, n2, n3], [tapes[0].output, tapes[1].output, tapes[2].output, tapes[3].output];
    SegmentsValid(params, segments, start, next, outs);
  }

  lemma SegmentsValid(params: seq<Params>, segments: seq<Segment>, start: seq<LaneState>, now: seq<LaneState>, outputs: seq<seq<Complex>>)
    requires UnderWay(params, segments, start, now, outputs)
    ensures forall l :: 0 <= l < LANES ==> ValidSegment(segments[l]) && |outputs[l]| <= segments[l].capacity
    ensures Left(segments, outputs) >= 0
  {
  }

  predicate Active(segment: Segment, now: LaneState, output: seq<Complex>)
  {
    |output| < segment.capacity && Below(now.time, segment.limit)
  }

  // One lane of a masked step stays inside its pass.
  lemma MaskedContinues(p: Params, segment: Segment, start: LaneState, now: LaneState, output: seq<Complex>, active: bool, next: LaneState, out: seq<Complex>)
    requires LaneUnderWay(p, segment, start, now, output) && active == Active(segment, now, output)
    requires active ==> next == Next(p, now, DataSignal(p.cubic, segment.data)) && out == output + [DataSignal(p.cubic, segment.data)(now.time)]
    requires !active ==> next == now && out == output
    ensures LaneUnderWay(p, segment, start, next, out)
  {
    hide Next, Continues, DataValue;
    if active {
      OneMore(p, segment, start, now, output);
      NextInBounds(p, now, DataSignal(p.cubic, segment.data));
    }
  }

  method ActiveLane(p: Params, segment: Segment, ghost start: LaneState, now: LaneState, output: seq<Complex>, active: bool, clamped: bool)
    returns (next: LaneState, out: seq<Complex>)
    requires LaneUnderWay(p, segment, start, now, output) && active == Active(segment, now, output)
    requires |segment.data| >= 4 && (Clamps(p, now.omega, ErrorAt(p, segment.data, now)) ==> clamped)
    ensures LaneUnderWay(p, segment, start, next, out) && |out| == |output| + if active then 1 else 0
  {
    hide LaneUnderWay, Active, Clamps, ErrorAt, Next, DataValue;
    next, out := MaskedLane(p, segment.data, now, output, active, clamped);
    MaskedContinues(p, segment, start, now, output, active, next, out);
  }

  lemma LessLeft(segments: seq<Segment>, outputs: seq<seq<Complex>>, outs: seq<seq<Complex>>, active: seq<bool>)
    requires |segments| == |outputs| == |outs| == |active| == LANES
    requires |outs[0]| == |outputs[0]| + (if active[0] then 1 else 0) && |outs[1]| == |outputs[1]| + (if active[1] then 1 else 0)
    requires |outs[2]| == |outputs[2]| + (if active[2] then 1 else 0) && |outs[3]| == |outputs[3]| + (if active[3] then 1 else 0)
    requires active[0] || active[1] || active[2] || active[3]
    ensures Left(segments, outs) < Left(segments, outputs)
  {
  }

  // One symbol for every active lane, whatever mix of detectors and first symbols.
  method MaskedStep(params: seq<Params>, segments: seq<Segment>, ghost start: seq<LaneState>, now: seq<LaneState>, outputs: seq<seq<Complex>>,
                    active: seq<bool>) returns (next: seq<LaneState>, outs: seq<seq<Complex>>)
    requires UnderWay(params, segments, start, now, outputs) && |active| == LANES
    requires forall l :: 0 <= l < LANES ==> active[l] == Active(segments[l], now[l], outputs[l])
    requires active[0] || active[1] || active[2] || active[3]
    ensures UnderWay(params, segments, start, next, outs) && 0 <= Left(segments, outs) < Left(segments, outputs)
  {
    hide Continues, InBounds, Clamps, ErrorAt, Next, DataValue, Active, LaneUnderWay, Left;
    SegmentsValid(params, segments, start, now, outputs);
    var clamped :=
      || Clamps(params[0], now[0].omega, ErrorAt(params[0], segments[0].data, now[0]))
      || Clamps(params[1], now[1].omega, ErrorAt(params[1], segments[1].data, now[1]))
      || Clamps(params[2], now[2].omega, ErrorAt(params[2], segments[2].data, now[2]))
      || Clamps(params[3], now[3].omega, ErrorAt(params[3], segments[3].data, now[3]));
    var n0, o0 := ActiveLane(params[0], segments[0], start[0], now[0], outputs[0], active[0], clamped);
    var n1, o1 := ActiveLane(params[1], segments[1], start[1], now[1], outputs[1], active[1], clamped);
    var n2, o2 := ActiveLane(params[2], segments[2], start[2], now[2], outputs[2], active[2], clamped);
    var n3, o3 := ActiveLane(params[3], segments[3], start[3], now[3], outputs[3], active[3], clamped);
    next, outs := [n0, n1, n2, n3], [o0, o1, o2, o3];
    SegmentsValid(params, segments, start, next, outs);
    LessLeft(segments, outputs, outs, active);
  }

  // Steps the next batch may take; none unless every lane is active with one detector, past
  // its first symbol, and in batch range.
  method BatchBudget(params: seq<Params>, mm: bool, segments: seq<Segment>, ghost start: seq<LaneState>, now: seq<LaneState>,
                     outputs: seq<seq<Complex>>, active: seq<bool>) returns (budget: nat)
    requires UnderWay(params, segments, start, now, outputs) && |active| == LANES
    requires forall l :: 0 <= l < LANES ==> params[l].lock == params[0].lock
    ensures budget > 0 ==> forall l :: 0 <= l < LANES ==> MayBatch(params[l], mm, segments[l], start[l], now[l], outputs[l], budget)
  {
    hide Continues, InBounds, InBatch, CannotSwitch, SafeBudget, RunOf, HoldOf, VectorSegment, ValidParams;
    SegmentsValid(params, segments, start, now, outputs);
    var p := params[0].lock;
    budget := Smaller(Smaller(segments[0].capacity - |outputs[0]|, segments[1].capacity - |outputs[1]|),
                      Smaller(segments[2].capacity - |outputs[2]|, segments[3].capacity - |outputs[3]|));
    budget := Smaller(BATCH, budget);
    var uniform := now[0].lock.muellerMuller == mm && now[1].lock.muellerMuller == mm && now[2].lock.muellerMuller == mm && now[3].lock.muellerMuller == mm;
    var started := now[0].havePrevious && now[1].havePrevious && now[2].havePrevious && now[3].havePrevious;
    var inRange := InBatch(params[0], segments[0], now[0].time) && InBatch(params[1], segments[1], now[1].time)
                   && InBatch(params[2], segments[2], now[2].time) && InBatch(params[3], segments[3], now[3].time);
    if !(active[0] && active[1] && active[2] && active[3] && started && uniform && inRange) {
      return 0;
    }
    if p.autoTed && (!mm || p.fallback) {
      var run := Larger(Larger(RunOf(now[0].lock), RunOf(now[1].lock)), Larger(RunOf(now[2].lock), RunOf(now[3].lock)));
      ghost var room := budget;
      budget := SafeBudget(if mm then p.fallbackHold else p.mmHold, run, budget);
      forall l | 0 <= l < LANES ensures CannotSwitch(p, now[l], budget) && budget <= room {
        HoldInUse(p, mm);
        SafeBudgetIsSafe(p, now[l], run, room);
      }
    } else {
      forall l | 0 <= l < LANES ensures CannotSwitch(p, now[l], budget) {
        NoSwitchAtAll(p, now[l], budget);
      }
    }
  }

  lemma HoldInUse(p: LockParams, mm: bool)
    requires !mm || p.fallback
    ensures HoldOf(p, mm) == if mm then p.fallbackHold else p.mmHold
  {
  }

  lemma NoSwitchAtAll(p: LockParams, s: LaneState, n: nat)
    requires !p.autoTed || (s.lock.muellerMuller && !p.fallback)
    ensures CannotSwitch(p, s, n)
  {
  }

  // Main result: batches, replays and masked steps together leave every lane exactly where
  // the scalar loop leaves it, with the same symbols.
  method RunVector(params: seq<Params>, state: array<LaneState>, segments: array<Segment>)
    requires |params| == LANES && state.Length == LANES && segments.Length == LANES
    requires forall l :: 0 <= l < LANES ==> ValidParams(params[l]) && params[l].lock == params[0].lock
    requires forall l :: 0 <= l < LANES ==> ValidSegment(segments[l])
    requires forall l :: 0 <= l < LANES ==> VectorSegment(segments[l]) && InBounds(params[l], state[l])
    modifies state, segments
    ensures PassDone(params, state, segments)
  {
    hide Continues, InBounds, Left, Pass, InBatch, CannotSwitch, SafeBudget, RunOf, HoldOf;
    var segs, now := segments[..], state[..];
    var outputs := [segs[0].output, segs[1].output, segs[2].output, segs[3].output];
    ghost var start := now;
    forall l | 0 <= l < LANES ensures LaneUnderWay(params[l], segs[l], start[l], now[l], outputs[l]) {
      StartsThere(params[l], segs[l], start[l]);
    }
    var p := params[0].lock;
    var more := true;
    while more
      invariant UnderWay(params, segs, start, now, outputs)
      invariant !more ==> forall l :: 0 <= l < LANES ==> !Active(segs[l], now[l], outputs[l])
      decreases more, Left(segs, outputs)
    {
      SegmentsValid(params, segs, start, now, outputs);
      var active := [Active(segs[0], now[0], outputs[0]), Active(segs[1], now[1], outputs[1]),
                     Active(segs[2], now[2], outputs[2]), Active(segs[3], now[3], outputs[3])];
      if !active[0] && !active[1] && !active[2] && !active[3] {
        more := false;
      } else {
        var mm := now[0].lock.muellerMuller;
        var budget := BatchBudget(params, mm, segs, start, now, outputs, active);
        if budget != 0 {
          now, outputs := RunBatch(params, mm, segs, start, now, outputs, budget);
        } else {
          now, outputs := MaskedStep(params, segs, start, now, outputs, active);
        }
      }
    }
    SegmentsValid(params, segs, start, now, outputs);
    forall l | 0 <= l < LANES ensures Pass(params[l], start[l], segs[l]).0 == now[l] && segs[l].output + Pass(params[l], start[l], segs[l]).1 == outputs[l] {
      StopsThere(params[l], segs[l], start[l], now[l], outputs[l]);
    }
    forall l | 0 <= l < LANES {
      state[l] := now[l];
    }
    forall l | 0 <= l < LANES {
      segments[l] := segs[l].(output := outputs[l]);
    }
  }
}
