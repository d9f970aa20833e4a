// The scalar timing loops over one pass of every lane.
module SyncGeneric {
  import opened ComplexNumbers
  import opened SyncLoop

  const LANES: nat := 4

  // An idle lane has no limit it could be below.
  datatype Limit = Idle | Until(bound: real)

  predicate Below(time: real, limit: Limit) { limit.Until? && time < limit.bound }

  // One lane of a pass: its samples, its limit and the symbols produced so far.
  datatype Segment = Segment(data: seq<Complex>, limit: Limit, capacity: nat, output: seq<Complex>)

  predicate ValidSegment(s: Segment) { |s.data| >= 4 && |s.output| <= s.capacity }

  // What a pass does to one lane.
  function Pass(p: Params, s: LaneState, segment: Segment): (LaneState, seq<Complex>)
    requires ValidSegment(segment)
  {
    if segment.limit.Idle? then (s, [])
    else Run(p, s, DataSignal(p.cubic, segment.data), segment.limit.bound, segment.capacity - |segment.output|)
  }

  // The pass from a state on, in front of it the symbols already produced.
  ghost predicate Continues(p: Params, segment: Segment, start: LaneState, now: LaneState, output: seq<Complex>)
    requires ValidSegment(segment)
  {
    && |segment.output| <= |output| <= segment.capacity
    && var whole, rest := Pass(p, start, segment), Pass(p, now, segment.(output := output));
    whole.0 == rest.0 && segment.output + whole.1 == output + rest.1
  }

  lemma StartsThere(p: Params, segment: Segment, start: LaneState)
    requires ValidSegment(segment)
    ensures Continues(p, segment, start, start, segment.output)
  {
  }

  lemma OneMore(p: Params, segment: Segment, start: LaneState, now: LaneState, output: seq<Complex>)
    requires ValidSegment(segment) && Continues(p, segment, start, now, output)
    requires |output| < segment.capacity && Below(now.time, segment.limit)
    ensures
      var v := DataSignal(p.cubic, segment.data);
      Continues(p, segment, start, Next(p, now, v), output + [v(now.time)])
  {
    hide Next, DataValue;
    var v := DataSignal(p.cubic, segment.data);
    var rest := Pass(p, Next(p, now, v), segment.(output := output + [v(now.time)]));
    assert Pass(p, now, segment.(output := output)) == (rest.0, [v(now.time)] + rest.1);
    assert output + ([v(now.time)] + rest.1) == (output + [v(now.time)]) + rest.1;
  }

  lemma StopsThere(p: Params, segment: Segment, start: LaneState, now: LaneState, output: seq<Complex>)
    requires ValidSegment(segment) && Continues(p, segment, start, now, output)
    requires |output| == segment.capacity || !Below(now.time, segment.limit)
    ensures Pass(p, start, segment).0 == now && segment.output + Pass(p, start, segment).1 == output
  {
    var rest := Pass(p, now, segment.(output := output));
    assert rest == (now, []);
    assert output + [] == output;
  }

  // The loop filter: next position and step.
  method FilterLoop(p: Params, time: real, omega: real, error: real) returns (timeNext: real, omegaNext: real)
    ensures Motion(timeNext, omegaNext) == Advance(p, time, omega, error)
  {
    var omegaRaw := p.beta * error + omega;
    omegaNext := Min(Max(omegaRaw, p.omegaMin), p.omegaMax);
    timeNext := (p.alpha + p.beta) * error + (time + omega);
    if omegaNext != omegaRaw {
      timeNext := time + (p.alpha * error + omegaNext);
    }
  }

  // Lock tracking of one symbol, with the switch of the detector.
  method TrackSymbol(p: LockParams, before: Lock, symbols: nat, norm2: real) returns (lock: Lock)
    ensures lock == TrackLock(p, before, symbols, norm2)
  {
    hide Smoothed;
    lock := before.(ema := Smoothed(p, before.ema, norm2));
    if !before.muellerMuller {
      if symbols >= p.minSymbols {
        lock := lock.(lockRun := if lock.ema < p.mmThreshold then lock.lockRun + 1 else 0);
        if Reached(lock.lockRun, p.mmHold) {
          lock := Switched(lock);
        }
      }
    } else if p.fallback {
      lock := lock.(unlockRun := if lock.ema > p.fallbackThreshold then lock.unlockRun + 1 else 0);
      if Reached(lock.unlockRun, p.fallbackHold) {
        lock := Switched(lock);
      }
    }
  }

  // One lane of the scalar backend.
  method RunLane(p: Params, s: LaneState, segment: Segment) returns (end: LaneState, output: seq<Complex>)
    requires ValidSegment(segment)
    ensures end == Pass(p, s, segment).0 && output == segment.output + Pass(p, s, segment).1
    ensures |output| <= segment.capacity
  {
    hide Pass, Continues, DataValue, Energy, ErrorNorm2, DetectorError, TrackLock, Advance;
    ghost var v := DataSignal(p.cubic, segment.data);
    var time, omega, previous, havePrevious, lock := s.time, s.omega, s.previous, s.havePrevious, s.lock;
    var symbols: nat := s.symbols;
    output := segment.output;
    StartsThere(p, segment, s);
    while |output| < segment.capacity && Below(time, segment.limit)
      invariant |output| <= segment.capacity
      invariant Continues(p, segment, s, LaneState(time, omega, previous, havePrevious, symbols, lock), output)
      decreases segment.capacity - |output|
    {
      ghost var now := LaneState(time, omega, previous, havePrevious, symbols, lock);
      OneMore(p, segment, s, now, output);
      var current := DataValue(p.cubic, segment.data, time);
      var mid := DataValue(p.cubic, segment.data, time - 0.5 * omega);
      var muellerMuller := lock.muellerMuller;
      var error := 0.0;
      if havePrevious {
        error := DetectorError(muellerMuller, previous, mid, current);
      }
      var timeNext, omegaNext := FilterLoop(p, time, omega, error);
      if p.lock.autoTed && havePrevious {
        lock := TrackSymbol(p.lock, lock, symbols, ErrorNorm2(error, Energy(muellerMuller, previous, mid, current)));
      }
      time, omega, previous, havePrevious := timeNext, omegaNext, current, true;
      output := output + [current];
      symbols := symbols + 1;
      assert LaneState(time, omega, previous, havePrevious, symbols, lock) == Next(p, now, v);
    }
    end := LaneState(time, omega, previous, havePrevious, symbols, lock);
    StopsThere(p, segment, s, end, output);
  }

  // Every lane of a pass, whichever backend runs it.
  twostate predicate PassDone(params: seq<Params>, state: array<LaneState>, segments: array<Segment>)
    requires |params| == LANES && state.Length == LANES && segments.Length == LANES
    requires forall lane :: 0 <= lane < LANES ==> ValidSegment(old(segments[lane]))
    reads state, segments
  {
    forall lane :: 0 <= lane < LANES ==>
      var pass := Pass(params[lane], old(state[lane]), old(segments[lane]));
      && state[lane] == pass.0
      && segments[lane] == old(segments[lane]).(output := old(segments[lane]).output + pass.1)
      && ValidSegment(segments[lane])
  }

  // Lanes are independent, so the scalar backend runs them one after another.
  method RunGeneric(params: seq<Params>, state: array<LaneState>, segments: array<Segment>)
    requires |params| == LANES && state.Length == LANES && segments.Length == LANES
    requires forall lane :: 0 <= lane < LANES ==> ValidSegment(segments[lane])
    modifies state, segments
    ensures PassDone(params, state, segments)
  {
    hide Pass;
    for lane := 0 to LANES
      invariant forall k :: lane <= k < LANES ==> state[k] == old(state[k]) && segments[k] == old(segments[k])
      invariant forall k :: 0 <= k < lane ==>
        var pass := Pass(params[k], old(state[k]), old(segments[k]));
        && state[k] == pass.0
        && segments[k] == old(segments[k]).(output := old(segments[k]).output + pass.1)
        && ValidSegment(segments[k])
    {
      var end, output := RunLane(params[lane], state[lane], segments[lane]);
      state[lane] := end;
      segments[lane] := segments[lane].(output := output);
    }
  }
}
