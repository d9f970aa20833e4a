// Two passes over kept history and block against one loop over the whole stream.
module SyncStream {
  import opened ComplexNumbers
  import opened IfftTransform
  import opened SyncLoop

  // ---- Kept history ----

  // Half of the longest symbol, rounded up.
  function HalfCeiling(omegaMax: real): int { -((-(omegaMax * 0.5)).Floor) }

  // Samples kept from the previous block, a multiple of four.
  function HistoryLength(omegaMax: real): int { (HalfCeiling(omegaMax) + 8 + 3) / 4 * 4 }

  function EarliestTime(omegaMax: real): real { -((HistoryLength(omegaMax) - HalfCeiling(omegaMax) - 4) as real) }

  // The kept history holds the mid-point stencil of a symbol at the earliest time, fits the
  // fixed buffers of 64 samples, and the earliest time lies before any time a block that was
  // not truncated ends with.
  lemma HistoryFits(omegaMax: real)
    requires 1.0 <= omegaMax <= 100.0
    ensures HistoryLength(omegaMax) % 4 == 0 && 12 <= HistoryLength(omegaMax) <= 64
    ensures HalfCeiling(omegaMax) + 8 <= HistoryLength(omegaMax) && 0.5 * omegaMax <= HalfCeiling(omegaMax) as real
    ensures EarliestTime(omegaMax) <= -4.0
    ensures EarliestTime(omegaMax) + HistoryLength(omegaMax) as real - 0.5 * omegaMax >= 4.0
  {
  }

  // The history is the smallest multiple of four that holds half of the longest symbol and eight
  // samples more; from the earliest time its start lies that half, in whole samples, and four back.
  lemma HistoryIsLeast(omegaMax: real)
    requires omegaMax >= 1.0
    ensures HistoryLength(omegaMax) % 4 == 0
    ensures 0.5 * omegaMax + 8.0 <= HistoryLength(omegaMax) as real < 0.5 * omegaMax + 12.0
    ensures EarliestTime(omegaMax) == EarliestTime(omegaMax).Floor as real
    ensures 0.5 * omegaMax <= EarliestTime(omegaMax) + HistoryLength(omegaMax) as real - 4.0 < 0.5 * omegaMax + 1.0
  {
    hide HalfCeiling;
    var half := HalfCeiling(omegaMax);
    HalfBounds(omegaMax);
    FourAbove(half + 8, HistoryLength(omegaMax));
    assert EarliestTime(omegaMax) + HistoryLength(omegaMax) as real - 4.0 == half as real;
  }

  lemma HalfBounds(omegaMax: real)
    ensures 0.5 * omegaMax <= HalfCeiling(omegaMax) as real < 0.5 * omegaMax + 1.0
  {
  }

  lemma FourAbove(n: int, up: int)
    requires up == (n + 3) / 4 * 4
    ensures up % 4 == 0 && n <= up <= n + 3
  {
  }

  // The last samples of a stream, zero before its start.
  ghost predicate Keeps(kept: seq<Complex>, x: seq<Complex>, history: nat)
  {
    |kept| == history && forall j :: 0 <= j < history ==> kept[j] == At(x, |x| - history + j)
  }

  function Head(block: seq<Complex>, history: nat): (head: seq<Complex>)
  {
    if |block| <= history then block else block[..history]
  }

  // History after a block.
  function KeptAfter(kept: seq<Complex>, block: seq<Complex>, history: nat): seq<Complex>
    requires |kept| == history
  {
    if |block| >= history then block[|block| - history..] else (kept + block)[|block|..]
  }

  lemma KeptAfterKeeps(kept: seq<Complex>, x: seq<Complex>, block: seq<Complex>, history: nat)
    requires Keeps(kept, x, history)
    ensures Keeps(KeptAfter(kept, block, history), x + block, history)
  {
    var after, n := KeptAfter(kept, block, history), |x + block|;
    forall j | 0 <= j < history ensures after[j] == At(x + block, n - history + j) {
      if |block| >= history {
        assert after[j] == block[|block| - history + j];
      } else if |block| + j < history {
        assert after[j] == kept[|block| + j];
      } else {
        assert after[j] == block[|block| + j - history];
      }
    }
  }

  // ---- The two passes ----

  // State and symbols after both passes, time still relative to the start of the block.
  function TwoPasses(p: Params, s: LaneState, history: nat, kept: seq<Complex>, block: seq<Complex>, capacity: nat): (LaneState, seq<Complex>)
    requires |kept| == history >= 4
  {
    var seam := kept + Head(block, history);
    var first := Run(p, Shifted(s, history as real), DataSignal(p.cubic, seam), |seam| as real - 2.0, capacity);
    var back := Shifted(first.0, -(history as real));
    if |block| > history then
      var second := Run(p, back, DataSignal(p.cubic, block), |block| as real - 2.0, capacity - |first.1|);
      (second.0, first.1 + second.1)
    else
      (back, first.1)
  }

  lemma PassesStop(p: Params, s: LaneState, history: nat, kept: seq<Complex>, block: seq<Complex>, capacity: nat)
    requires ValidParams(p) && InBounds(p, s) && |kept| == history >= 4
    ensures
      var e := TwoPasses(p, s, history, kept, block, capacity);
      && InBounds(p, e.0) && |e.1| <= capacity
      && (|e.1| < capacity ==> e.0.time >= |block| as real - 2.0)
      && e.0.symbols == s.symbols + |e.1|
  {
    hide Run, ValidParams;
    var seam := kept + Head(block, history);
    RunStops(p, Shifted(s, history as real), DataSignal(p.cubic, seam), |seam| as real - 2.0, capacity);
    var first := Run(p, Shifted(s, history as real), DataSignal(p.cubic, seam), |seam| as real - 2.0, capacity);
    if |block| > history {
      RunStops(p, Shifted(first.0, -(history as real)), DataSignal(p.cubic, block), |block| as real - 2.0, capacity - |first.1|);
    }
  }

  // The seam and the block show the stream around the start of the block.
  lemma SeamShows(kept: seq<Complex>, x: seq<Complex>, block: seq<Complex>, history: nat)
    requires Keeps(kept, x, history)
    ensures
      var seam := kept + Head(block, history);
      forall j :: 0 <= j < |seam| ==> seam[j] == At(x + block, |x| - history + j)
  {
  }

  lemma BlockShows(x: seq<Complex>, block: seq<Complex>)
    ensures forall j :: 0 <= j < |block| ==> block[j] == At(x + block, |x| + j)
  {
  }

  ghost predicate Placed(p: Params, s: LaneState, omegaMax: real, history: nat, kept: seq<Complex>, x: seq<Complex>)
  {
    && ValidParams(p) && InBounds(p, s) && p.omegaMax <= omegaMax <= 100.0
    && history == HistoryLength(omegaMax) && s.time >= EarliestTime(omegaMax) && Keeps(kept, x, history)
  }

  lemma PlacedMeans(p: Params, s: LaneState, omegaMax: real, history: nat, kept: seq<Complex>, x: seq<Complex>)
    requires Placed(p, s, omegaMax, history, kept, x)
    ensures ValidParams(p) && InBounds(p, s) && p.omegaMax <= omegaMax <= 100.0
    ensures history == HistoryLength(omegaMax) && |kept| == history >= 12
  {
    HistoryFits(omegaMax);
  }

  // ---- No stencil is clamped ----

  // Neither pass of a call loads a stencil that would have to be clamped.
  ghost predicate Unclamped(p: Params, s: LaneState, history: nat, kept: seq<Complex>, block: seq<Complex>, capacity: nat)
    requires |kept| == history >= 4
  {
    var seam, start := kept + Head(block, history), Shifted(s, history as real);
    var first := Run(p, start, DataSignal(p.cubic, seam), |seam| as real - 2.0, capacity);
    && AllFit(p, start, DataSignal(p.cubic, seam), 0, |seam|, |seam| as real - 2.0, capacity)
    && (|block| > history ==>
          AllFit(p, Shifted(first.0, -(history as real)), DataSignal(p.cubic, block), 0, |block|, |block| as real - 2.0, capacity - |first.1|))
  }

  // The loop over the stream keeps to the seam up to two samples before its end, and to the
  // block from there on.
  ghost predicate LoopFits(p: Params, s: LaneState, history: nat, x: seq<Complex>, block: seq<Complex>, capacity: nat)
  {
    var v, head := StreamSignal(p.cubic, x + block), |Head(block, history)|;
    var first := Run(p, s, v, (|x| + head) as real - 2.0, capacity);
    && AllFit(p, s, v, |x| - history, history + head, (|x| + head) as real - 2.0, capacity)
    && (|block| > history ==> AllFit(p, first.0, v, |x|, |block|, |x + block| as real - 2.0, capacity - |first.1|))
  }

  // First pass: inside the seam it is the loop over the stream.
  lemma SeamPass(p: Params, s: LaneState, history: nat, kept: seq<Complex>, x: seq<Complex>, block: seq<Complex>, capacity: nat)
    requires Keeps(kept, x, history) && 4 <= history <= 64 && |block| < 0x4000_0000
    ensures
      var v, seam, start, n := StreamSignal(p.cubic, x + block), kept + Head(block, history), Shifted(s, history as real), |x| as real;
      var data, limit := DataSignal(p.cubic, seam), (|x| + |Head(block, history)|) as real - 2.0;
      && (AllFit(p, start, data, 0, |seam|, |seam| as real - 2.0, capacity) <==>
            AllFit(p, Shifted(s, n), v, |x| - history, |seam|, limit, capacity))
      && (AllFit(p, start, data, 0, |seam|, |seam| as real - 2.0, capacity) ==>
            var first := Run(p, start, data, |seam| as real - 2.0, capacity);
            Run(p, Shifted(s, n), v, limit, capacity) == (Shifted(first.0, n - history as real), first.1))
  {
    hide At, Run, AllFit, SameAlong, StreamSignal, DataSignal;
    var seam, start := kept + Head(block, history), Shifted(s, history as real);
    var origin := |x| - history;
    SeamShows(kept, x, block, history);
    FittingRun(p, start, seam, x + block, origin, |seam| as real - 2.0, capacity);
    if AllFit(p, start, DataSignal(p.cubic, seam), 0, |seam|, |seam| as real - 2.0, capacity) {
      RunShifted(p, start, DataSignal(p.cubic, seam), StreamSignal(p.cubic, x + block), origin as real, |seam| as real - 2.0, capacity);
    }
    assert origin as real == |x| as real - history as real;
    assert Shifted(start, origin as real) == Shifted(s, |x| as real);
    assert |seam| as real - 2.0 + origin as real == (|x| + |Head(block, history)|) as real - 2.0;
  }

  // Second pass: inside the block it is the loop over the stream.
  lemma BlockPass(p: Params, s: LaneState, x: seq<Complex>, block: seq<Complex>, room: nat)
    requires 4 <= |block| < 0x4000_0000
    ensures
      var v, data, n, limit := StreamSignal(p.cubic, x + block), DataSignal(p.cubic, block), |x| as real, |x + block| as real - 2.0;
      && (AllFit(p, s, data, 0, |block|, |block| as real - 2.0, room) <==> AllFit(p, Shifted(s, n), v, |x|, |block|, limit, room))
      && (AllFit(p, s, data, 0, |block|, |block| as real - 2.0, room) ==>
            var second := Run(p, s, data, |block| as real - 2.0, room);
            Run(p, Shifted(s, n), v, limit, room) == (Shifted(second.0, n), second.1))
  {
    hide At, Run, AllFit, SameAlong, StreamSignal, DataSignal;
    BlockShows(x, block);
    FittingRun(p, s, block, x + block, |x|, |block| as real - 2.0, room);
    if AllFit(p, s, DataSignal(p.cubic, block), 0, |block|, |block| as real - 2.0, room) {
      RunShifted(p, s, DataSignal(p.cubic, block), StreamSignal(p.cubic, x + block), |x| as real, |block| as real - 2.0, room);
    }
    assert |block| as real - 2.0 + |x| as real == |x + block| as real - 2.0;
  }

  // Main result: a call clamps no stencil exactly if the loop over the stream keeps to the
  // samples the passes have.
  lemma UnclampedMeans(p: Params, s: LaneState, history: nat, kept: seq<Complex>, x: seq<Complex>, block: seq<Complex>, capacity: nat)
    requires Keeps(kept, x, history) && 4 <= history <= 64 && |block| < 0x4000_0000
    ensures Unclamped(p, s, history, kept, block, capacity) <==> LoopFits(p, Shifted(s, |x| as real), history, x, block, capacity)
  {
    hide Run, AllFit, StreamSignal, DataSignal, Keeps;
    assert |kept| == history by { KeepsLength(kept, x, history); }
    SeamPass(p, s, history, kept, x, block, capacity);
    if |block| > history {
      var seam, start := kept + Head(block, history), Shifted(s, history as real);
      var first := Run(p, start, DataSignal(p.cubic, seam), |seam| as real - 2.0, capacity);
      BlockPass(p, Shifted(first.0, -(history as real)), x, block, capacity - |first.1|);
      assert Shifted(Shifted(first.0, -(history as real)), |x| as real) == Shifted(first.0, |x| as real - history as real);
    }
  }

  lemma KeepsLength(kept: seq<Complex>, x: seq<Complex>, history: nat)
    requires Keeps(kept, x, history)
    ensures |kept| == history
  {
  }

  // ---- Both passes are one loop ----

  // Stopping early at a lower limit and going on is running through.
  lemma RunInTwo(p: Params, s: LaneState, v: Signal, limit: real, later: real, room: nat)
    requires limit <= later
    ensures
      var first := Run(p, s, v, limit, room);
      var second := Run(p, first.0, v, later, room - |first.1|);
      Run(p, s, v, later, room) == (second.0, first.1 + second.1)
  {
    hide Run;
    var n := |Run(p, s, v, limit, room).1|;
    UnusedRoom(p, s, v, limit, room);
    RunThen(p, s, v, limit, n, later, room - n);
  }

  // Main result for one block: however long it is, two passes that clamp nothing give exactly
  // the symbols and the state of the loop over the whole stream, from the lane's current
  // position up to two samples before the end.
  lemma PassesAreOneLoop(p: Params, s: LaneState, history: nat, kept: seq<Complex>, x: seq<Complex>, block: seq<Complex>, capacity: nat)
    requires Keeps(kept, x, history) && 4 <= history <= 64 && |block| < 0x4000_0000
    requires |kept| == history ==> Unclamped(p, s, history, kept, block, capacity)
    ensures |kept| == history
    ensures
      var e := TwoPasses(p, s, history, kept, block, capacity);
      Run(p, Shifted(s, |x| as real), StreamSignal(p.cubic, x + block), |x + block| as real - 2.0, capacity) == (Shifted(e.0, |x| as real), e.1)
  {
    hide Run, AllFit, StreamSignal, DataSignal, Keeps;
    assert |kept| == history by { KeepsLength(kept, x, history); }
    var n, h, head := |x| as real, history as real, Head(block, history);
    var v, start, seam := StreamSignal(p.cubic, x + block), Shifted(s, n), kept + head;
    var limit, later := (|x| + |head|) as real - 2.0, |x + block| as real - 2.0;
    RunInTwo(p, start, v, limit, later, capacity);
    SeamPass(p, s, history, kept, x, block, capacity);
    var first := Run(p, Shifted(s, h), DataSignal(p.cubic, seam), |seam| as real - 2.0, capacity);
    var back := Shifted(first.0, -h);
    assert Shifted(back, n) == Shifted(first.0, n - h);
    if |block| > history {
      BlockPass(p, back, x, block, capacity - |first.1|);
    } else {
      assert limit == later;
    }
  }

  // Main result: as long as no step goes back in time, no stencil is clamped, mid-points
  // included.
  lemma PassesNeverClamp(p: Params, s: LaneState, omegaMax: real, history: nat, kept: seq<Complex>, x: seq<Complex>, block: seq<Complex>, capacity: nat)
    requires Placed(p, s, omegaMax, history, kept, x) && |block| < 0x4000_0000
    requires Forward(p, Shifted(s, |x| as real), StreamSignal(p.cubic, x + block), |x + block| as real - 2.0, capacity)
    ensures |kept| == history >= 4 && Unclamped(p, s, history, kept, block, capacity)
  {
    hide Run, Forward, StreamSignal, DataSignal, HalfCeiling, HistoryLength, AllFit, Keeps, EarliestTime, Unclamped;
    HistoryFits(omegaMax);
    PlacedMeans(p, s, omegaMax, history, kept, x);
    var n, head := |x| as real, Head(block, history);
    var v, start := StreamSignal(p.cubic, x + block), Shifted(s, n);
    var limit, later := (|x| + |head|) as real - 2.0, |x + block| as real - 2.0;
    ForwardInTwo(p, start, v, limit, later, capacity);
    ForwardFits(p, start, v, |x| - history, history + |head|, limit, capacity);
    var first := Run(p, start, v, limit, capacity);
    if |block| > history {
      RunStops(p, start, v, limit, capacity);
      ForwardFits(p, first.0, v, |x|, |block|, later, capacity - |first.1|);
    }
    UnclampedMeans(p, s, history, kept, x, block, capacity);
  }

  lemma {:induction false} ForwardInTwo(p: Params, s: LaneState, v: Signal, limit: real, later: real, room: nat)
    requires limit <= later && Forward(p, s, v, later, room)
    ensures Forward(p, s, v, limit, room)
    ensures
      var first := Run(p, s, v, limit, room);
      Forward(p, first.0, v, later, room - |first.1|)
    decreases room
  {
    hide Next;
    if room > 0 && s.time < limit {
      ForwardInTwo(p, Next(p, s, v), v, limit, later, room - 1);
    }
  }

  // ---- From block to block ----

  // A lane after some blocks: since the anchor state, which is where the lane was at the start
  // of the stream or after the last call that clamped a stencil or moved the lane's time, its
  // symbols are those of one loop.
  ghost predicate LaneValid(p: Params, omegaMax: real, history: nat, s: LaneState, kept: seq<Complex>, x: seq<Complex>,
                            anchor: LaneState, emitted: seq<Complex>)
  {
    && Placed(p, s, omegaMax, history, kept, x) && InBounds(p, anchor) && OneLoop(p, s, x, anchor, emitted)
  }

  ghost predicate OneLoop(p: Params, s: LaneState, x: seq<Complex>, anchor: LaneState, emitted: seq<Complex>)
  {
    Run(p, anchor, StreamSignal(p.cubic, x), |x| as real - 2.0, |emitted|) == (Shifted(s, |x| as real), emitted)
  }

  lemma AnchorHere(p: Params, s: LaneState, x: seq<Complex>)
    ensures OneLoop(p, s, x, Shifted(s, |x| as real), [])
  {
  }

  // What a loop did before later samples arrived it does with them as well.
  lemma LoopOfLonger(p: Params, anchor: LaneState, x: seq<Complex>, y: seq<Complex>, room: nat)
    requires ValidParams(p) && InBounds(p, anchor) && |x| <= |y| && y[..|x|] == x
    ensures Run(p, anchor, StreamSignal(p.cubic, x), |x| as real - 2.0, room) == Run(p, anchor, StreamSignal(p.cubic, y), |x| as real - 2.0, room)
  {
    hide Run, StreamSignal, Agree, SameAlong;
    var v, v', limit := StreamSignal(p.cubic, y), StreamSignal(p.cubic, x), |x| as real - 2.0;
    LaterSamples(p.cubic, x, y, limit);
    AgreeAlong(p, anchor, v, v', limit, room);
    RunShifted(p, anchor, v, v', 0.0, limit, room);
    assert Shifted(anchor, 0.0) == anchor && limit + 0.0 == limit;
    assert Shifted(Run(p, anchor, v, limit, room).0, 0.0) == Run(p, anchor, v, limit, room).0;
  }

  // Main result over whole streams: as long as no call clamps a stencil and the lane's time is
  // not moved, one more block of any length and any capacity keeps all symbols those of one
  // loop over the stream.
  lemma OneLoopGoesOn(p: Params, s: LaneState, omegaMax: real, history: nat, kept: seq<Complex>, x: seq<Complex>, block: seq<Complex>, capacity: nat,
                      anchor: LaneState, emitted: seq<Complex>)
    requires LaneValid(p, omegaMax, history, s, kept, x, anchor, emitted) && |block| < 0x4000_0000
    requires |kept| == history >= 4 ==> Unclamped(p, s, history, kept, block, capacity)
    ensures |kept| == history >= 4
    ensures
      var e := TwoPasses(p, s, history, kept, block, capacity);
      OneLoop(p, Shifted(e.0, -(|block| as real)), x + block, anchor, emitted + e.1)
  {
    hide Run, StreamSignal, Placed, TwoPasses, Unclamped;
    PlacedMeans(p, s, omegaMax, history, kept, x);
    PlacedKeeps(p, s, omegaMax, history, kept, x);
    var e := TwoPasses(p, s, history, kept, block, capacity);
    var y, n, count := x + block, |x| as real, |block| as real;
    var v, early, later := StreamSignal(p.cubic, y), n - 2.0, |y| as real - 2.0;
    LoopOfLonger(p, anchor, x, y, |emitted|);
    PassesAreOneLoop(p, s, history, kept, x, block, capacity);
    UnusedRoom(p, Shifted(s, n), v, later, capacity);
    RunThen(p, anchor, v, early, |emitted|, later, |e.1|);
    assert Shifted(Shifted(e.0, -count), |y| as real) == Shifted(e.0, n);
  }

  lemma PlacedKeeps(p: Params, s: LaneState, omegaMax: real, history: nat, kept: seq<Complex>, x: seq<Complex>)
    requires Placed(p, s, omegaMax, history, kept, x)
    ensures Keeps(kept, x, history) && 12 <= history <= 64 && 1.0 <= omegaMax <= 100.0
  {
    HistoryFits(omegaMax);
  }

  // Once the lane's time has reached the limit nothing is missing: more room gives no more symbols.
  lemma NothingMissing(p: Params, s: LaneState, v: Signal, limit: real, room: nat, more: nat)
    requires |Run(p, s, v, limit, room).1| == room && Run(p, s, v, limit, room).0.time >= limit
    ensures Run(p, s, v, limit, room + more) == Run(p, s, v, limit, room)
  {
    RunThen(p, s, v, limit, room, limit, more);
    assert Run(p, s, v, limit, room).1 + [] == Run(p, s, v, limit, room).1;
  }

  // A capacity of one symbol per step and two more is enough while every step gains at least
  // `gain`; for the lowest omega that is the documented capacity. A lane that was not cut short
  // before is not cut short by the next block.
  lemma CapacitySuffices(p: Params, s: LaneState, history: nat, kept: seq<Complex>, x: seq<Complex>, omegaMax: real, block: seq<Complex>, capacity: nat,
                         gain: real)
    requires Placed(p, s, omegaMax, history, kept, x) && |block| < 0x4000_0000 && s.time >= -2.0 && gain > 0.0
    requires Gains(p, Shifted(s, |x| as real), StreamSignal(p.cubic, x + block), |x + block| as real - 2.0, capacity, gain)
    requires capacity as real >= |block| as real / gain + 2.0
    ensures |kept| == history >= 4
    ensures |TwoPasses(p, s, history, kept, block, capacity).1| < capacity
  {
    hide Run, Forward, StreamSignal, Placed, TwoPasses, Gains, Unclamped;
    PlacedMeans(p, s, omegaMax, history, kept, x);
    PlacedKeeps(p, s, omegaMax, history, kept, x);
    var v, n, later := StreamSignal(p.cubic, x + block), |x| as real, |x + block| as real - 2.0;
    GainsAreForward(p, Shifted(s, n), v, later, capacity, gain);
    PassesNeverClamp(p, s, omegaMax, history, kept, x, block, capacity);
    PassesAreOneLoop(p, s, history, kept, x, block, capacity);
    SymbolsFit(p, Shifted(s, n), v, later, capacity, gain);
    var symbols := |Run(p, Shifted(s, n), v, later, capacity).1|;
    if symbols == capacity {
      QuotientBound(|block| as real, gain, (symbols - 1) as real);
    }
  }

  lemma QuotientBound(count: real, omega: real, k: real)
    requires omega > 0.0 && k >= count / omega
    ensures k * omega >= count
  {
    var q := count / omega;
    assert q * omega == count;
    assert (k - q) * omega >= 0.0;
  }

  lemma {:induction false} GainsAreForward(p: Params, s: LaneState, v: Signal, limit: real, room: nat, gain: real)
    requires gain >= 0.0 && Gains(p, s, v, limit, room, gain)
    ensures Forward(p, s, v, limit, room)
    decreases room
  {
    hide Next;
    if room > 0 && s.time < limit {
      GainsAreForward(p, Next(p, s, v), v, limit, room - 1, gain);
    }
  }
}
