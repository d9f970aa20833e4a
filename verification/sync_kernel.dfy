// The symbol synchronizer of four lanes: creation, execution over blocks, and skipping.
module SyncKernel {
  import opened ComplexNumbers
  import opened IfftTransform
  import opened SyncLoop
  import opened SyncLock
  import opened SyncGeneric
  import opened SyncVector
  import opened SyncStream
  import opened SyncSkip

  // ---- Configuration ----

  datatype LaneConfig = LaneConfig(omega: real, omegaMin: real, omegaMax: real, alpha: real, beta: real)

  datatype Config = Config(cubic: bool, muellerMuller: bool, lanes: seq<LaneConfig>, autoTed: bool, fallback: bool, emaAlpha: real,
                           minSymbols: nat, mmHold: nat, fallbackHold: nat, mmThreshold: real, fallbackThreshold: real)

  predicate ValidLane(l: LaneConfig)
  {
    l.omegaMin >= 1.0 && l.omega >= l.omegaMin && l.omegaMax >= l.omega && l.omegaMax <= 100.0 && l.alpha >= 0.0 && l.beta >= 0.0
  }

  predicate ValidConfig(c: Config)
    requires |c.lanes| == LANES
  {
    && (forall l :: 0 <= l < LANES ==> ValidLane(c.lanes[l]))
    && (c.autoTed && !c.muellerMuller ==> 0.0 < c.emaAlpha < 1.0 && c.mmThreshold >= 0.0 && c.fallbackThreshold >= 0.0)
  }

  // Automatic switching applies to lanes that start with the Gardner detector.
  function LockParamsOf(c: Config): LockParams
  {
    var auto := c.autoTed && !c.muellerMuller;
    LockParams(auto, auto && c.fallback, c.emaAlpha, c.minSymbols, HoldCount(c.mmHold), HoldCount(c.fallbackHold), c.mmThreshold, c.fallbackThreshold)
  }

  function ParamsOf(c: Config, l: nat): Params
    requires l < |c.lanes|
  {
    var lane := c.lanes[l];
    Params(c.cubic, lane.omegaMin, lane.omegaMax, lane.alpha, lane.beta, LockParamsOf(c))
  }

  // A loop that runs with the configured values. A hold count of zero means never, and only a
  // lane configured with the Gardner detector switches by itself.
  predicate Configured(c: Config, l: nat, p: Params)
    requires l < |c.lanes|
  {
    var lane := c.lanes[l];
    && p.cubic == c.cubic && p.omegaMin == lane.omegaMin && p.omegaMax == lane.omegaMax && p.alpha == lane.alpha && p.beta == lane.beta
    && p.lock.autoTed == (c.autoTed && !c.muellerMuller) && p.lock.fallback == (p.lock.autoTed && c.fallback)
    && p.lock.emaAlpha == c.emaAlpha && p.lock.minSymbols == c.minSymbols
    && p.lock.mmThreshold == c.mmThreshold && p.lock.fallbackThreshold == c.fallbackThreshold
    && p.lock.mmHold == (if c.mmHold == 0 then Never else After(c.mmHold))
    && p.lock.fallbackHold == (if c.fallbackHold == 0 then Never else After(c.fallbackHold))
  }

  lemma ParamsAreConfigured(c: Config, l: nat)
    requires l < |c.lanes|
    ensures Configured(c, l, ParamsOf(c, l))
    ensures InitialLane(c, l) == LaneState(1.0, c.lanes[l].omega, Complex(0.0, 0.0), false, 0, Lock(0.0, 0, 0, c.muellerMuller, 0))
  {
  }

  // The first symbol sits one sample into the stream, where the cubic stencil starts.
  function InitialLane(c: Config, l: nat): LaneState
    requires l < |c.lanes|
  {
    LaneState(1.0, c.lanes[l].omega, ZERO, false, 0, Lock(0.0, 0, 0, c.muellerMuller, 0))
  }

  function Longest(c: Config): real
    requires |c.lanes| == LANES
  {
    Max(Max(c.lanes[0].omegaMax, c.lanes[1].omegaMax), Max(c.lanes[2].omegaMax, c.lanes[3].omegaMax))
  }

  lemma LongestBounds(c: Config)
    requires |c.lanes| == LANES && ValidConfig(c)
    ensures 1.0 <= Longest(c) <= 100.0 && forall l :: 0 <= l < LANES ==> c.lanes[l].omegaMax <= Longest(c)
    ensures forall l :: 0 <= l < LANES ==> ValidParams(ParamsOf(c, l))
    ensures 12 <= HistoryLength(Longest(c)) <= 64
  {
    HistoryFits(Longest(c));
  }

  // The history has room for half a symbol of the lane and eight samples more, and from the
  // earliest time half a symbol back lies four samples inside it.
  predicate HoldsHalf(lane: LaneConfig, history: nat, earliest: real)
  {
    0.5 * lane.omegaMax + 8.0 <= history as real && 0.5 * lane.omegaMax <= earliest + history as real - 4.0
  }

  // No smaller multiple of four would do, and no earlier whole time.
  predicate NoMoreThanHalf(lane: LaneConfig, history: nat, earliest: real)
  {
    history as real < 0.5 * lane.omegaMax + 12.0 && earliest + history as real - 4.0 < 0.5 * lane.omegaMax + 1.0
  }

  lemma LongestIsHeld(c: Config)
    requires |c.lanes| == LANES && ValidConfig(c)
    ensures HistoryLength(Longest(c)) >= 0
    ensures forall l :: 0 <= l < LANES ==> HoldsHalf(c.lanes[l], HistoryLength(Longest(c)), EarliestTime(Longest(c)))
    ensures exists l :: 0 <= l < LANES && NoMoreThanHalf(c.lanes[l], HistoryLength(Longest(c)), EarliestTime(Longest(c)))
  {
    hide HistoryLength, EarliestTime;
    LongestBounds(c);
    HistoryIsLeast(Longest(c));
    assert Longest(c) == c.lanes[0].omegaMax || Longest(c) == c.lanes[1].omegaMax ||
           Longest(c) == c.lanes[2].omegaMax || Longest(c) == c.lanes[3].omegaMax;
  }

  function NoSamples(history: nat): (kept: seq<Complex>)
    ensures |kept| == history
  {
    seq(history, _ => ZERO)
  }

  lemma FreshLane(c: Config, l: nat, history: nat)
    requires |c.lanes| == LANES && ValidConfig(c) && l < LANES && history == HistoryLength(Longest(c))
    ensures LaneValid(ParamsOf(c, l), Longest(c), history, InitialLane(c, l), NoSamples(history), [], InitialLane(c, l), [])
  {
    hide HistoryLength, HalfCeiling;
    LongestBounds(c);
    HistoryFits(Longest(c));
    AnchorHere(ParamsOf(c, l), InitialLane(c, l), []);
    assert Shifted(InitialLane(c, l), 0.0) == InitialLane(c, l);
  }

  // ---- One lane of a call ----

  function SeamSegment(kept: seq<Complex>, block: seq<Complex>, history: nat, capacity: nat): Segment
  {
    var seam := kept + Head(block, history);
    Segment(seam, Until(|seam| as real - 2.0), capacity, [])
  }

  // The second pass runs over the block, or nowhere when the block fitted into the seam.
  function BlockSegment(before: Segment, block: seq<Complex>, history: nat): Segment
  {
    if |block| > history then before.(data := block, limit := Until(|block| as real - 2.0)) else before.(limit := Idle)
  }

  // Two passes in a row are the two passes of the specification.
  lemma PassesInARow(p: Params, s: LaneState, history: nat, kept: seq<Complex>, block: seq<Complex>, capacity: nat)
    requires |kept| == history >= 4
    ensures ValidSegment(SeamSegment(kept, block, history, capacity))
    ensures
      var seam := SeamSegment(kept, block, history, capacity);
      var first := Pass(p, Shifted(s, history as real), seam);
      var next := BlockSegment(seam.(output := first.1), block, history);
      && ValidSegment(next)
      && var second := Pass(p, Shifted(first.0, -(history as real)), next);
         (second.0, first.1 + second.1) == TwoPasses(p, s, history, kept, block, capacity)
  {
    hide Run;
    var seam := SeamSegment(kept, block, history, capacity);
    var first := Pass(p, Shifted(s, history as real), seam);
    assert first.1 + [] == first.1;
  }

  // The lane's time after a call: a truncated lane, or one that stepped backwards, must not
  // need samples that are no longer kept.
  function Rebased(s: LaneState, count: nat, earliest: real): LaneState { s.(time := Max(s.time - count as real, earliest)) }

  predicate Truncated(s: LaneState, output: seq<Complex>, count: nat, capacity: nat)
  {
    |output| == capacity && s.time < count as real - 2.0
  }

  // What a call promises of one lane. The outcome is that of the two passes, its time moved
  // up to the earliest the kept history allows. While no stencil is clamped the passes are
  // the loop over the stream. Time is skipped exactly where the loop stopped before that
  // earliest time, which takes a truncated lane.
  ghost predicate LaneDone(p: Params, omegaMax: real, history: nat, s: LaneState, kept: seq<Complex>, x: seq<Complex>,
                           anchor: LaneState, emitted: seq<Complex>, block: seq<Complex>, capacity: nat,
                           s': LaneState, anchor': LaneState, emitted': seq<Complex>, output: seq<Complex>, truncated: bool)
  {
    && |kept| == history >= 4
    && var e, run := TwoPasses(p, s, history, kept, block, capacity), StreamRun(p, s, x, block, capacity);
       var clean, inside := Unclamped(p, s, history, kept, block, capacity), e.0.time - |block| as real >= EarliestTime(omegaMax);
       && output == e.1 && |output| <= capacity && InBounds(p, s') && s'.symbols == s.symbols + |output|
       && s' == e.0.(time := s'.time) && s'.time == (if inside then e.0.time - |block| as real else EarliestTime(omegaMax))
       && (clean ==> output == run.1 && s' == run.0.(time := s'.time) && (inside ==> s'.time == run.0.time - |x + block| as real))
       && (truncated <==> |output| == capacity && s'.time < -2.0) && (!inside ==> truncated)
       && (if clean && inside then anchor' == anchor && emitted' == emitted + output
           else anchor' == Shifted(s', |x + block| as real) && emitted' == [])
  }

  // The loop over the stream from the lane's position on.
  function StreamRun(p: Params, s: LaneState, x: seq<Complex>, block: seq<Complex>, capacity: nat): (LaneState, seq<Complex>)
  {
    Run(p, Shifted(s, |x| as real), StreamSignal(p.cubic, x + block), |x + block| as real - 2.0, capacity)
  }

  lemma LaneCall(p: Params, omegaMax: real, history: nat, s: LaneState, kept: seq<Complex>, x: seq<Complex>, anchor: LaneState, emitted: seq<Complex>,
                 block: seq<Complex>, capacity: nat) returns (anchor': LaneState, emitted': seq<Complex>)
    requires LaneValid(p, omegaMax, history, s, kept, x, anchor, emitted) && |block| < 0x4000_0000
    ensures |kept| == history >= 4
    ensures
      var e := TwoPasses(p, s, history, kept, block, capacity);
      var s' := Rebased(e.0, |block|, EarliestTime(omegaMax));
      && LaneValid(p, omegaMax, history, s', KeptAfter(kept, block, history), x + block, anchor', emitted')
      && LaneDone(p, omegaMax, history, s, kept, x, anchor, emitted, block, capacity, s', anchor', emitted', e.1,
                  Truncated(e.0, e.1, |block|, capacity))
  {
    hide Run, StreamSignal, TwoPasses, HalfCeiling, HistoryLength, OneLoop, Keeps, EarliestTime, KeptAfter, Unclamped;
    PlacedMeans(p, s, omegaMax, history, kept, x);
    PlacedKeeps(p, s, omegaMax, history, kept, x);
    HistoryFits(omegaMax);
    var earliest, n := EarliestTime(omegaMax), |x| as real;
    var e := TwoPasses(p, s, history, kept, block, capacity);
    var s' := Rebased(e.0, |block|, earliest);
    PassesStop(p, s, history, kept, block, capacity);
    KeptAfterKeeps(kept, x, block, history);
    anchor', emitted' := Shifted(s', |x + block| as real), [];
    AnchorHere(p, s', x + block);
    if Unclamped(p, s, history, kept, block, capacity) {
      PassesAreOneLoop(p, s, history, kept, x, block, capacity);
      assert Shifted(Shifted(e.0, n), -n) == e.0;
      if e.0.time - |block| as real >= earliest {
        OneLoopGoesOn(p, s, omegaMax, history, kept, x, block, capacity, anchor, emitted);
        anchor', emitted' := anchor, emitted + e.1;
      }
    }
  }

  // Main result on full outputs: as long as the lane's time is not moved, a call that stopped
  // for lack of room drops nothing. A further call without samples goes on where it stopped,
  // and together they give what one call with the room of both would have given.
  lemma TruncationDefers(p: Params, s: LaneState, omegaMax: real, history: nat, kept: seq<Complex>, x: seq<Complex>, block: seq<Complex>, a: nat, b: nat)
    requires Placed(p, s, omegaMax, history, kept, x) && |block| < 0x4000_0000 && |kept| == history >= 4
    requires Unclamped(p, s, history, kept, block, a)
    requires
      var first := TwoPasses(p, s, history, kept, block, a);
      var s' := Rebased(first.0, |block|, EarliestTime(omegaMax));
      && |first.1| == a && s'.time == first.0.time - |block| as real
      && Unclamped(p, s', history, KeptAfter(kept, block, history), [], b)
    ensures
      var first := TwoPasses(p, s, history, kept, block, a);
      var s' := Rebased(first.0, |block|, EarliestTime(omegaMax));
      var second := TwoPasses(p, s', history, KeptAfter(kept, block, history), [], b);
      StreamRun(p, s, x, block, a + b) == (Shifted(second.0, |x + block| as real), first.1 + second.1)
  {
    hide Run, StreamSignal, TwoPasses, Keeps, KeptAfter, Unclamped, EarliestTime, HistoryLength;
    PlacedKeeps(p, s, omegaMax, history, kept, x);
    KeptAfterKeeps(kept, x, block, history);
    var first := TwoPasses(p, s, history, kept, block, a);
    var s' := Rebased(first.0, |block|, EarliestTime(omegaMax));
    var v, limit := StreamSignal(p.cubic, x + block), |x + block| as real - 2.0;
    PassesAreOneLoop(p, s, history, kept, x, block, a);
    PassesAreOneLoop(p, s', history, KeptAfter(kept, block, history), x + block, [], b);
    assert x + block + [] == x + block;
    RunThen(p, Shifted(s, |x| as real), v, limit, a, limit, b);
    assert Shifted(s', |x + block| as real) == Shifted(first.0, |x| as real);
  }

  // A call whose output has no room: the symbol inside the block comes out of the next call,
  // which brings no samples. The documentation has it dropped.
  lemma TruncatedSymbolComesLater(lock: LockParams)
    ensures
      var p, s := Params(false, 2.0, 2.0, 0.0, 0.0, lock), LaneState(1.0, 2.0, ZERO, false, 0, Lock(0.0, 0, 0, false, 0));
      var kept, block := NoSamples(12), [ZERO, ONE, ZERO, ZERO];
      var first := TwoPasses(p, s, 12, kept, block, 0);
      var s' := Rebased(first.0, |block|, EarliestTime(2.0));
      && HistoryLength(2.0) == 12 && Truncated(first.0, first.1, |block|, 0) && first.1 == []
      && TwoPasses(p, s', 12, KeptAfter(kept, block, 12), [], 1).1 == [ONE]
  {
    hide Step;
    var p, s := Params(false, 2.0, 2.0, 0.0, 0.0, lock), LaneState(1.0, 2.0, ZERO, false, 0, Lock(0.0, 0, 0, false, 0));
    var kept, block := NoSamples(12), [ZERO, ONE, ZERO, ZERO];
    var first := TwoPasses(p, s, 12, kept, block, 0);
    assert Shifted(Shifted(s, 12.0), -12.0) == s;
    assert first == (s, []);
    assert HalfCeiling(2.0) == 1;
    assert EarliestTime(2.0) == -7.0;
    var s' := Rebased(first.0, |block|, EarliestTime(2.0));
    assert s' == s.(time := -3.0);
    var after := KeptAfter(kept, block, 12);
    assert after[9] == ONE;
    var seam := after + Head([], 12);
    assert seam == after;
    OneSymbol(p, Shifted(s', 12.0), seam);
  }

  lemma OneSymbol(p: Params, s: LaneState, data: seq<Complex>)
    requires !p.cubic && |data| == 12 && s.time == 9.0
    ensures Run(p, s, DataSignal(p.cubic, data), 10.0, 1).1 == [data[9]]
  {
    hide Next;
    assert (9.0).Floor == 9 && TruncateToInt32(9.0) == 9 && StencilIndex(12, 9.0) == 9 && Fraction(9.0) == 0.0;
    assert Run(p, Next(p, s, DataSignal(p.cubic, data)), DataSignal(p.cubic, data), 10.0, 0).1 == [];
  }

  // Detector switches over all calls since the anchor, however the stream was split: the run
  // counters carry over, so they are paid for in symbols just as in one run.
  lemma LaneSwitchesArePaid(p: Params, omegaMax: real, history: nat, s: LaneState, kept: seq<Complex>, x: seq<Complex>,
                            anchor: LaneState, emitted: seq<Complex>, hold: nat)
    requires LaneValid(p, omegaMax, history, s, kept, x, anchor, emitted) && HoldsAtLeast(p.lock, hold)
    ensures s.lock.switches >= anchor.lock.switches
    ensures hold * (s.lock.switches - anchor.lock.switches) <= RunOf(anchor.lock) + |emitted|
  {
    hide Run, StreamSignal, Placed, HoldsAtLeast, RunOf;
    RunSwitches(p, anchor, StreamSignal(p.cubic, x), |x| as real - 2.0, |emitted|, hold);
  }

  // What a skip does to one lane: it moves on by whole steps of omega to the first at or after
  // the end of the block, counts them as symbols and forgets the previous one, and keeps the
  // last samples.
  ghost predicate LaneSkipped(history: nat, s: LaneState, kept: seq<Complex>, block: seq<Complex>, s': LaneState, kept': seq<Complex>)
  {
    var steps := s'.symbols - s.symbols;
    && s' == s.(time := s'.time, symbols := s'.symbols, havePrevious := false)
    && steps >= 0 && s'.time == s.time + steps as real * s.omega - |block| as real
    && s'.time >= 0.0 && (steps > 0 ==> s'.time < s.omega)
    && |kept| == |kept'| == history && forall j :: 0 <= j < history ==> kept'[j] == (kept + block)[|block| + j]
  }

  lemma SkipMeans(history: nat, earliest: real, s: LaneState, kept: seq<Complex>, block: seq<Complex>)
    requires |kept| == history && s.omega >= 1.0 && earliest <= 0.0
    ensures LaneSkipped(history, s, kept, block, SkipLane(s, |block|, earliest), KeptAfter(kept, block, history))
  {
    hide Periods, Coasted;
    var end := |block| as real;
    var k := Coasted(s.time, s.omega, end);
    FirstAtOrAfter(s.time, s.omega, end);
    assert OnGrid(s.time, s.omega, k) >= end;
    var after := OnGrid(s.time, s.omega, k) - end;
    assert SkipLane(s, |block|, earliest) == s.(time := after, symbols := s.symbols + k, havePrevious := false);
    StepsFromGrid(s.time, s.omega, k);
    forall j | 0 <= j < history ensures KeptAfter(kept, block, history)[j] == (kept + block)[|block| + j] {
    }
  }

  // A grid point lies whole steps of omega ahead, one omega after the point before it.
  lemma StepsFromGrid(time: real, omega: real, k: int)
    ensures OnGrid(time, omega, k) == time + k as real * omega
    ensures OnGrid(time, omega, k) == OnGrid(time, omega, k - 1) + omega
  {
    assert k as real * omega == (k - 1) as real * omega + omega;
  }

  // A skipped block moves the lane onto its coasting grid and starts a new anchor there.
  lemma LaneSkip(p: Params, omegaMax: real, history: nat, s: LaneState, kept: seq<Complex>, x: seq<Complex>, anchor: LaneState, emitted: seq<Complex>,
                 block: seq<Complex>) returns (anchor': LaneState)
    requires LaneValid(p, omegaMax, history, s, kept, x, anchor, emitted)
    ensures |kept| == history && s.omega >= 1.0
    ensures
      var s' := SkipLane(s, |block|, EarliestTime(omegaMax));
      && LaneValid(p, omegaMax, history, s', KeptAfter(kept, block, history), x + block, anchor', [])
      && LaneSkipped(history, s, kept, block, s', KeptAfter(kept, block, history))
      && anchor' == Shifted(s', |x + block| as real)
  {
    hide Run, Forward, StreamSignal, HalfCeiling, HistoryLength, OneLoop, Keeps, EarliestTime, KeptAfter, Coasted, OnGrid, LaneSkipped;
    PlacedMeans(p, s, omegaMax, history, kept, x);
    HistoryFits(omegaMax);
    var s' := SkipLane(s, |block|, EarliestTime(omegaMax));
    SkipEndsInside(s, |block|, EarliestTime(omegaMax));
    SkipMeans(history, EarliestTime(omegaMax), s, kept, block);
    KeptAfterKeeps(kept, x, block, history);
    anchor' := Shifted(s', |x + block| as real);
    AnchorHere(p, s', x + block);
  }

  // ---- The kernel ----

  class Kernel {
    const config: Config
    const vector: bool
    const params: seq<Params>
    const history: nat
    const earliest: real
    var state: array<LaneState>
    var kept: array<seq<Complex>>
    ghost var streams: seq<seq<Complex>>
    ghost var anchors: seq<LaneState>
    ghost var emitted: seq<seq<Complex>>

    ghost predicate Shape()
      reads this
    {
      && |config.lanes| == LANES && ValidConfig(config)
      && |params| == LANES && (forall l :: 0 <= l < LANES ==> params[l] == ParamsOf(config, l))
      && history == HistoryLength(Longest(config)) && earliest == EarliestTime(Longest(config))
      && state.Length == LANES && kept.Length == LANES && |streams| == LANES && |anchors| == LANES && |emitted| == LANES
    }

    // Every lane's symbols since its anchor are those of one loop over its whole stream.
    ghost predicate Valid()
      reads this, state, kept
    {
      && Shape()
      && forall l :: 0 <= l < LANES ==>
           LaneValid(params[l], Longest(config), history, state[l], kept[l], streams[l], anchors[l], emitted[l])
    }

    // Every lane at the start of its stream: the first symbol due at time 1 with the configured
    // omega, no previous symbol, the configured detector, and silence before it.
    ghost predicate AtStart()
      requires Shape()
      reads this, state, kept
    {
      forall l :: 0 <= l < LANES ==>
        && state[l] == LaneState(1.0, config.lanes[l].omega, Complex(0.0, 0.0), false, 0, Lock(0.0, 0, 0, config.muellerMuller, 0))
        && anchors[l] == state[l] && streams[l] == [] && emitted[l] == []
        && |kept[l]| == history && forall j :: 0 <= j < history ==> kept[l][j] == Complex(0.0, 0.0)
    }

    constructor (config: Config, vector: bool)
      requires |config.lanes| == LANES && ValidConfig(config)
      ensures Valid() && fresh(state) && fresh(kept)
      ensures this.config == config && this.vector == vector
      ensures AtStart() && forall l :: 0 <= l < LANES ==> Configured(config, l, params[l])
      ensures history % 4 == 0 && earliest == earliest.Floor as real
      ensures forall l :: 0 <= l < LANES ==> HoldsHalf(config.lanes[l], history, earliest)
      ensures exists l :: 0 <= l < LANES && NoMoreThanHalf(config.lanes[l], history, earliest)
    {
      hide HistoryLength, HalfCeiling, EarliestTime, LaneValid, ValidParams, Longest, HoldsHalf, NoMoreThanHalf, ParamsOf, Configured, InitialLane, ValidConfig;
      LongestBounds(config);
      HistoryIsLeast(Longest(config));
      LongestIsHeld(config);
      var length: nat := HistoryLength(Longest(config));
      this.config, this.vector := config, vector;
      params := seq(LANES, l requires 0 <= l < LANES && |config.lanes| == LANES => ParamsOf(config, l));
      history, earliest := length, EarliestTime(Longest(config));
      state := new LaneState[LANES](l requires 0 <= l < LANES && |config.lanes| == LANES => InitialLane(config, l));
      kept := new seq<Complex>[LANES](_ => NoSamples(length));
      streams, emitted := seq(LANES, _ => []), seq(LANES, _ => []);
      anchors := seq(LANES, l requires 0 <= l < LANES && |config.lanes| == LANES => InitialLane(config, l));
      new;
      forall l | 0 <= l < LANES
        ensures LaneValid(params[l], Longest(config), history, state[l], kept[l], streams[l], anchors[l], emitted[l])
        ensures Configured(config, l, params[l])
        ensures state[l] == LaneState(1.0, config.lanes[l].omega, Complex(0.0, 0.0), false, 0, Lock(0.0, 0, 0, config.muellerMuller, 0))
      {
        ParamsAreConfigured(config, l);
        FreshLane(config, l, length);
      }
    }

    // Back to the initial state, with silence in front of the stream.
    method Reset()
      requires Shape()
      modifies this`streams, this`anchors, this`emitted, state, kept
      ensures Valid() && AtStart()
    {
      hide HistoryLength, HalfCeiling, LaneValid, ValidParams, ValidConfig;
      for lane := 0 to LANES
        modifies state, kept
        invariant forall l :: 0 <= l < lane ==> state[l] == InitialLane(config, l) && kept[l] == NoSamples(history)
      {
        state[lane] := InitialLane(config, lane);
        kept[lane] := NoSamples(history);
      }
      streams, emitted := [[], [], [], []], [[], [], [], []];
      anchors := [InitialLane(config, 0), InitialLane(config, 1), InitialLane(config, 2), InitialLane(config, 3)];
      forall l | 0 <= l < LANES
        ensures LaneValid(params[l], Longest(config), history, state[l], kept[l], streams[l], anchors[l], emitted[l])
      {
        FreshLane(config, l, history);
      }
    }

    // Either backend, over one pass.
    method RunPass(segments: array<Segment>)
      requires Shape() && segments.Length == LANES
      requires forall l :: 0 <= l < LANES ==> ValidSegment(segments[l])
      requires forall l :: 0 <= l < LANES ==> VectorSegment(segments[l]) && InBounds(params[l], state[l])
      modifies state, segments
      ensures forall l :: 0 <= l < LANES ==>
        var pass := Pass(params[l], old(state[l]), old(segments[l]));
        && state[l] == pass.0 && segments[l] == old(segments[l]).(output := old(segments[l]).output + pass.1)
    {
      hide HistoryLength, HalfCeiling, LaneValid, Pass;
      LongestBounds(config);
      if vector {
        RunVector(params, state, segments);
      } else {
        RunGeneric(params, state, segments);
      }
    }

    // The seam of every lane, and its time counted from the start of the seam.
    method PrepareSeam(blocks: seq<seq<Complex>>, capacities: seq<nat>) returns (segments: array<Segment>)
      requires Shape() && |blocks| == LANES && |capacities| == LANES
      modifies state
      ensures fresh(segments) && segments.Length == LANES
      ensures forall l :: 0 <= l < LANES ==> segments[l] == SeamSegment(kept[l], blocks[l], history, capacities[l])
      ensures forall l :: 0 <= l < LANES ==> state[l] == Shifted(old(state[l]), history as real)
    {
      segments := new Segment[LANES](_ => Segment([], Idle, 0, []));
      for lane := 0 to LANES
        invariant forall l :: 0 <= l < lane ==> segments[l] == SeamSegment(kept[l], blocks[l], history, capacities[l])
        invariant forall l :: 0 <= l < lane ==> state[l] == Shifted(old(state[l]), history as real)
        invariant forall l :: lane <= l < LANES ==> state[l] == old(state[l])
      {
        segments[lane] := SeamSegment(kept[lane], blocks[lane], history, capacities[lane]);
        state[lane] := Shifted(state[lane], history as real);
      }
    }

    // The block itself; lanes whose block fitted into the seam stay idle.
    method PrepareBlock(blocks: seq<seq<Complex>>, segments: array<Segment>)
      requires Shape() && |blocks| == LANES && segments.Length == LANES
      modifies state, segments
      ensures forall l :: 0 <= l < LANES ==> segments[l] == BlockSegment(old(segments[l]), blocks[l], history)
      ensures forall l :: 0 <= l < LANES ==> state[l] == Shifted(old(state[l]), -(history as real))
    {
      for lane := 0 to LANES
        invariant forall l :: 0 <= l < lane ==> segments[l] == BlockSegment(old(segments[l]), blocks[l], history)
        invariant forall l :: 0 <= l < lane ==> state[l] == Shifted(old(state[l]), -(history as real))
        invariant forall l :: lane <= l < LANES ==> state[l] == old(state[l]) && segments[l] == old(segments[l])
      {
        state[lane] := Shifted(state[lane], -(history as real));
        segments[lane] := BlockSegment(segments[lane], blocks[lane], history);
      }
    }

    // Both passes over every lane.
    method RunPasses(blocks: seq<seq<Complex>>, capacities: seq<nat>) returns (segments: array<Segment>)
      requires Valid() && |blocks| == LANES && |capacities| == LANES
      requires forall l :: 0 <= l < LANES ==> |blocks[l]| < 0x4000_0000
      modifies state
      ensures fresh(segments) && segments.Length == LANES
      ensures history >= 4 && forall l :: 0 <= l < LANES ==> |kept[l]| == history
      ensures forall l :: 0 <= l < LANES ==>
        (state[l], segments[l].output) == TwoPasses(params[l], old(state[l]), history, kept[l], blocks[l], capacities[l])
    {
      hide HistoryLength, HalfCeiling, LaneValid, TwoPasses, Pass, VectorSegment, ValidParams, SeamSegment, BlockSegment, ValidSegment, ValidConfig;
      LongestBounds(config);
      assert history >= 12;
      forall l | 0 <= l < LANES ensures |kept[l]| == history && InBounds(params[l], state[l]) {
        LaneBasics(params[l], Longest(config), history, state[l], kept[l], streams[l], anchors[l], emitted[l]);
      }
      segments := PrepareSeam(blocks, capacities);
      forall l | 0 <= l < LANES ensures ValidSegment(segments[l]) && VectorSegment(segments[l]) {
        SeamIsVector(kept[l], blocks[l], history, capacities[l]);
      }
      label Seam:
      RunPass(segments);
      forall l | 0 <= l < LANES
        ensures InBounds(params[l], state[l])
        ensures ValidSegment(BlockSegment(segments[l], blocks[l], history)) && VectorSegment(BlockSegment(segments[l], blocks[l], history))
        ensures BlockSegment(segments[l], blocks[l], history).output == segments[l].output
        ensures
          var next := BlockSegment(segments[l], blocks[l], history);
          var second := Pass(params[l], Shifted(state[l], -(history as real)), next);
          (second.0, segments[l].output + second.1) == TwoPasses(params[l], old(state[l]), history, kept[l], blocks[l], capacities[l])
      {
        SecondPass(params[l], old(state[l]), history, kept[l], blocks[l], capacities[l]);
      }
      PrepareBlock(blocks, segments);
      RunPass(segments);
    }

    // Keeps the tail of every lane and moves its time to the next block.
    method Finish(blocks: seq<seq<Complex>>, capacities: seq<nat>, segments: array<Segment>, ghost before: seq<LaneState>)
      returns (outputs: seq<seq<Complex>>, truncated: seq<bool>, ghost anchors': seq<LaneState>, ghost emitted': seq<seq<Complex>>)
      requires Shape() && |blocks| == LANES && |capacities| == LANES && segments.Length == LANES && |before| == LANES
      requires forall l :: 0 <= l < LANES ==> |blocks[l]| <= MAX_COUNT
      requires history >= 4 && forall l :: 0 <= l < LANES ==> |kept[l]| == history
      requires forall l :: 0 <= l < LANES ==>
        && LaneValid(params[l], Longest(config), history, before[l], kept[l], streams[l], anchors[l], emitted[l])
        && (state[l], segments[l].output) == TwoPasses(params[l], before[l], history, kept[l], blocks[l], capacities[l])
      modifies state, kept
      ensures |outputs| == |truncated| == |anchors'| == |emitted'| == LANES
      ensures forall l :: 0 <= l < LANES ==>
        && LaneValid(params[l], Longest(config), history, state[l], kept[l], streams[l] + blocks[l], anchors'[l], emitted'[l])
        && LaneDone(params[l], Longest(config), history, before[l], old(kept[l]), streams[l], anchors[l], emitted[l], blocks[l], capacities[l],
                    state[l], anchors'[l], emitted'[l], outputs[l], truncated[l])
    {
      hide HistoryLength, HalfCeiling, LaneValid, LaneDone, TwoPasses, Truncated, Rebased, KeptAfter, ValidConfig, ParamsOf;
      LongestBounds(config);
      ghost var first, tails := state[..], kept[..];
      outputs, truncated, anchors', emitted' := [], [], [], [];
      for lane := 0 to LANES
        modifies state, kept
        invariant |outputs| == |truncated| == |anchors'| == |emitted'| == lane
        invariant forall l :: lane <= l < LANES ==> kept[l] == tails[l] && state[l] == first[l]
        invariant forall l :: 0 <= l < lane ==>
          && LaneValid(params[l], Longest(config), history, state[l], kept[l], streams[l] + blocks[l], anchors'[l], emitted'[l])
          && LaneDone(params[l], Longest(config), history, before[l], tails[l], streams[l], anchors[l], emitted[l], blocks[l], capacities[l],
                      state[l], anchors'[l], emitted'[l], outputs[l], truncated[l])
      {
        ghost var a, e := LaneCall(params[lane], Longest(config), history, before[lane], kept[lane], streams[lane], anchors[lane], emitted[lane],
                                   blocks[lane], capacities[lane]);
        var count := |blocks[lane]|;
        kept[lane] := KeptAfter(kept[lane], blocks[lane], history);
        truncated := truncated + [Truncated(state[lane], segments[lane].output, count, capacities[lane])];
        outputs := outputs + [segments[lane].output];
        state[lane] := Rebased(state[lane], count, earliest);
        anchors', emitted' := anchors' + [a], emitted' + [e];
      }
    }

    // One block of each lane. The counts must fit 32-bit arithmetic.
    method Execute(blocks: seq<seq<Complex>>, capacities: seq<nat>) returns (accepted: bool, outputs: seq<seq<Complex>>, truncated: seq<bool>)
      requires Valid() && |blocks| == LANES && |capacities| == LANES
      modifies this`streams, this`anchors, this`emitted, state, kept
      ensures Valid()
      ensures accepted <==> forall l :: 0 <= l < LANES ==> |blocks[l]| <= 0x3FFF_FFFF && capacities[l] <= 0x3FFF_FFFF
      ensures !accepted ==> state[..] == old(state[..]) && kept[..] == old(kept[..]) && streams == old(streams)
      ensures accepted ==> |outputs| == LANES && |truncated| == LANES && forall l :: 0 <= l < LANES ==>
        && streams[l] == old(streams[l]) + blocks[l]
        && LaneDone(params[l], Longest(config), history, old(state[l]), old(kept[l]), old(streams[l]), old(anchors[l]), old(emitted[l]), blocks[l], capacities[l],
                    state[l], anchors[l], emitted[l], outputs[l], truncated[l])
    {
      hide HistoryLength, HalfCeiling, LaneValid, LaneDone, TwoPasses, ValidConfig, ParamsOf;
      outputs, truncated := [], [];
      accepted := CountsFit(blocks, capacities);
      if accepted {
        ghost var before := state[..];
        var segments := RunPasses(blocks, capacities);
        ghost var anchors', emitted';
        outputs, truncated, anchors', emitted' := Finish(blocks, capacities, segments, before);
        streams := [streams[0] + blocks[0], streams[1] + blocks[1], streams[2] + blocks[2], streams[3] + blocks[3]];
        anchors, emitted := anchors', emitted';
      }
    }

    // Coasting of the lanes themselves.
    method SkipLanes(blocks: seq<seq<Complex>>) returns (ghost anchors': seq<LaneState>)
      requires Valid() && |blocks| == LANES
      modifies state, kept
      ensures |anchors'| == LANES
      ensures forall l :: 0 <= l < LANES ==>
        && LaneValid(params[l], Longest(config), history, state[l], kept[l], streams[l] + blocks[l], anchors'[l], [])
        && LaneSkipped(history, old(state[l]), old(kept[l]), blocks[l], state[l], kept[l])
    {
      hide HistoryLength, HalfCeiling, LaneValid, LaneSkipped, KeptAfter, SkipLane, ValidConfig, ParamsOf, EarliestTime, Longest;
      LongestBounds(config);
      anchors' := [];
      for lane := 0 to LANES
        modifies state, kept
        invariant |anchors'| == lane
        invariant forall l :: lane <= l < LANES ==> kept[l] == old(kept[l]) && state[l] == old(state[l])
        invariant forall l :: 0 <= l < lane ==>
          && LaneValid(params[l], Longest(config), history, state[l], kept[l], streams[l] + blocks[l], anchors'[l], [])
          && LaneSkipped(history, old(state[l]), old(kept[l]), blocks[l], state[l], kept[l])
      {
        ghost var a := LaneSkip(params[lane], Longest(config), history, state[lane], kept[lane], streams[lane], anchors[lane], emitted[lane], blocks[lane]);
        var s, tail := SkipLane(state[lane], |blocks[lane]|, earliest), KeptAfter(kept[lane], blocks[lane], history);
        state[lane], kept[lane] := s, tail;
        anchors' := anchors' + [a];
      }
    }

    // Lets every lane coast over a block without producing symbols.
    method Skip(blocks: seq<seq<Complex>>)
      requires Valid() && |blocks| == LANES
      modifies this`streams, this`anchors, this`emitted, state, kept
      ensures Valid()
      ensures forall l :: 0 <= l < LANES ==>
        && streams[l] == old(streams[l]) + blocks[l]
        && LaneSkipped(history, old(state[l]), old(kept[l]), blocks[l], state[l], kept[l])
    {
      hide HistoryLength, HalfCeiling, LaneValid, LaneSkipped, ValidConfig, ParamsOf, EarliestTime, Longest;
      ghost var anchors' := SkipLanes(blocks);
      streams := [streams[0] + blocks[0], streams[1] + blocks[1], streams[2] + blocks[2], streams[3] + blocks[3]];
      anchors, emitted := anchors', [[], [], [], []];
    }
  }

  datatype Outcome = Accepted(kernel: Kernel) | Rejected

  // Creation: rejected unless every lane has 1 <= omega_min <= omega <= omega_max <= 100 and
  // gains that are not negative, and automatic switching an average and thresholds it can use.
  method Initialize(config: Config, vector: bool) returns (r: Outcome)
    requires |config.lanes| == LANES
    ensures r.Accepted? <==>
              && (forall l :: 0 <= l < LANES ==>
                    var lane := config.lanes[l];
                    1.0 <= lane.omegaMin <= lane.omega <= lane.omegaMax <= 100.0 && lane.alpha >= 0.0 && lane.beta >= 0.0)
              && (config.autoTed && !config.muellerMuller ==>
                    0.0 < config.emaAlpha < 1.0 && config.mmThreshold >= 0.0 && config.fallbackThreshold >= 0.0)
    ensures r.Accepted? ==>
              && r.kernel.Valid() && fresh(r.kernel) && r.kernel.config == config && r.kernel.vector == vector
              && r.kernel.AtStart() && forall l :: 0 <= l < LANES ==> Configured(config, l, r.kernel.params[l])
  {
    if !ValidConfig(config) {
      return Rejected;
    }
    var kernel := new Kernel(config, vector);
    r := Accepted(kernel);
  }

  const MAX_COUNT: nat := 0x3FFF_FFFF

  // Whether every count of a call is small enough.
  method CountsFit(blocks: seq<seq<Complex>>, capacities: seq<nat>) returns (fits: bool)
    requires |blocks| == LANES && |capacities| == LANES
    ensures fits <==> forall l :: 0 <= l < LANES ==> |blocks[l]| <= MAX_COUNT && capacities[l] <= MAX_COUNT
  {
    fits := true;
    for lane := 0 to LANES
      invariant fits <==> forall l :: 0 <= l < lane ==> |blocks[l]| <= MAX_COUNT && capacities[l] <= MAX_COUNT
    {
      fits := fits && |blocks[lane]| <= MAX_COUNT && capacities[lane] <= MAX_COUNT;
    }
  }

  lemma LaneBasics(p: Params, omegaMax: real, history: nat, s: LaneState, kept: seq<Complex>, x: seq<Complex>, anchor: LaneState, emitted: seq<Complex>)
    requires LaneValid(p, omegaMax, history, s, kept, x, anchor, emitted)
    ensures |kept| == history >= 12 && InBounds(p, s) && ValidParams(p)
  {
    PlacedMeans(p, s, omegaMax, history, kept, x);
  }

  lemma SeamIsVector(kept: seq<Complex>, block: seq<Complex>, history: nat, capacity: nat)
    requires |kept| == history && 4 <= history <= 64 && |block| < 0x4000_0000
    ensures ValidSegment(SeamSegment(kept, block, history, capacity)) && VectorSegment(SeamSegment(kept, block, history, capacity))
  {
  }

  lemma SecondPass(p: Params, s: LaneState, history: nat, kept: seq<Complex>, block: seq<Complex>, capacity: nat)
    requires |kept| == history && 4 <= history <= 64 && |block| < 0x4000_0000 && ValidParams(p) && InBounds(p, s)
    ensures ValidSegment(SeamSegment(kept, block, history, capacity))
    ensures
      var seam := SeamSegment(kept, block, history, capacity);
      var first := Pass(p, Shifted(s, history as real), seam);
      var next := BlockSegment(seam.(output := seam.output + first.1), block, history);
      && InBounds(p, first.0) && ValidSegment(next) && VectorSegment(next) && next.output == seam.output + first.1
      && var second := Pass(p, Shifted(first.0, -(history as real)), next);
         (second.0, seam.output + first.1 + second.1) == TwoPasses(p, s, history, kept, block, capacity)
  {
    hide Run, TwoPasses, ValidParams;
    var seam := SeamSegment(kept, block, history, capacity);
    var first := Pass(p, Shifted(s, history as real), seam);
    assert seam.output + first.1 == first.1;
    PassesInARow(p, s, history, kept, block, capacity);
    RunStops(p, Shifted(s, history as real), DataSignal(p.cubic, seam.data), |seam.data| as real - 2.0, capacity);
  }
}
