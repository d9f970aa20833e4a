// Lock tracking over many symbols: what a detector switch takes, when a stretch of symbols
// cannot switch at all, and both for the symbols of a run of the timing loop.
module SyncLock {
  import opened ComplexNumbers
  import opened SyncLoop

  // Lock state after tracking a sequence of squared normalised errors.
  function TrackAll(p: LockParams, lock: Lock, symbols: nat, norms: seq<real>): Lock
  {
    if norms == [] then lock
    else
      var n := |norms| - 1;
      TrackLock(p, TrackAll(p, lock, symbols, norms[..n]), symbols + n, norms[n])
  }

  // Hold count of the detector in use and the run it is compared with.
  function HoldOf(p: LockParams, muellerMuller: bool): Hold
  {
    if !muellerMuller then p.mmHold else if p.fallback then p.fallbackHold else Never
  }

  function RunOf(lock: Lock): nat { if lock.muellerMuller then lock.unlockRun else lock.lockRun }

  // One symbol switches exactly when the run it leads to reaches the hold count; otherwise the
  // run grows by at most one. A switch clears the average and both runs.
  lemma TrackStep(p: LockParams, lock: Lock, symbols: nat, norm2: real)
    ensures
      var next := TrackLock(p, lock, symbols, norm2);
      if next.switches == lock.switches then
        next.muellerMuller == lock.muellerMuller && RunOf(next) <= RunOf(lock) + 1
        && (Reached(RunOf(lock), HoldOf(p, lock.muellerMuller)) || !Reached(RunOf(next), HoldOf(p, lock.muellerMuller)))
      else
        && next == Switched(lock) && Reached(RunOf(lock) + 1, HoldOf(p, lock.muellerMuller))
        && (!lock.muellerMuller ==> symbols >= p.minSymbols)
  {
  }

  // A stretch too short for the run to reach the hold count switches nothing.
  lemma {:induction false} NoSwitchInside(p: LockParams, lock: Lock, symbols: nat, norms: seq<real>)
    requires !Reached(RunOf(lock) + |norms|, HoldOf(p, lock.muellerMuller)) || norms == []
    ensures
      var end := TrackAll(p, lock, symbols, norms);
      end.switches == lock.switches && end.muellerMuller == lock.muellerMuller && RunOf(end) <= RunOf(lock) + |norms|
    decreases |norms|
  {
    hide TrackLock;
    if norms != [] {
      var n := |norms| - 1;
      NoSwitchInside(p, lock, symbols, norms[..n]);
      TrackStep(p, TrackAll(p, lock, symbols, norms[..n]), symbols + n, norms[n]);
    }
  }

  // Main result: since the run counters were last cleared, a switch takes at least the hold
  // count of the detector in use; without a hold count there is none.
  lemma SwitchNeedsHold(p: LockParams, lock: Lock, symbols: nat, norms: seq<real>)
    requires RunOf(lock) == 0 && TrackAll(p, lock, symbols, norms).switches != lock.switches
    ensures HoldOf(p, lock.muellerMuller).After? && |norms| >= HoldOf(p, lock.muellerMuller).count
  {
    if !Reached(|norms|, HoldOf(p, lock.muellerMuller)) {
      NoSwitchInside(p, lock, symbols, norms);
    }
  }

  // Between two switches lie at least as many tracked symbols as the new detector's hold count.
  lemma SwitchesAreApart(p: LockParams, before: Lock, symbols: nat, norm2: real, norms: seq<real>)
    requires TrackLock(p, before, symbols, norm2).switches != before.switches
    requires
      var switched := TrackLock(p, before, symbols, norm2);
      TrackAll(p, switched, symbols + 1, norms).switches != switched.switches
    ensures
      var hold := HoldOf(p, !before.muellerMuller);
      hold.After? && |norms| >= hold.count
  {
    hide TrackLock, TrackAll;
    TrackStep(p, before, symbols, norm2);
    SwitchNeedsHold(p, TrackLock(p, before, symbols, norm2), symbols + 1, norms);
  }

  // Tracking in two stretches is tracking the whole.
  lemma {:induction false} TrackInTwo(p: LockParams, lock: Lock, symbols: nat, a: seq<real>, b: seq<real>)
    ensures TrackAll(p, lock, symbols, a + b) == TrackAll(p, TrackAll(p, lock, symbols, a), symbols + |a|, b)
    decreases |b|
  {
    hide TrackLock;
    if b == [] {
      assert a + b == a;
    } else {
      var n := |b| - 1;
      TrackInTwo(p, lock, symbols, a, b[..n]);
      assert (a + b)[..|a| + n] == a + b[..n];
    }
  }

  // Every hold count in use is at least `hold`.
  predicate HoldsAtLeast(p: LockParams, hold: nat)
  {
    (p.mmHold.After? ==> p.mmHold.count >= hold) && (p.fallbackHold.After? ==> p.fallbackHold.count >= hold)
  }

  // Main result: switches are paid for in symbols, at the price of the smaller hold count.
  lemma {:induction false} SwitchesArePaid(p: LockParams, lock: Lock, symbols: nat, norms: seq<real>, hold: nat)
    requires HoldsAtLeast(p, hold)
    ensures
      var end := TrackAll(p, lock, symbols, norms);
      end.switches >= lock.switches && hold * (end.switches - lock.switches) + RunOf(end) <= RunOf(lock) + |norms|
    decreases |norms|
  {
    hide TrackLock;
    if norms != [] {
      var n := |norms| - 1;
      SwitchesArePaid(p, lock, symbols, norms[..n], hold);
      var before := TrackAll(p, lock, symbols, norms[..n]);
      TrackStep(p, before, symbols + n, norms[n]);
      OneMoreSwitch(hold, before.switches - lock.switches);
    }
  }

  lemma OneMoreSwitch(hold: nat, switches: int)
    ensures hold * (switches + 1) == hold * switches + hold
  {
  }

  // ---- What a detector switches on ----

  function Decay(alpha: real, n: nat): real { if n == 0 then 1.0 else (1.0 - alpha) * Decay(alpha, n - 1) }

  // A norm weighted by alpha and the decay of the n symbols since it.
  function Weighted(alpha: real, n: nat, norm: real): real { alpha * Decay(alpha, n) * norm }

  // What n symbols leave of the average they start from.
  function Left(alpha: real, n: nat, start: real): real { Decay(alpha, n) * start }

  // The first k norms, each weighted by the symbols since it.
  function WeightedNorms(alpha: real, norms: seq<real>, k: nat): real
    requires k <= |norms|
  {
    if k == 0 then 0.0 else WeightedNorms(alpha, norms, k - 1) + Weighted(alpha, |norms| - k, norms[k - 1])
  }

  // The exponential average of a stretch of norms, in closed form.
  function Average(alpha: real, start: real, norms: seq<real>): real
  {
    Left(alpha, |norms|, start) + WeightedNorms(alpha, norms, |norms|)
  }

  // What one symbol leaves of a value.
  function Damped(alpha: real, x: real): real { (1.0 - alpha) * x }

  lemma DampedSum(alpha: real, a: real, b: real)
    ensures Damped(alpha, a + b) == Damped(alpha, a) + Damped(alpha, b)
    ensures Damped(alpha, 0.0) == 0.0
  {
  }

  lemma WeightDecays(alpha: real, n: nat, norm: real)
    ensures Weighted(alpha, n + 1, norm) == Damped(alpha, Weighted(alpha, n, norm))
  {
    var decay := Decay(alpha, n);
    assert alpha * ((1.0 - alpha) * decay) * norm == (1.0 - alpha) * (alpha * decay * norm);
  }

  lemma {:induction false} WeightsDecay(alpha: real, norms: seq<real>, k: nat)
    requires k < |norms|
    ensures WeightedNorms(alpha, norms, k) == Damped(alpha, WeightedNorms(alpha, norms[..|norms| - 1], k))
  {
    hide Weighted, Damped;
    var prefix := norms[..|norms| - 1];
    if k == 0 {
      DampedSum(alpha, 0.0, 0.0);
      assert WeightedNorms(alpha, prefix, 0) == 0.0;
    } else {
      WeightsDecay(alpha, norms, k - 1);
      WeightDecays(alpha, |prefix| - k, norms[k - 1]);
      DampedSum(alpha, WeightedNorms(alpha, prefix, k - 1), Weighted(alpha, |prefix| - k, prefix[k - 1]));
    }
  }

  // An average moved toward a norm by alpha.
  function Moved(alpha: real, average: real, norm: real): real { (1.0 - alpha) * average + alpha * norm }

  lemma MovedBy(alpha: real, average: real, norm: real)
    ensures Moved(alpha, average, norm) == Damped(alpha, average) + Weighted(alpha, 0, norm)
  {
    assert Decay(alpha, 0) == 1.0;
  }

  lemma LeftDecays(alpha: real, n: nat, start: real)
    ensures Left(alpha, n + 1, start) == Damped(alpha, Left(alpha, n, start))
  {
    var decay := Decay(alpha, n);
    assert (1.0 - alpha) * decay * start == (1.0 - alpha) * (decay * start);
  }

  // Every norm moves the average toward it by alpha.
  lemma AverageStep(alpha: real, start: real, norms: seq<real>)
    requires norms != []
    ensures Average(alpha, start, norms) == Moved(alpha, Average(alpha, start, norms[..|norms| - 1]), norms[|norms| - 1])
  {
    hide Weighted, Damped, Left, Moved;
    var n := |norms| - 1;
    WeightsDecay(alpha, norms, n);
    LeftDecays(alpha, n, start);
    DampedSum(alpha, Left(alpha, n, start), WeightedNorms(alpha, norms[..n], n));
    MovedBy(alpha, Average(alpha, start, norms[..n]), norms[n]);
  }

  // A constant norm is approached by the factor 1 - alpha per symbol.
  lemma {:induction false} AverageSettles(alpha: real, start: real, norms: seq<real>, norm: real)
    requires forall i :: 0 <= i < |norms| ==> norms[i] == norm
    ensures Average(alpha, start, norms) - norm == Decay(alpha, |norms|) * (start - norm)
    decreases |norms|
  {
    hide Weighted, Damped;
    if norms == [] {
      assert Decay(alpha, 0) == 1.0;
    } else {
      var n := |norms| - 1;
      AverageSettles(alpha, start, norms[..n], norm);
      AverageStep(alpha, start, norms);
      Approaches(alpha, Average(alpha, start, norms[..n]), norm, Decay(alpha, n), start);
    }
  }

  lemma Approaches(alpha: real, before: real, norm: real, decay: real, start: real)
    requires before - norm == decay * (start - norm)
    ensures (1.0 - alpha) * before + alpha * norm - norm == (1.0 - alpha) * decay * (start - norm)
  {
    assert (1.0 - alpha) * (before - norm) == (1.0 - alpha) * before + alpha * norm - norm;
    assert (1.0 - alpha) * (decay * (start - norm)) == (1.0 - alpha) * decay * (start - norm);
  }

  lemma SmoothedMoves(p: LockParams, average: real, norm: real)
    ensures Smoothed(p, average, norm) == Moved(p.emaAlpha, average, norm)
  {
  }

  // One symbol of tracking, by what it may lead to.
  lemma TrackForms(p: LockParams, lock: Lock, symbols: nat, norm2: real)
    ensures
      var next, ema := TrackLock(p, lock, symbols, norm2), Moved(p.emaAlpha, lock.ema, norm2);
      if next.switches == lock.switches then next.ema == ema && next.muellerMuller == lock.muellerMuller
      else next == Lock(0.0, 0, 0, !lock.muellerMuller, lock.switches + 1)
    ensures TrackLock(p, lock, symbols, norm2).switches >= lock.switches
  {
    hide Smoothed, Moved;
    SmoothedMoves(p, lock.ema, norm2);
  }

  // Until the detector switches, the average is the exponential average of all norms since the start.
  lemma {:induction false} AverageIsTracked(p: LockParams, lock: Lock, symbols: nat, norms: seq<real>)
    requires TrackAll(p, lock, symbols, norms).switches == lock.switches
    ensures TrackAll(p, lock, symbols, norms).ema == Average(p.emaAlpha, lock.ema, norms)
    ensures TrackAll(p, lock, symbols, norms).muellerMuller == lock.muellerMuller
    ensures norms != [] ==> TrackAll(p, lock, symbols, norms[..|norms| - 1]).switches == lock.switches
    decreases |norms|
  {
    hide TrackLock;
    if norms == [] {
      assert Decay(p.emaAlpha, 0) == 1.0;
    } else {
      var n := |norms| - 1;
      SwitchesArePaid(p, lock, symbols, norms[..n], 0);
      TrackForms(p, TrackAll(p, lock, symbols, norms[..n]), symbols + n, norms[n]);
      AverageIsTracked(p, lock, symbols, norms[..n]);
      AverageStep(p.emaAlpha, lock.ema, norms);
    }
  }

  // Symbol i of a stretch speaks for the other detector: a lane with the Gardner detector has
  // seen enough symbols and its average is below one threshold, a lane that may fall back has
  // its average above the other.
  predicate Speaks(p: LockParams, lock: Lock, symbols: nat, norms: seq<real>, i: nat)
    requires i < |norms|
  {
    var average := Average(p.emaAlpha, lock.ema, norms[..i + 1]);
    if !lock.muellerMuller then symbols + i >= p.minSymbols && average < p.mmThreshold
    else p.fallback && average > p.fallbackThreshold
  }

  lemma SpeaksInPrefix(p: LockParams, lock: Lock, symbols: nat, norms: seq<real>, n: nat)
    requires n <= |norms|
    ensures forall i :: 0 <= i < n ==> Speaks(p, lock, symbols, norms[..n], i) == Speaks(p, lock, symbols, norms, i)
  {
    hide Average;
    forall i | 0 <= i < n ensures Speaks(p, lock, symbols, norms[..n], i) == Speaks(p, lock, symbols, norms, i) {
      assert norms[..n][..i + 1] == norms[..i + 1];
    }
  }

  // The last k symbols speak for the other detector.
  ghost predicate Streak(p: LockParams, lock: Lock, symbols: nat, norms: seq<real>, k: int)
  {
    0 <= k <= |norms| && forall i :: |norms| - k <= i < |norms| ==> Speaks(p, lock, symbols, norms, i)
  }

  // One symbol's effect on the run of the detector in use.
  lemma RunForms(p: LockParams, lock: Lock, symbols: nat, norm2: real)
    ensures
      var next, ema := TrackLock(p, lock, symbols, norm2), Moved(p.emaAlpha, lock.ema, norm2);
      var speaks := if !lock.muellerMuller then symbols >= p.minSymbols && ema < p.mmThreshold else p.fallback && ema > p.fallbackThreshold;
      var waits := if !lock.muellerMuller then symbols < p.minSymbols else !p.fallback;
      && (next.switches != lock.switches <==>
            ((speaks && Reached(RunOf(lock) + 1, HoldOf(p, lock.muellerMuller))) ||
             (!speaks && !waits && Reached(0, HoldOf(p, lock.muellerMuller)))))
      && (next.switches == lock.switches ==> RunOf(next) == if speaks then RunOf(lock) + 1 else if waits then RunOf(lock) else 0)
  {
    hide Smoothed, Moved;
    SmoothedMoves(p, lock.ema, norm2);
  }

  // From a cleared run, the run is the length of the longest streak at the end, and stays short
  // of the hold count.
  lemma {:induction false} RunIsStreak(p: LockParams, lock: Lock, symbols: nat, norms: seq<real>)
    requires RunOf(lock) == 0 && HoldsAtLeast(p, 1) && TrackAll(p, lock, symbols, norms).switches == lock.switches
    ensures
      var run := RunOf(TrackAll(p, lock, symbols, norms));
      && Streak(p, lock, symbols, norms, run)
      && (run < |norms| ==> !Speaks(p, lock, symbols, norms, |norms| - 1 - run))
      && !Reached(run, HoldOf(p, lock.muellerMuller))
    decreases |norms|
  {
    hide TrackLock, Average, RunOf, Moved;
    if norms != [] {
      var n := |norms| - 1;
      var prefix := norms[..n];
      AverageIsTracked(p, lock, symbols, norms);
      RunIsStreak(p, lock, symbols, prefix);
      SpeaksInPrefix(p, lock, symbols, norms, n);
      AverageIsTracked(p, lock, symbols, prefix);
      var before := TrackAll(p, lock, symbols, prefix);
      RunForms(p, before, symbols + n, norms[n]);
      AverageStep(p.emaAlpha, lock.ema, norms);
      assert norms[..n + 1] == norms;
      var run := RunOf(before);
      if run > 0 { assert Speaks(p, lock, symbols, norms, n - 1); }
    }
  }

  // Main result on the rule: as long as a lane has not switched since its run was cleared, its
  // next symbol switches the detector exactly if the last hold count of symbols, itself
  // included, all speak for the other detector; without a hold count it never does.
  lemma SwitchRule(p: LockParams, lock: Lock, symbols: nat, norms: seq<real>)
    requires norms != [] && RunOf(lock) == 0 && HoldsAtLeast(p, 1)
    requires TrackAll(p, lock, symbols, norms[..|norms| - 1]).switches == lock.switches
    ensures
      var end, hold := TrackAll(p, lock, symbols, norms), HoldOf(p, lock.muellerMuller);
      && (end.switches != lock.switches <==> hold.After? && Streak(p, lock, symbols, norms, hold.count))
      && (end.switches != lock.switches ==> end == Lock(0.0, 0, 0, !lock.muellerMuller, lock.switches + 1))
  {
    hide TrackLock, Average, RunOf, Moved;
    var n := |norms| - 1;
    var prefix := norms[..n];
    RunIsStreak(p, lock, symbols, prefix);
    SpeaksInPrefix(p, lock, symbols, norms, n);
    AverageIsTracked(p, lock, symbols, prefix);
    var before := TrackAll(p, lock, symbols, prefix);
    RunForms(p, before, symbols + n, norms[n]);
    TrackForms(p, before, symbols + n, norms[n]);
    AverageStep(p.emaAlpha, lock.ema, norms);
    assert norms[..n + 1] == norms;
    var run, hold := RunOf(before), HoldOf(p, lock.muellerMuller);
    assert Speaks(p, lock, symbols, norms, n) <==>
           if !lock.muellerMuller then symbols + n >= p.minSymbols && Average(p.emaAlpha, lock.ema, norms) < p.mmThreshold
           else p.fallback && Average(p.emaAlpha, lock.ema, norms) > p.fallbackThreshold;
    if hold.After? && Streak(p, lock, symbols, norms, hold.count) {
      assert Speaks(p, lock, symbols, norms, n);
    }
  }

  // ---- The symbols of a run ----

  // The lane after n symbols.
  function Iterate(p: Params, s: LaneState, v: Signal, n: nat): LaneState
  {
    if n == 0 then s else Next(p, Iterate(p, s, v, n - 1), v)
  }

  // Squared normalised error of a symbol.
  function NormOf(p: Params, s: LaneState, v: Signal): real
  {
    var mid, current := v(MidTime(s)), v(s.time);
    ErrorNorm2(ErrorOf(s, mid, current), Energy(s.lock.muellerMuller, s.previous, mid, current))
  }

  function NormsOf(p: Params, s: LaneState, v: Signal, n: nat): (norms: seq<real>)
    ensures |norms| == n
  {
    if n == 0 then [] else NormsOf(p, s, v, n - 1) + [NormOf(p, Iterate(p, s, v, n - 1), v)]
  }

  lemma LockOfNext(p: Params, s: LaneState, v: Signal)
    ensures
      var next := Next(p, s, v);
      && next.havePrevious && next.symbols == s.symbols + 1
      && next.lock == if p.lock.autoTed && s.havePrevious then TrackLock(p.lock, s.lock, s.symbols, NormOf(p, s, v)) else s.lock
  {
    hide TrackLock, Advance, ErrorNorm2, Energy, DetectorError;
  }

  // Once the loop has a previous symbol its lock state is tracked over the errors of its symbols.
  lemma {:induction false} LockIsTracked(p: Params, s: LaneState, v: Signal, n: nat)
    requires s.havePrevious
    ensures
      var end := Iterate(p, s, v, n);
      && end.havePrevious && end.symbols == s.symbols + n
      && end.lock == if p.lock.autoTed then TrackAll(p.lock, s.lock, s.symbols, NormsOf(p, s, v, n)) else s.lock
    decreases n
  {
    hide TrackLock, Next, NormOf;
    if n > 0 {
      LockIsTracked(p, s, v, n - 1);
      LockOfNext(p, Iterate(p, s, v, n - 1), v);
      assert NormsOf(p, s, v, n)[..n - 1] == NormsOf(p, s, v, n - 1);
    }
  }

  lemma {:induction false} IterateMore(p: Params, s: LaneState, v: Signal, a: nat, b: nat)
    ensures Iterate(p, s, v, a + b) == Iterate(p, Iterate(p, s, v, a), v, b)
    decreases b
  {
    hide Next;
    if b > 0 { IterateMore(p, s, v, a, b - 1); }
  }

  // A run ends after as many steps as it has symbols.
  lemma {:induction false} RunIterates(p: Params, s: LaneState, v: Signal, limit: real, room: nat)
    ensures Run(p, s, v, limit, room).0 == Iterate(p, s, v, |Run(p, s, v, limit, room).1|)
    decreases room
  {
    hide Next;
    if room > 0 && s.time < limit {
      var rest := |Run(p, Next(p, s, v), v, limit, room - 1).1|;
      RunIterates(p, Next(p, s, v), v, limit, room - 1);
      IterateMore(p, s, v, 1, rest);
      assert Iterate(p, s, v, 1) == Next(p, s, v) by { assert Iterate(p, s, v, 0) == s; }
    }
  }

  // The first symbol of a lane without a previous one is not tracked.
  function Untracked(s: LaneState): nat { if s.havePrevious then 0 else 1 }

  // Steps from any state: the lock state is tracked over all but an untracked first symbol.
  lemma TrackedSteps(p: Params, s: LaneState, v: Signal, n: nat) returns (norms: seq<real>)
    ensures |norms| == if n < Untracked(s) then 0 else n - Untracked(s)
    ensures Iterate(p, s, v, n).lock == if p.lock.autoTed then TrackAll(p.lock, s.lock, s.symbols + Untracked(s), norms) else s.lock
  {
    hide TrackLock, Next, NormOf;
    if s.havePrevious {
      norms := NormsOf(p, s, v, n);
      LockIsTracked(p, s, v, n);
    } else if n == 0 {
      norms := [];
    } else {
      var first := Next(p, s, v);
      LockOfNext(p, s, v);
      assert Iterate(p, s, v, 1) == first by { assert Iterate(p, s, v, 0) == s; }
      IterateMore(p, s, v, 1, n - 1);
      LockIsTracked(p, first, v, n - 1);
      norms := NormsOf(p, first, v, n - 1);
    }
  }

  // Main result for a run: a switch after the run counters were cleared takes as many tracked
  // symbols as the detector's hold count, and however many switches there are, they are paid for.
  lemma RunSwitches(p: Params, s: LaneState, v: Signal, limit: real, room: nat, hold: nat)
    requires HoldsAtLeast(p.lock, hold)
    ensures
      var r := Run(p, s, v, limit, room);
      && r.0.lock.switches >= s.lock.switches
      && hold * (r.0.lock.switches - s.lock.switches) <= RunOf(s.lock) + |r.1|
      && (RunOf(s.lock) == 0 && r.0.lock.switches != s.lock.switches ==>
            var h := HoldOf(p.lock, s.lock.muellerMuller);
            h.After? && |r.1| >= h.count + Untracked(s))
  {
    hide Run, Iterate, TrackAll, HoldOf, RunOf, HoldsAtLeast;
    var n := |Run(p, s, v, limit, room).1|;
    RunIterates(p, s, v, limit, room);
    var norms := TrackedSteps(p, s, v, n);
    SwitchesArePaid(p.lock, s.lock, s.symbols + Untracked(s), norms, hold);
    if RunOf(s.lock) == 0 && Iterate(p, s, v, n).lock.switches != s.lock.switches {
      SwitchNeedsHold(p.lock, s.lock, s.symbols + Untracked(s), norms);
      SomethingTracked(p.lock, s.lock, s.symbols + Untracked(s), norms);
    }
  }

  lemma SomethingTracked(p: LockParams, lock: Lock, symbols: nat, norms: seq<real>)
    requires TrackAll(p, lock, symbols, norms).switches != lock.switches
    ensures |norms| > 0
  {
  }

  // Main result for a run: if one of its symbols switches the detector and a later one switches
  // again, at least as many symbols as the new detector's hold count lie between.
  lemma RunSwitchesAreApart(p: Params, s: LaneState, v: Signal, limit: real, room: nat, k: nat, later: nat)
    requires k < later <= |Run(p, s, v, limit, room).1|
    requires Iterate(p, s, v, k + 1).lock.switches != Iterate(p, s, v, k).lock.switches
    requires Iterate(p, s, v, later).lock.switches != Iterate(p, s, v, k + 1).lock.switches
    ensures
      var hold := HoldOf(p.lock, !Iterate(p, s, v, k).lock.muellerMuller);
      hold.After? && later - (k + 1) >= hold.count
  {
    hide Run, Next, TrackAll, HoldOf, RunOf, TrackLock, NormOf;
    var before, switched := Iterate(p, s, v, k), Iterate(p, s, v, k + 1);
    LockOfNext(p, before, v);
    var rest := later - (k + 1);
    IterateMore(p, s, v, k + 1, rest);
    LockIsTracked(p, switched, v, rest);
    SwitchesAreApart(p.lock, before.lock, before.symbols, NormOf(p, before, v), NormsOf(p, switched, v, rest));
  }

  // Main result on the rule over a run: a symbol switches the detector exactly if the last hold
  // count of symbols all speak for the other one.
  lemma RunSwitchRule(p: Params, s: LaneState, v: Signal, n: nat)
    requires p.lock.autoTed && s.havePrevious && RunOf(s.lock) == 0 && HoldsAtLeast(p.lock, 1)
    requires Iterate(p, s, v, n).lock.switches == s.lock.switches
    ensures
      var end, hold := Iterate(p, s, v, n + 1).lock, HoldOf(p.lock, s.lock.muellerMuller);
      && (end.switches != s.lock.switches <==>
            hold.After? && Streak(p.lock, s.lock, s.symbols, NormsOf(p, s, v, n + 1), hold.count))
      && (end.switches != s.lock.switches ==> end == Lock(0.0, 0, 0, !s.lock.muellerMuller, s.lock.switches + 1))
  {
    hide TrackLock, Next, NormOf, Streak, RunOf, HoldOf, HoldsAtLeast;
    LockIsTracked(p, s, v, n);
    LockIsTracked(p, s, v, n + 1);
    assert NormsOf(p, s, v, n + 1)[..n] == NormsOf(p, s, v, n);
    SwitchRule(p.lock, s.lock, s.symbols, NormsOf(p, s, v, n + 1));
  }

  // What the loop remembers of a run is what it put out: every symbol is the signal at its time,
  // and its error comes from the symbol before it, the signal half an omega back, and itself. The
  // first symbol of a lane without a previous one has no error.
  lemma RunTells(p: Params, s: LaneState, v: Signal, limit: real, room: nat, i: nat)
    requires i < |Run(p, s, v, limit, room).1|
    ensures
      var output, now := Run(p, s, v, limit, room).1, Iterate(p, s, v, i);
      && output[i] == v(now.time) && now.symbols == s.symbols + i
      && (i == 0 && !s.havePrevious ==> ErrorOf(now, v(MidTime(now)), v(now.time)) == 0.0)
      && (i > 0 ==> ErrorOf(now, v(MidTime(now)), v(now.time)) ==
                    DetectorError(now.lock.muellerMuller, output[i - 1], v(now.time - 0.5 * now.omega), output[i]))
  {
    hide LockAfter, Advance, DetectorError;
    OutputIs(p, s, v, limit, room, i);
    CountsSymbols(p, s, v, i);
    if i > 0 {
      OutputIs(p, s, v, limit, room, i - 1);
      IterateOnce(p, s, v, i - 1);
    }
  }

  lemma {:induction false} OutputIs(p: Params, s: LaneState, v: Signal, limit: real, room: nat, i: nat)
    requires i < |Run(p, s, v, limit, room).1|
    ensures Run(p, s, v, limit, room).1[i] == v(Iterate(p, s, v, i).time)
    decreases i
  {
    hide Next;
    if i > 0 {
      OutputIs(p, Next(p, s, v), v, limit, room - 1, i - 1);
      IterateMore(p, s, v, 1, i - 1);
      assert Iterate(p, s, v, 1) == Next(p, s, v) by { assert Iterate(p, s, v, 0) == s; }
    }
  }

  lemma {:induction false} CountsSymbols(p: Params, s: LaneState, v: Signal, n: nat)
    ensures Iterate(p, s, v, n).symbols == s.symbols + n
    decreases n
  {
    hide LockAfter, Advance, ErrorOf;
    if n > 0 { CountsSymbols(p, s, v, n - 1); }
  }

  // Main result on the loop filter: after every symbol of a run omega is the previous one plus
  // beta times the error, or the bound that this passes, and the next symbol lies the new omega
  // and alpha times the error ahead.
  lemma RunFollowsErrors(p: Params, s: LaneState, v: Signal, n: nat)
    requires ValidParams(p)
    ensures
      var now, next := Iterate(p, s, v, n), Iterate(p, s, v, n + 1);
      var error := ErrorOf(now, v(MidTime(now)), v(now.time));
      && (now.omega + p.beta * error > p.omegaMax ==> next.omega == p.omegaMax)
      && (now.omega + p.beta * error < p.omegaMin ==> next.omega == p.omegaMin)
      && (p.omegaMin <= now.omega + p.beta * error <= p.omegaMax ==> next.omega == now.omega + p.beta * error)
      && next.time == now.time + next.omega + p.alpha * error
  {
    hide Advance, ErrorOf, LockAfter;
    var now := Iterate(p, s, v, n);
    IterateOnce(p, s, v, n);
    AdvanceMeans(p, now.time, now.omega, ErrorOf(now, v(MidTime(now)), v(now.time)));
  }

  lemma IterateOnce(p: Params, s: LaneState, v: Signal, n: nat)
    ensures Iterate(p, s, v, n + 1) == Next(p, Iterate(p, s, v, n), v)
  {
  }
}
