// Coasting of a Costas lane: the closed form of a skip against coasting sample by sample,
// against running the loop on silence, and against itself.
module CostasSkip {
  import opened ComplexNumbers
  import opened CostasLoop
  import opened CostasRotation

  // ---- Sample by sample ----

  // Phase and queue of a coasting lane; every new step is the loop frequency.
  datatype Coast = Coast(phase: real, pending: Queue)

  function CoastOnce(t: Trig, c: Coast, frequency: real): Coast
  {
    Coast(c.phase + c.pending[0].step, c.pending[1..] + [SinCos(t, frequency)])
  }

  function Coasting(t: Trig, c: Coast, frequency: real, n: nat): Coast
  {
    if n == 0 then c else CoastOnce(t, Coasting(t, c, frequency, n - 1), frequency)
  }

  function CoastOf(lane: Lane): Coast { Coast(lane.phase, lane.pending) }

  lemma {:induction false} CoastInTwo(t: Trig, c: Coast, frequency: real, a: nat, b: nat)
    ensures Coasting(t, Coasting(t, c, frequency, a), frequency, b) == Coasting(t, c, frequency, a + b)
    decreases b
  {
    hide CoastOnce;
    if b > 0 {
      CoastInTwo(t, c, frequency, a, b - 1);
    }
  }

  // Starting whole turns away stays whole turns away.
  lemma {:induction false} CoastApart(t: Trig, c: Coast, phase: real, frequency: real, n: nat)
    requires Apart(t, c.phase, phase, 0)
    ensures Apart(t, Coasting(t, c, frequency, n).phase, Coasting(t, c.(phase := phase), frequency, n).phase, 0)
    ensures Coasting(t, c.(phase := phase), frequency, n).pending == Coasting(t, c, frequency, n).pending
    decreases n
  {
    hide Apart, SinCos;
    if n > 0 {
      CoastApart(t, c, phase, frequency, n - 1);
      var before := Coasting(t, c, frequency, n - 1);
      ApartMoves(t, before.phase, Coasting(t, c.(phase := phase), frequency, n - 1).phase, 0, before.pending[0].step);
    }
  }

  // ---- The closed form ----

  function Applied(n: nat): nat { if n < DELAY then n else DELAY }

  // Sum of the oldest pending steps.
  function PendingSum(pending: Queue, n: nat): real
    requires n <= DELAY
  {
    if n == 0 then 0.0 else PendingSum(pending, n - 1) + pending[n - 1].step
  }

  function FrequencySteps(frequency: real, k: nat): real { k as real * frequency }

  function SkippedPhase(c: Coast, frequency: real, n: nat): real
  {
    c.phase + PendingSum(c.pending, Applied(n)) + FrequencySteps(frequency, n - Applied(n))
  }

  function SkippedQueue(t: Trig, pending: Queue, frequency: real, n: nat): (q: Queue)
  {
    pending[Applied(n)..] + seq(Applied(n), _ => SinCos(t, frequency))
  }

  lemma StepOf(t: Trig, frequency: real)
    ensures SinCos(t, frequency).step == frequency
  {
  }

  // Main result: the closed form is coasting sample by sample.
  lemma {:induction false} SkipIsCoasting(t: Trig, c: Coast, frequency: real, n: nat)
    ensures Coasting(t, c, frequency, n) == Coast(SkippedPhase(c, frequency, n), SkippedQueue(t, c.pending, frequency, n))
    decreases n
  {
    hide SinCos;
    if n == 0 {
      assert SkippedQueue(t, c.pending, frequency, 0) == c.pending;
      NoFrequency(frequency);
    } else {
      SkipIsCoasting(t, c, frequency, n - 1);
      StepOf(t, frequency);
      var before, after := SkippedQueue(t, c.pending, frequency, n - 1), SkippedQueue(t, c.pending, frequency, n);
      var applied := Applied(n - 1);
      assert before[1..] + [SinCos(t, frequency)] == after;
      if n <= DELAY {
        assert before[0] == c.pending[n - 1];
        NoFrequency(frequency);
      } else {
        assert before[0] == SinCos(t, frequency);
        MoreFrequency(frequency, n - 1 - applied);
      }
    }
  }

  lemma NoFrequency(frequency: real)
    ensures 0 as real * frequency == 0.0
  {
  }

  lemma MoreFrequency(frequency: real, k: nat)
    ensures (k + 1) as real * frequency == k as real * frequency + frequency
  {
  }

  // ---- Skipping ----

  // A lane moved past n samples. Moving past none leaves it as it is.
  function SkipLane(t: Trig, lane: Lane, n: nat): Lane
    requires t.pi > 0.0
  {
    if n == 0 then lane
    else
      var phase := Remainder(SkippedPhase(CoastOf(lane), lane.frequency, n), 2.0 * t.pi);
      Lane(phase, t.cos(phase), t.sin(phase), lane.frequency, 0.0, SkippedQueue(t, lane.pending, lane.frequency, n))
  }

  // Skipped lanes that differ only by whole turns of the phase.
  ghost predicate SameBut(t: Trig, a: Lane, b: Lane)
  {
    && Apart(t, a.phase, b.phase, 0) && a.cos == b.cos && a.sin == b.sin
    && a.frequency == b.frequency && a.lastError == b.lastError && a.pending == b.pending
  }

  lemma SkipCoasts(t: Trig, lane: Lane, n: nat)
    requires t.pi > 0.0
    ensures
      var c, s := Coasting(t, CoastOf(lane), lane.frequency, n), SkipLane(t, lane, n);
      && Apart(t, c.phase, s.phase, 0) && s.pending == c.pending && s.frequency == lane.frequency
      && (n > 0 ==> s.cos == t.cos(s.phase) && s.sin == t.sin(s.phase) && s.lastError == 0.0)
  {
    hide Apart, Remainder, Coasting, SkippedPhase, SkippedQueue;
    SkipIsCoasting(t, CoastOf(lane), lane.frequency, n);
    if n == 0 {
      CoastingNone(t, CoastOf(lane), lane.frequency);
      SamePhase(t, lane.phase);
    } else {
      RemainderApart(t, SkippedPhase(CoastOf(lane), lane.frequency, n));
    }
  }

  // A lane moved past n samples, told by coasting: whole turns from where coasting leaves its
  // phase and within half a turn of zero, the oscillator rebuilt from it, coasting's queue, and
  // the last error forgotten. Nothing changes when nothing is skipped.
  ghost predicate Skipped(t: Trig, lane: Lane, n: nat, next: Lane)
  {
    if n == 0 then next == lane
    else
      var c := Coasting(t, CoastOf(lane), lane.frequency, n);
      && Apart(t, c.phase, next.phase, 0) && -t.pi <= next.phase <= t.pi
      && next.cos == t.cos(next.phase) && next.sin == t.sin(next.phase)
      && next.frequency == lane.frequency && next.lastError == 0.0 && next.pending == c.pending
  }

  lemma SkipIsSkipped(t: Trig, lane: Lane, n: nat)
    requires t.pi > 0.0
    ensures Skipped(t, lane, n, SkipLane(t, lane, n))
  {
    hide Apart, Remainder, Coasting, SkippedPhase, SkippedQueue;
    SkipCoasts(t, lane, n);
    RemainderBounds(SkippedPhase(CoastOf(lane), lane.frequency, n), 2.0 * t.pi);
  }

  lemma CoastingNone(t: Trig, c: Coast, frequency: real)
    ensures Coasting(t, c, frequency, 0) == c
  {
  }

  lemma SamePhase(t: Trig, phase: real)
    ensures Apart(t, phase, phase, 0)
  {
    ApartBy(t, phase, phase, 0, 0);
  }

  // Main result: skipping twice is skipping once, whole turns of the phase aside.
  lemma SkipsCompose(t: Trig, lane: Lane, a: nat, b: nat)
    requires QuarterLaws(t)
    ensures t.pi > 0.0 && SameBut(t, SkipLane(t, SkipLane(t, lane, a), b), SkipLane(t, lane, a + b))
  {
    hide Apart, QuarterLaws, Coasting, SkipLane, Quarter;
    LawsHavePi(t);
    var first := SkipLane(t, lane, a);
    var twice, once := SkipLane(t, first, b), SkipLane(t, lane, a + b);
    var c, f := CoastOf(lane), lane.frequency;
    var middle := Coasting(t, c, f, a);
    SkipCoasts(t, lane, a);
    SkipCoasts(t, first, b);
    SkipCoasts(t, lane, a + b);
    CoastInTwo(t, c, f, a, b);
    CoastApart(t, middle, first.phase, f, b);
    assert CoastOf(first) == middle.(phase := first.phase);
    var whole := Coasting(t, c, f, a + b).phase;
    ApartBack(t, Coasting(t, CoastOf(first), f, b).phase, twice.phase, 0);
    ApartBack(t, whole, Coasting(t, CoastOf(first), f, b).phase, 0);
    ApartChains(t, twice.phase, Coasting(t, CoastOf(first), f, b).phase, whole, 0, 0);
    ApartChains(t, twice.phase, whole, once.phase, 0, 0);
    if b == 0 {
      SkipNone(t, first);
    } else if a == 0 {
      SkipNone(t, lane);
    } else {
      RebuiltTurns(t, twice.phase, once.phase, 0);
      QuarterNone(t, 0.0, Phasor(t, twice.phase));
    }
  }

  lemma SkipNone(t: Trig, lane: Lane)
    requires t.pi > 0.0
    ensures SkipLane(t, lane, 0) == lane
  {
  }

  // ---- Silence ----

  // Samples of nothing give the detector nothing.
  lemma SilentDetector(lane: Lane, gain: real, clip: real)
    ensures Clamped(Detected(Derotated(lane, gain, ZERO)), clip) == 0.0
  {
    hide Detected, Clamped;
    SilentOutput(lane, gain);
    DetectedBySigns(ZERO);
    ClampedZero(clip);
  }

  lemma SilentOutput(lane: Lane, gain: real)
    ensures Derotated(lane, gain, ZERO) == ZERO
  {
    Nothing(gain);
    Nothing(lane.cos);
    Nothing(lane.sin);
  }

  lemma ClampedZero(bound: real)
    ensures Clamped(0.0, bound) == 0.0
  {
  }

  lemma NoError(p: LaneParams, frequency: real)
    requires Clamped(frequency, p.limit) == frequency
    ensures NextFrequency(p, frequency, 0.0) == frequency && NextStep(p, frequency, 0.0) == frequency
  {
    hide Clamped;
    Nothing(p.beta);
    Nothing(p.alpha);
    assert RawFrequency(p, frequency, 0.0) == frequency;
  }

  lemma SilentStep(t: Trig, p: LaneParams, lane: Lane)
    requires Clamped(lane.frequency, p.limit) == lane.frequency
    ensures Step(t, p, lane, ZERO).frequency == lane.frequency && Step(t, p, lane, ZERO).lastError == 0.0
    ensures CoastOf(Step(t, p, lane, ZERO)) == CoastOnce(t, CoastOf(lane), lane.frequency)
  {
    hide SinCos, Clamped, Detected, Derotated, NextFrequency, NextStep;
    SilentDetector(lane, p.gain, p.clip);
    NoError(p, lane.frequency);
  }

  lemma Nothing(x: real)
    ensures 0.0 * x == 0.0 && x * 0.0 == 0.0
  {
  }

  function Silence(n: nat): (x: seq<Complex>)
    ensures |x| == n
  {
    seq(n, _ => ZERO)
  }

  // A skipped lane against one that ran on: the phase may differ by whole turns.
  ghost predicate SameAsSilence(t: Trig, s: Lane, r: Lane)
  {
    Apart(t, s.phase, r.phase, 0) && r.frequency == s.frequency && r.pending == s.pending && r.lastError == s.lastError
  }

  // Main result: a skip leaves phase (whole turns aside), frequency, error and pending steps
  // where as many samples of silence would leave them, normalisations included, exactly if
  // there is nothing to skip or the loop frequency lies inside the limit, which a skip does
  // not enforce.
  lemma SkipIsSilence(t: Trig, p: LaneParams, lane: Lane, since: nat, n: nat)
    requires t.pi > 0.0
    ensures SameAsSilence(t, SkipLane(t, lane, n), After(t, p, lane, since, Silence(n))) <==>
            n == 0 || Clamped(lane.frequency, p.limit) == lane.frequency
  {
    hide Apart, After, Coasting, SkipLane, Clamped;
    SkipCoasts(t, lane, n);
    var c, s, r := Coasting(t, CoastOf(lane), lane.frequency, n), SkipLane(t, lane, n), After(t, p, lane, since, Silence(n));
    if n == 0 {
      NothingSkipped(t, p, lane, since);
      SamePhase(t, lane.phase);
    } else {
      SilenceClamps(t, p, lane, since, n);
      if Clamped(lane.frequency, p.limit) == lane.frequency {
        SilenceCoasts(t, p, lane, since, n);
        ApartBack(t, c.phase, s.phase, 0);
        ApartChains(t, s.phase, c.phase, r.phase, 0, 0);
      }
    }
  }

  // An input where they differ: a frequency of 1 under a limit of one half.
  lemma SkipKeepsFrequency(t: Trig, p: LaneParams, lane: Lane, since: nat)
    requires t.pi > 0.0 && p.limit == 0.5 && lane.frequency == 1.0
    ensures SkipLane(t, lane, 1).frequency == 1.0 && After(t, p, lane, since, Silence(1)).frequency == 0.5
  {
    hide After, SinCos, Remainder, SkippedPhase, SkippedQueue;
    SilenceClamps(t, p, lane, since, 1);
  }

  lemma NothingSkipped(t: Trig, p: LaneParams, lane: Lane, since: nat)
    requires t.pi > 0.0
    ensures After(t, p, lane, since, Silence(0)) == lane == SkipLane(t, lane, 0)
  {
  }

  lemma ClampedTwice(value: real, bound: real)
    ensures Clamped(Clamped(value, bound), bound) == Clamped(value, bound)
  {
  }

  // Silence brings the loop frequency inside the limit at once and leaves it there.
  lemma {:induction false} SilenceClamps(t: Trig, p: LaneParams, lane: Lane, since: nat, n: nat)
    requires t.pi > 0.0 && n > 0
    ensures After(t, p, lane, since, Silence(n)).frequency == Clamped(lane.frequency, p.limit)
    decreases n
  {
    hide Step, Clamped, WrappedPhase, Norm2;
    var before := After(t, p, lane, since, Silence(n - 1));
    assert Silence(n)[..n - 1] == Silence(n - 1);
    assert Stepped(t, p, lane, since, Silence(n)) == Step(t, p, before, ZERO);
    SilentFrequency(t, p, before);
    if n > 1 {
      SilenceClamps(t, p, lane, since, n - 1);
      ClampedTwice(lane.frequency, p.limit);
    }
  }

  lemma SilentFrequency(t: Trig, p: LaneParams, lane: Lane)
    ensures Step(t, p, lane, ZERO).frequency == Clamped(lane.frequency, p.limit)
  {
    hide SinCos, Clamped, Detected, Derotated, NextStep;
    SilentDetector(lane, p.gain, p.clip);
    Nothing(p.beta);
    assert RawFrequency(p, lane.frequency, 0.0) == lane.frequency;
  }

  lemma {:induction false} SilenceCoasts(t: Trig, p: LaneParams, lane: Lane, since: nat, n: nat)
    requires t.pi > 0.0 && Clamped(lane.frequency, p.limit) == lane.frequency
    ensures
      var c, r := Coasting(t, CoastOf(lane), lane.frequency, n), After(t, p, lane, since, Silence(n));
      && Apart(t, c.phase, r.phase, 0) && r.frequency == lane.frequency && r.pending == c.pending && (n > 0 ==> r.lastError == 0.0)
    decreases n
  {
    hide Apart, Step, Clamped, SinCos, WrappedPhase, Norm2;
    if n == 0 {
      SamePhase(t, lane.phase);
    } else {
      SilenceCoasts(t, p, lane, since, n - 1);
      var before, c := After(t, p, lane, since, Silence(n - 1)), Coasting(t, CoastOf(lane), lane.frequency, n - 1);
      assert Silence(n)[..n - 1] == Silence(n - 1);
      SilentStep(t, p, before);
      var stepped := Step(t, p, before, ZERO);
      assert Stepped(t, p, lane, since, Silence(n)) == stepped;
      ApartMoves(t, c.phase, before.phase, 0, c.pending[0].step);
      WrappedApart(t, stepped.phase);
      ApartChains(t, c.phase + c.pending[0].step, stepped.phase, WrappedPhase(t, stepped.phase), 0, 0);
    }
  }
}
