// The add-compare-select step on 16-bit path metrics with periodic renormalisation,
// and the proof that neither the width nor the renormalisation is observable.
module ViterbiMetrics16 {
  import opened Bits
  import opened ViterbiCode
  import opened ViterbiTrellis

  const WORD: nat := 0x1_0000
  const RENORMALIZE_PERIOD: nat := 128
  const MAX_START_PENALTY: nat := 1024

  function Wrap(x: int): (w: nat)
    ensures w < WORD
  {
    x % WORD
  }

  // 16-bit subtraction.
  function WrapSub(a: int, b: int): (w: nat)
    ensures w < WORD
  {
    Wrap(a - b)
  }

  // 16-bit path metrics and the steps since they were last renormalised.
  datatype Kernel = Kernel(metrics: Metrics, since: nat)

  function Candidate16(t: Tables, m: Metrics, j: State, upper: bool, y: Symbols): nat
    requires ValidTables(t)
  {
    Wrap(Candidate(t, m, j, upper, y))
  }

  predicate UpperWins16(t: Tables, m: Metrics, j: State, y: Symbols)
    requires ValidTables(t)
  {
    Candidate16(t, m, j, true, y) <= Candidate16(t, m, j, false, y)
  }

  function Step16(t: Tables, m: Metrics, y: Symbols): Metrics
    requires ValidTables(t)
  {
    seq(64, j requires 0 <= j < 64 => Candidate16(t, m, j, UpperWins16(t, m, j, y), y))
  }

  function DecisionWord16(t: Tables, m: Metrics, y: Symbols): nat
    requires ValidTables(t)
  {
    WordOf(seq(64, j requires 0 <= j < 64 => UpperWins16(t, m, j, y)))
  }

  // Index of the smallest element, the first one on ties.
  function Smallest(m: seq<nat>): (r: nat)
    requires |m| > 0
    ensures r < |m|
    ensures forall i :: 0 <= i < |m| ==> m[r] <= m[i]
    ensures forall i :: 0 <= i < r ==> m[r] < m[i]
  {
    var n := |m| - 1;
    if n == 0 then 0
    else
      var r := Smallest(m[..n]);
      if m[n] < m[r] then n else r
  }

  function Renormalized(m: Metrics): (k: Kernel)
    ensures k.since == 0
  {
    var low := m[Smallest(m)];
    Kernel(seq(64, j requires 0 <= j < 64 => m[j] - low), 0)
  }

  function Advance(t: Tables, k: Kernel, y: Symbols): Kernel
    requires ValidTables(t)
  {
    var m := Step16(t, k.metrics, y);
    if k.since + 1 == RENORMALIZE_PERIOD then Renormalized(m) else Kernel(m, k.since + 1)
  }

  function Run16(t: Tables, k: Kernel, ys: seq<Symbols>): Kernel
    requires ValidTables(t)
  {
    if ys == [] then k else Advance(t, Run16(t, k, ys[..|ys| - 1]), ys[|ys| - 1])
  }

  function Words16(t: Tables, k: Kernel, ys: seq<Symbols>): (w: seq<nat>)
    requires ValidTables(t)
    ensures |w| == |ys|
  {
    if ys == [] then []
    else
      var before := ys[..|ys| - 1];
      Words16(t, k, before) + [DecisionWord16(t, Run16(t, k, before).metrics, ys[|ys| - 1])]
  }

  // A stream may be split into blocks anywhere.
  lemma {:induction false} RunAppend16(t: Tables, k: Kernel, xs: seq<Symbols>, ys: seq<Symbols>)
    requires ValidTables(t)
    ensures Run16(t, k, xs + ys) == Run16(t, Run16(t, k, xs), ys)
    ensures Words16(t, k, xs + ys) == Words16(t, k, xs) + Words16(t, Run16(t, k, xs), ys)
  {
    hide Advance, DecisionWord16;
    var all := xs + ys;
    if ys == [] {
      assert all == xs;
    } else {
      var n := |ys| - 1;
      RunAppend16(t, k, xs, ys[..n]);
      var before := all[..|all| - 1];
      assert before == xs + ys[..n];
      assert all[|all| - 1] == ys[n];
      var word := DecisionWord16(t, Run16(t, k, before).metrics, ys[n]);
      assert Words16(t, k, all) == Words16(t, k, before) + [word];
      assert Words16(t, Run16(t, k, xs), ys) == Words16(t, Run16(t, k, xs), ys[..n]) + [word];
    }
  }

  // What renormalisation has subtracted so far.
  function Offset(t: Tables, k: Kernel, ys: seq<Symbols>): nat
    requires ValidTables(t)
  {
    if ys == [] then 0
    else
      var before := ys[..|ys| - 1];
      var b := Run16(t, k, before);
      var m := Step16(t, b.metrics, ys[|ys| - 1]);
      Offset(t, k, before) + if b.since + 1 == RENORMALIZE_PERIOD then m[Smallest(m)] else 0
  }

  ghost predicate Shifted(m: Metrics, exact: Metrics, offset: nat)
  {
    forall j :: 0 <= j < 64 ==> exact[j] == m[j] + offset
  }

  ghost predicate Below(m: Metrics, bound: nat)
  {
    forall j :: 0 <= j < 64 ==> m[j] <= bound
  }

  // Without wrapping, a step commutes with subtracting a constant.
  lemma StepWithoutWrap(t: Tables, m: Metrics, exact: Metrics, offset: nat, y: Symbols, bound: nat)
    requires ValidTables(t) && Shifted(m, exact, offset) && Below(m, bound) && bound + 63 < WORD
    ensures Shifted(Step16(t, m, y), Step(t, exact, y), offset)
    ensures Below(Step16(t, m, y), bound + 63)
    ensures DecisionWord16(t, m, y) == DecisionWord(t, exact, y)
  {
    forall j: State
      ensures Candidate16(t, m, j, true, y) + offset == Candidate(t, exact, j, true, y)
      ensures Candidate16(t, m, j, false, y) + offset == Candidate(t, exact, j, false, y)
      ensures Candidate16(t, m, j, true, y) <= bound + 63 && Candidate16(t, m, j, false, y) <= bound + 63
    {
      CandidateWithoutWrap(t, m, exact, offset, j, true, y, bound);
      CandidateWithoutWrap(t, m, exact, offset, j, false, y, bound);
    }
    hide Cost, Candidate, Candidate16;
    SameWord(t, m, exact, y);
  }

  lemma CandidateWithoutWrap(t: Tables, m: Metrics, exact: Metrics, offset: nat, j: State, upper: bool, y: Symbols, bound: nat)
    requires ValidTables(t) && Shifted(m, exact, offset) && Below(m, bound) && bound + 63 < WORD
    ensures Candidate16(t, m, j, upper, y) + offset == Candidate(t, exact, j, upper, y)
    ensures Candidate16(t, m, j, upper, y) <= bound + 63
  {
    hide Cost;
    var p := Pred(j, upper);
    assert exact[p] == m[p] + offset && m[p] <= bound;
  }

  lemma SameWord(t: Tables, m: Metrics, exact: Metrics, y: Symbols)
    requires ValidTables(t)
    requires forall j :: 0 <= j < 64 ==> UpperWins16(t, m, j, y) == UpperWins(t, exact, j, y)
    ensures DecisionWord16(t, m, y) == DecisionWord(t, exact, y)
  {
    assert seq(64, j requires 0 <= j < 64 => UpperWins16(t, m, j, y)) ==
           seq(64, j requires 0 <= j < 64 => UpperWins(t, exact, j, y));
  }

  // Where the metrics of a run of n steps must lie.
  function Ceiling(n: nat): nat
  {
    (if n < RENORMALIZE_PERIOD then MAX_START_PENALTY else 378) + 63 * (n % RENORMALIZE_PERIOD)
  }

  ghost predicate Bounded(k: Kernel, n: nat)
  {
    k.since == n % RENORMALIZE_PERIOD && Below(k.metrics, Ceiling(n))
  }

  ghost predicate ValidStart(k: Kernel)
  {
    k.since == 0 && Below(k.metrics, MAX_START_PENALTY)
  }

  ghost predicate SpreadWithin(m: Metrics, d: nat)
  {
    forall i, j :: 0 <= i < 64 && 0 <= j < 64 ==> m[j] <= m[i] + d
  }

  lemma CeilingStep(n: nat)
    ensures Ceiling(n) + 63 <= MAX_START_PENALTY + 63 * RENORMALIZE_PERIOD < WORD
    ensures n % RENORMALIZE_PERIOD + 1 < RENORMALIZE_PERIOD ==>
              (n + 1) % RENORMALIZE_PERIOD == n % RENORMALIZE_PERIOD + 1 && Ceiling(n) + 63 <= Ceiling(n + 1)
    ensures n % RENORMALIZE_PERIOD + 1 == RENORMALIZE_PERIOD ==>
              (n + 1) % RENORMALIZE_PERIOD == 0 && 378 <= Ceiling(n + 1) && n + 1 >= 6
  {
    var q, r := n / 128, n % 128;
    if r + 1 < 128 {
      DivUnique(n + 1, 128, q, r + 1);
    } else {
      DivUnique(n + 1, 128, q + 1, 0);
    }
  }

  // Renormalising keeps the differences to the exact metrics, and the spread becomes
  // the bound.
  lemma RenormalizeShifts(m: Metrics, exact: Metrics, offset: nat, d: nat)
    requires Shifted(m, exact, offset) && SpreadWithin(exact, d)
    ensures Shifted(Renormalized(m).metrics, exact, offset + m[Smallest(m)])
    ensures Below(Renormalized(m).metrics, d)
  {
    var low := Smallest(m);
    forall j | 0 <= j < 64 ensures m[j] <= m[low] + d {
      assert exact[j] <= exact[low] + d;
    }
  }

  // One step from bounded metrics; `exact` are the unbounded metrics before it.
  lemma AdvanceKeepsBounds(t: Tables, k: Kernel, n: nat, exact: Metrics, offset: nat, y: Symbols)
    requires ValidTables(t) && Bounded(k, n) && Shifted(k.metrics, exact, offset)
    requires n + 1 >= 6 ==> SpreadWithin(Step(t, exact, y), 378)
    ensures
      var m := Step16(t, k.metrics, y);
      var sub := if k.since + 1 == RENORMALIZE_PERIOD then m[Smallest(m)] else 0;
      && Bounded(Advance(t, k, y), n + 1)
      && Shifted(Advance(t, k, y).metrics, Step(t, exact, y), offset + sub)
      && DecisionWord16(t, k.metrics, y) == DecisionWord(t, exact, y)
  {
    hide Step16, Step, DecisionWord, DecisionWord16, Ceiling, Renormalized, Below, Shifted, SpreadWithin, Smallest;
    CeilingStep(n);
    StepWithoutWrap(t, k.metrics, exact, offset, y, Ceiling(n));
    var m, next := Step16(t, k.metrics, y), Step(t, exact, y);
    if k.since + 1 == RENORMALIZE_PERIOD {
      RenormalizeShifts(m, next, offset, 378);
      BelowIsMonotone(Renormalized(m).metrics, 378, Ceiling(n + 1));
    } else {
      assert k.since + 1 < RENORMALIZE_PERIOD;
      BelowIsMonotone(m, Ceiling(n) + 63, Ceiling(n + 1));
    }
  }

  lemma BelowIsMonotone(m: Metrics, low: nat, high: nat)
    requires Below(m, low) && low <= high
    ensures Below(m, high)
  {
  }

  lemma MetricsSpread(t: Tables, m: Metrics, ys: seq<Symbols>)
    requires ValidTables(t) && |ys| >= 6
    ensures SpreadWithin(Run(t, m, ys), 378)
  {
    hide Run;
    forall i: State, j: State ensures Run(t, m, ys)[j] <= Run(t, m, ys)[i] + 378 {
      SpreadAfterSixSteps(t, m, ys, i, j);
    }
  }

  // Main result: for every start the configuration allows and every symbol sequence, the
  // 16-bit metrics plus what renormalisation subtracted are the unbounded metrics, they
  // stay below 1024 + 63 * 128, and the decision words are those of the unbounded run.
  lemma {:induction false} SixteenBitsSuffice(t: Tables, k: Kernel, ys: seq<Symbols>)
    requires ValidTables(t) && ValidStart(k)
    ensures Bounded(Run16(t, k, ys), |ys|)
    ensures Shifted(Run16(t, k, ys).metrics, Run(t, k.metrics, ys), Offset(t, k, ys))
    ensures Words16(t, k, ys) == Words(t, k.metrics, ys)
  {
    hide Step, Advance, DecisionWord, DecisionWord16, Bounded, Step16, Shifted, SpreadWithin, Smallest;
    if ys == [] {
      StartIsBounded(k);
    } else {
      var n := |ys| - 1;
      var before, y := ys[..n], ys[n];
      SixteenBitsSuffice(t, k, before);
      if n + 1 >= 6 {
        MetricsSpread(t, k.metrics, ys);
      }
      var exact, now := Run(t, k.metrics, before), Run16(t, k, before);
      AdvanceKeepsBounds(t, now, n, exact, Offset(t, k, before), y);
    }
  }

  // The kernel renormalises after every 128th step of its stream, wherever blocks end.
  lemma {:induction false} RenormalizesEvery128(t: Tables, k: Kernel, ys: seq<Symbols>)
    requires ValidTables(t) && k.since == 0
    ensures Run16(t, k, ys).since == |ys| % 128
  {
    hide Step16, Renormalized;
    if ys != [] {
      RenormalizesEvery128(t, k, ys[..|ys| - 1]);
    }
  }

  lemma StartIsBounded(k: Kernel)
    requires ValidStart(k)
    ensures Bounded(k, 0) && Shifted(k.metrics, k.metrics, 0)
  {
  }

  // The first smallest metric sits in the same state.
  lemma SmallestOfShifted(m: Metrics, exact: Metrics, offset: nat)
    requires Shifted(m, exact, offset)
    ensures Smallest(m) == Smallest(exact)
  {
    hide Smallest;
    var a, b := Smallest(m), Smallest(exact);
    assert m[a] <= m[b] && exact[b] <= exact[a];
  }

  // No addition of any run wraps, and the best state is the unbounded one.
  lemma NoMetricEverWraps(t: Tables, k: Kernel, ys: seq<Symbols>, y: Symbols, j: State, upper: bool)
    requires ValidTables(t) && ValidStart(k)
    ensures
      var m := Run16(t, k, ys).metrics;
      && m[Pred(j, upper)] + Cost(t, Pred(j, upper), j % 2, y) <= MAX_START_PENALTY + 63 * RENORMALIZE_PERIOD < WORD
      && Smallest(m) == Smallest(Run(t, k.metrics, ys))
  {
    SixteenBitsSuffice(t, k, ys);
    SmallestOfShifted(Run16(t, k, ys).metrics, Run(t, k.metrics, ys), Offset(t, k, ys));
  }
}
