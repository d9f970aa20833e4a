// The decoder object: configuration, start state and running state, with the generic
// add-compare-select loop over its arrays.
module ViterbiKernel {
  import opened Bits
  import opened ViterbiCode
  import opened ViterbiTrellis
  import opened ViterbiMetrics16

  // The symbols of the first `steps` steps of an interleaved byte buffer.
  function SymbolsOf(soft: seq<Byte>, steps: nat): (ys: seq<Symbols>)
    requires 2 * steps <= |soft|
    ensures |ys| == steps
    ensures forall i :: 0 <= i < steps ==> ys[i].s0 == soft[2 * i] && ys[i].s1 == soft[2 * i + 1]
  {
    seq(steps, i requires 0 <= i < steps => SymbolsAt(soft, i))
  }

  function SymbolsAt(soft: seq<Byte>, step: nat): Symbols
    requires 2 * step + 1 < |soft|
  {
    Symbols(soft[2 * step], soft[2 * step + 1])
  }

  // The costs of the four branches of butterfly i.
  lemma ButterflyCosts(t: Tables, i: nat, y: Symbols)
    requires ValidTables(t) && i < BUTTERFLIES
    ensures
      var metric := Metric(t, i, y);
      && metric <= 63
      && Cost(t, i, 0, y) == metric && Cost(t, i + 32, 0, y) == 63 - metric
      && Cost(t, i, 1, y) == 63 - metric && Cost(t, i + 32, 1, y) == metric
  {
    hide Metric;
    MetricRange(t, i, y);
    assert i % 32 == i && i / 32 == 0;
    assert (i + 32) % 32 == i && (i + 32) / 32 == 1;
  }

  // They are the candidates of new states 2i and 2i + 1.
  lemma ButterflyBranches(t: Tables, m: Metrics, i: nat, y: Symbols)
    requires ValidTables(t) && i < BUTTERFLIES
    ensures
      var metric := Metric(t, i, y);
      var m0, m1 := Wrap(m[i] + metric), Wrap(m[i + 32] + WrapSub(63, metric));
      var m2, m3 := Wrap(m[i] + WrapSub(63, metric)), Wrap(m[i + 32] + metric);
      && UpperWins16(t, m, 2 * i, y) == (m1 <= m0)
      && UpperWins16(t, m, 2 * i + 1, y) == (m3 <= m2)
      && Step16(t, m, y)[2 * i] == (if m1 <= m0 then m1 else m0)
      && Step16(t, m, y)[2 * i + 1] == (if m3 <= m2 then m3 else m2)
  {
    hide Cost, Metric, Pred, Step16, UpperWins16, Wrap, WrapSub, ValidTables;
    ButterflyCosts(t, i, y);
    ButterflyPredecessors(i);
    NoWrapBelow(63, Metric(t, i, y));
    Selected(t, m, 2 * i, y);
    Selected(t, m, 2 * i + 1, y);
  }

  lemma NoWrapBelow(a: nat, b: nat)
    requires b <= a < WORD
    ensures WrapSub(a, b) == a - b
  {
  }

  lemma ButterflyPredecessors(i: nat)
    requires i < BUTTERFLIES
    ensures Pred(2 * i, false) == i && Pred(2 * i, true) == i + 32 && 2 * i % 2 == 0
    ensures Pred(2 * i + 1, false) == i && Pred(2 * i + 1, true) == i + 32 && (2 * i + 1) % 2 == 1
  {
  }

  lemma Selected(t: Tables, m: Metrics, j: State, y: Symbols)
    requires ValidTables(t)
    ensures
      var lower, upper := Candidate16(t, m, j, false, y), Candidate16(t, m, j, true, y);
      && UpperWins16(t, m, j, y) == (upper <= lower)
      && Step16(t, m, y)[j] == if upper <= lower then upper else lower
  {
    hide Candidate16;
  }

  lemma Step16Range(t: Tables, m: Metrics, y: Symbols)
    requires ValidTables(t)
    ensures forall j :: 0 <= j < 64 ==> Step16(t, m, y)[j] < WORD
  {
  }

  lemma SymbolsPush(soft: seq<Byte>, n: nat)
    requires 2 * n + 2 <= |soft|
    ensures SymbolsOf(soft, n + 1) == SymbolsOf(soft, n) + [SymbolsAt(soft, n)]
  {
  }

  lemma EmptyRun(t: Tables, k: Kernel, soft: seq<Byte>)
    requires ValidTables(t)
    ensures SymbolsOf(soft, 0) == [] && Run16(t, k, []) == k && Words16(t, k, []) == []
  {
  }

  lemma OverwriteNext(done: seq<nat>, before: seq<nat>, word: nat)
    requires |done| < |before|
    ensures (done + before[|done|..])[|done| := word] == (done + [word]) + before[|done| + 1..]
  {
  }

  lemma RunPush(t: Tables, k: Kernel, ys: seq<Symbols>, y: Symbols)
    requires ValidTables(t)
    ensures Run16(t, k, ys + [y]) == Advance(t, Run16(t, k, ys), y)
    ensures Words16(t, k, ys + [y]) == Words16(t, k, ys) + [DecisionWord16(t, Run16(t, k, ys).metrics, y)]
  {
    hide Advance, DecisionWord16;
    assert (ys + [y])[..|ys|] == ys;
  }

  function WinsOf(t: Tables, m: Metrics, y: Symbols): (wins: seq<bool>)
    requires ValidTables(t)
    ensures |wins| == 64 && WordOf(wins) == DecisionWord16(t, m, y)
    ensures forall j :: 0 <= j < 64 ==> wins[j] == UpperWins16(t, m, j, y)
  {
    seq(64, j requires 0 <= j < 64 => UpperWins16(t, m, j, y))
  }

  lemma EmptyWord()
    ensures WordOf([]) == 0
  {
  }

  lemma PushPair(wins: seq<bool>, n: nat)
    requires n + 2 <= |wins|
    ensures
      var even := Or(WordOf(wins[..n]), if wins[n] then Pow2(n) else 0);
      Or(even, if wins[n + 1] then Pow2(n + 1) else 0) == WordOf(wins[..n + 2])
  {
    hide Or, WordOf, Pow2;
    WordPush(wins[..n], wins[n]);
    assert wins[..n + 1] == wins[..n] + [wins[n]];
    WordPush(wins[..n + 1], wins[n + 1]);
    assert wins[..n + 2] == wins[..n + 1] + [wins[n + 1]];
  }

  class ViterbiState {
    const metrics: array<nat>
    const expectedA: array<Byte>
    const expectedB: array<Byte>
    var since: nat

    ghost predicate Valid()
      reads metrics, expectedA, expectedB
    {
      && metrics.Length == STATES
      && expectedA.Length == BUTTERFLIES && expectedB.Length == BUTTERFLIES
      && metrics as object != expectedA && metrics as object != expectedB && expectedA != expectedB
      && ValidTables(Expected())
      && (forall j :: 0 <= j < 64 ==> metrics[j] < WORD)
    }

    function Expected(): Tables
      reads expectedA, expectedB
    {
      Tables(expectedA[..], expectedB[..])
    }

    // An array that is none of the state's own.
    predicate Apart(other: array<nat>)
    {
      other != metrics && other as object != expectedA && other as object != expectedB
    }

    function Value(): Kernel
      requires metrics.Length == STATES
      reads this, metrics
    {
      Kernel(metrics[..], since)
    }

    constructor (t: Tables, start: Kernel)
      requires ValidTables(t) && forall j :: 0 <= j < 64 ==> start.metrics[j] < WORD
      ensures Valid() && Expected() == t && Value() == start
      ensures fresh(metrics) && fresh(expectedA) && fresh(expectedB)
    {
      metrics := new nat[64](i requires 0 <= i < 64 => start.metrics[i]);
      expectedA := new Byte[32](i requires 0 <= i < 32 => t.a[i]);
      expectedB := new Byte[32](i requires 0 <= i < 32 => t.b[i]);
      since := start.since;
      new;
      assert metrics[..] == start.metrics;
      assert expectedA[..] == t.a && expectedB[..] == t.b;
    }

    // One step of all butterflies into `next`; returns the decision word.
    method AddCompareSelect(y: Symbols, next: array<nat>) returns (word: nat)
      requires Valid() && next.Length == STATES && Apart(next)
      modifies next
      ensures next[..] == Step16(Expected(), metrics[..], y)
      ensures word == DecisionWord16(Expected(), metrics[..], y)
    {
      hide WordOf, Or, Step16, UpperWins16, DecisionWord16, Pow2, Xor, Wrap, WrapSub;
      ghost var t, m := Expected(), metrics[..];
      ghost var wins := WinsOf(t, m, y);
      word := 0;
      assert WordOf(wins[..0]) == 0 by { EmptyWord(); assert wins[..0] == []; }
      for butterfly := 0 to BUTTERFLIES
        invariant forall j :: 0 <= j < 2 * butterfly ==> next[j] == Step16(t, m, y)[j]
        invariant word == WordOf(wins[..2 * butterfly])
      {
        var metric := (Xor(expectedA[butterfly], y.s0) + Xor(expectedB[butterfly], y.s1) + 1) / 8;
        assert metric == Metric(t, butterfly, y);
        var complement := WrapSub(63, metric);
        var low := metrics[butterfly];
        var high := metrics[butterfly + 32];
        var m0 := Wrap(low + metric);
        var m1 := Wrap(high + complement);
        var m2 := Wrap(low + complement);
        var m3 := Wrap(high + metric);
        ButterflyBranches(t, m, butterfly, y);
        next[2 * butterfly] := if m1 <= m0 then m1 else m0;
        next[2 * butterfly + 1] := if m3 <= m2 then m3 else m2;
        PushPair(wins, 2 * butterfly);
        word := Or(word, if m1 <= m0 then Pow2(2 * butterfly) else 0);
        word := Or(word, if m3 <= m2 then Pow2(2 * butterfly + 1) else 0);
      }
      assert wins[..64] == wins;
      assert next[..] == Step16(t, m, y);
    }

    method Renormalize()
      requires Valid()
      modifies this, metrics
      ensures Valid()
      ensures Value() == Renormalized(old(metrics[..]))
    {
      ghost var m := metrics[..];
      var minimum := metrics[Smallest(metrics[..])];
      for j := 0 to STATES
        modifies metrics
        invariant forall i :: 0 <= i < j ==> metrics[i] == m[i] - minimum
        invariant forall i :: j <= i < 64 ==> metrics[i] == m[i]
      {
        metrics[j] := WrapSub(metrics[j], minimum);
      }
      since := 0;
      assert metrics[..] == Renormalized(m).metrics;
    }

    lemma WhatValidMeans()
      requires Valid()
      ensures metrics.Length == STATES && ValidTables(Expected())
    {
    }

    // One pass of the block loop.
    method StepInto(y: Symbols, next: array<nat>, decisions: array<nat>, step: nat)
      requires Valid() && next.Length == STATES && Apart(next)
      requires step < decisions.Length && Apart(decisions) && decisions != next
      modifies this, metrics, next, decisions
      ensures Valid()
      ensures Value() == Advance(Expected(), old(Value()), y)
      ensures decisions[..] == old(decisions[..])[step := DecisionWord16(Expected(), old(Value()).metrics, y)]
    {
      hide DecisionWord16, Step16, Renormalized, ValidTables;
      ghost var t, k := Expected(), Value();
      var word := AddCompareSelect(y, next);
      decisions[step] := word;
      Step16Range(t, k.metrics, y);
      ghost var m := Step16(t, k.metrics, y);
      forall index | 0 <= index < 64 {
        metrics[index] := next[index];
      }
      assert metrics[..] == m;
      since := since + 1;
      if since == RENORMALIZE_PERIOD {
        Renormalize();
        assert Value() == Renormalized(m);
      } else {
        assert Value() == Kernel(m, k.since + 1);
      }
    }

    // Any number of steps: the state and the decision words are those of the
    // specification, and nothing else of `decisions` changes.
    method RunGeneric(soft: seq<Byte>, steps: nat, decisions: array<nat>)
      requires Valid() && 2 * steps <= |soft| && steps <= decisions.Length && Apart(decisions)
      modifies this, metrics, decisions
      ensures Valid()
      ensures Value() == Run16(Expected(), old(Value()), SymbolsOf(soft, steps))
      ensures decisions[..] == Words16(Expected(), old(Value()), SymbolsOf(soft, steps)) + old(decisions[..])[steps..]
    {
      hide Valid, Expected, Value, ValidTables, Run16, Words16, SymbolsOf, SymbolsAt, Advance, DecisionWord16;
      WhatValidMeans();
      ghost var t, start, before := Expected(), Value(), decisions[..];
      var next := new nat[64];
      EmptyRun(t, start, soft);
      for step := 0 to steps
        invariant Valid()
        invariant Value() == Run16(t, start, SymbolsOf(soft, step))
        invariant decisions[..] == Words16(t, start, SymbolsOf(soft, step)) + before[step..]
      {
        var y := SymbolsAt(soft, step);
        SymbolsPush(soft, step);
        ghost var seen := SymbolsOf(soft, step);
        RunPush(t, start, seen, y);
        OverwriteNext(Words16(t, start, seen), before, DecisionWord16(t, Value().metrics, y));
        StepInto(y, next, decisions, step);
      }
    }
  }
}
