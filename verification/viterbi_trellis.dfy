// Dynamic programming over the trellis with unbounded path metrics: the decisions,
// the traceback, and the optimality of the survivors.
module ViterbiTrellis {
  import opened Bits
  import opened ViterbiCode

  // Cost of old state i (below 32) taking a new 0 bit.
  function Metric(t: Tables, i: nat, y: Symbols): (c: nat)
    requires ValidTables(t) && i < BUTTERFLIES
  {
    (Xor(t.a[i], y.s0) + Xor(t.b[i], y.s1) + 1) / 8
  }

  // Distance between an expected byte (0 / 255) and a soft symbol.
  function Mismatch(expected: Byte, soft: Byte): (d: nat)
    requires expected == 0 || expected == 255
  {
    if expected == 0 then soft else 255 - soft
  }

  lemma MetricRange(t: Tables, i: nat, y: Symbols)
    requires ValidTables(t) && i < BUTTERFLIES
    ensures Metric(t, i, y) == (Mismatch(t.a[i], y.s0) + Mismatch(t.b[i], y.s1) + 1) / 8 <= 63
  {
    hide Xor;
    assert Pow2(8) == 256;
    XorWithZero(y.s0);
    XorWithZero(y.s1);
    XorWithOnes(8, y.s0);
    XorWithOnes(8, y.s1);
  }

  // Cost of the branch that leaves state s on a bit: the butterfly's metric when both or
  // neither of its end bits are set, 63 minus that metric otherwise.
  function Cost(t: Tables, s: State, bit: Bit, y: Symbols): (c: nat)
    requires ValidTables(t)
    ensures c <= 63
  {
    MetricRange(t, s % 32, y);
    if (s / 32 + bit) % 2 == 0 then Metric(t, s % 32, y) else 63 - Metric(t, s % 32, y)
  }

  // The cost as the documentation defines it, from the bits the encoder would send.
  function DocumentedCost(code: Code, s: State, bit: Bit, y: Symbols): nat
  {
    var sent := Transmit(code, Reverse(s, 6), bit);
    (Mismatch(sent.s0, y.s0) + Mismatch(sent.s1, y.s1) + 1) / 8
  }

  // Old state a new state is reached from, on the branch with oldest bit 0 or 1.
  function Pred(j: State, upper: bool): State
  {
    j / 2 + if upper then 32 else 0
  }

  lemma PredNext(j: State, upper: bool)
    ensures Next(Pred(j, upper), j % 2) == j
  {
  }

  lemma NextPred(s: State, bit: Bit)
    ensures Next(s, bit) % 2 == bit && Pred(Next(s, bit), s >= 32) == s
  {
  }

  type Metrics = m: seq<nat> | |m| == 64 witness seq(64, _ => 0)

  function Candidate(t: Tables, m: Metrics, j: State, upper: bool, y: Symbols): nat
    requires ValidTables(t)
  {
    m[Pred(j, upper)] + Cost(t, Pred(j, upper), j % 2, y)
  }

  // Ties go to the path whose oldest bit is 1.
  predicate UpperWins(t: Tables, m: Metrics, j: State, y: Symbols)
    requires ValidTables(t)
  {
    Candidate(t, m, j, true, y) <= Candidate(t, m, j, false, y)
  }

  function Step(t: Tables, m: Metrics, y: Symbols): (r: Metrics)
    requires ValidTables(t)
  {
    seq(64, j requires 0 <= j < 64 => Candidate(t, m, j, UpperWins(t, m, j, y), y))
  }

  function DecisionWord(t: Tables, m: Metrics, y: Symbols): nat
    requires ValidTables(t)
  {
    WordOf(seq(64, j requires 0 <= j < 64 => UpperWins(t, m, j, y)))
  }

  // Metrics after a symbol sequence, and one decision word per step.
  function Run(t: Tables, m: Metrics, ys: seq<Symbols>): Metrics
    requires ValidTables(t)
  {
    if ys == [] then m else Step(t, Run(t, m, ys[..|ys| - 1]), ys[|ys| - 1])
  }

  function Words(t: Tables, m: Metrics, ys: seq<Symbols>): (w: seq<nat>)
    requires ValidTables(t)
    ensures |w| == |ys|
  {
    if ys == [] then []
    else
      var before := ys[..|ys| - 1];
      Words(t, m, before) + [DecisionWord(t, Run(t, m, before), ys[|ys| - 1])]
  }

  function PathCost(t: Tables, s: State, bits: seq<Bit>, ys: seq<Symbols>): nat
    requires ValidTables(t) && |bits| == |ys|
  {
    if bits == [] then 0
    else
      var n := |bits| - 1;
      PathCost(t, s, bits[..n], ys[..n]) + Cost(t, StateAfter(s, bits[..n]), bits[n], ys[n])
  }

  datatype Path = Path(start: State, bits: seq<Bit>)

  // Follow the decision words back from a state.
  function Traceback(words: seq<nat>, j: State): (p: Path)
    ensures |p.bits| == |words|
  {
    if words == [] then Path(j, [])
    else
      var n := |words| - 1;
      var p := Traceback(words[..n], Pred(j, BitSet(words[n], j)));
      Path(p.start, p.bits + [j % 2])
  }

  // No path is cheaper than the metric of the state it ends in.
  lemma {:induction false} MetricsAreLowerBounds(t: Tables, m: Metrics, s: State, bits: seq<Bit>, ys: seq<Symbols>)
    requires ValidTables(t) && |bits| == |ys|
    ensures Run(t, m, ys)[StateAfter(s, bits)] <= m[s] + PathCost(t, s, bits, ys)
  {
    if bits != [] {
      var n := |bits| - 1;
      MetricsAreLowerBounds(t, m, s, bits[..n], ys[..n]);
      var before := Run(t, m, ys[..n]);
      var p := StateAfter(s, bits[..n]);
      NextPred(p, bits[n]);
      StepIsMinimum(t, before, Next(p, bits[n]), ys[n]);
    }
  }

  lemma StepIsMinimum(t: Tables, m: Metrics, j: State, y: Symbols)
    requires ValidTables(t)
    ensures Step(t, m, y)[j] <= Candidate(t, m, j, false, y)
    ensures Step(t, m, y)[j] <= Candidate(t, m, j, true, y)
    ensures Step(t, m, y)[j] == Candidate(t, m, j, BitSet(DecisionWord(t, m, y), j), y)
    ensures Candidate(t, m, j, true, y) == Candidate(t, m, j, false, y) ==> BitSet(DecisionWord(t, m, y), j)
  {
    var bits := seq(64, i requires 0 <= i < 64 => UpperWins(t, m, i, y));
    BitOfWord(bits, j);
  }

  // The survivor found by following the decision words ends in the state it was
  // followed from and costs exactly that state's metric.
  lemma {:induction false} TracebackIsTight(t: Tables, m: Metrics, ys: seq<Symbols>, j: State)
    requires ValidTables(t)
    ensures
      var p := Traceback(Words(t, m, ys), j);
      && StateAfter(p.start, p.bits) == j
      && Run(t, m, ys)[j] == m[p.start] + PathCost(t, p.start, p.bits, ys)
  {
    hide Step, DecisionWord, Cost, BitSet, Next;
    if ys != [] {
      var n := |ys| - 1;
      var words := Words(t, m, ys);
      var before := Run(t, m, ys[..n]);
      StepIsMinimum(t, before, j, ys[n]);
      var upper := BitSet(words[n], j);
      assert words[..n] == Words(t, m, ys[..n]);
      PredNext(j, upper);
      TracebackIsTight(t, m, ys[..n], Pred(j, upper));
      var p := Traceback(words, j);
      var q := Traceback(words[..n], Pred(j, upper));
      assert p.bits[..n] == q.bits;
    }
  }

  // Main result: the metric of every state is the cost of the cheapest path that ends
  // there, and traceback from that state returns such a path.
  lemma SurvivorIsOptimal(t: Tables, m: Metrics, ys: seq<Symbols>, j: State, s: State, bits: seq<Bit>)
    requires ValidTables(t) && |bits| == |ys| && StateAfter(s, bits) == j
    ensures
      var p := Traceback(Words(t, m, ys), j);
      && |p.bits| == |ys| && StateAfter(p.start, p.bits) == j
      && Run(t, m, ys)[j] == m[p.start] + PathCost(t, p.start, p.bits, ys) <= m[s] + PathCost(t, s, bits, ys)
  {
    TracebackIsTight(t, m, ys, j);
    MetricsAreLowerBounds(t, m, s, bits, ys);
  }

  // ---- Spread of the metrics ----

  lemma {:induction false} PathCostBound(t: Tables, s: State, bits: seq<Bit>, ys: seq<Symbols>)
    requires ValidTables(t) && |bits| == |ys|
    ensures PathCost(t, s, bits, ys) <= 63 * |ys|
  {
    if bits != [] {
      PathCostBound(t, s, bits[..|bits| - 1], ys[..|bits| - 1]);
    }
  }

  // The six input bits that lead to state j from anywhere, oldest first.
  function BitsOf(j: State): (bits: seq<Bit>)
    ensures |bits| == 6
  {
    var h1 := j / 2;
    var h2 := h1 / 2;
    var h3 := h2 / 2;
    var h4 := h3 / 2;
    [h4 / 2, h4 % 2, h3 % 2, h2 % 2, h1 % 2, j % 2]
  }

  function Number(a: int, b: int, c: int, d: int, e: int, f: int): int
  {
    32 * a + 16 * b + 8 * c + 4 * d + 2 * e + f
  }

  // Each step moves the old bits up one place and drops the oldest.
  lemma NextDropsTop(top: Bit, rest: nat, bit: Bit)
    requires rest < 32
    ensures Next(32 * top + rest, bit) == 2 * rest + bit
  {
    DivUnique(2 * (32 * top + rest) + bit, 64, top, 2 * rest + bit);
  }

  lemma NextOfNumber(a: Bit, b: Bit, c: Bit, d: Bit, e: Bit, f: Bit, bit: Bit)
    ensures Next(Number(a, b, c, d, e, f), bit) == Number(b, c, d, e, f, bit)
  {
    hide Next;
    NextDropsTop(a, Number(0, b, c, d, e, f), bit);
  }

  lemma BitsAddUp(j: State)
    ensures
      var b := BitsOf(j);
      j == Number(b[0], b[1], b[2], b[3], b[4], b[5])
  {
  }

  // After six steps the state is the last six bits.
  lemma LastSixBits(s: State, b: seq<Bit>)
    requires |b| == 6
    ensures StateAfter(s, b) == Number(b[0], b[1], b[2], b[3], b[4], b[5])
  {
    hide Next, StateAfter;
    var a := BitsOf(s);
    StateAfterSix(s, b);
    BitsAddUp(s);
    hide BitsOf;
    NextOfNumber(a[0], a[1], a[2], a[3], a[4], a[5], b[0]);
    NextOfNumber(a[1], a[2], a[3], a[4], a[5], b[0], b[1]);
    NextOfNumber(a[2], a[3], a[4], a[5], b[0], b[1], b[2]);
    NextOfNumber(a[3], a[4], a[5], b[0], b[1], b[2], b[3]);
    NextOfNumber(a[4], a[5], b[0], b[1], b[2], b[3], b[4]);
    NextOfNumber(a[5], b[0], b[1], b[2], b[3], b[4], b[5]);
  }

  // Six steps connect every state to every state.
  lemma SixStepsConnect(s: State, j: State)
    ensures StateAfter(s, BitsOf(j)) == j
  {
    hide Next, StateAfter;
    LastSixBits(s, BitsOf(j));
    BitsAddUp(j);
  }

  lemma StateAfterSix(s: State, b: seq<Bit>)
    requires |b| == 6
    ensures StateAfter(s, b) == Next(Next(Next(Next(Next(Next(s, b[0]), b[1]), b[2]), b[3]), b[4]), b[5])
  {
    hide Next;
    assert b[..1] == [] + [b[0]] && b[..2] == b[..1] + [b[1]] && b[..3] == b[..2] + [b[2]];
    assert b[..4] == b[..3] + [b[3]] && b[..5] == b[..4] + [b[4]] && b == b[..5] + [b[5]];
    StateAfterAppend(s, [], b[0]);
    StateAfterAppend(s, b[..1], b[1]);
    StateAfterAppend(s, b[..2], b[2]);
    StateAfterAppend(s, b[..3], b[3]);
    StateAfterAppend(s, b[..4], b[4]);
    StateAfterAppend(s, b[..5], b[5]);
  }

  lemma StateAfterAppend(s: State, bits: seq<Bit>, bit: Bit)
    ensures StateAfter(s, bits + [bit]) == Next(StateAfter(s, bits), bit)
  {
    assert (bits + [bit])[..|bits|] == bits;
  }

  // A run over two blocks is a run over the second one from where the first ended.
  lemma {:induction false} RunAppend(t: Tables, m: Metrics, xs: seq<Symbols>, ys: seq<Symbols>)
    requires ValidTables(t)
    ensures Run(t, m, xs + ys) == Run(t, Run(t, m, xs), ys)
    ensures Words(t, m, xs + ys) == Words(t, m, xs) + Words(t, Run(t, m, xs), ys)
  {
    hide Step, DecisionWord;
    var all := xs + ys;
    if ys == [] {
      assert all == xs;
    } else {
      var n := |ys| - 1;
      RunAppend(t, m, xs, ys[..n]);
      var before := all[..|all| - 1];
      assert before == xs + ys[..n];
      assert all[|all| - 1] == ys[n];
      var word := DecisionWord(t, Run(t, m, before), ys[n]);
      assert Words(t, m, all) == Words(t, m, before) + [word];
      assert Words(t, Run(t, m, xs), ys) == Words(t, Run(t, m, xs), ys[..n]) + [word];
    }
  }

  // From the sixth step on no two metrics differ by more than 6 * 63, whatever the
  // start metrics and the symbols were.
  lemma SpreadAfterSixSteps(t: Tables, m: Metrics, ys: seq<Symbols>, i: State, j: State)
    requires ValidTables(t) && |ys| >= 6
    ensures Run(t, m, ys)[j] <= Run(t, m, ys)[i] + 378
  {
    var n := |ys| - 6;
    var base := Run(t, m, ys[..n]);
    assert ys == ys[..n] + ys[n..];
    RunAppend(t, m, ys[..n], ys[n..]);
    var p := Traceback(Words(t, base, ys[n..]), i);
    TracebackIsTight(t, base, ys[n..], i);
    SixStepsConnect(p.start, j);
    MetricsAreLowerBounds(t, base, p.start, BitsOf(j), ys[n..]);
    PathCostBound(t, p.start, BitsOf(j), ys[n..]);
  }

  // A metric grows by at most 63 a step.
  lemma {:induction false} GrowthBound(t: Tables, m: Metrics, ys: seq<Symbols>, high: nat, j: State)
    requires ValidTables(t)
    requires forall i :: 0 <= i < 64 ==> m[i] <= high
    ensures Run(t, m, ys)[j] <= high + 63 * |ys|
  {
    if ys != [] {
      var n := |ys| - 1;
      GrowthBound(t, m, ys[..n], high, Pred(j, false));
      StepIsMinimum(t, Run(t, m, ys[..n]), j, ys[n]);
    }
  }

  // ---- The code's costs against the documented ones ----

  // The cost of a branch against what the encoder sends on that branch or on the other one
  // out of the same state: free on the branch itself, the most on the other one.
  predicate CostsItsMismatch(code: Code, s: State, sent: Bit, bit: Bit)
  {
    Cost(TablesOf(code), s, bit, Transmit(code, Reverse(s, 6), sent)) == if bit == sent then 0 else 63
  }

  lemma SentCosts(code: Code, s: State, sent: Bit, bit: Bit)
    requires ValidCode(code) && Transparent(code)
    ensures CostsItsMismatch(code, s, sent, bit)
  {
    hide Reverse, ExpectedBit, Metric, TableEntry;
    var t, i := TablesOf(code), s % 32;
    var y := Transmit(code, Reverse(s, 6), sent);
    RegisterIsReversedState(s, sent);
    BranchIsComplement(code.polynomialA, s, sent);
    BranchIsComplement(code.polynomialB, s, sent);
    MetricRange(t, i, y);
    assert t.a[i] == TableEntry(code.polynomialA, i) && t.b[i] == TableEntry(code.polynomialB, i);
    hide TablesOf, Transmit, Shift;
    if (s / 32 + sent) % 2 == 0 {
      assert Metric(t, i, y) == 0;
    } else {
      assert Mismatch(t.a[i], y.s0) == 255 && Mismatch(t.b[i], y.s1) == 255;
      assert Metric(t, i, y) == 63;
    }
    SameParity(s / 32, sent, bit);
  }

  lemma SameParity(top: nat, a: Bit, b: Bit)
    ensures (top + a) % 2 == (top + b) % 2 <==> a == b
  {
    assert (top + 1) % 2 == 1 - top % 2;
  }

  // What a soft symbol pair costs on the branches that flip the first table entries, which
  // are those of an empty register.
  lemma FirstCosts(code: Code, s: State, bit: Bit, y: Symbols)
    requires ValidCode(code) && s % 32 == 0
    ensures
      var metric := (y.s0 + y.s1 + 1) / 8;
      Cost(TablesOf(code), s, bit, y) == if (s / 32 + bit) % 2 == 0 then metric else 63 - metric
  {
    hide TableEntry, Metric;
    FirstEntry(code.polynomialA);
    FirstEntry(code.polynomialB);
    MetricRange(TablesOf(code), 0, y);
  }

  // What the encoder sends on them.
  lemma FirstSent(code: Code, s: State, bit: Bit)
    requires ValidCode(code) && s % 32 == 0
    ensures Transmit(code, Reverse(s, 6), bit) ==
            Symbols(if Flips(code.polynomialA, s / 32, bit) then 255 else 0, if Flips(code.polynomialB, s / 32, bit) then 255 else 0)
  {
    hide Reverse, ExpectedBit, TableEntry;
    RegisterIsReversedState(s, bit);
    FirstEntry(code.polynomialA);
    FirstEntry(code.polynomialB);
    BranchBit(code.polynomialA, s, bit);
    BranchBit(code.polynomialB, s, bit);
  }

  // A code with an end untapped charges one of two branches for its own symbols: the one a
  // 1 enters an empty register on, or the one it leaves it on.
  lemma EndsAreCharged(code: Code)
    requires ValidCode(code)
    ensures Cost(TablesOf(code), 0, 1, Transmit(code, Reverse(0, 6), 1)) == 0 <==>
              TapsNewest(code.polynomialA) && TapsNewest(code.polynomialB)
    ensures Cost(TablesOf(code), 32, 0, Transmit(code, Reverse(32, 6), 0)) == 0 <==>
              TapsOldest(code.polynomialA) && TapsOldest(code.polynomialB)
  {
    hide Reverse, Transmit, Cost, TablesOf;
    FirstSent(code, 0, 1);
    FirstSent(code, 32, 0);
    FirstCosts(code, 0, 1, Transmit(code, Reverse(0, 6), 1));
    FirstCosts(code, 32, 0, Transmit(code, Reverse(32, 6), 0));
  }

  // Main result on branch costs: they tell the sent branch from the other exactly for codes
  // whose polynomials both tap both ends.
  lemma CostOfSent(code: Code)
    requires ValidCode(code)
    ensures Transparent(code) <==> forall s: State, sent: Bit, bit: Bit :: CostsItsMismatch(code, s, sent, bit)
  {
    hide Reverse, Transmit, Cost, TablesOf, TapsNewest, TapsOldest;
    if Transparent(code) {
      forall s: State, sent: Bit, bit: Bit ensures CostsItsMismatch(code, s, sent, bit) {
        SentCosts(code, s, sent, bit);
      }
    } else {
      EndsAreCharged(code);
      assert !CostsItsMismatch(code, 0, 1, 1) || !CostsItsMismatch(code, 32, 0, 0);
    }
  }

  // The cost the kernel uses is the documented one, except that on the complemented
  // branches of a butterfly it is one lower exactly when 8 divides x + 1, where x is the
  // mismatch of the uncomplemented branch.
  predicate CostsAsDocumented(code: Code, s: State, bit: Bit, y: Symbols)
  {
    var t := TablesOf(code);
    var x := Mismatch(t.a[s % 32], y.s0) + Mismatch(t.b[s % 32], y.s1);
    var low := (s / 32 + bit) % 2 == 1 && (x + 1) % 8 == 0;
    DocumentedCost(code, s, bit, y) == Cost(t, s, bit, y) + if low then 1 else 0
  }

  lemma BranchCostsAsDocumented(code: Code, s: State, bit: Bit, y: Symbols)
    requires ValidCode(code) && Transparent(code)
    ensures CostsAsDocumented(code, s, bit, y)
  {
    hide Reverse, ExpectedBit, Metric, TableEntry;
    var t := TablesOf(code);
    var x := Mismatch(t.a[s % 32], y.s0) + Mismatch(t.b[s % 32], y.s1);
    MetricRange(t, s % 32, y);
    RegisterIsReversedState(s, bit);
    BranchIsComplement(code.polynomialA, s, bit);
    BranchIsComplement(code.polynomialB, s, bit);
    ComplementedRounding(x);
    hide TablesOf, Shift;
    assert t.a[s % 32] == TableEntry(code.polynomialA, s % 32) && t.b[s % 32] == TableEntry(code.polynomialB, s % 32);
  }

  // Rounding the complemented mismatch against complementing the rounded one.
  lemma ComplementedRounding(x: nat)
    requires x <= 510
    ensures (510 - x + 1) / 8 == 63 - (x + 1) / 8 + if (x + 1) % 8 == 0 then 1 else 0
  {
  }

  // What a branch sends costs it nothing by the documentation.
  lemma SentIsFreeByDocumentation(code: Code, s: State, bit: Bit)
    ensures DocumentedCost(code, s, bit, Transmit(code, Reverse(s, 6), bit)) == 0
  {
    hide Reverse, ExpectedBit;
  }

  // Main result: the relation holds on every branch exactly for codes that tap both ends.
  lemma CostAgainstDocumentation(code: Code)
    requires ValidCode(code)
    ensures Transparent(code) <==> forall s: State, bit: Bit, y: Symbols :: CostsAsDocumented(code, s, bit, y)
  {
    hide Reverse, Transmit, Cost, DocumentedCost, TablesOf, Mismatch, TapsNewest, TapsOldest;
    if Transparent(code) {
      forall s: State, bit: Bit, y: Symbols ensures CostsAsDocumented(code, s, bit, y) {
        BranchCostsAsDocumented(code, s, bit, y);
      }
    } else {
      EndsAreCharged(code);
      SentIsFreeByDocumentation(code, 0, 1);
      SentIsFreeByDocumentation(code, 32, 0);
      assert !CostsAsDocumented(code, 0, 1, Transmit(code, Reverse(0, 6), 1)) ||
             !CostsAsDocumented(code, 32, 0, Transmit(code, Reverse(32, 6), 0));
    }
  }

  // An input where the two differ: the code of the documentation, a 1 entering an empty
  // register, and a first symbol of 7.
  lemma CostsDiffer()
    ensures
      var code, y := Code(0x79, 0x5B), Symbols(7, 0);
      && ValidCode(code) && Transparent(code)
      && Cost(TablesOf(code), 0, 1, y) == 62 && DocumentedCost(code, 0, 1, y) == 63
  {
    hide Reverse, Cost, TablesOf, Transmit;
    var code, y := Code(0x79, 0x5B), Symbols(7, 0);
    FirstCosts(code, 0, 1, y);
    FirstSent(code, 0, 1);
  }
}
