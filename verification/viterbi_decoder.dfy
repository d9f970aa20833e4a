// The decoder as its callers see it: configured once, fed blocks of any size, read back
// through the decision words and the best state.
module ViterbiDecoder {
  import opened Bits
  import opened ViterbiCode
  import opened ViterbiTrellis
  import opened ViterbiMetrics16
  import opened ViterbiKernel
  import opened ViterbiAvx2

  datatype Config = Config(code: Code, knownStartState: nat, startPenalty: nat)

  predicate ValidConfig(c: Config)
  {
    ValidCode(c.code) && c.startPenalty <= MAX_START_PENALTY
  }

  // State 0 starts ahead of the others when the encoder's start state is known.
  function StartMetric(c: Config, s: State): nat
  {
    if c.knownStartState != 0 && s == 0 then 0 else c.startPenalty
  }

  function StartMetrics(c: Config): Metrics
  {
    seq(64, s requires 0 <= s < 64 => StartMetric(c, s))
  }

  // Placing the next bit of a reversed register below the ones already there.
  lemma PlaceDigit(high: nat, digit: Bit, rest: nat, n: nat)
    ensures Or(Pow2(n + 1) * high, digit * Pow2(n)) == Pow2(n) * (2 * high + digit)
    ensures Pow2(n) * (2 * high + digit) == Pow2(n + 1) * high + (if digit == 0 then 0 else Pow2(n))
  {
    hide Or;
    var p := Pow2(n);
    var low := digit * p;
    assert low == if digit == 0 then 0 else p;
    OrCommutes(2 * p * high, low);
    OrAbove(low, n + 1, high);
    assert 2 * p * high + low == p * (2 * high + digit);
  }

  // The register a butterfly's branch puts into the encoder: seven bits in reverse.
  method RegisterBits(stateBits: nat) returns (register: nat)
    ensures register == Reverse(stateBits, 7)
  {
    hide Or, Reverse, Pow2;
    register := 0;
    ghost var high, rest := 0, stateBits;
    PowersOfTwo();
    for bit := 0 to 7
      invariant rest == stateBits / Pow2(bit)
      invariant register == Pow2(7 - bit) * high
      invariant Reverse(stateBits, 7) == register + Reverse(rest, 7 - bit)
    {
      var digit := stateBits / Pow2(bit) % 2;
      PlaceDigit(high, digit, rest, 6 - bit);
      ReverseCons(rest / 2, digit, 6 - bit);
      Pow2Step(bit);
      HalfOfQuotient(stateBits, Pow2(bit));
      register := Or(register, digit * Pow2(6 - bit));
      rest, high := rest / 2, 2 * high + digit;
    }
    ReverseNothing(rest);
  }

  lemma PowersOfTwo()
    ensures Pow2(0) == 1
  {
  }

  lemma Pow2Step(n: nat)
    ensures Pow2(n + 1) == 2 * Pow2(n)
  {
  }

  // The expected-bit tables of all butterflies.
  method ExpectedTables(code: Code) returns (a: seq<Byte>, b: seq<Byte>)
    ensures Tables(a, b) == TablesOf(code)
  {
    hide Reverse, ExpectedBit;
    a, b := [], [];
    for butterfly := 0 to BUTTERFLIES
      invariant |a| == butterfly && |b| == butterfly
      invariant forall i :: 0 <= i < butterfly ==> a[i] == TableEntry(code.polynomialA, i)
      invariant forall i :: 0 <= i < butterfly ==> b[i] == TableEntry(code.polynomialB, i)
    {
      var register := RegisterBits(2 * butterfly);
      a := a + [ExpectedBit(code.polynomialA, register)];
      b := b + [ExpectedBit(code.polynomialB, register)];
    }
  }

  lemma StartMetricsAre(c: Config)
    ensures forall s :: 0 <= s < 64 ==> StartMetrics(c)[s] == if s == 0 && c.knownStartState != 0 then 0 else c.startPenalty
  {
  }

  lemma StartIsValid(c: Config)
    requires ValidConfig(c)
    ensures ValidStart(Kernel(StartMetrics(c), 0))
  {
  }

  datatype Outcome = Rejected | Accepted(decoder: Decoder)

  class Decoder {
    const config: Config
    const initial: ViterbiState
    const state: ViterbiState
    const vector: bool
    // Every symbol consumed since creation or the last reset.
    ghost var stream: seq<Symbols>

    ghost predicate Valid()
      reads this, initial, initial.metrics, initial.expectedA, initial.expectedB
      reads state, state.metrics, state.expectedA, state.expectedB
    {
      && ValidConfig(config)
      && initial != state && initial.Valid() && state.Valid()
      && initial.metrics != state.metrics && state.Apart(initial.metrics) && initial.Apart(state.metrics)
      && initial.Expected() == TablesOf(config.code) && state.Expected() == TablesOf(config.code)
      && initial.Value() == Kernel(StartMetrics(config), 0)
      && state.Value() == Run16(TablesOf(config.code), Kernel(StartMetrics(config), 0), stream)
    }

    // Nothing decoded yet: only a known start state 0 is ahead of the others, by the penalty.
    ghost predicate AtStart()
      reads state, state.metrics
    {
      && state.metrics.Length == 64 && state.since == 0
      && forall s :: 0 <= s < 64 ==> state.metrics[s] == if s == 0 && config.knownStartState != 0 then 0 else config.startPenalty
    }

    // A decoder always starts from a valid configuration; see Initialize.
    constructor (config: Config, t: Tables, vector: bool)
      requires ValidConfig(config) && t == TablesOf(config.code)
      ensures Valid() && fresh(initial) && fresh(state)
      ensures this.config == config && this.vector == vector && stream == [] && AtStart()
    {
      StartIsValid(config);
      this.config, this.vector := config, vector;
      var start := Kernel(StartMetrics(config), 0);
      initial := new ViterbiState(t, start);
      state := new ViterbiState(t, start);
      stream := [];
    }

    method Reset()
      requires Valid()
      modifies this, state, state.metrics
      ensures Valid() && stream == [] && AtStart()
    {
      hide TablesOf, Run16, StartMetrics;
      forall j | 0 <= j < 64 {
        state.metrics[j] := initial.metrics[j];
      }
      state.since := initial.since;
      assert state.metrics[..] == initial.metrics[..];
      RunOfNothing(TablesOf(config.code), Kernel(StartMetrics(config), 0));
      stream := [];
      StartMetricsAre(config);
    }

    // One block. The decision words are those of one run of unbounded metrics over the
    // whole stream so far, and so is the best state: neither the block split, the
    // backend, the 16-bit width nor renormalisation shows.
    method Execute(soft: seq<Byte>, steps: nat, decisions: array<nat>) returns (bestState: nat)
      requires Valid() && 2 * steps <= |soft| && steps <= decisions.Length
      requires state.Apart(decisions) && initial.Apart(decisions)
      modifies this, state, state.metrics, decisions
      ensures Valid() && |stream| == old(|stream|) + steps && stream[..old(|stream|)] == old(stream)
      ensures forall i :: 0 <= i < steps ==>
        stream[old(|stream|) + i].s0 == soft[2 * i] && stream[old(|stream|) + i].s1 == soft[2 * i + 1]
      ensures
        var t, m := TablesOf(config.code), StartMetrics(config);
        && Words(t, m, stream) == Words(t, m, old(stream)) + decisions[..steps]
        && bestState == Smallest(Run(t, m, stream))
      ensures decisions[steps..] == old(decisions[steps..])
    {
      hide TablesOf, Run16, Words16, Run, Words, SymbolsOf, StartMetrics, Smallest, ValidStart;
      ghost var t, k, ys := TablesOf(config.code), Kernel(StartMetrics(config), 0), SymbolsOf(soft, steps);
      ghost var before, now := decisions[..], state.Value();
      if steps != 0 {
        if vector {
          RunAvx2(state, soft, steps, decisions);
        } else {
          state.RunGeneric(soft, steps, decisions);
        }
        assert decisions[..] == Words16(t, now, ys) + before[steps..];
      } else {
        EmptyRun(t, now, soft);
      }
      StartIsValid(config);
      StreamRun(t, k, stream, ys);
      SymbolsAreBytes(soft, steps);
      stream := stream + ys;
      assert forall i :: 0 <= i < steps ==> stream[old(|stream|) + i] == ys[i];
      assert decisions[..steps] == Words16(t, now, ys) && decisions[steps..] == before[steps..];
      bestState := Smallest(state.metrics[..]);
    }
  }

  lemma SymbolsAreBytes(soft: seq<Byte>, steps: nat)
    requires 2 * steps <= |soft|
    ensures forall i :: 0 <= i < steps ==> SymbolsOf(soft, steps)[i] == Symbols(soft[2 * i], soft[2 * i + 1])
  {
  }

  lemma RunOfNothing(t: Tables, k: Kernel)
    requires ValidTables(t)
    ensures Run16(t, k, []) == k
  {
  }

  // A run over a stream and one more block.
  lemma StreamRun(t: Tables, k: Kernel, stream: seq<Symbols>, ys: seq<Symbols>)
    requires ValidTables(t) && ValidStart(k)
    ensures
      var now := Run16(t, k, stream);
      && Run16(t, k, stream + ys) == Run16(t, now, ys)
      && Words(t, k.metrics, stream + ys) == Words(t, k.metrics, stream) + Words16(t, now, ys)
      && Smallest(Run16(t, now, ys).metrics) == Smallest(Run(t, k.metrics, stream + ys))
  {
    hide *;
    RunAppend16(t, k, stream, ys);
    SixteenBitsSuffice(t, k, stream);
    SixteenBitsSuffice(t, k, stream + ys);
    SmallestOfShifted(Run16(t, k, stream + ys).metrics, Run(t, k.metrics, stream + ys), Offset(t, k, stream + ys));
  }

  // Creation: a polynomial outside 1 to 127 or a penalty above 1024 is rejected.
  method Initialize(config: Config, vector: bool) returns (r: Outcome)
    ensures r.Accepted? <==>
              1 <= config.code.polynomialA <= 127 && 1 <= config.code.polynomialB <= 127 && config.startPenalty <= 1024
    ensures r.Accepted? ==>
              && r.decoder.Valid() && fresh(r.decoder) && r.decoder.config == config && r.decoder.vector == vector
              && r.decoder.stream == [] && r.decoder.AtStart()
  {
    if !ValidPolynomial(config.code.polynomialA) || !ValidPolynomial(config.code.polynomialB) ||
       config.startPenalty > MAX_START_PENALTY {
      return Rejected;
    }
    var a, b := ExpectedTables(config.code);
    var decoder := new Decoder(config, Tables(a, b), vector);
    r := Accepted(decoder);
  }
}
