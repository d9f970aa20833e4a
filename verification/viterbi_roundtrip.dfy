// What decoding returns: the most likely path in general, and the transmitted bits
// themselves when nothing was disturbed.
module ViterbiRoundTrip {
  import opened Bits
  import opened ViterbiCode
  import opened ViterbiTrellis
  import opened ViterbiMetrics16
  import opened ViterbiDecoder

  // What a caller does with a block's results: trace back from the best state.
  function Decode(t: Tables, k: Kernel, ys: seq<Symbols>): Path
    requires ValidTables(t)
  {
    Traceback(Words16(t, k, ys), Smallest(Run16(t, k, ys).metrics))
  }

  function TotalCost(t: Tables, m: Metrics, p: Path, ys: seq<Symbols>): nat
    requires ValidTables(t) && |p.bits| == |ys|
  {
    m[p.start] + PathCost(t, p.start, p.bits, ys)
  }

  // The decoded path is a cheapest path overall.
  lemma DecodedPathIsCheapest(t: Tables, k: Kernel, ys: seq<Symbols>, q: Path)
    requires ValidTables(t) && ValidStart(k) && |q.bits| == |ys|
    ensures
      var p := Decode(t, k, ys);
      |p.bits| == |ys| && TotalCost(t, k.metrics, p, ys) <= TotalCost(t, k.metrics, q, ys)
  {
    hide ValidStart, ValidTables, Smallest, Run, Words, Run16, Words16, Traceback;
    SixteenBitsSuffice(t, k, ys);
    SmallestOfShifted(Run16(t, k, ys).metrics, Run(t, k.metrics, ys), Offset(t, k, ys));
    var best := Smallest(Run(t, k.metrics, ys));
    TracebackIsTight(t, k.metrics, ys, best);
    MetricsAreLowerBounds(t, k.metrics, q.start, q.bits, ys);
  }

  // ---- What the encoder sends ----

  // The transmitted path costs nothing.
  lemma {:induction false} SentIsFree(code: Code, bits: seq<Bit>)
    requires ValidCode(code) && Transparent(code)
    ensures PathCost(TablesOf(code), 0, bits, Encode(code, bits)) == 0
  {
    hide Cost, TablesOf, Transmit;
    if bits != [] {
      var n := |bits| - 1;
      SentIsFree(code, bits[..n]);
      MemoryIsReversedState(bits[..n]);
      SentCosts(code, StateAfter(0, bits[..n]), bits[n], bits[n]);
      assert Encode(code, bits)[..n] == Encode(code, bits[..n]);
    }
  }

  // From the known start state it is the only one.
  lemma {:induction false} FreeIsSent(code: Code, bits: seq<Bit>, guess: seq<Bit>)
    requires ValidCode(code) && Transparent(code) && |guess| == |bits|
    requires PathCost(TablesOf(code), 0, guess, Encode(code, bits)) == 0
    ensures guess == bits
  {
    hide Cost, TablesOf, Transmit;
    if bits != [] {
      var n := |bits| - 1;
      assert Encode(code, bits)[..n] == Encode(code, bits[..n]);
      FreeIsSent(code, bits[..n], guess[..n]);
      MemoryIsReversedState(bits[..n]);
      SentCosts(code, StateAfter(0, bits[..n]), bits[n], guess[n]);
      assert guess == guess[..n] + [guess[n]] && bits == bits[..n] + [bits[n]];
    }
  }

  // ---- Codes that do not tap both ends ----

  // The cost of the last step, and of a prefix.
  lemma LastStepCost(t: Tables, s: State, bits: seq<Bit>, bit: Bit, ys: seq<Symbols>, y: Symbols)
    requires ValidTables(t) && |bits| == |ys|
    ensures PathCost(t, s, bits + [bit], ys + [y]) == PathCost(t, s, bits, ys) + Cost(t, StateAfter(s, bits), bit, y)
  {
    assert (bits + [bit])[..|bits|] == bits && (ys + [y])[..|ys|] == ys;
  }

  lemma {:induction false} FirstStepCost(t: Tables, s: State, bits: seq<Bit>, ys: seq<Symbols>)
    requires ValidTables(t) && |bits| == |ys| > 0
    ensures PathCost(t, s, bits, ys) >= Cost(t, s, bits[0], ys[0])
  {
    hide Cost;
    var n := |bits| - 1;
    if n > 0 { FirstStepCost(t, s, bits[..n], ys[..n]); }
  }

  // A 1 entering the register, and the same 1 shifted through to its end.
  function Entering(): (bits: seq<Bit>) { [1] }

  function Leaving(): (bits: seq<Bit>) { [1, 0, 0, 0, 0, 0, 0] }

  lemma EncodeLast(code: Code, bits: seq<Bit>, bit: Bit)
    ensures Encode(code, bits + [bit]) == Encode(code, bits) + [Transmit(code, Reverse(StateAfter(0, bits), 6), bit)]
  {
    hide Transmit, Reverse;
    assert (bits + [bit])[..|bits|] == bits;
    MemoryIsReversedState(bits);
  }

  lemma EnteringIs(code: Code)
    ensures Encode(code, Entering()) == [Transmit(code, Reverse(0, 6), 1)] && StateAfter(0, Entering()) == 1
  {
    hide Transmit, Reverse;
    EncodeLast(code, [], 1);
    assert [] + [1] == Entering();
    StateAfterAppend(0, [], 1);
  }

  lemma LeavingIs(code: Code)
    ensures
      var ys := Encode(code, Leaving());
      && StateAfter(0, Leaving()[..6]) == 32 && StateAfter(0, Leaving()) == 0
      && ys[0] == Transmit(code, Reverse(0, 6), 1) && ys[6] == Transmit(code, Reverse(32, 6), 0)
  {
    hide Transmit, Reverse, StateAfter, Encode, Next;
    var bits := Leaving();
    LastSixBits(0, bits[..6]);
    assert bits == bits[..6] + [0];
    EncodeLast(code, bits[..6], 0);
    StateAfterAppend(0, bits[..6], 0);
    NextDropsTop(1, 0, 0);
    EncodeStart(code, bits, 1);
    assert bits[..1] == Entering();
    EnteringIs(code);
  }

  lemma {:induction false} EncodeStart(code: Code, bits: seq<Bit>, n: nat)
    requires n <= |bits|
    ensures Encode(code, bits)[..n] == Encode(code, bits[..n])
    decreases |bits|
  {
    hide Transmit;
    if n < |bits| {
      var before := bits[..|bits| - 1];
      EncodeStart(code, before, n);
      assert before[..n] == bits[..n];
      assert Encode(code, bits)[..n] == Encode(code, before)[..n];
    } else {
      assert bits[..n] == bits;
    }
  }

  // Main result: the transmitted path is free for every message exactly for codes whose
  // polynomials both tap both ends; entering and leaving already tell.
  lemma TruePathIsFree(code: Code)
    requires ValidCode(code)
    ensures Transparent(code) <==> forall bits: seq<Bit> :: PathCost(TablesOf(code), 0, bits, Encode(code, bits)) == 0
  {
    hide Cost, TablesOf, Transmit, PathCost, TapsNewest, TapsOldest, StateAfter, Encode;
    if Transparent(code) {
      forall bits: seq<Bit> ensures PathCost(TablesOf(code), 0, bits, Encode(code, bits)) == 0 {
        SentIsFree(code, bits);
      }
    } else {
      EndsAreCharged(code);
      EnteringCost(code);
      LeavingCost(code);
      assert PathCost(TablesOf(code), 0, Entering(), Encode(code, Entering())) > 0 ||
             PathCost(TablesOf(code), 0, Leaving(), Encode(code, Leaving())) > 0;
    }
  }

  lemma EnteringCost(code: Code)
    ensures PathCost(TablesOf(code), 0, Entering(), Encode(code, Entering())) ==
            Cost(TablesOf(code), 0, 1, Transmit(code, Reverse(0, 6), 1))
  {
    hide Cost, TablesOf, Transmit, Reverse;
    EnteringIs(code);
    LastStepCost(TablesOf(code), 0, [], 1, [], Transmit(code, Reverse(0, 6), 1));
    assert [] + [1] == Entering();
    assert [] + [Transmit(code, Reverse(0, 6), 1)] == Encode(code, Entering());
  }

  lemma LeavingCost(code: Code)
    ensures PathCost(TablesOf(code), 0, Leaving(), Encode(code, Leaving())) >=
            Cost(TablesOf(code), 32, 0, Transmit(code, Reverse(32, 6), 0))
  {
    hide Cost, TablesOf, Transmit, PathCost, Reverse, StateAfter, Encode;
    LeavingIs(code);
    var bits, ys := Leaving(), Encode(code, Leaving());
    LastStepCost(TablesOf(code), 0, bits[..6], 0, ys[..6], ys[6]);
    assert bits == bits[..6] + [0] && ys == ys[..6] + [ys[6]];
  }

  // A guess is free exactly if it is the message.
  predicate FreeExactlyIfSent(code: Code, bits: seq<Bit>, guess: seq<Bit>)
    requires |guess| == |bits|
  {
    PathCost(TablesOf(code), 0, guess, Encode(code, bits)) == 0 <==> guess == bits
  }

  // Main result: free paths identify the message exactly for such codes.
  lemma OnlyTheTruePathIsFree(code: Code)
    requires ValidCode(code)
    ensures Transparent(code) <==>
            forall bits: seq<Bit>, guess: seq<Bit> :: |guess| == |bits| ==> FreeExactlyIfSent(code, bits, guess)
  {
    hide TablesOf, PathCost, Encode, Transparent;
    if Transparent(code) {
      forall bits: seq<Bit>, guess: seq<Bit> | |guess| == |bits| ensures FreeExactlyIfSent(code, bits, guess) {
        SentIsFree(code, bits);
        if PathCost(TablesOf(code), 0, guess, Encode(code, bits)) == 0 {
          FreeIsSent(code, bits, guess);
        }
      }
    } else {
      TruePathIsFree(code);
      var bits: seq<Bit> :| PathCost(TablesOf(code), 0, bits, Encode(code, bits)) != 0;
      assert !FreeExactlyIfSent(code, bits, bits);
    }
  }

  // ---- The round trip ----

  // The undisturbed stream of a message decodes to the message, and its end state is the
  // only one with the least metric, which is 0.
  ghost predicate DecodesCleanly(c: Config, bits: seq<Bit>)
  {
    var t, k, ys := TablesOf(c.code), Kernel(StartMetrics(c), 0), Encode(c.code, bits);
    && Decode(t, k, ys) == Path(0, bits)
    && Smallest(Run16(t, k, ys).metrics) == StateAfter(0, bits)
    && Run(t, k.metrics, ys)[StateAfter(0, bits)] == 0
    && forall j :: 0 <= j < 64 && j != StateAfter(0, bits) ==> Run(t, k.metrics, ys)[j] > 0
  }

  lemma CleanDecoding(c: Config, bits: seq<Bit>)
    requires ValidConfig(c) && Transparent(c.code) && c.knownStartState != 0 && c.startPenalty > 0
    ensures DecodesCleanly(c, bits)
  {
    hide ValidStart, Smallest, Run, Words, Run16, Words16, Traceback, TablesOf, Transparent, ValidCode;
    var t, k, ys := TablesOf(c.code), Kernel(StartMetrics(c), 0), Encode(c.code, bits);
    var end := StateAfter(0, bits);
    StartIsValid(c);
    SentIsFree(c.code, bits);
    MetricsAreLowerBounds(t, k.metrics, 0, bits, ys);
    forall j: State | Run(t, k.metrics, ys)[j] == 0
      ensures j == end && Traceback(Words(t, k.metrics, ys), j) == Path(0, bits)
    {
      TracebackIsTight(t, k.metrics, ys, j);
      var p := Traceback(Words(t, k.metrics, ys), j);
      FreeIsSent(c.code, bits, p.bits);
    }
    SixteenBitsSuffice(t, k, ys);
    SmallestOfShifted(Run16(t, k, ys).metrics, Run(t, k.metrics, ys), Offset(t, k, ys));
    var best := Smallest(Run(t, k.metrics, ys));
    assert Run(t, k.metrics, ys)[best] <= Run(t, k.metrics, ys)[end];
  }

  // Without a known start state that is ahead of the others, the empty message already has
  // other states at the least metric.
  lemma StartMustBeAhead(c: Config)
    requires DecodesCleanly(c, [])
    ensures c.knownStartState != 0 && c.startPenalty > 0
  {
    var t, m := TablesOf(c.code), StartMetrics(c);
    assert Encode(c.code, []) == [] && Run(t, m, []) == m;
    assert m[1] > 0 && m[0] == 0;
  }

  // A message whose end state has metric 0 was followed by a free path from state 0.
  lemma CleanMeansFree(c: Config, bits: seq<Bit>) returns (p: seq<Bit>)
    requires ValidConfig(c) && c.knownStartState != 0 && c.startPenalty > 0 && DecodesCleanly(c, bits)
    ensures |p| == |bits| && StateAfter(0, p) == StateAfter(0, bits)
    ensures PathCost(TablesOf(c.code), 0, p, Encode(c.code, bits)) == 0
  {
    hide Smallest, Run, Words, Run16, Words16, Traceback, TablesOf, ValidCode, PathCost, StateAfter, Encode;
    var t, m, ys := TablesOf(c.code), StartMetrics(c), Encode(c.code, bits);
    TracebackIsTight(t, m, ys, StateAfter(0, bits));
    p := Traceback(Words(t, m, ys), StateAfter(0, bits)).bits;
  }

  // No free path leads where an untapped newest bit is entered, or an untapped oldest one left.
  lemma CleanMeansTapped(c: Config)
    requires ValidConfig(c) && c.knownStartState != 0 && c.startPenalty > 0
    requires DecodesCleanly(c, Entering()) && DecodesCleanly(c, Leaving())
    ensures Transparent(c.code)
  {
    hide DecodesCleanly, Cost, TablesOf, Transmit, PathCost, TapsNewest, TapsOldest, Reverse, StateAfter, Encode, StartMetrics, ValidCode, Flips;
    var t := TablesOf(c.code);
    var entered := CleanMeansFree(c, Entering());
    EnteringIs(c.code);
    StateAfterAppend(0, [], entered[0]);
    assert entered == [] + [entered[0]];
    StateAfterNothing();
    EnteringCost(c.code);
    assert entered == Entering();
    var left := CleanMeansFree(c, Leaving());
    var ys := Encode(c.code, Leaving());
    LeavingIs(c.code);
    LastSevenBits(left);
    FirstStepCost(t, 0, left, ys);
    EndsAreCharged(c.code);
    FirstSent(c.code, 0, 1);
    FirstCosts(c.code, 0, 0, ys[0]);
    FlipsNewest(c.code);
    if left[0] == 0 {
      assert false;
    }
    assert left == Leaving();
    LeavingCost(c.code);
  }

  lemma FlipsNewest(code: Code)
    ensures Flips(code.polynomialA, 0, 1) == TapsNewest(code.polynomialA)
    ensures Flips(code.polynomialB, 0, 1) == TapsNewest(code.polynomialB)
  {
  }

  lemma StateAfterNothing()
    ensures StateAfter(0, []) == 0 && forall bit: Bit :: Next(0, bit) == bit
  {
  }

  lemma LastSevenBits(bits: seq<Bit>)
    requires |bits| == 7 && StateAfter(0, bits) == 0
    ensures forall i :: 1 <= i < 7 ==> bits[i] == 0
  {
    hide Next, StateAfter, Number;
    var first, rest := bits[..1], bits[1..];
    StateAfterInTwo(0, first, rest);
    assert bits == first + rest;
    LastSixBits(StateAfter(0, first), rest);
    ZeroNumber(rest[0], rest[1], rest[2], rest[3], rest[4], rest[5]);
    assert forall i :: 1 <= i < 7 ==> bits[i] == rest[i - 1];
  }

  lemma ZeroNumber(b0: Bit, b1: Bit, b2: Bit, b3: Bit, b4: Bit, b5: Bit)
    requires Number(b0, b1, b2, b3, b4, b5) == 0
    ensures b0 == b1 == b2 == b3 == b4 == b5 == 0
  {
  }

  lemma {:induction false} StateAfterInTwo(s: State, a: seq<Bit>, b: seq<Bit>)
    ensures StateAfter(s, a + b) == StateAfter(StateAfter(s, a), b)
    decreases |b|
  {
    hide Next;
    if b == [] {
      assert a + b == a;
    } else {
      StateAfterInTwo(s, a, b[..|b| - 1]);
      assert (a + b)[..|a + b| - 1] == a + b[..|b| - 1];
    }
  }

  // Main result: every message survives undisturbed transmission exactly if both polynomials
  // tap both ends of the register and a known start state is ahead of the others.
  lemma NoiseFreeRoundTrip(c: Config)
    requires ValidConfig(c)
    ensures Transparent(c.code) && c.knownStartState != 0 && c.startPenalty > 0 <==> forall bits: seq<Bit> :: DecodesCleanly(c, bits)
  {
    hide DecodesCleanly, Transparent, ValidConfig;
    if Transparent(c.code) && c.knownStartState != 0 && c.startPenalty > 0 {
      forall bits: seq<Bit> ensures DecodesCleanly(c, bits) {
        CleanDecoding(c, bits);
      }
    } else if forall bits: seq<Bit> :: DecodesCleanly(c, bits) {
      assert DecodesCleanly(c, []) && DecodesCleanly(c, Entering()) && DecodesCleanly(c, Leaving());
      StartMustBeAhead(c);
      CleanMeansTapped(c);
    }
  }

  // Bytes as the decoder is fed them: the first parity of a step, then the second.
  predicate Interleaves(code: Code, bits: seq<Bit>, soft: seq<Byte>)
  {
    && |soft| == 2 * |bits|
    && forall i :: 0 <= i < |bits| ==> soft[2 * i] == CodeByte(code.polynomialA, bits, i) && soft[2 * i + 1] == CodeByte(code.polynomialB, bits, i)
  }

  // Main result from bytes to bits: a decoder that starts afresh and is given the interleaved
  // parities of a message leaves decision words that lead back from its best state through the
  // message, on either backend.
  method DecodeMessage(decoder: Decoder, bits: seq<Bit>, soft: seq<Byte>, decisions: array<nat>) returns (bestState: nat)
    requires decoder.Valid() && decoder.stream == [] && Interleaves(decoder.config.code, bits, soft)
    requires Transparent(decoder.config.code) && decoder.config.knownStartState != 0 && decoder.config.startPenalty > 0
    requires |bits| <= decisions.Length && decoder.state.Apart(decisions) && decoder.initial.Apart(decisions)
    modifies decoder, decoder.state, decoder.state.metrics, decisions
    ensures decoder.Valid() && bestState < 64 && Traceback(decisions[..|bits|], bestState) == Path(0, bits)
  {
    hide TablesOf, Run16, Words16, Run, Words, StartMetrics, Smallest, ValidStart, Traceback, CodeByte, Transparent;
    ghost var c := decoder.config;
    bestState := decoder.Execute(soft, |bits|, decisions);
    SentBytes(c.code, bits, soft, decoder.stream);
    CleanDecoding(c, bits);
    StartIsValid(c);
    ghost var k := Kernel(StartMetrics(c), 0);
    SixteenBitsSuffice(TablesOf(c.code), k, decoder.stream);
    SmallestOfShifted(Run16(TablesOf(c.code), k, decoder.stream).metrics, Run(TablesOf(c.code), k.metrics, decoder.stream),
                      Offset(TablesOf(c.code), k, decoder.stream));
    NothingDecoded(TablesOf(c.code), k.metrics);
    assert Words(TablesOf(c.code), k.metrics, decoder.stream) == decisions[..|bits|];
  }

  lemma NothingDecoded(t: Tables, m: Metrics)
    requires ValidTables(t)
    ensures Words(t, m, []) == []
  {
  }

  lemma SentBytes(code: Code, bits: seq<Bit>, soft: seq<Byte>, stream: seq<Symbols>)
    requires ValidCode(code) && Interleaves(code, bits, soft) && |stream| == |bits|
    requires forall i :: 0 <= i < |bits| ==> stream[i].s0 == soft[2 * i] && stream[i].s1 == soft[2 * i + 1]
    ensures stream == Encode(code, bits)
  {
    hide CodeByte, Encode;
    forall i | 0 <= i < |bits| ensures stream[i] == Encode(code, bits)[i] {
      EncoderIsConvolution(code, bits, i);
    }
  }

  // A configuration that is accepted and does not decode: polynomials that tap only the
  // oldest bit. A single 1 is sent as two zeros, which the kernel takes for a 0.
  lemma UntappedCodeMisdecodes()
    ensures
      var c := Config(Code(0x01, 0x01), 1, MAX_START_PENALTY);
      var k := Kernel(StartMetrics(c), 0);
      && ValidConfig(c) && !Complements(0x01, 0, 1)
      && PathCost(TablesOf(c.code), 0, [1], Encode(c.code, [1])) == 63
      && Decode(TablesOf(c.code), k, Encode(c.code, [1])) == Path(0, [0])
  {
    hide Cost, TablesOf, Transmit, PathCost, Reverse, StateAfter, Encode, Decode, ExpectedBit, TableEntry;
    var c := Config(Code(0x01, 0x01), 1, MAX_START_PENALTY);
    var k, t, ys := Kernel(StartMetrics(c), 0), TablesOf(c.code), Encode(c.code, [1]);
    BranchBit(0x01, 0, 1);
    FirstEntry(0x01);
    EnteringIs(c.code);
    EnteringCost(c.code);
    FirstSent(c.code, 0, 1);
    FirstCosts(c.code, 0, 1, ys[0]);
    FirstCosts(c.code, 0, 0, ys[0]);
    assert Entering() == [1] && ys == [] + [ys[0]];
    OneStepDecode(t, k, ys[0], 0, 0);
  }

  // A single step decodes to the branch that is cheapest with the start metrics counted in.
  lemma OneStepDecode(t: Tables, k: Kernel, y: Symbols, s: State, bit: Bit)
    requires ValidTables(t) && ValidStart(k)
    requires forall r: State, b: Bit :: r != s || b != bit ==> k.metrics[s] + Cost(t, s, bit, y) < k.metrics[r] + Cost(t, r, b, y)
    ensures Decode(t, k, [y]) == Path(s, [bit])
  {
    hide Cost, Decode, ValidStart, ValidTables;
    var p := Decode(t, k, [y]);
    DecodedPathIsCheapest(t, k, [y], Path(s, [bit]));
    OneStepCost(t, s, bit, y);
    OneStepCost(t, p.start, p.bits[0], y);
    assert p.bits == [p.bits[0]];
  }

  lemma OneStepCost(t: Tables, s: State, bit: Bit, y: Symbols)
    requires ValidTables(t)
    ensures PathCost(t, s, [bit], [y]) == Cost(t, s, bit, y)
  {
    hide Cost;
    LastStepCost(t, s, [], bit, [], y);
    assert [] + [bit] == [bit] && [] + [y] == [y];
  }

  // ---- Optimality under the documented branch costs ----

  function DocumentedPathCost(code: Code, s: State, bits: seq<Bit>, ys: seq<Symbols>): nat
    requires |bits| == |ys|
  {
    if bits == [] then 0
    else
      var n := |bits| - 1;
      DocumentedPathCost(code, s, bits[..n], ys[..n]) + DocumentedCost(code, StateAfter(s, bits[..n]), bits[n], ys[n])
  }

  // A path costs at most one unit per step less than documented, and never more.
  predicate WithinOnePerStep(code: Code, s: State, bits: seq<Bit>, ys: seq<Symbols>)
    requires |bits| == |ys|
  {
    PathCost(TablesOf(code), s, bits, ys) <= DocumentedPathCost(code, s, bits, ys) <= PathCost(TablesOf(code), s, bits, ys) + |ys|
  }

  lemma {:induction false} PathsWithinOnePerStep(code: Code, s: State, bits: seq<Bit>, ys: seq<Symbols>)
    requires ValidCode(code) && Transparent(code) && |bits| == |ys|
    ensures WithinOnePerStep(code, s, bits, ys)
  {
    hide Cost, DocumentedCost, TablesOf, Mismatch;
    if bits != [] {
      var n := |bits| - 1;
      PathsWithinOnePerStep(code, s, bits[..n], ys[..n]);
      BranchCostsAsDocumented(code, StateAfter(s, bits[..n]), bits[n], ys[n]);
    }
  }

  lemma DocumentedStep(code: Code, s: State, bit: Bit, y: Symbols)
    ensures DocumentedPathCost(code, s, [bit], [y]) == DocumentedCost(code, s, bit, y)
  {
    hide DocumentedCost;
    assert [bit][..0] == [] && [y][..0] == [];
  }

  // Main result: that holds of all paths exactly for codes that tap both ends.
  lemma PathCostAgainstDocumentation(code: Code)
    requires ValidCode(code)
    ensures Transparent(code) <==>
            forall s: State, bits: seq<Bit>, ys: seq<Symbols> :: |bits| == |ys| ==> WithinOnePerStep(code, s, bits, ys)
  {
    hide Cost, DocumentedCost, TablesOf, Transmit, Reverse, PathCost, DocumentedPathCost, TapsNewest, TapsOldest;
    if Transparent(code) {
      forall s: State, bits: seq<Bit>, ys: seq<Symbols> | |bits| == |ys| ensures WithinOnePerStep(code, s, bits, ys) {
        PathsWithinOnePerStep(code, s, bits, ys);
      }
    } else {
      EndsAreCharged(code);
      if TapsNewest(code.polynomialA) && TapsNewest(code.polynomialB) {
        NotWithin(code, 32, 0);
      } else {
        NotWithin(code, 0, 1);
      }
    }
  }

  lemma NotWithin(code: Code, s: State, bit: Bit)
    requires ValidCode(code) && Cost(TablesOf(code), s, bit, Transmit(code, Reverse(s, 6), bit)) > 0
    ensures !WithinOnePerStep(code, s, [bit], [Transmit(code, Reverse(s, 6), bit)])
  {
    hide Cost, DocumentedCost, TablesOf, Transmit, Reverse, PathCost, DocumentedPathCost;
    var y := Transmit(code, Reverse(s, 6), bit);
    SentIsFreeByDocumentation(code, s, bit);
    DocumentedStep(code, s, bit, y);
    OneStepCost(TablesOf(code), s, bit, y);
  }

  // Measured by the documented formula, the decoded path is within one unit per step of
  // another path.
  predicate NearlyBest(code: Code, k: Kernel, ys: seq<Symbols>, q: Path)
    requires |q.bits| == |ys|
  {
    var p := Decode(TablesOf(code), k, ys);
    |p.bits| == |ys| && k.metrics[p.start] + DocumentedPathCost(code, p.start, p.bits, ys)
      <= k.metrics[q.start] + DocumentedPathCost(code, q.start, q.bits, ys) + |ys|
  }

  lemma DecodedIsNearlyBest(code: Code, k: Kernel, ys: seq<Symbols>, q: Path)
    requires ValidCode(code) && Transparent(code) && ValidStart(k) && |q.bits| == |ys|
    ensures NearlyBest(code, k, ys, q)
  {
    hide PathCost, DocumentedPathCost, TablesOf, Decode, Transparent, ValidStart, ValidCode;
    DecodedPathIsCheapest(TablesOf(code), k, ys, q);
    var p := Decode(TablesOf(code), k, ys);
    PathsWithinOnePerStep(code, p.start, p.bits, ys);
    PathsWithinOnePerStep(code, q.start, q.bits, ys);
  }

  // One step that goes wrong: the kernel prefers a branch the documentation charges more for.
  lemma WrongBranch(code: Code, k: Kernel, y: Symbols, s: State, bit: Bit, q: State, other: Bit)
    requires ValidStart(k)
    requires forall r: State, b: Bit :: r != s || b != bit ==>
               k.metrics[s] + Cost(TablesOf(code), s, bit, y) < k.metrics[r] + Cost(TablesOf(code), r, b, y)
    requires k.metrics[s] + DocumentedCost(code, s, bit, y) > k.metrics[q] + DocumentedCost(code, q, other, y) + 1
    ensures !NearlyBest(code, k, [y], Path(q, [other]))
  {
    hide Cost, DocumentedCost, TablesOf, Decode, DocumentedPathCost, ValidStart;
    OneStepDecode(TablesOf(code), k, y, s, bit);
    DocumentedStep(code, s, bit, y);
    DocumentedStep(code, q, other, y);
  }

  // Start metrics that leave one state ahead of all, or a second one just behind it.
  function Ahead(s: State, second: State): (k: Kernel)
  {
    Kernel(seq(64, r requires 0 <= r < 64 => if r == s then 0 else if r == second then 1 else MAX_START_PENALTY), 0)
  }

  // Where the first two branches of an end state are told apart the wrong way.
  lemma WrongEnd(code: Code, s: State, bit: Bit, y: Symbols)
    requires ValidCode(code) && s % 32 == 0
    requires Cost(TablesOf(code), s, bit, y) < Cost(TablesOf(code), s, 1 - bit, y)
    requires DocumentedCost(code, s, bit, y) > DocumentedCost(code, s, 1 - bit, y) + 1
    ensures !NearlyBest(code, Ahead(s, s), [y], Path(s, [1 - bit]))
  {
    hide Cost, DocumentedCost, TablesOf, NearlyBest, ValidCode;
    WrongBranch(code, Ahead(s, s), y, s, bit, s, 1 - bit);
  }

  // The documented costs of an end state, by the taps.
  lemma FirstDocumented(code: Code, s: State, bit: Bit, y: Symbols)
    requires ValidCode(code) && s % 32 == 0
    ensures
      var a: Byte, b: Byte := if Flips(code.polynomialA, s / 32, bit) then 255 else 0, if Flips(code.polynomialB, s / 32, bit) then 255 else 0;
      DocumentedCost(code, s, bit, y) == (Mismatch(a, y.s0) + Mismatch(b, y.s1) + 1) / 8
  {
    hide Reverse, Transmit, Flips;
    FirstSent(code, s, bit);
  }

  // One untapped newest bit: the 1 is taken for a 0.
  lemma OneNewestMissing(code: Code)
    requires ValidCode(code) && TapsNewest(code.polynomialA) != TapsNewest(code.polynomialB)
    ensures exists y :: !NearlyBest(code, Ahead(0, 0), [y], Path(0, [1]))
  {
    hide Cost, DocumentedCost, TablesOf, NearlyBest, Ahead, TapsNewest, TapsOldest, ValidCode;
    var y := if TapsNewest(code.polynomialB) then Symbols(0, 200) else Symbols(200, 0);
    FirstCosts(code, 0, 0, y);
    FirstCosts(code, 0, 1, y);
    FirstDocumented(code, 0, 0, y);
    FirstDocumented(code, 0, 1, y);
    WrongEnd(code, 0, 0, y);
    assert !NearlyBest(code, Ahead(0, 0), [y], Path(0, [1]));
  }

  // An untapped oldest bit under tapped newest ones.
  lemma OldestMissing(code: Code)
    requires ValidCode(code) && TapsNewest(code.polynomialA) && TapsNewest(code.polynomialB)
    requires !TapsOldest(code.polynomialA) || !TapsOldest(code.polynomialB)
    ensures exists y :: !NearlyBest(code, Ahead(32, 32), [y], Path(32, [0]))
  {
    hide Cost, DocumentedCost, TablesOf, NearlyBest, Ahead, TapsNewest, TapsOldest, ValidCode;
    var y := if TapsOldest(code.polynomialB) then Symbols(0, 200) else if TapsOldest(code.polynomialA) then Symbols(200, 0) else Symbols(0, 0);
    FirstCosts(code, 32, 0, y);
    FirstCosts(code, 32, 1, y);
    FirstDocumented(code, 32, 0, y);
    FirstDocumented(code, 32, 1, y);
    WrongEnd(code, 32, 1, y);
    assert !NearlyBest(code, Ahead(32, 32), [y], Path(32, [0]));
  }

  // A valid polynomial without the newest bit expects a 1 on some branch for a 0.
  lemma SomeBranchExpectsOne(polynomial: nat) returns (r: State)
    requires ValidPolynomial(polynomial) && !TapsNewest(polynomial)
    ensures r != 0 && ExpectedBit(polynomial, Reverse(2 * r, 7)) == 255
  {
    hide Reverse, ExpectedBit, TableEntry, And, Popcount, DotBits;
    if TapsOldest(polynomial) {
      r := 32;
      FirstEntry(polynomial);
      BranchBit(polynomial, 32, 0);
    } else {
      var middle := polynomial / 2 % 32;
      SingleTaps(middle);
      r := if middle / 16 % 2 == 1 then 1 else if middle / 8 % 2 == 1 then 2 else if middle / 4 % 2 == 1 then 4
           else if middle / 2 % 2 == 1 then 8 else 16;
      EndBits(polynomial, r, 0, 0);
      assert 64 * 0 + 2 * r + 0 == 2 * r;
      OddParity(polynomial, Reverse(2 * r, 7));
    }
  }

  lemma OddParity(polynomial: nat, register: nat)
    requires Popcount(And(polynomial, register)) == 1
    ensures ExpectedBit(polynomial, register) == 255
  {
    hide Popcount, And;
  }

  // Registers with a single middle bit show that tap alone.
  lemma SingleTaps(middle: nat)
    ensures DotBits(middle, Reverse(1, 5), 5) == middle / 16 % 2 && DotBits(middle, Reverse(2, 5), 5) == middle / 8 % 2
    ensures DotBits(middle, Reverse(4, 5), 5) == middle / 4 % 2 && DotBits(middle, Reverse(8, 5), 5) == middle / 2 % 2
    ensures DotBits(middle, Reverse(16, 5), 5) == middle % 2
  {
    hide DotBits, Reverse, Pow2;
    Powers();
    PowersOfTwo();
    SingleTap(middle, 0);
    SingleTap(middle, 1);
    SingleTap(middle, 2);
    SingleTap(middle, 3);
    SingleTap(middle, 4);
  }

  lemma SingleTap(middle: nat, j: nat)
    requires j < 5
    ensures DotBits(middle, Reverse(Pow2(4 - j), 5), 5) == middle / Pow2(j) % 2
  {
    ReverseOfPower(4 - j, 5);
    DotPower(middle, j, 5);
  }

  // Two untapped newest bits: the kernel prefers a start state that nothing it hears supports.
  lemma BothNewestMissing(code: Code)
    requires ValidCode(code) && !TapsNewest(code.polynomialA) && !TapsNewest(code.polynomialB)
    ensures exists r: State :: !NearlyBest(code, Ahead(0, r), [Symbols(255, 255)], Path(r, [0]))
  {
    hide NearlyBest, TapsNewest, TapsOldest, ValidPolynomial, Ahead, ExpectedBit, Reverse;
    var r := SomeBranchExpectsOne(code.polynomialA);
    BothNewestAt(code, r);
    assert !NearlyBest(code, Ahead(0, r), [Symbols(255, 255)], Path(r, [0]));
  }

  lemma BothNewestAt(code: Code, r: State)
    requires ValidCode(code) && !TapsNewest(code.polynomialA) && !TapsNewest(code.polynomialB)
    requires ExpectedBit(code.polynomialA, Reverse(2 * r, 7)) == 255
    ensures !NearlyBest(code, Ahead(0, r), [Symbols(255, 255)], Path(r, [0]))
  {
    hide Cost, TablesOf, NearlyBest, TapsNewest, TapsOldest, ValidPolynomial, DocumentedCost, ExpectedBit, Reverse;
    var y := Symbols(255, 255);
    SupportedCost(code, r);
    FirstCosts(code, 0, 0, y);
    FirstCosts(code, 0, 1, y);
    FirstDocumented(code, 0, 1, y);
    WrongBranch(code, Ahead(0, r), y, 0, 1, r, 0);
  }

  lemma SupportedCost(code: Code, r: State)
    requires ExpectedBit(code.polynomialA, Reverse(2 * r, 7)) == 255
    ensures DocumentedCost(code, r, 0, Symbols(255, 255)) <= 32
  {
    hide Reverse, ExpectedBit, Shift;
    RegisterIsReversedState(r, 0);
  }

  // Main result: the kernel's choice is nearly best by the documentation, for all start
  // metrics, symbols and rival paths, exactly for codes that tap both ends.
  lemma DecodedPathUnderDocumentedCosts(code: Code)
    requires ValidCode(code)
    ensures Transparent(code) <==>
            forall k: Kernel, ys: seq<Symbols>, q: Path :: ValidStart(k) && |q.bits| == |ys| ==> NearlyBest(code, k, ys, q)
  {
    hide NearlyBest, TapsNewest, TapsOldest, ValidCode, ValidStart;
    if Transparent(code) {
      forall k: Kernel, ys: seq<Symbols>, q: Path | ValidStart(k) && |q.bits| == |ys| ensures NearlyBest(code, k, ys, q) {
        DecodedIsNearlyBest(code, k, ys, q);
      }
    } else if !TapsNewest(code.polynomialA) && !TapsNewest(code.polynomialB) {
      BothNewestMissing(code);
      var r: State :| !NearlyBest(code, Ahead(0, r), [Symbols(255, 255)], Path(r, [0]));
      AheadIsValid(0, r);
    } else if TapsNewest(code.polynomialA) && TapsNewest(code.polynomialB) {
      OldestMissing(code);
      var y :| !NearlyBest(code, Ahead(32, 32), [y], Path(32, [0]));
      AheadIsValid(32, 32);
    } else {
      OneNewestMissing(code);
      var y :| !NearlyBest(code, Ahead(0, 0), [y], Path(0, [1]));
      AheadIsValid(0, 0);
    }
  }

  lemma AheadIsValid(s: State, second: State)
    ensures ValidStart(Ahead(s, second))
  {
  }
}
