// The vector form of the decoder loop: the 64 path metrics in four registers of sixteen
// 16-bit lanes, and the proof that it refines the scalar specification for every state.
module ViterbiAvx2 {
  import opened Bits
  import opened ViterbiCode
  import opened ViterbiTrellis
  import opened ViterbiMetrics16
  import opened ViterbiKernel

  // A 256-bit register as sixteen unsigned 16-bit lanes.
  type Register = r: seq<nat> | |r| == 16 witness seq(16, _ => 0)

  function Set1(x: nat): Register { seq(16, _ => x) }

  function AddLanes(a: Register, b: Register): Register
  {
    seq(16, k requires 0 <= k < 16 => Wrap(a[k] + b[k]))
  }

  function SubLanes(a: Register, b: Register): Register
  {
    seq(16, k requires 0 <= k < 16 => WrapSub(a[k], b[k]))
  }

  function XorLanes(a: Register, b: Register): Register
  {
    seq(16, k requires 0 <= k < 16 => Xor(a[k], b[k]))
  }

  function ShiftRight3(a: Register): Register
  {
    seq(16, k requires 0 <= k < 16 => a[k] / 8)
  }

  function MinLanes(a: Register, b: Register): Register
  {
    seq(16, k requires 0 <= k < 16 => if b[k] < a[k] then b[k] else a[k])
  }

  function EqualLanes(a: Register, b: Register): Register
  {
    seq(16, k requires 0 <= k < 16 => if a[k] == b[k] then 0xFFFF else 0)
  }

  // Interleave the lower (upper) four lanes of each 128-bit half.
  function UnpackLow(a: Register, b: Register): Register
  {
    [a[0], b[0], a[1], b[1], a[2], b[2], a[3], b[3], a[8], b[8], a[9], b[9], a[10], b[10], a[11], b[11]]
  }

  function UnpackHigh(a: Register, b: Register): Register
  {
    [a[4], b[4], a[5], b[5], a[6], b[6], a[7], b[7], a[12], b[12], a[13], b[13], a[14], b[14], a[15], b[15]]
  }

  // Lower (upper) halves of both operands.
  function Permute20(a: Register, b: Register): Register { a[..8] + b[..8] }

  function Permute31(a: Register, b: Register): Register { a[8..] + b[8..] }

  // Signed saturation of a 16-bit lane to a byte.
  function Saturate(x: nat): nat
  {
    if x < 0x80 then x
    else if x < 0x8000 then 0x7F
    else if x < 0xFF80 then 0x80
    else x % 256
  }

  function PackedByte(a: Register, b: Register, k: nat): nat
    requires k < 32
  {
    Saturate(if k < 8 then a[k] else if k < 16 then b[k - 8] else if k < 24 then a[k - 8] else b[k - 16])
  }

  function PackSigned(a: Register, b: Register): (bytes: seq<nat>)
    ensures |bytes| == 32
  {
    seq(32, k requires 0 <= k < 32 => PackedByte(a, b, k))
  }

  // The top bits of the 32 bytes, byte 0 in bit 0.
  function TopBits(bytes: seq<nat>): (bits: seq<bool>)
    ensures |bits| == |bytes|
  {
    seq(|bytes|, k requires 0 <= k < |bytes| => bytes[k] >= 0x80)
  }

  function MoveMask(bytes: seq<nat>): nat { WordOf(TopBits(bytes)) }

  // Two registers alternating lane by lane, as the 32 values they hold together.
  function Interleaved(even: Register, odd: Register): (s: seq<nat>)
    ensures |s| == 32
  {
    seq(32, k requires 0 <= k < 32 => (if k % 2 == 0 then even[k / 2] else odd[k / 2]) as nat)
  }

  // The unpacks followed by the half permutes restore state order.
  lemma UnpackRestoresOrder(even: Register, odd: Register)
    ensures
      var low, high := UnpackLow(even, odd), UnpackHigh(even, odd);
      Permute20(low, high) + Permute31(low, high) == Interleaved(even, odd)
  {
    hide UnpackLow, UnpackHigh, Interleaved;
    var low, high := UnpackLow(even, odd), UnpackHigh(even, odd);
    var all := Permute20(low, high) + Permute31(low, high);
    forall k | 0 <= k < 16 ensures low[k] == Interleaved(even, odd)[if k < 8 then k else k + 8] {
      UnpackedLane(even, odd, k);
    }
    forall k | 0 <= k < 16 ensures high[k] == Interleaved(even, odd)[if k < 8 then k + 8 else k + 16] {
      UnpackedLane(even, odd, k);
    }
    forall k | 0 <= k < 32 ensures all[k] == Interleaved(even, odd)[k] {
      if k < 8 { assert all[k] == low[k]; }
      else if k < 16 { assert all[k] == high[k - 8]; }
      else if k < 24 { assert all[k] == low[k - 8]; }
      else { assert all[k] == high[k - 16]; }
    }
  }

  lemma UnpackedLane(even: Register, odd: Register, k: nat)
    requires k < 16
    ensures UnpackLow(even, odd)[k] == Interleaved(even, odd)[if k < 8 then k else k + 8]
    ensures UnpackHigh(even, odd)[k] == Interleaved(even, odd)[if k < 8 then k + 8 else k + 16]
  {
  }

  // Packing takes the eight-lane halves in the same order.
  lemma PackTakesHalvesInOrder(a: Register, b: Register, k: nat)
    requires k < 32
    ensures PackSigned(a, b)[k] == Saturate((Permute20(a, b) + Permute31(a, b))[k])
  {
  }

  // The decisions of a half: one mask bit per new state, in state order.
  lemma MaskInStateOrder(even: Register, odd: Register, wins: seq<bool>)
    requires |wins| == 32
    requires forall k :: 0 <= k < 32 ==> Interleaved(even, odd)[k] == if wins[k] then 0xFFFF else 0
    ensures MoveMask(PackSigned(UnpackLow(even, odd), UnpackHigh(even, odd))) == WordOf(wins)
  {
    var bytes := PackSigned(UnpackLow(even, odd), UnpackHigh(even, odd));
    assert Saturate(0) == 0 && Saturate(0xFFFF) == 0xFF;
    hide Interleaved, UnpackLow, UnpackHigh, PackSigned, Permute20, Permute31, Saturate;
    UnpackRestoresOrder(even, odd);
    forall k | 0 <= k < 32 ensures TopBits(bytes)[k] == wins[k] {
      PackTakesHalvesInOrder(UnpackLow(even, odd), UnpackHigh(even, odd), k);
    }
    assert TopBits(bytes) == wins;
  }

  // Branch metrics of sixteen butterflies.
  function Branch(expectedA: Register, expectedB: Register, s0: Register, s1: Register): Register
  {
    ShiftRight3(AddLanes(AddLanes(XorLanes(expectedA, s0), XorLanes(expectedB, s1)), Set1(1)))
  }

  datatype Half = Half(next0: Register, next1: Register, decided: nat)

  // Sixteen butterflies at once.
  function Butterflies(low: Register, high: Register, metric: Register, complement: Register): Half
  {
    var fromHighEven := AddLanes(high, complement);
    var fromHighOdd := AddLanes(high, metric);
    var even := MinLanes(AddLanes(low, metric), fromHighEven);
    var odd := MinLanes(AddLanes(low, complement), fromHighOdd);
    var evenHigh := EqualLanes(even, fromHighEven);
    var oddHigh := EqualLanes(odd, fromHighOdd);
    var interleavedLow := UnpackLow(even, odd);
    var interleavedHigh := UnpackHigh(even, odd);
    Half(Permute20(interleavedLow, interleavedHigh), Permute31(interleavedLow, interleavedHigh),
         MoveMask(PackSigned(UnpackLow(evenHigh, oddHigh), UnpackHigh(evenHigh, oddHigh))))
  }

  // The branch metrics are those of the scalar code.
  lemma BranchIsMetric(t: Tables, g: nat, y: Symbols, k: nat)
    requires ValidTables(t) && g < 2 && k < 16
    ensures Branch(t.a[16 * g..][..16], t.b[16 * g..][..16], Set1(y.s0), Set1(y.s1))[k] == Metric(t, 16 * g + k, y)
  {
    hide Xor, Wrap;
    var i := 16 * g + k;
    ByteXor(t.a[i], y.s0);
    ByteXor(t.b[i], y.s1);
    NoWrap(Xor(t.a[i], y.s0) + Xor(t.b[i], y.s1));
    NoWrap(Xor(t.a[i], y.s0) + Xor(t.b[i], y.s1) + 1);
  }

  lemma NoWrap(x: nat)
    requires x < WORD
    ensures Wrap(x) == x
  {
  }

  lemma ByteXor(expected: Byte, soft: Byte)
    requires expected == 0 || expected == 255
    ensures Xor(expected, soft) <= 255
  {
    Powers();
    XorWithZero(soft);
    XorWithOnes(8, soft);
  }

  // Registers g and g + 2 of the metrics, sixteen lanes each.
  function Lanes(m: Metrics, first: nat): Register
    requires first + 16 <= 64
  {
    m[first..first + 16]
  }

  // What the lanes of one half hold: new states 32g + 2k and 32g + 2k + 1, and whether
  // they were reached from the upper old state.
  lemma LaneValues(t: Tables, m: Metrics, y: Symbols, g: nat, k: nat, metric: Register, complement: Register)
    requires ValidTables(t) && g < 2 && k < 16
    requires metric[k] == Metric(t, 16 * g + k, y) && complement[k] == WrapSub(63, metric[k])
    ensures
      var low, high := Lanes(m, 16 * g), Lanes(m, 32 + 16 * g);
      var fromHighEven, fromHighOdd := AddLanes(high, complement), AddLanes(high, metric);
      var even, odd := MinLanes(AddLanes(low, metric), fromHighEven), MinLanes(AddLanes(low, complement), fromHighOdd);
      var i := 32 * g + 2 * k;
      && even[k] == Step16(t, m, y)[i] && odd[k] == Step16(t, m, y)[i + 1]
      && EqualLanes(even, fromHighEven)[k] == (if UpperWins16(t, m, i, y) then 0xFFFF else 0)
      && EqualLanes(odd, fromHighOdd)[k] == (if UpperWins16(t, m, i + 1, y) then 0xFFFF else 0)
  {
    hide Step16, UpperWins16, Metric, Wrap, WrapSub;
    ButterflyBranches(t, m, 16 * g + k, y);
  }

  // One half of a vector step is one half of the scalar step.
  lemma HalfStep(t: Tables, m: Metrics, y: Symbols, g: nat, metric: Register, complement: Register)
    requires ValidTables(t) && g < 2
    requires forall k :: 0 <= k < 16 ==> metric[k] == Metric(t, 16 * g + k, y) && complement[k] == WrapSub(63, metric[k])
    ensures
      var h := Butterflies(Lanes(m, 16 * g), Lanes(m, 32 + 16 * g), metric, complement);
      && h.next0 + h.next1 == Step16(t, m, y)[32 * g..32 * g + 32]
      && h.decided == WordOf(WinsOf(t, m, y)[32 * g..32 * g + 32])
  {
    hide Step16, UpperWins16, Metric, Wrap, WrapSub, AddLanes, MinLanes, EqualLanes, UnpackLow, UnpackHigh, Permute20, Permute31,
      MoveMask, PackSigned, WordOf, WinsOf, Lanes, ValidTables;
    var low, high := Lanes(m, 16 * g), Lanes(m, 32 + 16 * g);
    var fromHighEven, fromHighOdd := AddLanes(high, complement), AddLanes(high, metric);
    var even, odd := MinLanes(AddLanes(low, metric), fromHighEven), MinLanes(AddLanes(low, complement), fromHighOdd);
    var evenHigh, oddHigh := EqualLanes(even, fromHighEven), EqualLanes(odd, fromHighOdd);
    var next, wins := Step16(t, m, y)[32 * g..32 * g + 32], WinsOf(t, m, y)[32 * g..32 * g + 32];
    forall k | 0 <= k < 16
      ensures even[k] == next[2 * k] && odd[k] == next[2 * k + 1]
      ensures evenHigh[k] == (if wins[2 * k] then 0xFFFF else 0) && oddHigh[k] == (if wins[2 * k + 1] then 0xFFFF else 0)
    {
      LaneValues(t, m, y, g, k, metric, complement);
    }
    InterleavedIs(even, odd, next);
    UnpackRestoresOrder(even, odd);
    var flags := seq(32, k requires 0 <= k < 32 => if wins[k] then 0xFFFF else 0);
    InterleavedIs(evenHigh, oddHigh, flags);
    MaskInStateOrder(evenHigh, oddHigh, wins);
  }

  lemma InterleavedIs(even: Register, odd: Register, s: seq<nat>)
    requires |s| == 32
    requires forall k :: 0 <= k < 16 ==> even[k] == s[2 * k] && odd[k] == s[2 * k + 1]
    ensures Interleaved(even, odd) == s
  {
    forall k | 0 <= k < 32 ensures Interleaved(even, odd)[k] == s[k] {
      assert k == 2 * (k / 2) + k % 2;
    }
  }

  // Four registers hold the metrics of states 0-15, 16-31, 32-47 and 48-63.
  function Joined(r0: Register, r1: Register, r2: Register, r3: Register): Metrics
  {
    r0 + r1 + (r2 + r3)
  }

  lemma JoinedLanes(r0: Register, r1: Register, r2: Register, r3: Register)
    ensures
      var m := Joined(r0, r1, r2, r3);
      Lanes(m, 0) == r0 && Lanes(m, 16) == r1 && Lanes(m, 32) == r2 && Lanes(m, 48) == r3
  {
  }

  function BranchOf(t: Tables, g: nat, y: Symbols): Register
    requires ValidTables(t) && g < 2
  {
    Branch(t.a[16 * g..][..16], t.b[16 * g..][..16], Set1(y.s0), Set1(y.s1))
  }

  // The work of one step before any renormalisation.
  datatype Stepped = Stepped(half0: Half, half1: Half)
  {
    function Metrics(): ViterbiTrellis.Metrics
    {
      Joined(half0.next0, half0.next1, half1.next0, half1.next1)
    }

    function Word(): nat
    {
      Or(half0.decided, Pow2(32) * half1.decided)
    }
  }

  function VectorStep(t: Tables, y: Symbols, low0: Register, low1: Register, high0: Register, high1: Register): Stepped
    requires ValidTables(t)
  {
    var metric0, metric1 := BranchOf(t, 0, y), BranchOf(t, 1, y);
    Stepped(Butterflies(low0, high0, metric0, SubLanes(Set1(63), metric0)),
            Butterflies(low1, high1, metric1, SubLanes(Set1(63), metric1)))
  }

  // A whole vector step is a scalar step, decision word included.
  lemma VectorStepIsScalarStep(t: Tables, y: Symbols, low0: Register, low1: Register, high0: Register, high1: Register)
    requires ValidTables(t)
    ensures
      var m, v := Joined(low0, low1, high0, high1), VectorStep(t, y, low0, low1, high0, high1);
      v.Metrics() == Step16(t, m, y) && v.Word() == DecisionWord16(t, m, y)
  {
    hide Butterflies, Step16, DecisionWord16, Or, Pow2, WordOf, Metric, WinsOf, Joined, Lanes, BranchOf, WrapSub, ValidTables, Set1, SubLanes;
    var m := Joined(low0, low1, high0, high1);
    JoinedLanes(low0, low1, high0, high1);
    BranchesReady(t, y, 0);
    BranchesReady(t, y, 1);
    var metric0, metric1 := BranchOf(t, 0, y), BranchOf(t, 1, y);
    HalfStep(t, m, y, 0, metric0, SubLanes(Set1(63), metric0));
    HalfStep(t, m, y, 1, metric1, SubLanes(Set1(63), metric1));
    var v := VectorStep(t, y, low0, low1, high0, high1);
    JoinedHalves(v.half0, v.half1, Step16(t, m, y));
    var wins := WinsOf(t, m, y);
    WordJoin(wins[0..32], wins[32..64]);
    assert wins[0..32] + wins[32..64] == wins;
  }

  lemma BranchesReady(t: Tables, y: Symbols, g: nat)
    requires ValidTables(t) && g < 2
    ensures
      var metric := BranchOf(t, g, y);
      forall k :: 0 <= k < 16 ==>
        metric[k] == Metric(t, 16 * g + k, y) && SubLanes(Set1(63), metric)[k] == WrapSub(63, metric[k])
  {
    hide Metric, Branch, WrapSub, ValidTables;
    forall k | 0 <= k < 16 ensures BranchOf(t, g, y)[k] == Metric(t, 16 * g + k, y) {
      BranchIsMetric(t, g, y, k);
    }
  }

  lemma JoinedHalves(h0: Half, h1: Half, next: Metrics)
    requires h0.next0 + h0.next1 == next[0..32] && h1.next0 + h1.next1 == next[32..64]
    ensures Joined(h0.next0, h0.next1, h1.next0, h1.next1) == next
  {
    assert next == next[0..32] + next[32..64];
  }

  // Minimum of eight lanes (the horizontal minimum of a 128-bit register).
  function MinimumOfEight(lanes: seq<nat>): nat
    requires |lanes| == 8
  {
    lanes[Smallest(lanes)]
  }

  function HorizontalMinimum(r0: Register, r1: Register, r2: Register, r3: Register): nat
  {
    MinimumOfEight(FoldHalves(MinLanes(MinLanes(r0, r1), MinLanes(r2, r3))))
  }

  function FoldHalves(r: Register): (s: seq<nat>)
    ensures |s| == 8
    ensures forall k :: 0 <= k < 8 ==> s[k] <= r[k] && s[k] <= r[k + 8] && (s[k] == r[k] || s[k] == r[k + 8])
  {
    seq(8, k requires 0 <= k < 8 => if r[k + 8] < r[k] then r[k + 8] else r[k])
  }

  ghost predicate IsMinimum(low: nat, s: seq<nat>)
  {
    low in s && forall j :: 0 <= j < |s| ==> low <= s[j]
  }

  lemma MinimumOfLanes(a: Register, b: Register, low: nat)
    requires IsMinimum(low, MinLanes(a, b))
    ensures IsMinimum(low, a + b)
  {
    var k :| 0 <= k < 16 && MinLanes(a, b)[k] == low;
    assert (a + b)[k] == low || (a + b)[16 + k] == low;
    forall j | 0 <= j < 32 ensures low <= (a + b)[j] {
      var i := if j < 16 then j else j - 16;
      assert low <= MinLanes(a, b)[i];
    }
  }

  lemma MinimumOfPair(a: Register, b: Register, s: seq<nat>, t: seq<nat>, low: nat)
    requires IsMinimum(low, MinLanes(a, b))
    requires forall x :: IsMinimum(x, a) ==> IsMinimum(x, s)
    requires forall x :: IsMinimum(x, b) ==> IsMinimum(x, t)
    ensures IsMinimum(low, s + t)
  {
    var x, y := a[Smallest(a)], b[Smallest(b)];
    assert IsMinimum(x, a) && IsMinimum(y, b);
    hide Smallest;
    MinimumOfLanes(a, b, low);
    assert (a + b)[..16] == a && (a + b)[16..] == b;
    var p, q :| 0 <= p < 16 && a[p] == x && 0 <= q < 16 && b[q] == y;
    assert low <= (a + b)[p] && low <= (a + b)[16 + q];
    assert low == x || low == y;
    forall j | 0 <= j < |s + t| ensures low <= (s + t)[j] {}
  }

  // The in-register minimum is the smallest metric.
  lemma HorizontalMinimumIsSmallest(r0: Register, r1: Register, r2: Register, r3: Register)
    ensures
      var m := Joined(r0, r1, r2, r3);
      HorizontalMinimum(r0, r1, r2, r3) == m[Smallest(m)]
  {
    hide Smallest, MinLanes;
    var m, low := Joined(r0, r1, r2, r3), HorizontalMinimum(r0, r1, r2, r3);
    var a, b := MinLanes(r0, r1), MinLanes(r2, r3);
    var minimum4 := MinLanes(a, b);
    forall k | 0 <= k < 16 ensures low <= minimum4[k] {
      assert low <= FoldHalves(minimum4)[if k < 8 then k else k - 8];
    }
    assert IsMinimum(low, minimum4);
    forall x | IsMinimum(x, a) ensures IsMinimum(x, r0 + r1) { MinimumOfLanes(r0, r1, x); }
    forall x | IsMinimum(x, b) ensures IsMinimum(x, r2 + r3) { MinimumOfLanes(r2, r3, x); }
    MinimumOfPair(a, b, r0 + r1, r2 + r3, low);
    assert IsMinimum(low, m);
  }

  lemma RenormalizedLanes(r0: Register, r1: Register, r2: Register, r3: Register)
    requires forall j :: 0 <= j < 64 ==> Joined(r0, r1, r2, r3)[j] < WORD
    ensures
      var low := Set1(HorizontalMinimum(r0, r1, r2, r3));
      Kernel(Joined(SubLanes(r0, low), SubLanes(r1, low), SubLanes(r2, low), SubLanes(r3, low)), 0) == Renormalized(Joined(r0, r1, r2, r3))
  {
    hide HorizontalMinimum, Smallest, WrapSub;
    var m := Joined(r0, r1, r2, r3);
    HorizontalMinimumIsSmallest(r0, r1, r2, r3);
    var low := m[Smallest(m)];
    var s := Set1(low);
    var r := Joined(SubLanes(r0, s), SubLanes(r1, s), SubLanes(r2, s), SubLanes(r3, s));
    forall j | 0 <= j < 64 ensures r[j] == m[j] - low {
      NoWrapBelow(m[j], low);
      assert r[j] == WrapSub(m[j], low);
    }
    assert r == Renormalized(m).metrics;
  }

  lemma JoinedSlices(m: Metrics)
    ensures Joined(m[..16], m[16..32], m[32..48], m[48..]) == m
  {
  }

  // What the loop keeps in registers.
  datatype Registers = Registers(low0: Register, low1: Register, high0: Register, high1: Register, since: nat)
  {
    function Metrics(): ViterbiTrellis.Metrics
    {
      Joined(low0, low1, high0, high1)
    }

    function Value(): Kernel
    {
      Kernel(Metrics(), since)
    }

    ghost predicate Sixteen()
    {
      forall j :: 0 <= j < 64 ==> Metrics()[j] < WORD
    }
  }

  // One pass of the vector loop.
  method VectorAdvance(t: Tables, y: Symbols, r: Registers) returns (next: Registers, word: nat)
    requires ValidTables(t)
    ensures next.Value() == Advance(t, r.Value(), y) && next.Sixteen()
    ensures word == DecisionWord16(t, r.Metrics(), y)
  {
    hide DecisionWord16, ValidTables, VectorStep, Step16, Joined, Or, Pow2, SubLanes, Set1, HorizontalMinimum, Renormalized;
    var v := VectorStep(t, y, r.low0, r.low1, r.high0, r.high1);
    VectorStepIsScalarStep(t, y, r.low0, r.low1, r.high0, r.high1);
    Step16Range(t, r.Metrics(), y);
    word := v.Word();
    next := Registers(v.half0.next0, v.half0.next1, v.half1.next0, v.half1.next1, r.since + 1);
    if next.since == RENORMALIZE_PERIOD {
      var minimum := Set1(HorizontalMinimum(next.low0, next.low1, next.high0, next.high1));
      RenormalizedLanes(next.low0, next.low1, next.high0, next.high1);
      RenormalizedRange(Step16(t, r.Metrics(), y));
      next := Registers(SubLanes(next.low0, minimum), SubLanes(next.low1, minimum),
                        SubLanes(next.high0, minimum), SubLanes(next.high1, minimum), 0);
    }
  }

  lemma RenormalizedRange(m: Metrics)
    requires forall j :: 0 <= j < 64 ==> m[j] < WORD
    ensures forall j :: 0 <= j < 64 ==> Renormalized(m).metrics[j] < WORD
  {
  }

  // The step loop over the registers.
  method VectorBlock(t: Tables, start: Registers, soft: seq<Byte>, steps: nat, decisions: array<nat>) returns (r: Registers)
    requires ValidTables(t) && start.Sixteen() && 2 * steps <= |soft| && steps <= decisions.Length
    modifies decisions
    ensures r.Value() == Run16(t, start.Value(), SymbolsOf(soft, steps)) && r.Sixteen()
    ensures decisions[..] == Words16(t, start.Value(), SymbolsOf(soft, steps)) + old(decisions[..])[steps..]
  {
    hide *;
    ghost var k, before := start.Value(), decisions[..];
    EmptyRun(t, k, soft);
    r := start;
    for step := 0 to steps
      invariant r.Value() == Run16(t, k, SymbolsOf(soft, step)) && r.Sixteen()
      invariant decisions[..] == Words16(t, k, SymbolsOf(soft, step)) + before[step..]
    {
      var y := SymbolsAt(soft, step);
      SymbolsPush(soft, step);
      ghost var seen, now := SymbolsOf(soft, step), decisions[..];
      RunPush(t, k, seen, y);
      RegistersValue(r);
      var word;
      r, word := VectorAdvance(t, y, r);
      OverwriteNext(Words16(t, k, seen), before, word);
      decisions[step] := word;
      assert decisions[..] == now[step := word];
    }
  }

  lemma RegistersValue(r: Registers)
    ensures r.Value().metrics == r.Metrics()
  {
  }

  // The vector form of the block loop: same state and same decision words as the scalar
  // form, whatever the state it starts from.
  method RunAvx2(state: ViterbiState, soft: seq<Byte>, steps: nat, decisions: array<nat>)
    requires state.Valid() && 2 * steps <= |soft| && steps <= decisions.Length && state.Apart(decisions)
    modifies state, state.metrics, decisions
    ensures state.Valid()
    ensures state.Value() == Run16(state.Expected(), old(state.Value()), SymbolsOf(soft, steps))
    ensures decisions[..] == Words16(state.Expected(), old(state.Value()), SymbolsOf(soft, steps)) + old(decisions[..])[steps..]
  {
    hide Run16, Words16, SymbolsOf, ValidTables, Joined;
    state.WhatValidMeans();
    var m: Metrics := state.metrics[..];
    JoinedSlices(m);
    var start := Registers(m[..16], m[16..32], m[32..48], m[48..], state.since);
    var r := VectorBlock(state.Expected(), start, soft, steps, decisions);
    var lanes := r.Metrics();
    forall j | 0 <= j < 64 {
      state.metrics[j] := lanes[j];
    }
    state.since := r.since;
    assert state.metrics[..] == lanes;
  }
}
