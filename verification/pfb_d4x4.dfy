// The exact half-bin layout of eight bins at decimation 4 with outputs -2..1: the
// eight-point network run over four hops at once, the phase maps that replace the
// post-phase table, and the shared-window accumulations of the vector backends.
module PfbD4x4 {
  import opened Bits
  import opened ComplexNumbers
  import opened IfftTransform
  import opened IfftFrequency
  import Ifft = IfftKernel
  import opened PfbFilterBank
  import opened PfbPlan
  import opened PfbRing
  import opened PfbHop

  // ---- The eight-point network ----

  function MultiplyByI(a: Complex): (r: Complex)
    ensures r == Mul(a, I)
  {
    Complex(-a.im, a.re)
  }

  function MultiplyComplex(a: Complex, re: real, im: real): (r: Complex)
    ensures r == Mul(a, Complex(re, im))
  {
    Complex(a.im * -im + a.re * re, a.re * im + a.im * re)
  }

  // The butterflies of one hop; bin k ends up in slot BIT_REVERSED[k].
  function EightPoint(x: seq<Complex>, half: real): (r: seq<Complex>)
    requires |x| == 8
    ensures |r| == 8
  {
    var a0, a4 := Add(x[0], x[4]), Sub(x[0], x[4]);
    var a1, a5 := Add(x[1], x[5]), MultiplyComplex(Sub(x[1], x[5]), half, half);
    var a2, a6 := Add(x[2], x[6]), MultiplyByI(Sub(x[2], x[6]));
    var a3, a7 := Add(x[3], x[7]), MultiplyComplex(Sub(x[3], x[7]), -half, half);
    var b0, b2 := Add(a0, a2), Sub(a0, a2);
    var b1, b3 := Add(a1, a3), MultiplyByI(Sub(a1, a3));
    var b4, b6 := Add(a4, a6), Sub(a4, a6);
    var b5, b7 := Add(a5, a7), MultiplyByI(Sub(a5, a7));
    [Add(b0, b1), Sub(b0, b1), Add(b2, b3), Sub(b2, b3), Add(b4, b5), Sub(b4, b5), Add(b6, b7), Sub(b6, b7)]
  }

  const BIT_REVERSED: seq<nat> := [0, 4, 2, 6, 1, 5, 3, 7]

  lemma BitReversedTable(k: nat)
    requires k < 8
    ensures BIT_REVERSED[k] == Reverse(k, 3)
  {
    hide Reverse;
    var high, middle, low := k / 4, k / 2 % 2, k % 2;
    assert k == 4 * high + 2 * middle + low && high < 2;
    ReverseOfThree(high, middle, low);
  }

  lemma ReverseOfThree(high: Bit, middle: Bit, low: Bit)
    ensures Reverse(2 * (2 * high + middle) + low, 3) == (if low == 0 then 0 else 4) + (if middle == 0 then 0 else 2) + high
  {
    hide Reverse;
    Powers();
    ReverseCons(2 * high + middle, low, 2);
    ReverseCons(high, middle, 1);
    ReverseCons(0, high, 0);
    ReverseNothing(0);
  }

  lemma NetworkOfTwo(x: seq<Complex>, w: int -> Complex, unit: nat)
    requires |x| == 2 && w(0) == ONE
    ensures Pow2(1) == 2 && Network(x, w, unit, 1) == [Add(x[0], x[1]), Sub(x[0], x[1])]
  {
    hide Add, Sub, Mul;
    MulOne(Sub(x[0], x[1]));
    assert unit * 0 == 0;
    assert Sums(x) == [Add(x[0], x[1])] && Differences(x, w, unit) == [Sub(x[0], x[1])];
    assert Network(Sums(x), w, 2 * unit, 0) == Sums(x);
    assert Network(Differences(x, w, unit), w, 2 * unit, 0) == Differences(x, w, unit);
  }

  lemma NetworkOfFour(x: seq<Complex>, w: int -> Complex, unit: nat)
    requires |x| == 4 && w(0) == ONE && w(unit) == I
    ensures Pow2(2) == 4
    ensures
      var b0, b1 := Add(x[0], x[2]), Add(x[1], x[3]);
      var b2, b3 := Sub(x[0], x[2]), MultiplyByI(Sub(x[1], x[3]));
      Network(x, w, unit, 2) == [Add(b0, b1), Sub(b0, b1), Add(b2, b3), Sub(b2, b3)]
  {
    Powers();
    hide Add, Sub, Mul, MultiplyByI;
    MulOne(Sub(x[0], x[2]));
    assert unit * 0 == 0 && unit * 1 == unit;
    var s, d := [Add(x[0], x[2]), Add(x[1], x[3])], [Sub(x[0], x[2]), MultiplyByI(Sub(x[1], x[3]))];
    assert Sums(x) == s && Differences(x, w, unit) == d;
    NetworkOfTwo(s, w, 2 * unit);
    NetworkOfTwo(d, w, 2 * unit);
  }

  function SumsOfEight(x: seq<Complex>): seq<Complex>
    requires |x| == 8
  {
    [Add(x[0], x[4]), Add(x[1], x[5]), Add(x[2], x[6]), Add(x[3], x[7])]
  }

  function DifferencesOfEight(x: seq<Complex>, half: real): seq<Complex>
    requires |x| == 8
  {
    [Sub(x[0], x[4]), MultiplyComplex(Sub(x[1], x[5]), half, half), MultiplyByI(Sub(x[2], x[6])), MultiplyComplex(Sub(x[3], x[7]), -half, half)]
  }

  // The first butterflies, turned by the eighth roots.
  lemma FirstButterflies(x: seq<Complex>, w: int -> Complex, unit: nat, half: real)
    requires |x| == 8 && w(0) == ONE && w(unit) == Complex(half, half) && w(2 * unit) == I && w(3 * unit) == Complex(-half, half)
    ensures Sums(x) == SumsOfEight(x) && Differences(x, w, unit) == DifferencesOfEight(x, half)
  {
    hide Add, Sub, Mul, MultiplyByI, MultiplyComplex;
    MulOne(Sub(x[0], x[4]));
    assert unit * 0 == 0 && unit * 1 == unit && unit * 2 == 2 * unit && unit * 3 == 3 * unit;
  }

  // The backend's butterflies are the general network at eight points.
  lemma EightPointIsNetwork(x: seq<Complex>, w: int -> Complex, unit: nat, half: real)
    requires |x| == 8 && RootsOfUnity(w, 8 * unit) && w(unit) == Complex(half, half)
    ensures Pow2(3) == 8 && EightPoint(x, half) == Network(x, w, unit, 3)
  {
    hide Add, Sub, Mul, MultiplyByI, MultiplyComplex, RootsOfUnity, Sums, Differences, EightPoint, SumsOfEight, DifferencesOfEight;
    Powers();
    RootSpecial(w, 8 * unit);
    RootProduct(w, 8 * unit, unit, 2 * unit);
    TurnedRoot(half);
    FirstButterflies(x, w, unit, half);
    EightFromFours(x, w, unit, half);
    assert Network(x, w, unit, 3) == Network(Sums(x), w, 2 * unit, 2) + Network(Differences(x, w, unit), w, 2 * unit, 2);
  }

  lemma EightFromFours(x: seq<Complex>, w: int -> Complex, unit: nat, half: real)
    requires |x| == 8 && w(0) == ONE && w(2 * unit) == I
    ensures Pow2(2) == 4
    ensures EightPoint(x, half) == Network(SumsOfEight(x), w, 2 * unit, 2) + Network(DifferencesOfEight(x, half), w, 2 * unit, 2)
  {
    hide Add, Sub, Mul, MultiplyByI, MultiplyComplex, Network;
    NetworkOfFour(SumsOfEight(x), w, 2 * unit);
    NetworkOfFour(DifferencesOfEight(x, half), w, 2 * unit);
  }

  lemma TurnedRoot(half: real)
    ensures Mul(Complex(half, half), I) == Complex(-half, half)
  {
  }

  // So its slots hold the transform bins.
  lemma EightPointIsDft(x: seq<Complex>, w: int -> Complex, unit: nat, half: real, k: nat)
    requires |x| == 8 && RootsOfUnity(w, 8 * unit) && w(unit) == Complex(half, half) && k < 8
    ensures EightPoint(x, half)[BIT_REVERSED[k]] == Dft(x, w, unit, k)
  {
    hide RootsOfUnity, EightPoint, Network, Dft, Reverse;
    Powers();
    EightPointIsNetwork(x, w, unit, half);
    BitReversedTable(k);
    NetworkIsDft(x, w, 8 * unit, unit, 3, k);
  }

  // ---- Phase maps ----

  // Lane order and sign flips (true negates) for outputs -2 and 0 (a), -1 and 1 (b).
  datatype PhaseMap = PhaseMap(lanes: seq<nat>, signsA: seq<bool>, signsB: seq<bool>)

  function PhaseMapOf(phase: nat): PhaseMap
    requires phase < 4
  {
    if phase == 0 then
      PhaseMap([0, 4, 5, 1, 2, 6, 7, 3],
               [false, false, false, true, true, true, true, false],
               [false, false, true, false, true, true, false, true])
    else if phase == 1 then
      PhaseMap([4, 0, 1, 5, 6, 2, 3, 7],
               [false, true, true, true, true, false, false, false],
               [true, false, true, true, false, true, false, false])
    else if phase == 2 then
      PhaseMap([0, 4, 5, 1, 2, 6, 7, 3],
               [true, true, true, false, false, false, false, true],
               [true, true, false, true, false, false, true, false])
    else
      PhaseMap([4, 0, 1, 5, 6, 2, 3, 7],
               [true, false, false, false, false, true, true, true],
               [false, true, false, false, true, false, true, true])
  }

  // Four hops of one bin packed as four real parts and four imaginary parts.
  function Packed(v: seq<Complex>): (lanes: seq<real>)
    requires |v| == 4
    ensures |lanes| == 8
  {
    [v[0].re, v[1].re, v[2].re, v[3].re, v[0].im, v[1].im, v[2].im, v[3].im]
  }

  function Flip(negate: bool, x: real): real { if negate then -x else x }

  predicate WellFormed(m: PhaseMap)
  {
    |m.lanes| == 8 && |m.signsA| == 8 && |m.signsB| == 8 && forall i :: 0 <= i < 8 ==> m.lanes[i] < 8
  }

  // Output j of the permuted and sign-flipped lanes.
  function EmittedAt(v: seq<Complex>, m: PhaseMap, forward: bool, j: nat): Complex
    requires |v| == 4 && WellFormed(m) && j < 4
  {
    var p, signs := Packed(v), if forward then m.signsB else m.signsA;
    Complex(Flip(signs[2 * j], p[m.lanes[2 * j]]), Flip(signs[2 * j + 1], p[m.lanes[2 * j + 1]]))
  }

  function Turned(z: Complex, quarters: int): Complex
  {
    if quarters == 0 then z
    else if quarters == 1 then Complex(-z.im, z.re)
    else if quarters == 2 then Complex(-z.re, -z.im)
    else Complex(z.im, -z.re)
  }

  lemma TurnedIsProduct(z: Complex, e: int)
    ensures Mul(QuarterTurn(e), z) == Turned(z, e % 4)
  {
    hide Mul;
    MulOne(z);
    TimesI(z);
    TimesNegI(z);
    MulComm(Neg(ONE), z);
    MulNegOne(z);
  }

  // A lane pair and its signs, for a number of quarter turns.
  lemma EntryTurns(v: seq<Complex>, m: PhaseMap, forward: bool, j: nat, quarters: nat)
    requires |v| == 4 && WellFormed(m) && j < 4 && quarters < 4
    requires TurnsEntry(m, forward, j, quarters)
    ensures EmittedAt(v, m, forward, j) == Turned(v[j], quarters)
  {
    assert Packed(v)[j] == v[j].re && Packed(v)[j + 4] == v[j].im;
  }

  predicate TurnsEntry(m: PhaseMap, forward: bool, j: nat, quarters: nat)
    requires WellFormed(m) && j < 4
  {
    var signs := if forward then m.signsB else m.signsA;
    && m.lanes[2 * j] == (if quarters % 2 == 0 then j else j + 4)
    && m.lanes[2 * j + 1] == (if quarters % 2 == 0 then j + 4 else j)
    && signs[2 * j] == (quarters == 1 || quarters == 2)
    && signs[2 * j + 1] == (quarters == 2 || quarters == 3)
  }

  lemma MapTurns(phase: nat, forward: bool, j: nat, quarters: nat)
    requires phase < 4 && j < 4 && quarters == (if forward then phase + j else 8 - phase - j) % 4
    ensures WellFormed(PhaseMapOf(phase)) && TurnsEntry(PhaseMapOf(phase), forward, j, quarters)
  {
    if phase == 0 {
      MapTurnsFrom0(forward, j, quarters);
    } else if phase == 1 {
      MapTurnsFrom1(forward, j, quarters);
    } else if phase == 2 {
      MapTurnsFrom2(forward, j, quarters);
    } else {
      MapTurnsFrom3(forward, j, quarters);
    }
  }

  lemma MapTurnsFrom0(forward: bool, j: nat, quarters: nat)
    requires j < 4 && quarters == (if forward then 0 + j else 8 - j) % 4
    ensures WellFormed(PhaseMapOf(0)) && TurnsEntry(PhaseMapOf(0), forward, j, quarters)
  {
    if j == 0 {} else if j == 1 {} else if j == 2 {} else {}
  }

  lemma MapTurnsFrom1(forward: bool, j: nat, quarters: nat)
    requires j < 4 && quarters == (if forward then 1 + j else 7 - j) % 4
    ensures WellFormed(PhaseMapOf(1)) && TurnsEntry(PhaseMapOf(1), forward, j, quarters)
  {
    if j == 0 {} else if j == 1 {} else if j == 2 {} else {}
  }

  lemma MapTurnsFrom2(forward: bool, j: nat, quarters: nat)
    requires j < 4 && quarters == (if forward then 2 + j else 6 - j) % 4
    ensures WellFormed(PhaseMapOf(2)) && TurnsEntry(PhaseMapOf(2), forward, j, quarters)
  {
    if j == 0 {} else if j == 1 {} else if j == 2 {} else {}
  }

  lemma MapTurnsFrom3(forward: bool, j: nat, quarters: nat)
    requires j < 4 && quarters == (if forward then 3 + j else 5 - j) % 4
    ensures WellFormed(PhaseMapOf(3)) && TurnsEntry(PhaseMapOf(3), forward, j, quarters)
  {
    if j == 0 {} else if j == 1 {} else if j == 2 {} else {}
  }

  function Signed(forward: bool, turns: int): int { if forward then turns else -turns }

  // Each map turns hop j forward or back by phase + j quarter turns.
  lemma MapsAreQuarterTurns(v: seq<Complex>, phase: nat, forward: bool, j: nat)
    requires |v| == 4 && phase < 4 && j < 4
    ensures WellFormed(PhaseMapOf(phase))
    ensures EmittedAt(v, PhaseMapOf(phase), forward, j) == Mul(QuarterTurn(Signed(forward, phase + j)), v[j])
  {
    hide Mul, EmittedAt, Turned, QuarterTurn, PhaseMapOf;
    var e := Signed(forward, phase + j);
    assert e % 4 == (if forward then phase + j else 8 - phase - j) % 4;
    MapTurns(phase, forward, j, e % 4);
    TurnedIsProduct(v[j], e);
    EntryTurns(v, PhaseMapOf(phase), forward, j, e % 4);
  }

  // ---- Four hops of the exact layout ----

  predicate ExactLayout(c: Config)
  {
    c.bins == 8 && c.decimation == 4 && c.halfGrid && c.logical == [-2, -1, 0, 1]
  }

  // The post-phase table of the exact layout repeats every four hops.
  lemma ExactPeriod(c: Config)
    requires ExactLayout(c)
    ensures Period(c, 4) == 4
  {
    assert Gcd(16, 12) == 4 && Gcd(16, 4) == 4;
    assert BinPeriod(c, -2) == 4 && BinPeriod(c, -1) == 4 && BinPeriod(c, 0) == 4 && BinPeriod(c, 1) == 4;
    assert Lcm(1, 4) == 4 && Lcm(4, 4) == 4;
    assert Period(c, 1) == 4;
    assert Period(c, 2) == 4;
    assert Period(c, 3) == 4;
  }

  // The slot an output is read from, and whether its phase turns forward.
  function OutputSlot(output: nat): (slot: nat)
    requires output < 4
    ensures slot < 8
  {
    if output == 0 then 3 else if output == 1 then 7 else if output == 2 then 0 else 4
  }

  predicate TurnsForward(output: nat) { output % 2 == 1 }

  // Every fourth root of the grid is a quarter turn.
  lemma GridQuarterTurns(w: int -> Complex, e: int)
    requires RootsOfUnity(w, 16)
    ensures w(4 * e) == QuarterTurn(e)
  {
    hide RootsOfUnity, Mul;
    RootSpecial(w, 16);
    RootProduct(w, 16, 8, 4);
    MulComm(Neg(ONE), I);
    MulNegOne(I);
    var q, r := e / 4, e % 4;
    assert 4 * e == 4 * r + q * 16;
    RootPeriod(w, 16, 4 * r, q);
  }

  lemma QuarterTurnOf(a: int, b: int, turns: int)
    requires a == b + 4 * turns
    ensures QuarterTurn(a) == QuarterTurn(b)
  {
    assert a % 4 == b % 4 by {
      assert a == 4 * (b / 4 + turns) + b % 4;
      DivUnique(a, 4, b / 4 + turns, b % 4);
    }
  }

  // Post phase of output o at hop number m: one quarter turn per hop, forward or back.
  lemma ExactPost(c: Config, w: int -> Complex, output: nat, m: nat)
    requires ExactLayout(c) && output < 4 && RootsOfUnity(w, 16)
    ensures Post(c, w, c.logical[output], m * 4) == QuarterTurn(Signed(TurnsForward(output), m))
  {
    hide RootsOfUnity, QuarterTurn;
    var f := Frequency(c, c.logical[output]);
    var hop: int := m;
    assert f == 2 * output - 3;
    GridQuarterTurns(w, -f * m);
    assert -f * (m * 4) == 4 * (-f * m);
    if output == 0 {
      QuarterTurnOf(3 * hop, -hop, hop);
    } else if output == 3 {
      QuarterTurnOf(-3 * hop, hop, -hop);
    }
  }

  lemma ExactSlots(c: Config, output: nat)
    requires ExactLayout(c) && output < 4
    ensures 0 <= FftBin(c, c.logical[output]) < 8 && BIT_REVERSED[FftBin(c, c.logical[output])] == OutputSlot(output)
  {
  }

  // The rotated branches of the hop whose newest sample is n.
  function HopBranches(c: Config, w: int -> Complex, x: seq<Complex>, n: int): (v: seq<Complex>)
    requires c.bins > 0
    ensures |v| == c.bins
  {
    seq(c.bins, branch requires 0 <= branch < c.bins => Rotated(c, w, x, n, branch))
  }

  // Main result for every eight-bin layout: the network's slot of a bin, times the table's
  // post phase, is the promised output, for any decimation, grid and stream.
  lemma NetworkHopIsDirect(c: Config, table: int -> Complex, x: seq<Complex>, half: real, n: int, b: int)
    requires c.bins == 8 && -4 <= b < 4 && RootsOfUnity(table, ORDER) && table(8) == Complex(half, half)
    ensures 0 <= FftBin(c, b) < 8
    ensures
      var w := Root(c, table);
      Mul(Post(c, w, b, n), EightPoint(HopBranches(c, w, x, n), half)[BIT_REVERSED[FftBin(c, b)]]) == Direct(c, w, x, b, n)
  {
    hide RootsOfUnity, EightPoint, Rotated, Mul, Direct, Polyphase, Sum, Dft, BranchSum, Post, Root, TransformRoot;
    GridRoots(c, table);
    RootAt(table);
    var w, w32 := Root(c, table), TransformRoot(table);
    var branches := HopBranches(c, w, x, n);
    EightPointIsDft(branches, w32, 4, half, FftBin(c, b));
    BinIsPolyphaseSum(c, table, x, n, branches, b, FftBin(c, b));
    PolyphaseIs(c, w, x, b, n);
    PolyphaseIsDirect(c, w, x, b, n);
  }

  lemma RootAt(table: int -> Complex)
    ensures TransformRoot(table)(4) == table(8)
  {
  }

  // One output of four consecutive hops before its phase map.
  function FourHops(c: Config, w: int -> Complex, x: seq<Complex>, half: real, h: nat, output: nat): (v: seq<Complex>)
    requires c.bins == 8 && output < 4
    ensures |v| == 4
  {
    seq(4, j requires 0 <= j < 4 => EightPoint(HopBranches(c, w, x, (h + j) * 4), half)[OutputSlot(output)])
  }

  // Main result for the exact layout: network and phase map together give the promised
  // outputs, for every stream, every starting hop and all four outputs.
  lemma FourHopsAreDirect(c: Config, table: int -> Complex, x: seq<Complex>, half: real, h: nat, output: nat, j: nat)
    requires ExactLayout(c) && RootsOfUnity(table, ORDER) && table(8) == Complex(half, half) && output < 4 && j < 4
    ensures WellFormed(PhaseMapOf(h % 4))
    ensures EmittedAt(FourHops(c, Root(c, table), x, half, h, output), PhaseMapOf(h % 4), TurnsForward(output), j) ==
            Direct(c, Root(c, table), x, c.logical[output], (h + j) * 4)
  {
    hide RootsOfUnity, EmittedAt, PhaseMapOf, QuarterTurn, EightPoint, HopBranches, Mul, Direct, Post, Root, Signed, Frequency;
    GridRoots(c, table);
    var w := Root(c, table);
    ExactSlots(c, output);
    NetworkHopIsDirect(c, table, x, half, (h + j) * 4, c.logical[output]);
    ExactPost(c, w, output, h + j);
    MapsAreQuarterTurns(FourHops(c, w, x, half, h, output), h % 4, TurnsForward(output), j);
    PhaseOfHop(h, j, TurnsForward(output));
  }

  // ---- Axis phases of the other decimate-by-4 layouts ----

  // The phase applied by blends and sign flips, for phases on an axis.
  function BlendedPhase(phase: Complex, z: Complex): Complex
  {
    if phase.im != 0.0 then Complex(Flip(phase.im > 0.0, z.im), Flip(phase.im < 0.0, z.re))
    else Complex(Flip(phase.re < 0.0, z.re), Flip(phase.re < 0.0, z.im))
  }

  // With eight bins and a decimation divisible by four every post phase of either grid lies
  // on an axis, and there blending is multiplying.
  lemma AxisPhases(c: Config, w: int -> Complex, b: int, h: nat, z: Complex)
    requires c.bins == 8 && c.decimation % 4 == 0 && RootsOfUnity(w, 16)
    ensures
      var phase := Post(c, w, b, h * c.decimation);
      && phase == QuarterTurn(-Frequency(c, b) * (h * (c.decimation / 4)))
      && BlendedPhase(phase, z) == Mul(phase, z)
  {
    hide RootsOfUnity, Mul, QuarterTurn, Frequency;
    var f, d := Frequency(c, b), c.decimation / 4;
    assert c.decimation == 4 * d;
    FourthExponent(-f, h, d);
    GridQuarterTurns(w, -f * (h * d));
    BlendTurns(-f * (h * d), z);
  }

  lemma FourthExponent(f: int, h: int, d: int)
    ensures f * (h * (4 * d)) == 4 * (f * (h * d))
  {
    assert h * (4 * d) == 4 * (h * d);
  }

  lemma BlendTurns(e: int, z: Complex)
    ensures BlendedPhase(QuarterTurn(e), z) == Mul(QuarterTurn(e), z)
  {
    hide Mul;
    TurnedIsProduct(z, e);
  }

  lemma PhaseOfHop(h: nat, j: nat, forward: bool)
    ensures QuarterTurn(Signed(forward, h % 4 + j)) == QuarterTurn(Signed(forward, h + j))
  {
    hide QuarterTurn;
    var turns: int := h / 4;
    assert h == 4 * turns + h % 4;
    QuarterTurnOf(h + j, h % 4 + j, turns);
    QuarterTurnOf(-(h + j), -(h % 4 + j), -turns);
  }

  // ---- Shared windows ----

  // Eight lanes loaded from a buffer.
  type Window = w: seq<real> | |w| == 8 witness seq(8, _ => 0.0)

  function Load(history: seq<real>, at: int): Window
    requires 0 <= at && at + 8 <= |history|
  {
    history[at..at + 8]
  }

  // First address of a row's window for a hop.
  function RowAddress(cursor: nat, size: nat, row: nat): int { cursor + size - row * 8 - 7 }

  function Row(coefficients: seq<real>, row: nat): Window
    requires (row + 1) * 8 <= |coefficients|
  {
    coefficients[row * 8..row * 8 + 8]
  }

  // Rows accumulated one by one in ascending order; `fma` is any multiply-add, rounding
  // included.
  function RowByRow(fma: (Window, Window, Window) -> Window, history: seq<real>, coefficients: seq<real>, cursor: nat, size: nat, rows: nat): Window
    requires rows * 8 <= |coefficients| && rows * 8 <= size && cursor < size && |history| == 2 * size
  {
    if rows == 0 then seq(8, _ => 0.0)
    else
      fma(Load(history, RowAddress(cursor, size, rows - 1)), Row(coefficients, rows - 1),
          RowByRow(fma, history, coefficients, cursor, size, rows - 1))
  }

  ghost predicate Mirrored(history: seq<real>, size: nat)
  {
    |history| == 2 * size && forall p :: 0 <= p < size ==> history[p] == history[p + size]
  }

  // The window of a hop two hops later, one row on, is the same window: the cursors differ
  // by one row, or by one row less a ring length, and then the mirror makes up for it.
  lemma SharedWindow(history: seq<real>, size: nat, cursor: nat, later: nat, row: nat)
    requires Mirrored(history, size) && cursor < size && size > 8 && later == (cursor + 8) % size
    requires (row + 2) * 8 <= size
    ensures later < size
    ensures Load(history, RowAddress(later, size, row + 1)) == Load(history, RowAddress(cursor, size, row))
  {
    if cursor + 8 < size {
      DivUnique(cursor + 8, size, 0, cursor + 8);
    } else {
      DivUnique(cursor + 8, size, 1, cursor + 8 - size);
      var a := RowAddress(cursor, size, row);
      assert RowAddress(later, size, row + 1) == a - size;
      forall p | a - size <= p < a - size + 8 ensures history[p] == history[p + size] {}
      assert history[a - size..a - size + 8] == history[a..a + 8];
    }
  }

  lemma RowStep(fma: (Window, Window, Window) -> Window, history: seq<real>, coefficients: seq<real>, cursor: nat, size: nat, row: nat)
    requires (row + 1) * 8 <= |coefficients| && (row + 1) * 8 <= size && cursor < size && |history| == 2 * size
    ensures RowByRow(fma, history, coefficients, cursor, size, row + 1) ==
            fma(Load(history, RowAddress(cursor, size, row)), Row(coefficients, row), RowByRow(fma, history, coefficients, cursor, size, row))
  {
  }

  // The paired loop of the four-hop batch: two rows at a time, with the row-0 windows of
  // hops 0 and 1 reused as row-1 windows of hops 2 and 3. Every hop accumulates its rows
  // exactly as the row-by-row loop does.
  method AccumulatePaired(fma: (Window, Window, Window) -> Window, history: seq<real>, coefficients: seq<real>, cursors: seq<nat>, size: nat, rows: nat)
    returns (accumulators: seq<Window>)
    requires Mirrored(history, size) && size > 8 && rows * 8 <= |coefficients| && rows * 8 <= size
    requires |cursors| == 4 && forall j :: 0 <= j < 4 ==> cursors[j] < size
    requires cursors[2] == (cursors[0] + 8) % size && cursors[3] == (cursors[1] + 8) % size
    ensures |accumulators| == 4
    ensures forall j :: 0 <= j < 4 ==> accumulators[j] == RowByRow(fma, history, coefficients, cursors[j], size, rows)
  {
    hide RowByRow, Load, Row, RowAddress, Mirrored;
    MirroredLength(history, size);
    accumulators := [seq(8, _ => 0.0), seq(8, _ => 0.0), seq(8, _ => 0.0), seq(8, _ => 0.0)];
    forall j | 0 <= j < 4 ensures RowByRow(fma, history, coefficients, cursors[j], size, 0) == seq(8, _ => 0.0) {
      NoRows(fma, history, coefficients, cursors[j], size);
    }
    var row := 0;
    while row + 1 < rows
      invariant row <= rows && |accumulators| == 4
      invariant forall j :: 0 <= j < 4 ==> accumulators[j] == RowByRow(fma, history, coefficients, cursors[j], size, row)
    {
      InRing(cursors[0], size, row);
      InRing(cursors[1], size, row);
      InRing(cursors[2], size, row);
      InRing(cursors[3], size, row);
      var c0, c1 := Row(coefficients, row), Row(coefficients, row + 1);
      var a0 := Load(history, RowAddress(cursors[0], size, row));
      var a1 := Load(history, RowAddress(cursors[1], size, row));
      var a2 := Load(history, RowAddress(cursors[2], size, row));
      var a3 := Load(history, RowAddress(cursors[3], size, row));
      var b0 := Load(history, RowAddress(cursors[0], size, row + 1));
      var b1 := Load(history, RowAddress(cursors[1], size, row + 1));
      SharedWindow(history, size, cursors[0], cursors[2], row);
      SharedWindow(history, size, cursors[1], cursors[3], row);
      forall j | 0 <= j < 4
        ensures RowByRow(fma, history, coefficients, cursors[j], size, row + 2) ==
                fma(Load(history, RowAddress(cursors[j], size, row + 1)), c1,
                    fma(Load(history, RowAddress(cursors[j], size, row)), c0, RowByRow(fma, history, coefficients, cursors[j], size, row)))
      {
        RowStep(fma, history, coefficients, cursors[j], size, row);
        RowStep(fma, history, coefficients, cursors[j], size, row + 1);
      }
      accumulators := [fma(b0, c1, fma(a0, c0, accumulators[0])), fma(b1, c1, fma(a1, c0, accumulators[1])),
                       fma(a0, c1, fma(a2, c0, accumulators[2])), fma(a1, c1, fma(a3, c0, accumulators[3]))];
      row := row + 2;
    }
    if row != rows {
      var c0 := Row(coefficients, row);
      forall j | 0 <= j < 4 ensures 0 <= RowAddress(cursors[j], size, row) && RowAddress(cursors[j], size, row) + 8 <= |history| {
        InRingOnce(cursors[j], size, row);
      }
      forall j | 0 <= j < 4
        ensures RowByRow(fma, history, coefficients, cursors[j], size, row + 1) ==
                fma(Load(history, RowAddress(cursors[j], size, row)), c0, RowByRow(fma, history, coefficients, cursors[j], size, row))
      {
        RowStep(fma, history, coefficients, cursors[j], size, row);
      }
      accumulators := [fma(Load(history, RowAddress(cursors[0], size, row)), c0, accumulators[0]),
                       fma(Load(history, RowAddress(cursors[1], size, row)), c0, accumulators[1]),
                       fma(Load(history, RowAddress(cursors[2], size, row)), c0, accumulators[2]),
                       fma(Load(history, RowAddress(cursors[3], size, row)), c0, accumulators[3])];
    }
  }

  lemma MirroredLength(history: seq<real>, size: nat)
    requires Mirrored(history, size)
    ensures |history| == 2 * size
  {
  }

  lemma NoRows(fma: (Window, Window, Window) -> Window, history: seq<real>, coefficients: seq<real>, cursor: nat, size: nat)
    requires cursor < size && |history| == 2 * size
    ensures RowByRow(fma, history, coefficients, cursor, size, 0) == seq(8, _ => 0.0)
  {
  }

  lemma InRingOnce(cursor: nat, size: nat, row: nat)
    requires cursor < size && (row + 1) * 8 <= size
    ensures 0 <= RowAddress(cursor, size, row) && RowAddress(cursor, size, row) + 8 <= 2 * size
  {
  }

  lemma InRing(cursor: nat, size: nat, row: nat)
    requires cursor < size && (row + 2) * 8 <= size
    ensures 0 <= RowAddress(cursor, size, row) && RowAddress(cursor, size, row) + 8 <= 2 * size
    ensures 0 <= RowAddress(cursor, size, row + 1) && RowAddress(cursor, size, row + 1) + 8 <= 2 * size
  {
  }
}
