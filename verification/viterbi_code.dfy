// The K = 7, rate 1/2 convolutional code: its shift-register encoder, the trellis
// state a decoder keeps instead of the register, and the expected code bits a
// butterfly of the decoder is labelled with.
module ViterbiCode {
  import opened Bits

  const STATES: nat := 64
  const BUTTERFLIES: nat := 32

  // The last six input bits, the newest in bit 0.
  type State = s: nat | s < 64

  // Two soft symbols of one step, from 0 (certainly 0) to 255 (certainly 1).
  datatype Symbols = Symbols(s0: Byte, s1: Byte)

  // Two code polynomials: bit 6 taps the newest input bit, bit 0 the oldest.
  datatype Code = Code(polynomialA: nat, polynomialB: nat)

  predicate ValidPolynomial(polynomial: nat)
  {
    polynomial != 0 && polynomial <= 0x7F
  }

  predicate ValidCode(code: Code)
  {
    ValidPolynomial(code.polynomialA) && ValidPolynomial(code.polynomialB)
  }

  predicate TapsOldest(polynomial: nat) { polynomial % 2 == 1 }

  predicate TapsNewest(polynomial: nat) { polynomial / 64 % 2 == 1 }

  predicate TapsBothEnds(polynomial: nat) { TapsOldest(polynomial) && TapsNewest(polynomial) }

  // What the decoder relies on and creation does not ask for.
  predicate Transparent(code: Code)
  {
    TapsBothEnds(code.polynomialA) && TapsBothEnds(code.polynomialB)
  }

  // The new state when a bit enters.
  function Next(s: State, bit: Bit): State
  {
    (2 * s + bit) % 64
  }

  // Parity of the register under a polynomial, as a hard soft-symbol.
  function ExpectedBit(polynomial: nat, register: nat): (e: Byte)
    ensures e == 0 || e == 255
  {
    if Popcount(And(polynomial, register)) % 2 != 0 then 255 else 0
  }

  // The encoder as a seven-bit shift register: `memory` holds the six previous
  // bits and the newest bit enters at bit 6.
  function Shift(memory: nat, bit: Bit): nat { 64 * bit + memory }

  function Transmit(code: Code, memory: nat, bit: Bit): Symbols
  {
    Symbols(ExpectedBit(code.polynomialA, Shift(memory, bit)), ExpectedBit(code.polynomialB, Shift(memory, bit)))
  }

  function Remember(memory: nat, bit: Bit): nat { Shift(memory, bit) / 2 }

  // What the encoder sends for a bit sequence, starting from a cleared register.
  function MemoryAfter(bits: seq<Bit>): nat
  {
    if bits == [] then 0 else Remember(MemoryAfter(bits[..|bits| - 1]), bits[|bits| - 1])
  }

  function Encode(code: Code, bits: seq<Bit>): (sent: seq<Symbols>)
    ensures |sent| == |bits|
  {
    if bits == [] then []
    else
      var before := bits[..|bits| - 1];
      Encode(code, before) + [Transmit(code, MemoryAfter(before), bits[|bits| - 1])]
  }

  // The state reached from s by a bit sequence.
  function StateAfter(s: State, bits: seq<Bit>): State
  {
    if bits == [] then s else Next(StateAfter(s, bits[..|bits| - 1]), bits[|bits| - 1])
  }

  // Expected bits (0 / 255) of butterfly i, which joins old states i and i + 32: what
  // the encoder sends from old state i for a new 0 bit.
  datatype Tables = Tables(a: seq<Byte>, b: seq<Byte>)

  predicate ValidTables(t: Tables)
  {
    && |t.a| == BUTTERFLIES && |t.b| == BUTTERFLIES
    && (forall i :: 0 <= i < BUTTERFLIES ==> t.a[i] == 0 || t.a[i] == 255)
    && (forall i :: 0 <= i < BUTTERFLIES ==> t.b[i] == 0 || t.b[i] == 255)
  }

  function TableEntry(polynomial: nat, i: nat): (e: Byte)
    ensures e == 0 || e == 255
  {
    ExpectedBit(polynomial, Reverse(2 * i, 7))
  }

  function TablesOf(code: Code): (t: Tables)
    ensures ValidTables(t)
  {
    Tables(seq(BUTTERFLIES, i requires 0 <= i < BUTTERFLIES => TableEntry(code.polynomialA, i)),
           seq(BUTTERFLIES, i requires 0 <= i < BUTTERFLIES => TableEntry(code.polynomialB, i)))
  }

  // The encoder register is the decoder state with its bits reversed, newest bit
  // included: with memory Reverse(s, 6) a bit puts Reverse(2s + bit, 7) into the
  // encoder and leaves Reverse(Next(s, bit), 6) behind.
  lemma RegisterIsReversedState(s: State, bit: Bit)
    ensures Shift(Reverse(s, 6), bit) == Reverse(2 * s + bit, 7)
    ensures Remember(Reverse(s, 6), bit) == Reverse(Next(s, bit), 6)
  {
    hide Reverse, Pow2;
    Powers();
    ReverseCons(s, bit, 6);
    var low, top := s % 32, s / 32;
    ReverseCons(low, bit, 5);
    ReverseSplit(s, 5, 32);
    assert Next(s, bit) == 2 * low + bit;
    assert Reverse(s, 6) == 2 * Reverse(low, 5) + top;
  }

  lemma {:induction false} MemoryIsReversedState(bits: seq<Bit>)
    ensures MemoryAfter(bits) == Reverse(StateAfter(0, bits), 6)
  {
    if bits != [] {
      var before := bits[..|bits| - 1];
      MemoryIsReversedState(before);
      RegisterIsReversedState(StateAfter(0, before), bits[|bits| - 1]);
    }
  }

  lemma DotCons(a: nat, x: Bit, b: nat, y: Bit, n: nat)
    ensures DotBits(2 * a + x, 2 * b + y, n + 1) == x * y + DotBits(a, b, n)
  {
    assert (2 * a + x) / 2 == a && (2 * a + x) % 2 == x;
    assert (2 * b + y) / 2 == b && (2 * b + y) % 2 == y;
  }

  // ---- The encoder as a convolution ----

  // Input bit n of a message, zero before its start.
  function InputBit(bits: seq<Bit>, n: int): Bit { if 0 <= n < |bits| then bits[n] else 0 }

  function SixBits(a: nat, b: nat, c: nat, d: nat, e: nat, f: nat): nat { 32 * a + 16 * b + 8 * c + 4 * d + 2 * e + f }

  // The encoder remembers the last six input bits, the newest on top.
  lemma {:induction false} MemoryIsHistory(bits: seq<Bit>)
    ensures
      var n := |bits|;
      MemoryAfter(bits) == SixBits(InputBit(bits, n - 1), InputBit(bits, n - 2), InputBit(bits, n - 3),
                                   InputBit(bits, n - 4), InputBit(bits, n - 5), InputBit(bits, n - 6))
  {
    hide Remember, InputBit, SixBits;
    var n := |bits| - 1;
    if bits == [] {
      NothingRemembered();
    } else {
      MemoryIsHistory(bits[..n]);
      PrefixBits(bits, n);
      NewestBit(bits, n);
      HistoryMoves(InputBit(bits, n), InputBit(bits, n - 1), InputBit(bits, n - 2), InputBit(bits, n - 3),
                   InputBit(bits, n - 4), InputBit(bits, n - 5), InputBit(bits, n - 6));
    }
  }

  lemma NothingRemembered()
    ensures MemoryAfter([]) == SixBits(InputBit([], -1), InputBit([], -2), InputBit([], -3), InputBit([], -4), InputBit([], -5), InputBit([], -6))
  {
  }

  lemma HistoryMoves(bit: Bit, a: Bit, b: Bit, c: Bit, d: Bit, e: Bit, f: Bit)
    ensures Remember(SixBits(a, b, c, d, e, f), bit) == SixBits(bit, a, b, c, d, e)
  {
  }

  lemma PrefixBits(bits: seq<Bit>, n: nat)
    requires n <= |bits|
    ensures forall m :: m < n ==> InputBit(bits[..n], m) == InputBit(bits, m)
  {
  }

  // Taps times register bits, from the newest down.
  function TapSum(polynomial: nat, u0: Bit, u1: Bit, u2: Bit, u3: Bit, u4: Bit, u5: Bit, u6: Bit): nat
  {
    polynomial / 64 % 2 * u0 + polynomial / 32 % 2 * u1 + polynomial / 16 % 2 * u2 + polynomial / 8 % 2 * u3
    + polynomial / 4 % 2 * u4 + polynomial / 2 % 2 * u5 + polynomial % 2 * u6
  }

  function Both(x: Bit, y: Bit): nat { x * y }

  lemma DotOneMore(a: nat, x: Bit, b: nat, y: Bit, n: nat)
    ensures DotBits(2 * a + x, 2 * b + y, n + 1) == Both(x, y) + DotBits(a, b, n)
  {
    DotCons(a, x, b, y, n);
  }

  lemma ThreeDots(a: nat, b: nat, n: nat, t0: Bit, t1: Bit, t2: Bit, u0: Bit, u1: Bit, u2: Bit)
    ensures DotBits(8 * a + 4 * t0 + 2 * t1 + t2, 8 * b + 4 * u0 + 2 * u1 + u2, n + 3) ==
            DotBits(a, b, n) + Both(t0, u0) + Both(t1, u1) + Both(t2, u2)
  {
    hide DotBits, Both;
    DotOneMore(4 * a + 2 * t0 + t1, t2, 4 * b + 2 * u0 + u1, u2, n + 2);
    DotOneMore(2 * a + t0, t1, 2 * b + u0, u1, n + 1);
    DotOneMore(a, t0, b, u0, n);
  }

  lemma SingleDot(x: Bit, y: Bit)
    ensures DotBits(x, y, 1) == Both(x, y)
  {
    DotOneMore(0, x, 0, y, 0);
    assert DotBits(0, 0, 0) == 0;
  }

  lemma LowBits(p: nat)
    ensures p == 8 * (p / 8) + 4 * (p / 4 % 2) + 2 * (p / 2 % 2) + p % 2
  {
    assert p / 8 == p / 4 / 2 && p / 4 == p / 2 / 2;
  }

  // The three lowest taps, and the rest.
  lemma ThreeTaps(p: nat, b: nat, n: nat, u0: Bit, u1: Bit, u2: Bit)
    ensures DotBits(p, 8 * b + 4 * u0 + 2 * u1 + u2, n + 3) ==
            DotBits(p / 8, b, n) + Both(p / 4 % 2, u0) + Both(p / 2 % 2, u1) + Both(p % 2, u2)
  {
    hide DotBits, Both;
    LowBits(p);
    ThreeDots(p / 8, b, n, p / 4 % 2, p / 2 % 2, p % 2, u0, u1, u2);
  }

  lemma EighthParts(p: nat)
    ensures p / 8 / 8 == p / 64 && p / 8 / 4 == p / 32 && p / 8 / 2 == p / 16
  {
  }

  lemma SevenTaps(p: nat, u0: Bit, u1: Bit, u2: Bit, u3: Bit, u4: Bit, u5: Bit, u6: Bit)
    requires p < 128
    ensures DotBits(p, 8 * (8 * u0 + 4 * u1 + 2 * u2 + u3) + 4 * u4 + 2 * u5 + u6, 7) == TapSum(p, u0, u1, u2, u3, u4, u5, u6)
  {
    hide DotBits;
    EighthParts(p);
    ThreeTaps(p, 8 * u0 + 4 * u1 + 2 * u2 + u3, 4, u4, u5, u6);
    ThreeTaps(p / 8, u0, 1, u1, u2, u3);
    SingleDot(p / 64, u0);
  }

  lemma RegisterTaps(polynomial: nat, u0: Bit, u1: Bit, u2: Bit, u3: Bit, u4: Bit, u5: Bit, u6: Bit)
    requires ValidPolynomial(polynomial)
    ensures Popcount(And(polynomial, 64 * u0 + SixBits(u1, u2, u3, u4, u5, u6))) == TapSum(polynomial, u0, u1, u2, u3, u4, u5, u6)
  {
    hide Popcount, And, Pow2, DotBits, TapSum;
    Powers();
    PopcountOfAnd(polynomial, 64 * u0 + SixBits(u1, u2, u3, u4, u5, u6), 7);
    SevenTaps(polynomial, u0, u1, u2, u3, u4, u5, u6);
  }

  // Parity of the tapped input bits, the newest under bit 6 of the polynomial, as a byte.
  function CodeByte(polynomial: nat, bits: seq<Bit>, n: nat): Byte
  {
    var ones := TapSum(polynomial, InputBit(bits, n), InputBit(bits, n - 1), InputBit(bits, n - 2), InputBit(bits, n - 3),
                       InputBit(bits, n - 4), InputBit(bits, n - 5), InputBit(bits, n - 6));
    if ones % 2 == 1 then 255 else 0
  }

  lemma CodeByteOfPrefix(polynomial: nat, bits: seq<Bit>, n: nat, m: nat)
    requires n < m <= |bits|
    ensures CodeByte(polynomial, bits[..m], n) == CodeByte(polynomial, bits, n)
  {
    hide TapSum, InputBit;
    PrefixBits(bits, m);
  }

  lemma NewestByte(polynomial: nat, bits: seq<Bit>, n: nat)
    requires ValidPolynomial(polynomial) && |bits| == n + 1
    ensures ExpectedBit(polynomial, Shift(MemoryAfter(bits[..n]), bits[n])) == CodeByte(polynomial, bits, n)
  {
    hide TapSum, And, Popcount, MemoryAfter, SixBits, InputBit;
    MemoryIsHistory(bits[..n]);
    PrefixBits(bits, n);
    assert InputBit(bits, n) == bits[n] by { NewestBit(bits, n); }
    RegisterTaps(polynomial, InputBit(bits, n), InputBit(bits, n - 1), InputBit(bits, n - 2), InputBit(bits, n - 3),
                 InputBit(bits, n - 4), InputBit(bits, n - 5), InputBit(bits, n - 6));
  }

  lemma NewestBit(bits: seq<Bit>, n: nat)
    requires n < |bits|
    ensures InputBit(bits, n) == bits[n]
  {
  }

  // Main result on the encoder: for input bit n it sends the two parities of the last seven
  // input bits under the two polynomials, that of polynomial A first.
  lemma {:induction false} EncoderIsConvolution(code: Code, bits: seq<Bit>, n: nat)
    requires ValidCode(code) && n < |bits|
    ensures Encode(code, bits)[n].s0 == CodeByte(code.polynomialA, bits, n)
    ensures Encode(code, bits)[n].s1 == CodeByte(code.polynomialB, bits, n)
    decreases |bits|
  {
    hide ExpectedBit, CodeByte, MemoryAfter, Shift;
    var last := |bits| - 1;
    if n < last {
      EncoderIsConvolution(code, bits[..last], n);
      CodeByteOfPrefix(code.polynomialA, bits, n, last);
      CodeByteOfPrefix(code.polynomialB, bits, n, last);
    } else {
      NewestByte(code.polynomialA, bits, n);
      NewestByte(code.polynomialB, bits, n);
    }
  }

  // ---- Parity of a branch ----

  // A bit on top of the n low bits, on both sides.
  lemma {:induction false} DotTop(a: nat, x: Bit, b: nat, y: Bit, n: nat, power: nat)
    requires power == Pow2(n) && a < power && b < power
    ensures DotBits(x * power + a, y * power + b, n + 1) == DotBits(a, b, n) + x * y
  {
    if n == 0 {
      assert DotBits(x, y, 1) == x * y + DotBits(0, 0, 0);
    } else {
      var p := Pow2(n - 1);
      assert power == 2 * p;
      DotTop(a / 2, x, b / 2, y, n - 1, p);
      var wa, wb := x * p + a / 2, y * p + b / 2;
      Doubling(x, p, a);
      Doubling(y, p, b);
      DotCons(wa, a % 2, wb, b % 2, n);
      DotCons(a / 2, a % 2, b / 2, b % 2, n - 1);
    }
  }

  lemma Doubling(x: Bit, p: nat, a: nat)
    ensures x * (2 * p) + a == 2 * (x * p + a / 2) + a % 2
  {
  }

  // Parity of a register split into its two ends and the middle five bits.
  lemma EndBits(polynomial: nat, i: nat, oldest: Bit, newest: Bit)
    requires i < 32 && polynomial < 128
    ensures Popcount(And(polynomial, Reverse(64 * oldest + 2 * i + newest, 7))) ==
            polynomial % 2 * oldest + polynomial / 64 * newest + DotBits(polynomial / 2 % 32, Reverse(i, 5), 5)
  {
    hide Reverse, DotBits, Pow2, Popcount, And;
    Powers();
    var v := 64 * oldest + 2 * i + newest;
    PopcountOfAnd(polynomial, Reverse(v, 7), 7);
    var inner := 32 * oldest + i;
    ReverseCons(inner, newest, 6);
    ReverseSplit(inner, 5, 32);
    var r, middle := Reverse(i, 5), polynomial / 2 % 32;
    var low, high := polynomial % 2, polynomial / 64;
    assert inner % 32 == i && inner / 32 == oldest;
    assert v == 2 * inner + newest;
    assert Reverse(v, 7) == 64 * newest + (2 * r + oldest);
    assert polynomial == 2 * (high * 32 + middle) + low;
    DotCons(high * 32 + middle, low, newest * 32 + r, oldest, 6);
    DotTop(middle, high, r, newest, 5, 32);
  }

  // Whether the two end bits of a branch, as far as they are tapped, flip the expected bit.
  predicate Flips(polynomial: nat, oldest: Bit, newest: Bit)
  {
    (oldest == 1 && TapsOldest(polynomial)) != (newest == 1 && TapsNewest(polynomial))
  }

  // Every branch of a butterfly expects the tabulated bit or its complement.
  lemma BranchBit(polynomial: nat, s: State, bit: Bit)
    requires ValidPolynomial(polynomial)
    ensures ExpectedBit(polynomial, Reverse(2 * s + bit, 7)) ==
            if Flips(polynomial, s / 32, bit) then 255 - TableEntry(polynomial, s % 32) else TableEntry(polynomial, s % 32)
  {
    hide Reverse, DotBits, Pow2, Popcount, And;
    var i, oldest := s % 32, s / 32;
    EndBits(polynomial, i, oldest, bit);
    EndBits(polynomial, i, 0, 0);
    assert 2 * s + bit == 64 * oldest + 2 * i + bit;
    assert 64 * 0 + 2 * i + 0 == 2 * i;
    assert polynomial / 64 < 2;
    ProductOfBits(polynomial % 2, oldest);
    ProductOfBits(polynomial / 64, bit);
  }

  lemma ProductOfBits(a: Bit, b: Bit)
    ensures a * b == (if a == 1 && b == 1 then 1 else 0) && a * 0 == 0
  {
  }

  // The first table entry belongs to an empty register.
  lemma FirstEntry(polynomial: nat)
    requires ValidPolynomial(polynomial)
    ensures TableEntry(polynomial, 0) == 0
  {
    assert Reverse(0, 7) == 0 by { ReverseOfZero(7); }
    AndZero(polynomial);
  }

  // The claim behind computing one expected bit per butterfly: the other three branches
  // expect either the same bit (both ends flipped) or its complement (one end flipped).
  predicate Complements(polynomial: nat, s: State, bit: Bit)
  {
    ExpectedBit(polynomial, Reverse(2 * s + bit, 7)) ==
    if (s / 32 + bit) % 2 == 0 then TableEntry(polynomial, s % 32) else 255 - TableEntry(polynomial, s % 32)
  }

  lemma BranchIsComplement(polynomial: nat, s: State, bit: Bit)
    requires ValidPolynomial(polynomial) && TapsBothEnds(polynomial)
    ensures Complements(polynomial, s, bit)
  {
    hide ExpectedBit, TableEntry, Reverse;
    BranchBit(polynomial, s, bit);
  }

  // Main result: the claim holds exactly for polynomials that tap the newest and the oldest
  // bit. The branches that enter a 1 into an empty register and that shift the last 1 out of
  // it already tell.
  lemma BranchesAreComplements(polynomial: nat)
    requires ValidPolynomial(polynomial)
    ensures TapsBothEnds(polynomial) <==> forall s: State, bit: Bit :: Complements(polynomial, s, bit)
  {
    hide ExpectedBit, TableEntry, Reverse;
    if TapsBothEnds(polynomial) {
      forall s: State, bit: Bit ensures Complements(polynomial, s, bit) {
        BranchIsComplement(polynomial, s, bit);
      }
    } else {
      FirstEntry(polynomial);
      BranchBit(polynomial, 0, 1);
      BranchBit(polynomial, 32, 0);
      assert !Complements(polynomial, 0, 1) || !Complements(polynomial, 32, 0);
    }
  }
}
