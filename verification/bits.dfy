// Bit-level arithmetic on naturals: exclusive or, conjunction, population
// count, and 64-bit words seen as the sequence of their bits.
module Bits {

  type Bit = x: nat | x < 2

  type Byte = x: nat | x < 256

  function Pow2(n: nat): (p: nat)
    ensures p >= 1
  {
    if n == 0 then 1 else 2 * Pow2(n - 1)
  }

  lemma Powers()
    ensures Pow2(1) == 2 && Pow2(2) == 4 && Pow2(3) == 8 && Pow2(4) == 16
    ensures Pow2(5) == 32 && Pow2(6) == 64 && Pow2(7) == 128 && Pow2(8) == 256
  {
    assert Pow2(4) == 16;
    assert Pow2(6) == 64;
  }

  // Bitwise exclusive or and conjunction of two naturals.
  function Xor(a: nat, b: nat): nat
    decreases a + b
  {
    if a == 0 && b == 0 then 0 else (a + b) % 2 + 2 * Xor(a / 2, b / 2)
  }

  function And(a: nat, b: nat): nat
  {
    if a == 0 then 0 else (a % 2) * (b % 2) + 2 * And(a / 2, b / 2)
  }

  function Or(a: nat, b: nat): nat
    decreases a + b
  {
    if a == 0 && b == 0 then 0 else (if a % 2 == 1 || b % 2 == 1 then 1 else 0) + 2 * Or(a / 2, b / 2)
  }

  function Popcount(a: nat): nat
  {
    if a == 0 then 0 else a % 2 + Popcount(a / 2)
  }

  // Exclusive or with zero keeps a number; with a block of n ones it
  // complements the n low bits.
  lemma {:induction false} XorWithZero(b: nat)
    ensures Xor(0, b) == b
  {
    if b > 0 { XorWithZero(b / 2); }
  }

  lemma {:induction false} XorWithOnes(n: nat, b: nat)
    requires b < Pow2(n)
    ensures Xor(Pow2(n) - 1, b) == Pow2(n) - 1 - b
  {
    hide Xor;
    if n == 0 {
      XorWithZero(0);
    } else {
      var half := Pow2(n - 1);
      var c, d := b / 2, b % 2;
      XorWithOnes(n - 1, c);
      XorStep(half - 1, 1, c, d);
      assert 2 * c + d == b && 2 * (half - 1) + 1 == 2 * half - 1;
    }
  }

  // One step of the exclusive or, seen from the bits.
  lemma XorStep(a: nat, x: Bit, b: nat, y: Bit)
    ensures Xor(2 * a + x, 2 * b + y) == (x + y) % 2 + 2 * Xor(a, b)
  {
    assert (2 * a + x + (2 * b + y)) % 2 == (x + y) % 2;
    assert (2 * a + x) / 2 == a && (2 * b + y) / 2 == b;
  }

  // Sum over the n low positions of the products of the bits of a and b.
  function DotBits(a: nat, b: nat, n: nat): nat
  {
    if n == 0 then 0 else (a % 2) * (b % 2) + DotBits(a / 2, b / 2, n - 1)
  }

  // A single bit of b picks that bit of a.
  lemma {:induction false} DotPower(a: nat, j: nat, n: nat)
    requires j < n
    ensures DotBits(a, Pow2(j), n) == a / Pow2(j) % 2
  {
    if j == 0 {
      DotZero(a / 2, n - 1);
    } else {
      DotPower(a / 2, j - 1, n - 1);
      DivDiv(a, Pow2(j - 1));
    }
  }

  lemma {:induction false} DotZero(a: nat, n: nat)
    ensures DotBits(a, 0, n) == 0
  {
    if n > 0 { DotZero(a / 2, n - 1); }
  }

  lemma AndStep(a: nat, x: Bit, b: nat, y: Bit)
    ensures And(2 * a + x, 2 * b + y) == x * y + 2 * And(a, b)
  {
    assert (2 * a + x) / 2 == a && (2 * a + x) % 2 == x;
    assert (2 * b + y) / 2 == b && (2 * b + y) % 2 == y;
  }

  lemma PopcountStep(a: nat, x: Bit)
    ensures Popcount(2 * a + x) == x + Popcount(a)
  {
    assert (2 * a + x) / 2 == a && (2 * a + x) % 2 == x;
  }

  lemma PopcountOfNothing(b: nat)
    ensures Popcount(And(0, b)) == 0
  {
  }

  lemma {:induction false} PopcountOfAnd(a: nat, b: nat, n: nat)
    requires a < Pow2(n)
    ensures Popcount(And(a, b)) == DotBits(a, b, n)
  {
    hide And, Popcount;
    if n > 0 {
      PopcountOfAnd(a / 2, b / 2, n - 1);
      var x, y := a % 2, b % 2;
      assert a == 2 * (a / 2) + x && b == 2 * (b / 2) + y;
      AndStep(a / 2, x, b / 2, y);
      var low: Bit := if x == 1 && y == 1 then 1 else 0;
      assert x * y == low;
      PopcountStep(And(a / 2, b / 2), low);
    } else {
      PopcountOfNothing(b);
    }
  }

  // Masking with 2^n - 1 is taking the remainder.
  lemma {:induction false} AndMask(a: nat, n: nat)
    ensures And(a, Pow2(n) - 1) == a % Pow2(n)
  {
    hide And;
    if n == 0 {
      AndZero(a);
    } else {
      var half := Pow2(n - 1);
      AndMask(a / 2, n - 1);
      AndStep(a / 2, a % 2, half - 1, 1);
      ModHalf(a, half);
      assert a == 2 * (a / 2) + a % 2 && Pow2(n) - 1 == 2 * (half - 1) + 1;
    }
  }

  lemma {:induction false} AndZero(a: nat)
    ensures And(a, 0) == 0
  {
    if a > 0 { AndZero(a / 2); }
  }

  // A word given by its bits, bit 0 first.
  function WordOf(bits: seq<bool>): (w: nat)
    ensures w < Pow2(|bits|)
  {
    if bits == [] then 0 else (if bits[0] then 1 else 0) + 2 * WordOf(bits[1..])
  }

  predicate BitSet(word: nat, j: nat)
  {
    word / Pow2(j) % 2 == 1
  }

  lemma {:induction false} WordOfAppend(low: seq<bool>, high: seq<bool>)
    ensures WordOf(low + high) == WordOf(low) + Pow2(|low|) * WordOf(high)
  {
    if low == [] {
      assert low + high == high;
    } else {
      WordOfAppend(low[1..], high);
      assert (low + high)[1..] == low[1..] + high;
      assert (low + high)[0] == low[0];
      DoubledProduct(Pow2(|low| - 1), WordOf(high));
      assert |low[1..]| == |low| - 1;
    }
  }

  lemma DoubledProduct(p: nat, w: nat)
    ensures (2 * p) * w == 2 * (p * w)
  {
  }

  lemma DivDiv(x: nat, p: nat)
    requires p > 0
    ensures x / (2 * p) == (x / 2) / p
  {
    var q := x / (2 * p);
    var r := x % (2 * p);
    assert x == 2 * p * q + r;
    assert x / 2 == p * q + r / 2;
    assert r / 2 < p;
    assert (p * q + r / 2) / p == q by { DivUnique(x / 2, p, q, r / 2); }
  }

  lemma DivUnique(x: int, p: int, q: int, r: int)
    requires 0 <= r < p && x == p * q + r
    ensures x / p == q && x % p == r
  {
    var q1 := x / p;
    if q < q1 { MulStrict(p, q, q1); }
    if q1 < q { MulStrict(p, q1, q); }
  }

  lemma DivMod(x: nat, p: nat)
    requires p > 0
    ensures x == p * (x / p) + x % p && 0 <= x % p < p && x / p >= 0
  {
  }

  lemma MulStrict(p: int, a: int, b: int)
    requires p > 0 && a < b
    ensures p * a + p <= p * b
  {
    var d := b - a - 1;
    assert p * d >= 0;
    assert p * b == p * (a + 1 + d) == p * a + p + p * d;
  }

  // Reading bit j of a word gives back bit j of the sequence it was built from.
  lemma {:induction false} BitOfWord(bits: seq<bool>, j: nat)
    requires j < |bits|
    ensures BitSet(WordOf(bits), j) == bits[j]
  {
    var w := WordOf(bits);
    if j > 0 {
      BitOfWord(bits[1..], j - 1);
      DivDiv(w, Pow2(j - 1));
    }
  }

  lemma {:induction false} OrWithZero(b: nat)
    ensures Or(0, b) == b
  {
    if b > 0 { OrWithZero(b / 2); }
  }

  lemma OrStep(a: nat, x: Bit, b: nat)
    ensures Or(2 * a + x, 2 * b) == x + 2 * Or(a, b)
  {
    assert (2 * a + x) / 2 == a && 2 * b / 2 == b && 2 * b % 2 == 0 && (2 * a + x) % 2 == x;
  }

  // Or-ing a number into positions that are still clear is adding it.
  lemma {:induction false} OrAbove(low: nat, n: nat, high: nat)
    requires low < Pow2(n)
    ensures Or(low, Pow2(n) * high) == low + Pow2(n) * high
  {
    if n == 0 {
      OrWithZero(high);
    } else {
      OrAbove(low / 2, n - 1, high);
      var p := Pow2(n - 1);
      DoubledProduct(p, high);
      OrStep(low / 2, low % 2, p * high);
    }
  }

  // Setting the next bit of a word under construction.
  lemma WordPush(bits: seq<bool>, bit: bool)
    ensures Or(WordOf(bits), if bit then Pow2(|bits|) else 0) == WordOf(bits + [bit])
  {
    hide WordOf, Or, Pow2;
    WordOfAppend(bits, [bit]);
    WordOfOne(bit);
    OrAbove(WordOf(bits), |bits|, if bit then 1 else 0);
  }

  lemma WordOfOne(bit: bool)
    ensures WordOf([bit]) == if bit then 1 else 0
  {
  }

  // Joining two words, the second one above the first.
  lemma WordJoin(low: seq<bool>, high: seq<bool>)
    ensures Or(WordOf(low), Pow2(|low|) * WordOf(high)) == WordOf(low + high)
  {
    WordOfAppend(low, high);
    OrAbove(WordOf(low), |low|, WordOf(high));
  }

  lemma {:induction false} OrCommutes(a: nat, b: nat)
    ensures Or(a, b) == Or(b, a)
    decreases a + b
  {
    if a != 0 || b != 0 {
      OrCommutes(a / 2, b / 2);
    }
  }

  lemma HalfOfQuotient(x: nat, p: nat)
    requires p > 0
    ensures x / (2 * p) == x / p / 2
  {
    var q, r := x / (2 * p), x % (2 * p);
    assert x == p * (2 * q) + r;
    if r < p {
      DivUnique(x, p, 2 * q, r);
    } else {
      assert x == p * (2 * q + 1) + (r - p);
      DivUnique(x, p, 2 * q + 1, r - p);
    }
  }

  // ---- Bit reversal ----

  // The n low bits of v in reverse order.
  function Reverse(v: nat, n: nat): (r: nat)
    ensures r < Pow2(n)
  {
    if n == 0 then 0 else v % 2 * Pow2(n - 1) + Reverse(v / 2, n - 1)
  }

  lemma ReverseNothing(v: nat)
    ensures Reverse(v, 0) == 0
  {
  }

  lemma {:induction false} ReverseOfZero(n: nat)
    ensures Reverse(0, n) == 0
  {
    if n > 0 { ReverseOfZero(n - 1); }
  }

  lemma {:induction false} ReverseOfPower(j: nat, n: nat)
    requires j < n
    ensures Reverse(Pow2(j), n) == Pow2(n - 1 - j)
  {
    if j == 0 { ReverseOfZero(n - 1); } else { ReverseOfPower(j - 1, n - 1); }
  }

  lemma ReverseCons(v: nat, x: Bit, n: nat)
    ensures Reverse(2 * v + x, n + 1) == (if x == 0 then 0 else Pow2(n)) + Reverse(v, n)
  {
    assert (2 * v + x) / 2 == v && (2 * v + x) % 2 == x;
  }

  // The top bit of n + 1 bits ends up at the bottom.
  lemma {:induction false} ReverseSplit(v: nat, n: nat, power: nat)
    requires power == Pow2(n)
    ensures Reverse(v, n + 1) == 2 * Reverse(v % power, n) + v / power % 2
  {
    if n == 0 {
      assert Reverse(v, 1) == v % 2 + Reverse(v / 2, 0);
    } else {
      var p := Pow2(n - 1);
      var w := v % power;
      ReverseSplit(v / 2, n - 1, p);
      DivDiv(v, p);
      ModHalf(v, p);
      ReverseCons(v / 2, v % 2, n);
      ReverseCons(w / 2, w % 2, n - 1);
      hide Reverse;
      assert v == 2 * (v / 2) + v % 2 && w == 2 * (w / 2) + w % 2;
    }
  }

  lemma ModHalf(v: nat, p: nat)
    requires p > 0
    ensures v % (2 * p) % 2 == v % 2
    ensures v % (2 * p) / 2 == v / 2 % p
  {
    var q, w := v / (2 * p), v % (2 * p);
    assert v == 2 * (p * q) + w;
    assert v / 2 == p * q + w / 2;
    DivUnique(v / 2, p, q, w / 2);
  }
}
