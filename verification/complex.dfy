// Exact complex arithmetic, finite sums, and tables of roots of unity.
module ComplexNumbers {

  datatype Complex = Complex(re: real, im: real)

  const ZERO := Complex(0.0, 0.0)
  const ONE := Complex(1.0, 0.0)
  const I := Complex(0.0, 1.0)

  function Add(a: Complex, b: Complex): Complex { Complex(a.re + b.re, a.im + b.im) }

  function Sub(a: Complex, b: Complex): Complex { Complex(a.re - b.re, a.im - b.im) }

  function Neg(a: Complex): Complex { Complex(-a.re, -a.im) }

  function Mul(a: Complex, b: Complex): Complex
  {
    Complex(a.re * b.re - a.im * b.im, a.re * b.im + a.im * b.re)
  }

  function Scale(r: real, a: Complex): Complex { Complex(r * a.re, r * a.im) }

  function Conjugate(a: Complex): Complex { Complex(a.re, -a.im) }

  // The sign of one number applied to another.
  function SignTimes(decision: real, value: real): real { if decision < 0.0 then -value else value }

  lemma AddShuffle(a: Complex, b: Complex, c: Complex, d: Complex)
    ensures Add(Add(a, b), Add(c, d)) == Add(Add(a, c), Add(b, d))
  {
  }

  lemma AddAssoc(a: Complex, b: Complex, c: Complex)
    ensures Add(Add(a, b), c) == Add(a, Add(b, c))
  {
  }

  lemma AddZero(a: Complex)
    ensures Add(a, ZERO) == a && Add(ZERO, a) == a
  {
  }

  lemma MulComm(a: Complex, b: Complex)
    ensures Mul(a, b) == Mul(b, a)
  {
  }

  lemma MulAssoc(a: Complex, b: Complex, c: Complex)
    ensures Mul(Mul(a, b), c) == Mul(a, Mul(b, c))
  {
    var x, y, u, v, p, q := a.re, a.im, b.re, b.im, c.re, c.im;
    assert (x * u - y * v) * p == x * (u * p) - y * (v * p);
    assert (x * v + y * u) * q == x * (v * q) + y * (u * q);
    assert (x * u - y * v) * q == x * (u * q) - y * (v * q);
    assert (x * v + y * u) * p == x * (v * p) + y * (u * p);
    assert x * (u * p - v * q) == x * (u * p) - x * (v * q);
    assert y * (u * q + v * p) == y * (u * q) + y * (v * p);
    assert x * (u * q + v * p) == x * (u * q) + x * (v * p);
    assert y * (u * p - v * q) == y * (u * p) - y * (v * q);
  }

  lemma MulOne(a: Complex)
    ensures Mul(a, ONE) == a && Mul(ONE, a) == a
  {
  }

  lemma MulNegOne(a: Complex)
    ensures Mul(a, Neg(ONE)) == Neg(a)
  {
  }

  lemma MulZero(a: Complex)
    ensures Mul(a, ZERO) == ZERO && Mul(ZERO, a) == ZERO
  {
  }

  lemma Distribute(c: Complex, a: Complex, b: Complex)
    ensures Mul(c, Add(a, b)) == Add(Mul(c, a), Mul(c, b))
  {
    assert c.re * (a.re + b.re) == c.re * a.re + c.re * b.re;
    assert c.im * (a.im + b.im) == c.im * a.im + c.im * b.im;
    assert c.re * (a.im + b.im) == c.re * a.im + c.re * b.im;
    assert c.im * (a.re + b.re) == c.im * a.re + c.im * b.re;
  }

  lemma ScaleIsMul(r: real, a: Complex)
    ensures Scale(r, a) == Mul(Complex(r, 0.0), a)
  {
  }

  lemma AddNeg(a: Complex, b: Complex)
    ensures Add(a, Neg(b)) == Sub(a, b)
  {
  }

  // ---- Sums ----

  function Sum(n: nat, f: int -> Complex): Complex
  {
    if n == 0 then ZERO else Add(Sum(n - 1, f), f(n - 1))
  }

  lemma {:induction false} SumCongruence(n: nat, f: int -> Complex, g: int -> Complex)
    requires forall i :: 0 <= i < n ==> f(i) == g(i)
    ensures Sum(n, f) == Sum(n, g)
  {
    if n > 0 { SumCongruence(n - 1, f, g); }
  }

  lemma {:induction false} SumOfSums(n: nat, f: int -> Complex, g: int -> Complex)
    ensures Sum(n, i => Add(f(i), g(i))) == Add(Sum(n, f), Sum(n, g))
  {
    hide Add;
    if n == 0 {
      AddZero(ZERO);
    } else {
      SumOfSums(n - 1, f, g);
      AddShuffle(Sum(n - 1, f), Sum(n - 1, g), f(n - 1), g(n - 1));
    }
  }

  lemma {:induction false} SumScaled(n: nat, c: Complex, f: int -> Complex)
    ensures Sum(n, i => Mul(c, f(i))) == Mul(c, Sum(n, f))
  {
    hide Mul, Add;
    if n == 0 {
      MulZero(c);
    } else {
      SumScaled(n - 1, c, f);
      Distribute(c, Sum(n - 1, f), f(n - 1));
    }
  }

  lemma {:induction false} SumEvenOdd(n: nat, f: int -> Complex)
    ensures Sum(2 * n, f) == Add(Sum(n, i => f(2 * i)), Sum(n, i => f(2 * i + 1)))
  {
    hide Add;
    if n == 0 {
      AddZero(ZERO);
    } else {
      SumEvenOdd(n - 1, f);
      var e, o := Sum(n - 1, i => f(2 * i)), Sum(n - 1, i => f(2 * i + 1));
      assert Sum(2 * n, f) == Add(Sum(2 * n - 1, f), f(2 * n - 1));
      assert Sum(2 * n - 1, f) == Add(Sum(2 * n - 2, f), f(2 * n - 2));
      AddAssoc(Add(e, o), f(2 * n - 2), f(2 * n - 1));
      AddShuffle(e, o, f(2 * n - 2), f(2 * n - 1));
      assert 2 * (n - 1) + 1 == 2 * n - 1;
    }
  }

  lemma {:induction false} SumAppend(m: nat, n: nat, f: int -> Complex)
    ensures Sum(m + n, f) == Add(Sum(m, f), Sum(n, i => f(m + i)))
  {
    hide Add;
    if n == 0 {
      AddZero(Sum(m, f));
    } else {
      SumAppend(m, n - 1, f);
      AddAssoc(Sum(m, f), Sum(n - 1, i => f(m + i)), f(m + n - 1));
    }
  }

  // A sum over rows * width terms, row by row.
  lemma {:induction false} SumByRows(rows: nat, width: nat, f: int -> Complex)
    ensures Sum(rows * width, f) == Sum(rows, r => Sum(width, b => f(r * width + b)))
  {
    hide Add;
    if rows > 0 {
      SumByRows(rows - 1, width, f);
      var before := (rows - 1) * width;
      assert before + width == rows * width;
      SumAppend(before, width, f);
      SumCongruence(width, i => f(before + i), b => f((rows - 1) * width + b));
    }
  }

  // Exchanging the order of two sums.
  lemma {:induction false} SumSwap(m: nat, n: nat, f: (int, int) -> Complex)
    ensures Sum(m, i => Sum(n, j => f(i, j))) == Sum(n, j => Sum(m, i => f(i, j)))
  {
    hide Add;
    if m == 0 {
      SumOfZeros(n, j => Sum(m, i => f(i, j)));
    } else {
      SumSwap(m - 1, n, f);
      var earlier, last := j => Sum(m - 1, i => f(i, j)), j => f(m - 1, j);
      SumOfSums(n, earlier, last);
      SumCongruence(n, j => Add(earlier(j), last(j)), j => Sum(m, i => f(i, j)));
    }
  }

  lemma {:induction false} SumOfZeros(n: nat, f: int -> Complex)
    requires forall i :: 0 <= i < n ==> f(i) == ZERO
    ensures Sum(n, f) == ZERO
  {
    hide Add;
    if n > 0 {
      SumOfZeros(n - 1, f);
      AddZero(ZERO);
    }
  }

  // A single term that does not vanish.
  lemma {:induction false} SumOfOne(n: nat, f: int -> Complex, k: int)
    requires forall i :: 0 <= i < n && i != k ==> f(i) == ZERO
    ensures Sum(n, f) == if 0 <= k < n then f(k) else ZERO
  {
    if n > 0 {
      SumOfOne(n - 1, f, k);
    }
  }

  // Terms past the first m vanish.
  lemma SumTail(m: nat, n: nat, f: int -> Complex)
    requires m <= n && forall i :: m <= i < n ==> f(i) == ZERO
    ensures Sum(n, f) == Sum(m, f)
  {
    hide Add, Sum;
    SumAppend(m, n - m, f);
    SumOfZeros(n - m, i => f(m + i));
    AddZero(Sum(m, f));
  }

  // ---- Roots of unity ----

  // w(e) is exp(2 pi i e / order): a homomorphism from the integers with w(order) = 1,
  // w(order / 2) = -1 and, when four divides the order, w(order / 4) = i.
  ghost predicate RootsOfUnity(w: int -> Complex, order: nat)
  {
    && order > 0 && order % 2 == 0
    && w(0) == ONE
    && (forall a, b :: AddsExponents(w, a, b))
    && w(order / 2) == Neg(ONE)
    && (order % 4 == 0 ==> w(order / 4) == I)
  }

  predicate AddsExponents(w: int -> Complex, a: int, b: int)
  {
    w(a + b) == Mul(w(a), w(b))
  }

  lemma RootProduct(w: int -> Complex, order: nat, a: int, b: int)
    requires RootsOfUnity(w, order)
    ensures Mul(w(a), w(b)) == w(a + b)
  {
    hide Mul;
    assert AddsExponents(w, a, b);
  }

  lemma RootSpecial(w: int -> Complex, order: nat)
    requires RootsOfUnity(w, order)
    ensures order > 0 && order % 2 == 0 && w(0) == ONE && w(order / 2) == Neg(ONE) && w(order) == ONE
    ensures order % 4 == 0 ==> w(order / 4) == I
  {
    var h := order / 2;
    RootProduct(w, order, h, h);
    assert h + h == order;
    assert Mul(Neg(ONE), Neg(ONE)) == ONE;
  }

  // Whole turns do not matter.
  lemma {:induction false} RootPeriod(w: int -> Complex, order: nat, e: int, turns: int)
    requires RootsOfUnity(w, order)
    ensures w(e + turns * order) == w(e)
    decreases if turns < 0 then -turns else turns
  {
    hide RootsOfUnity, Mul;
    RootSpecial(w, order);
    if turns > 0 {
      RootPeriod(w, order, e, turns - 1);
      RootProduct(w, order, e + (turns - 1) * order, order);
      MulOne(w(e));
    } else if turns < 0 {
      RootPeriod(w, order, e, turns + 1);
      RootProduct(w, order, e + turns * order, order);
      MulOne(w(e + turns * order));
      assert e + turns * order + order == e + (turns + 1) * order;
    } else {
      assert e + turns * order == e;
    }
  }

  // Such tables exist: the four quarter turns are one.
  function QuarterTurn(e: int): Complex { Quadrant(e % 4) }

  function Quadrant(q: int): Complex
  {
    if q == 0 then ONE else if q == 1 then I else if q == 2 then Neg(ONE) else Neg(I)
  }

  lemma QuadrantProduct(p: int, q: int)
    requires 0 <= p < 4 && 0 <= q < 4
    ensures Quadrant(if p + q < 4 then p + q else p + q - 4) == Mul(Quadrant(p), Quadrant(q))
  {
    hide Mul;
    if p == 0 {
      MulOne(Quadrant(q));
    } else if p == 1 {
      TimesI(Quadrant(q));
    } else if p == 2 {
      MulComm(Quadrant(p), Quadrant(q));
      MulNegOne(Quadrant(q));
    } else {
      TimesNegI(Quadrant(q));
    }
  }

  lemma TimesI(a: Complex)
    ensures Mul(I, a) == Complex(-a.im, a.re) == Mul(a, I)
  {
  }

  lemma TimesNegI(a: Complex)
    ensures Mul(Neg(I), a) == Complex(a.im, -a.re) == Mul(a, Neg(I))
  {
  }

  lemma QuarterTurnsAreRoots()
    ensures RootsOfUnity(QuarterTurn, 4)
  {
    hide Quadrant, Mul;
    forall a, b ensures AddsExponents(QuarterTurn, a, b) {
      QuadrantProduct(a % 4, b % 4);
      assert (a + b) % 4 == if a % 4 + b % 4 < 4 then a % 4 + b % 4 else a % 4 + b % 4 - 4;
    }
    QuadrantValues();
  }

  lemma QuadrantValues()
    ensures Quadrant(0) == ONE && Quadrant(1) == I && Quadrant(2) == Neg(ONE)
  {
  }

  // So are the tables the kernels build from cosine and sine, of any even order: all it takes
  // is the addition theorem and the values at zero and at a quarter turn.
  datatype Circle = Circle(pi: real, cos: real -> real, sin: real -> real)

  function Point(c: Circle, angle: real): Complex { Complex(c.cos(angle), c.sin(angle)) }

  predicate AddsAngles(c: Circle, a: real, b: real)
  {
    Point(c, a + b) == Mul(Point(c, a), Point(c, b))
  }

  ghost predicate CircleLaws(c: Circle)
  {
    Point(c, 0.0) == ONE && Point(c, c.pi / 2.0) == I && forall a, b :: AddsAngles(c, a, b)
  }

  function AngleOf(c: Circle, order: nat, e: int): real
    requires order > 0
  {
    e as real * (2.0 * c.pi / order as real)
  }

  function CircleTable(c: Circle, order: nat): int -> Complex
    requires order > 0
  {
    e => Point(c, AngleOf(c, order, e))
  }

  lemma AnglesAdd(c: Circle, order: nat, a: int, b: int)
    requires order > 0
    ensures AngleOf(c, order, a + b) == AngleOf(c, order, a) + AngleOf(c, order, b)
  {
    Distributes(a as real, b as real, 2.0 * c.pi / order as real);
  }

  lemma Distributes(a: real, b: real, unit: real)
    ensures (a + b) * unit == a * unit + b * unit
  {
  }

  // A whole turn, and its equal parts.
  lemma AngleOfTurn(c: Circle, order: nat)
    requires order > 0
    ensures AngleOf(c, order, 0) == 0.0 && AngleOf(c, order, order) == 2.0 * c.pi
  {
    var unit := 2.0 * c.pi / order as real;
    assert order as real * unit == 2.0 * c.pi;
  }

  lemma AngleOfHalf(c: Circle, order: nat)
    requires order > 0 && order % 2 == 0
    ensures AngleOf(c, order, order / 2) == c.pi
  {
    hide AngleOf;
    AngleOfTurn(c, order);
    AnglesAdd(c, order, order / 2, order / 2);
    assert order / 2 + order / 2 == order;
  }

  lemma CircleTableIsRoots(c: Circle, order: nat)
    requires CircleLaws(c) && order > 0 && order % 2 == 0
    ensures RootsOfUnity(CircleTable(c, order), order)
  {
    hide AngleOf, Mul, AddsAngles, Point;
    var w := CircleTable(c, order);
    AngleOfTurn(c, order);
    AngleOfHalf(c, order);
    forall a, b ensures AddsExponents(w, a, b) {
      AnglesAdd(c, order, a, b);
      PointsMultiply(c, AngleOf(c, order, a), AngleOf(c, order, b));
    }
    PointsMultiply(c, c.pi / 2.0, c.pi / 2.0);
    TimesI(I);
    if order % 4 == 0 {
      AnglesAdd(c, order, order / 4, order / 4);
      assert order / 4 + order / 4 == order / 2;
    }
  }

  lemma PointsMultiply(c: Circle, a: real, b: real)
    requires CircleLaws(c)
    ensures Point(c, a + b) == Mul(Point(c, a), Point(c, b))
  {
    hide Mul;
    assert AddsAngles(c, a, b);
  }

  // An eighth of a turn lies on the diagonal, whatever the table.
  lemma EighthIsDiagonal(w: int -> Complex, order: nat)
    requires RootsOfUnity(w, order) && order % 8 == 0
    ensures w(order / 8).re == w(order / 8).im
  {
    RootProduct(w, order, order / 8, order / 8);
    RootSpecial(w, order);
    var v := w(order / 8);
    assert order / 8 + order / 8 == order / 4;
    assert (v.re - v.im) * (v.re + v.im) == 0.0;
    if v.re + v.im == 0.0 {
      assert v.re * v.im == -(v.re * v.re);
    }
  }
}
