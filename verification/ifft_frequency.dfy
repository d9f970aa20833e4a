// Decimation in frequency: a second way to compute the transform, which takes the data in
// order and leaves the bins in bit-reversed slots.
module IfftFrequency {
  import opened Bits
  import opened ComplexNumbers
  import opened IfftTransform

  function Sums(x: seq<Complex>): (s: seq<Complex>)
    ensures |s| == |x| / 2
  {
    seq(|x| / 2, n requires 0 <= n < |x| / 2 => Add(x[n], x[n + |x| / 2]))
  }

  function Differences(x: seq<Complex>, w: int -> Complex, unit: nat): (d: seq<Complex>)
    ensures |d| == |x| / 2
  {
    seq(|x| / 2, n requires 0 <= n < |x| / 2 => Mul(Sub(x[n], x[n + |x| / 2]), w(unit * n)))
  }

  function Network(x: seq<Complex>, w: int -> Complex, unit: nat, n: nat): (r: seq<Complex>)
    requires |x| == Pow2(n)
    ensures |r| == |x|
    decreases n
  {
    if n == 0 then x else Network(Sums(x), w, 2 * unit, n - 1) + Network(Differences(x, w, unit), w, 2 * unit, n - 1)
  }

  // One term of an even bin, from both halves of the data.
  lemma EvenBinTerm(x: seq<Complex>, w: int -> Complex, order: nat, unit: nat, h: nat, j: int, n: nat)
    requires RootsOfUnity(w, order) && |x| == 2 * h && unit * (2 * h) == order && n < h
    ensures Add(Mul(At(x, n), w(Turns(unit, n, 2 * j))), Mul(At(x, h + n), w(Turns(unit, h + n, 2 * j)))) ==
            Mul(At(Sums(x), n), w(Turns(2 * unit, n, j)))
  {
    hide Mul, Add, RootsOfUnity;
    var e := 2 * unit * n * j;
    EvenExponents(unit, n, j, h);
    RootPeriod(w, order, e, j);
    var r := w(e);
    MulComm(x[n], r);
    MulComm(x[n + h], r);
    MulComm(Add(x[n], x[n + h]), r);
    Distribute(r, x[n], x[n + h]);
    assert At(Sums(x), n) == Add(x[n], x[n + h]);
  }

  lemma EvenExponents(unit: int, n: int, j: int, h: int)
    ensures unit * n * (2 * j) == 2 * unit * n * j
    ensures unit * (h + n) * (2 * j) == 2 * unit * n * j + j * (unit * (2 * h))
  {
    assert unit * n * (2 * j) == 2 * (unit * n * j) && 2 * unit * n * j == 2 * (unit * n * j) by {
      assert 2 * unit * n == 2 * (unit * n);
    }
    assert unit * (h + n) == unit * h + unit * n;
    assert unit * h * (2 * j) == j * (unit * (2 * h)) by {
      assert unit * h * (2 * j) == 2 * (unit * h * j) && j * (unit * (2 * h)) == 2 * (j * (unit * h));
    }
  }

  // One term of an odd bin.
  lemma OddBinTerm(x: seq<Complex>, w: int -> Complex, order: nat, unit: nat, h: nat, j: int, n: nat)
    requires RootsOfUnity(w, order) && |x| == 2 * h && unit * (2 * h) == order && n < h
    ensures Add(Mul(At(x, n), w(Turns(unit, n, 2 * j + 1))), Mul(At(x, h + n), w(Turns(unit, h + n, 2 * j + 1)))) ==
            Mul(At(Differences(x, w, unit), n), w(Turns(2 * unit, n, j)))
  {
    hide Mul, Add, Sub, Neg, RootsOfUnity;
    var e, f := 2 * unit * n * j, unit * n;
    OddExponents(unit, n, j, h);
    RootSpecial(w, order);
    assert unit * h == order / 2;
    RootProduct(w, order, f, e);
    RootPeriod(w, order, f + e + order / 2, j);
    RootProduct(w, order, f + e, order / 2);
    var r := w(f + e);
    MulNegOne(r);
    ButterflyDifference(x[n], x[n + h], r);
    MulAssoc(Sub(x[n], x[n + h]), w(f), w(e));
    assert At(Differences(x, w, unit), n) == Mul(Sub(x[n], x[n + h]), w(f));
  }

  lemma OddExponents(unit: int, n: int, j: int, h: int)
    ensures unit * n * (2 * j + 1) == unit * n + 2 * unit * n * j
    ensures unit * (h + n) * (2 * j + 1) == unit * n + 2 * unit * n * j + unit * h + j * (unit * (2 * h))
  {
    EvenExponents(unit, n, j, h);
    assert unit * n * (2 * j + 1) == unit * n * (2 * j) + unit * n;
    assert unit * (h + n) * (2 * j + 1) == unit * (h + n) * (2 * j) + unit * (h + n);
    assert unit * (h + n) == unit * h + unit * n;
  }

  lemma ButterflyDifference(a: Complex, b: Complex, r: Complex)
    ensures Add(Mul(a, r), Mul(b, Neg(r))) == Mul(Sub(a, b), r)
  {
    hide Mul, Add, Sub, Neg;
    MulComm(b, Neg(r));
    NegProduct(r, b);
    MulComm(r, b);
    NegProduct(b, r);
    MulComm(a, r);
    MulComm(Neg(b), r);
    Distribute(r, a, Neg(b));
    AddNeg(a, b);
    MulComm(r, Sub(a, b));
  }

  // Exponent of sample n in bin k.
  function Turns(unit: int, n: int, k: int): int { unit * n * k }

  // Terms of bin k, and of its lower and upper half together.
  function BinTerm(x: seq<Complex>, w: int -> Complex, unit: nat, k: int): int -> Complex
  {
    n => Mul(At(x, n), w(Turns(unit, n, k)))
  }

  function HalvesTerm(x: seq<Complex>, w: int -> Complex, unit: nat, h: nat, k: int): int -> Complex
  {
    n => Add(Mul(At(x, n), w(Turns(unit, n, k))), Mul(At(x, h + n), w(Turns(unit, h + n, k))))
  }

  lemma BinInHalves(x: seq<Complex>, w: int -> Complex, unit: nat, h: nat, k: int)
    requires |x| == 2 * h
    ensures Dft(x, w, unit, k) == Sum(h, HalvesTerm(x, w, unit, h, k))
  {
    hide Mul, Add, At, Sum, Turns;
    var f := BinTerm(x, w, unit, k);
    var upper := n => f(h + n);
    SumAppend(h, h, f);
    SumCongruence(h, i => f(h + i), upper);
    SumOfSums(h, f, upper);
    SumCongruence(h, n => Add(f(n), upper(n)), HalvesTerm(x, w, unit, h, k));
    DftIsSum(x, w, unit, k);
  }

  lemma DftIsSum(x: seq<Complex>, w: int -> Complex, unit: nat, k: int)
    ensures Dft(x, w, unit, k) == Sum(|x|, BinTerm(x, w, unit, k))
  {
    hide Mul, At, Sum;
    var f, g := (n: int) => Mul(At(x, n), w(unit * n * k)), BinTerm(x, w, unit, k);
    forall n | 0 <= n < |x| ensures f(n) == g(n) {
      assert Turns(unit, n, k) == unit * n * k;
    }
    SumCongruence(|x|, f, g);
  }

  // Even bins are the transform of the sums.
  lemma SplitEven(x: seq<Complex>, w: int -> Complex, order: nat, unit: nat, h: nat, j: int)
    requires RootsOfUnity(w, order) && |x| == 2 * h && unit * (2 * h) == order
    ensures Dft(x, w, unit, 2 * j) == Dft(Sums(x), w, 2 * unit, j)
  {
    hide Mul, Add, At, RootsOfUnity, Dft, Sum, Turns, Sums, Differences;
    var y := Sums(x);
    BinInHalves(x, w, unit, h, 2 * j);
    DftIsSum(y, w, 2 * unit, j);
    var f, g := HalvesTerm(x, w, unit, h, 2 * j), BinTerm(y, w, 2 * unit, j);
    forall n | 0 <= n < h ensures f(n) == g(n) {
      EvenBinTerm(x, w, order, unit, h, j, n);
    }
    SumCongruence(h, f, g);
  }

  // Odd bins are that of the turned differences.
  lemma SplitOdd(x: seq<Complex>, w: int -> Complex, order: nat, unit: nat, h: nat, j: int)
    requires RootsOfUnity(w, order) && |x| == 2 * h && unit * (2 * h) == order
    ensures Dft(x, w, unit, 2 * j + 1) == Dft(Differences(x, w, unit), w, 2 * unit, j)
  {
    hide Mul, Add, At, RootsOfUnity, Dft, Sum, Turns, Sums, Differences;
    var y := Differences(x, w, unit);
    BinInHalves(x, w, unit, h, 2 * j + 1);
    DftIsSum(y, w, 2 * unit, j);
    var f, g := HalvesTerm(x, w, unit, h, 2 * j + 1), BinTerm(y, w, 2 * unit, j);
    forall n | 0 <= n < h ensures f(n) == g(n) {
      OddBinTerm(x, w, order, unit, h, j, n);
    }
    SumCongruence(h, f, g);
  }

  // Main result: bin k of the transform ends up in slot Reverse(k).
  lemma {:induction false} NetworkIsDft(x: seq<Complex>, w: int -> Complex, order: nat, unit: nat, n: nat, k: nat)
    requires RootsOfUnity(w, order) && |x| == Pow2(n) && unit * Pow2(n) == order && k < |x|
    ensures Network(x, w, unit, n)[Reverse(k, n)] == Dft(x, w, unit, k)
    decreases n
  {
    hide RootsOfUnity, Sums, Differences, Dft, Mul, Add, Sub, Reverse;
    if n == 0 {
      RootSpecial(w, order);
      ReverseNothing(k);
      DftOfOne(x, w, unit);
    } else {
      var h, j := Pow2(n - 1), k / 2;
      UnitDoubles(unit, h);
      ReverseCons(j, k % 2, n - 1);
      SplitEven(x, w, order, unit, h, j);
      SplitOdd(x, w, order, unit, h, j);
      NetworkIsDft(Sums(x), w, order, 2 * unit, n - 1, j);
      NetworkIsDft(Differences(x, w, unit), w, order, 2 * unit, n - 1, j);
    }
  }

  // Both decimations compute the same bins.
  lemma NetworksAgree(x: seq<Complex>, w: int -> Complex, order: nat, unit: nat, n: nat, k: nat)
    requires RootsOfUnity(w, order) && |x| == Pow2(n) && unit * Pow2(n) == order && k < |x|
    ensures Network(x, w, unit, n)[Reverse(k, n)] == Transform(x, w, unit, n)[k]
  {
    hide RootsOfUnity, Network, Transform, Dft;
    NetworkIsDft(x, w, order, unit, n, k);
    TransformIsDft(x, w, order, unit, n, k);
  }
}
