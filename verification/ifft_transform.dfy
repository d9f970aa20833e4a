// The positive-exponent discrete Fourier transform, its decimation-in-time recursion,
// and the staged form that works breadth-first on bit-reversed data.
module IfftTransform {
  import opened Bits
  import opened ComplexNumbers

  function At(x: seq<Complex>, i: int): Complex
  {
    if 0 <= i < |x| then x[i] else ZERO
  }

  // Bin k of the unscaled transform of x. `unit` is the exponent of a root of unity of
  // order |x|: unit * |x| is the order of w.
  function Dft(x: seq<Complex>, w: int -> Complex, unit: nat, k: int): Complex
  {
    Sum(|x|, n => Mul(At(x, n), w(unit * n * k)))
  }

  function Evens(x: seq<Complex>): (e: seq<Complex>)
    ensures |e| == |x| / 2
  {
    seq(|x| / 2, i requires 0 <= i < |x| / 2 => x[2 * i])
  }

  function Odds(x: seq<Complex>): (o: seq<Complex>)
    ensures |o| == |x| / 2
  {
    seq(|x| / 2, i requires 0 <= i < |x| / 2 => x[2 * i + 1])
  }

  // ---- One split of the transform ----

  lemma EvenTerm(x: seq<Complex>, w: int -> Complex, order: nat, unit: nat, h: nat, k: int, turn: int, i: nat)
    requires RootsOfUnity(w, order) && |x| == 2 * h && unit * (2 * h) == order && i < h
    ensures Mul(At(x, 2 * i), w(unit * (2 * i) * (k + turn * h))) == Mul(At(Evens(x), i), w(2 * unit * i * k))
  {
    hide Mul, RootsOfUnity;
    assert unit * (2 * i) * (k + turn * h) == 2 * unit * i * k + (turn * i) * (unit * (2 * h)) by {
      Exponents(unit, i, k, turn, h);
    }
    RootPeriod(w, order, 2 * unit * i * k, turn * i);
  }

  lemma OddTerm(x: seq<Complex>, w: int -> Complex, order: nat, unit: nat, h: nat, k: int, turn: int, i: nat)
    requires RootsOfUnity(w, order) && |x| == 2 * h && unit * (2 * h) == order && i < h
    ensures Mul(At(x, 2 * i + 1), w(unit * (2 * i + 1) * (k + turn * h))) ==
            Mul(w(unit * (k + turn * h)), Mul(At(Odds(x), i), w(2 * unit * i * k)))
  {
    hide Mul, RootsOfUnity;
    var K := k + turn * h;
    assert unit * (2 * i + 1) * K == unit * K + unit * (2 * i) * K by { Distributed(unit, i, K); }
    RootProduct(w, order, unit * K, unit * (2 * i) * K);
    assert unit * (2 * i) * K == 2 * unit * i * k + (turn * i) * (unit * (2 * h)) by {
      Exponents(unit, i, k, turn, h);
    }
    RootPeriod(w, order, 2 * unit * i * k, turn * i);
    var v, r, s := At(x, 2 * i + 1), w(unit * K), w(2 * unit * i * k);
    MulAssoc(v, r, s);
    MulComm(v, r);
    MulAssoc(r, v, s);
  }

  lemma Exponents(unit: int, i: int, k: int, turn: int, h: int)
    ensures unit * (2 * i) * (k + turn * h) == 2 * unit * i * k + (turn * i) * (unit * (2 * h))
  {
    var p := unit * (2 * i);
    assert p * (k + turn * h) == p * k + p * (turn * h);
    assert p == 2 * unit * i;
    assert p * (turn * h) == (turn * i) * (unit * (2 * h)) by {
      assert p * (turn * h) == 2 * ((unit * i) * (turn * h));
      assert (turn * i) * (unit * (2 * h)) == 2 * ((turn * i) * (unit * h));
      assert (unit * i) * (turn * h) == (turn * i) * (unit * h);
    }
  }

  lemma Distributed(unit: int, i: int, K: int)
    ensures unit * (2 * i + 1) * K == unit * K + unit * (2 * i) * K
  {
    assert unit * (2 * i + 1) == unit * (2 * i) + unit;
  }

  // Bins k and k + h of a transform of 2h points from the transforms of its halves; a
  // turn count of 1 adds h to the bin.
  lemma SplitDft(x: seq<Complex>, w: int -> Complex, order: nat, unit: nat, h: nat, k: int, turn: int)
    requires RootsOfUnity(w, order) && |x| == 2 * h && unit * (2 * h) == order
    ensures Dft(x, w, unit, k + turn * h) ==
            Add(Dft(Evens(x), w, 2 * unit, k), Mul(w(unit * (k + turn * h)), Dft(Odds(x), w, 2 * unit, k)))
  {
    hide Mul, Add, At, Evens, Odds, RootsOfUnity;
    var K := k + turn * h;
    var f := n => Mul(At(x, n), w(unit * n * K));
    SumEvenOdd(h, f);
    forall i | 0 <= i < h
      ensures f(2 * i) == Mul(At(Evens(x), i), w(2 * unit * i * k))
      ensures f(2 * i + 1) == Mul(w(unit * K), Mul(At(Odds(x), i), w(2 * unit * i * k)))
    {
      EvenTerm(x, w, order, unit, h, k, turn, i);
      OddTerm(x, w, order, unit, h, k, turn, i);
    }
    SumCongruence(h, i => f(2 * i), n => Mul(At(Evens(x), n), w(2 * unit * n * k)));
    var o := n => Mul(At(Odds(x), n), w(2 * unit * n * k));
    SumScaled(h, w(unit * K), o);
    SumCongruence(h, i => f(2 * i + 1), i => Mul(w(unit * K), o(i)));
  }

  // ---- The recursion ----

  // Butterflies that join two half-size transforms.
  function Combine(e: seq<Complex>, o: seq<Complex>, w: int -> Complex, unit: nat): (r: seq<Complex>)
    requires |e| == |o|
    ensures |r| == 2 * |e|
  {
    var h := |e|;
    seq(2 * h, j requires 0 <= j < 2 * h =>
      if j < h then Add(e[j], Mul(w(unit * j), o[j])) else Sub(e[j - h], Mul(w(unit * (j - h)), o[j - h])))
  }

  function Transform(x: seq<Complex>, w: int -> Complex, unit: nat, n: nat): (r: seq<Complex>)
    requires |x| == Pow2(n)
    ensures |r| == |x|
    decreases n
  {
    if n == 0 then x
    else Combine(Transform(Evens(x), w, 2 * unit, n - 1), Transform(Odds(x), w, 2 * unit, n - 1), w, unit)
  }

  lemma CombineAt(e: seq<Complex>, o: seq<Complex>, w: int -> Complex, unit: nat, k: nat)
    requires |e| == |o| && k < 2 * |e|
    ensures k < |e| ==> Combine(e, o, w, unit)[k] == Add(e[k], Mul(w(unit * k), o[k]))
    ensures k >= |e| ==> Combine(e, o, w, unit)[k] == Sub(e[k - |e|], Mul(w(unit * (k - |e|)), o[k - |e|]))
  {
    hide Add, Mul, Sub;
  }

  // The two outputs of a butterfly are the two bins of the split transform.
  lemma CombineIsSplit(x: seq<Complex>, w: int -> Complex, order: nat, unit: nat, h: nat, e: Complex, o: Complex, j: nat)
    requires RootsOfUnity(w, order) && |x| == 2 * h && unit * (2 * h) == order && j < h
    requires e == Dft(Evens(x), w, 2 * unit, j) && o == Dft(Odds(x), w, 2 * unit, j)
    ensures Dft(x, w, unit, j) == Add(e, Mul(w(unit * j), o))
    ensures Dft(x, w, unit, j + h) == Sub(e, Mul(w(unit * j), o))
  {
    hide Mul, Add, Sub, RootsOfUnity, Evens, Odds, Dft;
    SplitDft(x, w, order, unit, h, j, 0);
    SplitDft(x, w, order, unit, h, j, 1);
    HalfTurn(w, order, unit, h, j, e, o);
    assert j + 0 * h == j && j + 1 * h == j + h;
  }

  // The recursion computes the transform.
  lemma {:induction false} TransformIsDft(x: seq<Complex>, w: int -> Complex, order: nat, unit: nat, n: nat, k: nat)
    requires RootsOfUnity(w, order) && |x| == Pow2(n) && unit * Pow2(n) == order && k < |x|
    ensures Transform(x, w, unit, n)[k] == Dft(x, w, unit, k)
    decreases n
  {
    hide Mul, Add, Sub, RootsOfUnity, Evens, Odds, Dft, Combine;
    if n == 0 {
      RootSpecial(w, order);
      DftOfOne(x, w, unit);
    } else {
      var h := Pow2(n - 1);
      var j := if k < h then k else k - h;
      UnitDoubles(unit, h);
      TransformIsDft(Evens(x), w, order, 2 * unit, n - 1, j);
      TransformIsDft(Odds(x), w, order, 2 * unit, n - 1, j);
      var e, o := Transform(Evens(x), w, 2 * unit, n - 1), Transform(Odds(x), w, 2 * unit, n - 1);
      CombineIsSplit(x, w, order, unit, h, e[j], o[j], j);
      CombineAt(e, o, w, unit, k);
    }
  }

  lemma UnitDoubles(unit: nat, h: nat)
    ensures unit * (2 * h) == 2 * unit * h
  {
  }

  lemma DftOfOne(x: seq<Complex>, w: int -> Complex, unit: nat)
    requires |x| == 1 && w(0) == ONE
    ensures Dft(x, w, unit, 0) == x[0]
  {
    MulOne(x[0]);
    var f := n => Mul(At(x, n), w(unit * n * 0));
    assert Sum(1, f) == Add(Sum(0, f), f(0));
    assert unit * 0 * 0 == 0;
    AddZero(x[0]);
  }

  // Half a turn turns the sum of a butterfly into its difference.
  lemma HalfTurn(w: int -> Complex, order: nat, unit: nat, h: nat, j: int, e: Complex, o: Complex)
    requires RootsOfUnity(w, order) && unit * (2 * h) == order
    ensures Add(e, Mul(w(unit * (j + 1 * h)), o)) == Sub(e, Mul(w(unit * j), o))
  {
    hide Mul, Add, Sub, Neg, RootsOfUnity;
    RootSpecial(w, order);
    assert unit * h == order / 2;
    assert unit * (j + 1 * h) == unit * j + unit * h;
    RootProduct(w, order, unit * j, unit * h);
    var r := w(unit * j);
    MulNegOne(r);
    NegProduct(r, o);
    AddNeg(e, Mul(r, o));
  }

  lemma NegProduct(a: Complex, b: Complex)
    ensures Mul(Neg(a), b) == Neg(Mul(a, b))
  {
  }

  // ---- The stages ----

  // The value a stage of butterflies of length 2 * half leaves at position j.
  function StageAt(x: seq<Complex>, w: int -> Complex, unit: nat, half: nat, j: nat): Complex
    requires half > 0
  {
    var index := j % (2 * half);
    if index < half then
      Add(At(x, j), Mul(w(unit * index), At(x, j + half)))
    else
      Sub(At(x, j - half), Mul(w(unit * (index - half)), At(x, j)))
  }

  lemma StageRoom(length: nat, half: nat, j: nat)
    requires half > 0 && length % (2 * half) == 0 && j < length
    ensures j % (2 * half) < half ==> j + half < length
    ensures j % (2 * half) >= half ==> j >= half
  {
    DivMod(j, 2 * half);
    DivMod(length, 2 * half);
    BlockRoom(2 * half, j / (2 * half), length / (2 * half), j % (2 * half), j, length);
  }

  lemma BlockRoom(p: nat, q: nat, l: nat, r: nat, j: nat, length: nat)
    requires r < p && j == p * q + r && length == p * l && j < length
    ensures p * q + p <= length && r <= j
  {
    if q >= l {
      if q > l { MulStrict(p, l, q); }
      assert false;
    }
    MulStrict(p, q, l);
  }

  function Stage(x: seq<Complex>, w: int -> Complex, unit: nat, half: nat): (r: seq<Complex>)
    requires half > 0 && |x| % (2 * half) == 0
    ensures |r| == |x|
  {
    seq(|x|, j requires 0 <= j < |x| => StageAt(x, w, unit, half, j))
  }

  // Stages with butterflies of length 2, 4, ..., 2^n; the last one steps its twiddles by
  // `unit`, each earlier one by twice as much.
  function Stages(x: seq<Complex>, w: int -> Complex, unit: nat, n: nat): (r: seq<Complex>)
    requires |x| % Pow2(n) == 0
    ensures |r| == |x|
    decreases n
  {
    if n == 0 then x
    else
      HalfDivides(|x|, Pow2(n - 1));
      Stage(Stages(x, w, 2 * unit, n - 1), w, unit, Pow2(n - 1))
  }

  lemma HalfDivides(length: nat, p: nat)
    requires p > 0 && length % (2 * p) == 0
    ensures length % p == 0
  {
    var q := length / (2 * p);
    assert length == p * (2 * q) + 0;
    DivUnique(length, p, 2 * q, 0);
  }

  lemma ShiftedModulo(a: nat, p: nat, j: int)
    requires p > 0 && a % p == 0
    ensures (a + j) % p == j % p
  {
    var q := a / p;
    assert a + j == p * (q + j / p) + j % p;
    DivUnique(a + j, p, q + j / p, j % p);
  }

  // A stage works on aligned blocks independently.
  lemma StageSplits(a: seq<Complex>, b: seq<Complex>, w: int -> Complex, unit: nat, half: nat)
    requires half > 0 && |a| % (2 * half) == 0 && |b| % (2 * half) == 0
    ensures |a + b| % (2 * half) == 0
    ensures Stage(a + b, w, unit, half) == Stage(a, w, unit, half) + Stage(b, w, unit, half)
  {
    hide Add, Sub, Mul;
    var p, x := 2 * half, a + b;
    ShiftedModulo(|a|, p, |b|);
    forall j | 0 <= j < |x|
      ensures StageAt(x, w, unit, half, j) == if j < |a| then StageAt(a, w, unit, half, j) else StageAt(b, w, unit, half, j - |a|)
    {
      if j < |a| {
        StageRoom(|a|, half, j);
      } else {
        ShiftedModulo(|a|, p, j - |a|);
        StageRoom(|b|, half, j - |a|);
      }
    }
  }

  lemma {:induction false} StagesSplit(a: seq<Complex>, b: seq<Complex>, w: int -> Complex, unit: nat, n: nat)
    requires |a| % Pow2(n) == 0 && |b| % Pow2(n) == 0
    ensures |a + b| % Pow2(n) == 0
    ensures Stages(a + b, w, unit, n) == Stages(a, w, unit, n) + Stages(b, w, unit, n)
    decreases n
  {
    hide Stage;
    ShiftedModulo(|a|, Pow2(n), |b|);
    if n > 0 {
      var half := Pow2(n - 1);
      HalfDivides(|a|, half);
      HalfDivides(|b|, half);
      StagesSplit(a, b, w, 2 * unit, n - 1);
      StageSplits(Stages(a, w, 2 * unit, n - 1), Stages(b, w, 2 * unit, n - 1), w, unit, half);
    }
  }

  // The last stage joins two transforms.
  lemma LastStageCombines(e: seq<Complex>, o: seq<Complex>, w: int -> Complex, unit: nat)
    requires |e| == |o| > 0
    ensures |e + o| % (2 * |e|) == 0
    ensures Stage(e + o, w, unit, |e|) == Combine(e, o, w, unit)
  {
    hide Add, Sub, Mul;
    var h := |e|;
    DivUnique(2 * h, 2 * h, 1, 0);
    forall j | 0 <= j < 2 * h ensures StageAt(e + o, w, unit, h, j) == Combine(e, o, w, unit)[j] {
      DivUnique(j, 2 * h, 0, j);
    }
  }

  // ---- Bit-reversed order ----

  function Reordered(x: seq<Complex>, n: nat): (r: seq<Complex>)
    requires |x| == Pow2(n)
    ensures |r| == |x|
  {
    seq(|x|, i requires 0 <= i < |x| => x[Reverse(i, n)])
  }

  lemma ReorderedHalves(x: seq<Complex>, n: nat)
    requires n > 0 && |x| == Pow2(n)
    ensures Reordered(x, n) == Reordered(Evens(x), n - 1) + Reordered(Odds(x), n - 1)
  {
    hide Reverse;
    var h := Pow2(n - 1);
    forall i | 0 <= i < 2 * h
      ensures Reordered(x, n)[i] == (Reordered(Evens(x), n - 1) + Reordered(Odds(x), n - 1))[i]
    {
      ReverseSplit(i, n - 1, h);
      if i < h {
        DivUnique(i, h, 0, i);
      } else {
        DivUnique(i, h, 1, i - h);
      }
    }
  }

  // Main result: the stages on bit-reversed data are the recursion.
  lemma {:induction false} StagesTransform(x: seq<Complex>, w: int -> Complex, unit: nat, n: nat)
    requires |x| == Pow2(n)
    ensures |x| % Pow2(n) == 0
    ensures Stages(Reordered(x, n), w, unit, n) == Transform(x, w, unit, n)
    decreases n
  {
    hide Stage, Combine, Evens, Odds;
    DivUnique(Pow2(n), Pow2(n), 1, 0);
    if n == 0 {
      assert Reordered(x, 0) == x;
    } else {
      var h := Pow2(n - 1);
      ReorderedHalves(x, n);
      StagesTransform(Evens(x), w, 2 * unit, n - 1);
      StagesTransform(Odds(x), w, 2 * unit, n - 1);
      var e, o := Reordered(Evens(x), n - 1), Reordered(Odds(x), n - 1);
      HalfDivides(2 * h, h);
      StagesSplit(e, o, w, 2 * unit, n - 1);
      LastStageCombines(Stages(e, w, 2 * unit, n - 1), Stages(o, w, 2 * unit, n - 1), w, unit);
    }
  }

  // Reversing twice gives the index back.
  lemma {:induction false} ReverseInvolution(v: nat, n: nat)
    requires v < Pow2(n)
    ensures Reverse(Reverse(v, n), n) == v
  {
    hide Reverse;
    if n == 0 {
      ReverseNothing(Reverse(v, n));
    } else {
      var h := Pow2(n - 1);
      var top, low := if v < h then 0 else 1, if v < h then v else v - h;
      DivUnique(v, h, top, low);
      ReverseSplit(v, n - 1, h);
      ReverseInvolution(low, n - 1);
      ReverseCons(Reverse(low, n - 1), top, n - 1);
    }
  }
}
