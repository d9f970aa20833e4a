// The polyphase factorisation of a uniform filter bank: the sum the channelizer promises,
// the sum it computes, and the proof that they are equal.
module PfbFilterBank {
  import opened Bits
  import opened ComplexNumbers
  import opened IfftTransform

  // Order of the common table of roots of unity.
  const ORDER: nat := 64

  datatype Config = Config(bins: nat, decimation: nat, taps: seq<real>, halfGrid: bool, logical: seq<int>)

  predicate SupportedBins(bins: nat)
  {
    bins == 4 || bins == 8 || bins == 16 || bins == 32
  }

  predicate ValidConfig(c: Config)
  {
    && SupportedBins(c.bins) && 0 < c.decimation <= c.bins
    && 0 < |c.taps| <= 1025 && |c.logical| <= c.bins && |c.logical| <= 8
    && (forall i :: 0 <= i < |c.logical| ==> -(c.bins / 2) <= c.logical[i] <= c.bins / 2 - 1)
    && (forall i, j :: 0 <= i < j < |c.logical| ==> c.logical[i] != c.logical[j])
  }

  // Twice the grid offset: 0 on the integer grid, 1 on the half-bin grid.
  function Offset(c: Config): nat { if c.halfGrid then 1 else 0 }

  // Twice the frequency of a logical bin, in bins.
  function Frequency(c: Config, b: int): int { 2 * b + Offset(c) }

  // w(e) = exp(2 pi i e / (2 * bins)), taken from the common table.
  function Root(c: Config, table: int -> Complex): int -> Complex
  {
    e => table(RootStep(c.bins) * e)
  }

  function RootStep(bins: nat): nat { if bins == 0 then 1 else 32 / bins }

  function Rows(c: Config): nat
    requires c.bins > 0
  {
    (|c.taps| + c.bins - 1) / c.bins
  }

  // Tap k, zero past the end.
  function Tap(c: Config, k: int): real
  {
    if 0 <= k < |c.taps| then c.taps[k] else 0.0
  }

  // Alternate rows change sign on the half-bin grid.
  function RowSign(c: Config, row: int): real
  {
    if c.halfGrid && row % 2 != 0 then -1.0 else 1.0
  }

  function Coefficient(c: Config, row: int, branch: int): real
  {
    RowSign(c, row) * Tap(c, row * c.bins + branch)
  }

  // Negative logical bins wrap around to the upper transform bins.
  function FftBin(c: Config, b: int): int
  {
    if b < 0 then b + c.bins else b
  }

  // ---- The promised output ----

  function DirectTerm(c: Config, w: int -> Complex, x: seq<Complex>, b: int, n: int): int -> Complex
  {
    k => if 0 <= k < |c.taps| then Scale(c.taps[k], Mul(At(x, n - k), w(-Frequency(c, b) * (n - k)))) else ZERO
  }

  // Output of logical bin b at input time n: every tap times its sample, mixed down.
  function Direct(c: Config, w: int -> Complex, x: seq<Complex>, b: int, n: int): Complex
  {
    Sum(|c.taps|, DirectTerm(c, w, x, b, n))
  }

  // ---- The computed output ----

  // Branch accumulator: the taps of one branch over all rows.
  function BranchSum(c: Config, x: seq<Complex>, n: int, branch: int): Complex
    requires c.bins > 0
  {
    Sum(Rows(c), row => Scale(Coefficient(c, row, branch), At(x, n - row * c.bins - branch)))
  }

  // Post phase of a bin at input time n.
  function Post(c: Config, w: int -> Complex, b: int, n: int): Complex { w(-Frequency(c, b) * n) }

  // Rotated branches through one bin of the inverse transform, then the post phase.
  function Polyphase(c: Config, w: int -> Complex, x: seq<Complex>, b: int, n: int): Complex
    requires c.bins > 0
  {
    Mul(Post(c, w, b, n),
        Sum(c.bins, branch => Mul(Mul(BranchSum(c, x, n, branch), w(Offset(c) * branch)), w(2 * branch * FftBin(c, b)))))
  }

  // ---- They are equal ----

  // Rotation and transform weight of a branch combine to the bin's own frequency.
  lemma BranchWeight(c: Config, w: int -> Complex, b: int, branch: int)
    requires RootsOfUnity(w, 2 * c.bins)
    ensures Mul(w(Offset(c) * branch), w(2 * branch * FftBin(c, b))) == w(Frequency(c, b) * branch)
  {
    hide Mul, RootsOfUnity;
    var s := Offset(c);
    RootProduct(w, 2 * c.bins, s * branch, 2 * branch * FftBin(c, b));
    if b < 0 {
      WrappedExponent(s, branch, b, c.bins);
      RootPeriod(w, 2 * c.bins, Frequency(c, b) * branch, branch);
    } else {
      PlainExponent(s, branch, b);
    }
  }

  lemma WrappedExponent(s: int, branch: int, b: int, bins: int)
    ensures s * branch + 2 * branch * (b + bins) == (2 * b + s) * branch + branch * (2 * bins)
  {
    assert 2 * branch * (b + bins) == 2 * branch * b + 2 * branch * bins;
    assert (2 * b + s) * branch == 2 * b * branch + s * branch;
    assert 2 * branch * b == 2 * b * branch && 2 * branch * bins == branch * (2 * bins);
  }

  lemma PlainExponent(s: int, branch: int, b: int)
    ensures s * branch + 2 * branch * b == (2 * b + s) * branch
  {
    assert (2 * b + s) * branch == 2 * b * branch + s * branch;
    assert 2 * branch * b == 2 * b * branch;
  }

  // A whole row of branches turns by half-turns only, which the row sign undoes.
  lemma {:induction false} RowTurn(c: Config, w: int -> Complex, b: int, row: nat)
    requires RootsOfUnity(w, 2 * c.bins)
    ensures w(Frequency(c, b) * (row * c.bins)) == Complex(RowSign(c, row), 0.0)
  {
    hide Mul, RootsOfUnity, Frequency;
    RootSpecial(w, 2 * c.bins);
    var f, m := Frequency(c, b), c.bins;
    if row == 0 {
      assert f * (0 * m) == 0;
    } else {
      RowTurn(c, w, b, row - 1);
      assert f * (row * m) == f * ((row - 1) * m) + f * m by {
        assert row * m == (row - 1) * m + m;
      }
      RootProduct(w, 2 * m, f * ((row - 1) * m), f * m);
      BinTurn(c, w, b);
      SignProduct(c, row - 1);
    }
  }

  // One row: no turn on the integer grid, half a turn on the half-bin grid.
  lemma BinTurn(c: Config, w: int -> Complex, b: int)
    requires RootsOfUnity(w, 2 * c.bins)
    ensures w(Frequency(c, b) * c.bins) == Complex(RowSign(c, 1), 0.0)
  {
    hide Mul, RootsOfUnity;
    RootSpecial(w, 2 * c.bins);
    var m := c.bins;
    assert Frequency(c, b) * m == Offset(c) * m + b * (2 * m) by {
      assert (2 * b + Offset(c)) * m == 2 * b * m + Offset(c) * m;
      assert 2 * b * m == b * (2 * m);
    }
    RootPeriod(w, 2 * m, Offset(c) * m, b);
    assert 2 * m / 2 == m;
  }

  lemma SignProduct(c: Config, row: nat)
    ensures Mul(Complex(RowSign(c, row), 0.0), Complex(RowSign(c, 1), 0.0)) == Complex(RowSign(c, row + 1), 0.0)
  {
    assert (row + 1) % 2 == 1 - row % 2;
  }

  // The factored weight of tap row * bins + branch is its direct weight.
  lemma TapWeight(c: Config, w: int -> Complex, b: int, row: nat, branch: int, v: Complex)
    requires RootsOfUnity(w, 2 * c.bins)
    ensures Mul(Scale(Coefficient(c, row, branch), v), w(Frequency(c, b) * branch)) ==
            Scale(Tap(c, row * c.bins + branch), Mul(v, w(Frequency(c, b) * (row * c.bins + branch))))
  {
    hide Mul, RootsOfUnity, Frequency, Tap;
    var f, m := Frequency(c, b), c.bins;
    RowTurn(c, w, b, row);
    assert f * (row * m + branch) == f * (row * m) + f * branch;
    RootProduct(w, 2 * m, f * (row * m), f * branch);
    SignedProduct(RowSign(c, row), Tap(c, row * m + branch), v, w(f * branch));
  }

  lemma SignedProduct(sign: real, tap: real, v: Complex, r: Complex)
    ensures Mul(Scale(sign * tap, v), r) == Scale(tap, Mul(v, Mul(Complex(sign, 0.0), r)))
  {
    hide Mul, Scale;
    ScaleIsMul(sign * tap, v);
    ScaleIsMul(tap, Mul(v, Mul(Complex(sign, 0.0), r)));
    var s, t := Complex(sign, 0.0), Complex(tap, 0.0);
    RealProduct(sign, tap);
    MulAssoc(s, t, v);
    MulComm(s, t);
    MulAssoc(t, s, v);
    MulAssoc(t, Mul(s, v), r);
    MulComm(s, v);
    MulAssoc(v, s, r);
  }

  lemma RealProduct(a: real, b: real)
    ensures Complex(a * b, 0.0) == Mul(Complex(a, 0.0), Complex(b, 0.0))
  {
  }

  // What one tap contributes before the post phase.
  function TapTerm(c: Config, w: int -> Complex, x: seq<Complex>, b: int, n: int): int -> Complex
  {
    k => Scale(Tap(c, k), Mul(At(x, n - k), w(Frequency(c, b) * k)))
  }

  // One branch of the transform, tap by tap.
  lemma BranchExpands(c: Config, w: int -> Complex, x: seq<Complex>, b: int, n: int, branch: int)
    requires c.bins > 0 && RootsOfUnity(w, 2 * c.bins)
    ensures Mul(Mul(BranchSum(c, x, n, branch), w(Offset(c) * branch)), w(2 * branch * FftBin(c, b))) ==
            Sum(Rows(c), row => TapTerm(c, w, x, b, n)(row * c.bins + branch))
  {
    hide Mul, Scale, RootsOfUnity, Frequency, Offset, FftBin, Coefficient, At, Rows;
    var r := w(Frequency(c, b) * branch);
    var part := row => Scale(Coefficient(c, row, branch), At(x, n - row * c.bins - branch));
    MulAssoc(BranchSum(c, x, n, branch), w(Offset(c) * branch), w(2 * branch * FftBin(c, b)));
    BranchWeight(c, w, b, branch);
    MulComm(BranchSum(c, x, n, branch), r);
    SumScaled(Rows(c), r, part);
    var term := TapTerm(c, w, x, b, n);
    forall row | 0 <= row < Rows(c) ensures Mul(r, part(row)) == term(row * c.bins + branch) {
      MulComm(r, part(row));
      assert n - row * c.bins - branch == n - (row * c.bins + branch);
      TapWeight(c, w, b, row, branch, At(x, n - (row * c.bins + branch)));
    }
    SumCongruence(Rows(c), row => Mul(r, part(row)), row => term(row * c.bins + branch));
  }

  // All branches together are all taps.
  lemma BranchesCoverTaps(c: Config, w: int -> Complex, x: seq<Complex>, b: int, n: int)
    requires c.bins > 0 && RootsOfUnity(w, 2 * c.bins)
    ensures Sum(c.bins, branch => Mul(Mul(BranchSum(c, x, n, branch), w(Offset(c) * branch)), w(2 * branch * FftBin(c, b)))) ==
            Sum(|c.taps|, TapTerm(c, w, x, b, n))
  {
    hide Mul, RootsOfUnity, Frequency, Offset, FftBin, BranchSum, Sum;
    var term, m := TapTerm(c, w, x, b, n), c.bins;
    var inner := branch => Mul(Mul(BranchSum(c, x, n, branch), w(Offset(c) * branch)), w(2 * branch * FftBin(c, b)));
    var grid := (branch, row) => term(row * m + branch);
    forall branch | 0 <= branch < m ensures inner(branch) == Sum(Rows(c), row => grid(branch, row)) {
      BranchExpands(c, w, x, b, n, branch);
      SumCongruence(Rows(c), row => term(row * m + branch), row => grid(branch, row));
    }
    SumCongruence(m, inner, branch => Sum(Rows(c), row => grid(branch, row)));
    SumSwap(m, Rows(c), grid);
    SumByRows(Rows(c), m, term);
    forall row | 0 <= row < Rows(c)
      ensures Sum(m, branch => grid(branch, row)) == Sum(m, branch => term(row * m + branch))
    {
      SumCongruence(m, branch => grid(branch, row), branch => term(row * m + branch));
    }
    SumCongruence(Rows(c), row => Sum(m, branch => grid(branch, row)), row => Sum(m, branch => term(row * m + branch)));
    RowsCoverTaps(c);
    forall k | |c.taps| <= k < Rows(c) * m ensures term(k) == ZERO {
      ScaledByZero(Mul(At(x, n - k), w(Frequency(c, b) * k)));
    }
    SumTail(|c.taps|, Rows(c) * m, term);
  }

  lemma RowsCoverTaps(c: Config)
    requires c.bins > 0
    ensures |c.taps| <= Rows(c) * c.bins < |c.taps| + c.bins
  {
    DivMod(|c.taps| + c.bins - 1, c.bins);
    assert Rows(c) * c.bins == c.bins * Rows(c);
  }

  lemma ScaledByZero(a: Complex)
    ensures Scale(0.0, a) == ZERO
  {
  }

  // Main result: the polyphase form is the direct form, for every configuration, input
  // and time.
  lemma PolyphaseIsDirect(c: Config, w: int -> Complex, x: seq<Complex>, b: int, n: int)
    requires c.bins > 0 && RootsOfUnity(w, 2 * c.bins)
    ensures Polyphase(c, w, x, b, n) == Direct(c, w, x, b, n)
  {
    hide Mul, RootsOfUnity, Sum, Scale, At, Frequency;
    BranchesCoverTaps(c, w, x, b, n);
    var f := Frequency(c, b);
    var post, term := w(-f * n), TapTerm(c, w, x, b, n);
    SumScaled(|c.taps|, post, term);
    forall k | 0 <= k < |c.taps| ensures Mul(post, term(k)) == DirectTerm(c, w, x, b, n)(k) {
      var v := At(x, n - k);
      assert -f * (n - k) == -f * n + f * k by { assert -f * (n - k) == -f * n - -f * k; }
      RootProduct(w, 2 * c.bins, -f * n, f * k);
      ScaledPost(Tap(c, k), v, post, w(f * k));
    }
    SumCongruence(|c.taps|, k => Mul(post, term(k)), DirectTerm(c, w, x, b, n));
  }

  lemma ScaledPost(tap: real, v: Complex, post: Complex, r: Complex)
    ensures Mul(post, Scale(tap, Mul(v, r))) == Scale(tap, Mul(v, Mul(post, r)))
  {
    hide Mul, Scale;
    var t := Complex(tap, 0.0);
    ScaleIsMul(tap, Mul(v, r));
    ScaleIsMul(tap, Mul(v, Mul(post, r)));
    MulAssoc(post, t, Mul(v, r));
    MulComm(post, t);
    MulAssoc(t, post, Mul(v, r));
    MulAssoc(post, v, r);
    MulComm(post, v);
    MulAssoc(v, post, r);
  }

  // ---- Impulse response ----

  // Main result on the taps: a stream of a single sample gives, at every bin and time, the tap
  // that has come to the sample's place, times the sample mixed down at its own time.
  lemma SingleSample(c: Config, w: int -> Complex, x: seq<Complex>, m: int, b: int, n: int)
    requires forall i :: i != m ==> At(x, i) == ZERO
    ensures Direct(c, w, x, b, n) ==
            if 0 <= n - m < |c.taps| then Scale(c.taps[n - m], Mul(At(x, m), w(-Frequency(c, b) * m))) else ZERO
  {
    hide At, Frequency, Sum, Mul, Scale;
    var term := DirectTerm(c, w, x, b, n);
    forall k | 0 <= k < |c.taps| && k != n - m ensures term(k) == ZERO {
      NothingMixed(c.taps[k], w(-Frequency(c, b) * (n - k)));
    }
    SumOfOne(|c.taps|, term, n - m);
  }

  lemma NothingMixed(tap: real, r: Complex)
    ensures Scale(tap, Mul(ZERO, r)) == ZERO
  {
  }

  lemma UnitThroughTap(tap: real)
    ensures Scale(tap, ONE) == Complex(tap, 0.0)
  {
  }

  // A unit impulse at the start brings out the taps themselves, the same at every bin.
  lemma ImpulseResponse(c: Config, w: int -> Complex, x: seq<Complex>, b: int, n: nat)
    requires w(0) == ONE && |x| > 0 && x[0] == ONE && forall i :: 1 <= i < |x| ==> x[i] == ZERO
    ensures Direct(c, w, x, b, n) == Complex(if n < |c.taps| then c.taps[n] else 0.0, 0.0)
  {
    hide Frequency, Direct, Mul, Scale;
    SingleSample(c, w, x, 0, b, n);
    assert -Frequency(c, b) * 0 == 0;
    MulOne(ONE);
    if n < |c.taps| { UnitThroughTap(c.taps[n]); }
  }

  function TapTotal(taps: seq<real>, n: nat): real
    requires n <= |taps|
  {
    if n == 0 then 0.0 else TapTotal(taps, n - 1) + taps[n - 1]
  }

  lemma {:induction false} SumOfTaps(taps: seq<real>, term: int -> Complex, n: nat)
    requires n <= |taps| && forall k :: 0 <= k < n ==> term(k) == Complex(taps[k], 0.0)
    ensures Sum(n, term) == Complex(TapTotal(taps, n), 0.0)
  {
    if n > 0 { SumOfTaps(taps, term, n - 1); }
  }

  // Main result on the frequencies: a tone at the centre of a bin, half a bin higher on the half
  // grid, comes out of that bin as a constant, the sum of all taps, once the filter is full.
  lemma ToneIsConstant(c: Config, w: int -> Complex, x: seq<Complex>, b: int, n: int)
    requires c.bins > 0 && RootsOfUnity(w, 2 * c.bins) && |c.taps| - 1 <= n < |x|
    requires forall i :: 0 <= i < |x| ==> x[i] == w((2 * b + if c.halfGrid then 1 else 0) * i)
    ensures Direct(c, w, x, b, n) == Complex(TapTotal(c.taps, |c.taps|), 0.0)
  {
    hide RootsOfUnity, Mul, Scale, Sum;
    var term := DirectTerm(c, w, x, b, n);
    forall k | 0 <= k < |c.taps| ensures term(k) == Complex(c.taps[k], 0.0) {
      var turn := Frequency(c, b) * (n - k);
      assert At(x, n - k) == w(turn);
      assert -Frequency(c, b) * (n - k) == -turn;
      TurnedBack(w, 2 * c.bins, turn);
      UnitThroughTap(c.taps[k]);
    }
    SumOfTaps(c.taps, term, |c.taps|);
  }

  lemma TurnedBack(w: int -> Complex, order: nat, turn: int)
    requires RootsOfUnity(w, order)
    ensures Mul(w(turn), w(-turn)) == ONE
  {
    assert AddsExponents(w, turn, -turn);
  }
}
