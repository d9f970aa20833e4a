// The in-place transform over split real and imaginary arrays: bit-reversal by swaps,
// then radix-2 stages, for each transform of a strided batch.
module IfftKernel {
  import opened Bits
  import opened ComplexNumbers
  import opened IfftTransform

  // Order of the roots of unity in the twiddle table.
  const ORDER: nat := 32

  // The twiddle table holds the first half turn.
  datatype Twiddles = Twiddles(re: seq<real>, im: seq<real>)

  ghost predicate TableOf(t: Twiddles, w: int -> Complex)
  {
    && |t.re| == ORDER / 2 && |t.im| == ORDER / 2
    && forall j :: 0 <= j < ORDER / 2 ==> Complex(t.re[j], t.im[j]) == w(j)
  }

  // `count` complex numbers held from position `offset` on.
  function View(re: array<real>, im: array<real>, offset: nat, count: nat): (x: seq<Complex>)
    requires offset + count <= re.Length && offset + count <= im.Length
    reads re, im
    ensures |x| == count
  {
    ViewOf(re[..], im[..], offset, count)
  }

  function ViewOf(re: seq<real>, im: seq<real>, offset: nat, count: nat): (x: seq<Complex>)
    requires offset + count <= |re| && offset + count <= |im|
    ensures |x| == count
  {
    seq(count, i requires 0 <= i < count => Complex(re[offset + i], im[offset + i]))
  }

  // ---- One stage ----

  // The butterfly that touches position j.
  function PairNumber(j: nat, half: nat): nat
    requires half > 0
  {
    Positions(j / (2 * half), half) + j % (2 * half) % half
  }

  // Butterflies of the blocks before one.
  function Positions(block: nat, half: nat): nat
  {
    block * half
  }

  // Where its two legs are and which twiddle it uses.
  function EvenOf(b: nat, half: nat): nat
    requires half > 0
  {
    b / half * (2 * half) + b % half
  }

  function TwiddleOf(b: nat, half: nat, unit: nat): nat
    requires half > 0
  {
    b % half * unit
  }

  // The data once the first `done` butterflies have run.
  function Partial(x: seq<Complex>, w: int -> Complex, unit: nat, half: nat, done: nat): (r: seq<Complex>)
    requires half > 0
    ensures |r| == |x|
  {
    seq(|x|, j requires 0 <= j < |x| => if PairNumber(j, half) < done then StageAt(x, w, unit, half, j) else x[j])
  }

  // Butterfly b touches exactly the positions even and even + half.
  lemma PairPositions(b: nat, half: nat, length: nat)
    requires half > 0 && length % (2 * half) == 0 && 2 * b < length
    ensures
      var even := EvenOf(b, half);
      && even + half < length
      && even % (2 * half) == b % half && (even + half) % (2 * half) == b % half + half
      && PairNumber(even, half) == b && PairNumber(even + half, half) == b
  {
    var q, r := b / half, b % half;
    DivMod(b, half);
    DivMod(length, 2 * half);
    ProductsAgree(q, half);
    BlockRoom(2 * half, q, length / (2 * half), 2 * r, 2 * b, length);
    PairRemainders(q, r, half);
  }

  lemma ProductsAgree(q: nat, half: nat)
    ensures q * (2 * half) == 2 * half * q == 2 * (half * q) && q * half == half * q
  {
  }

  lemma PairRemainders(q: nat, r: nat, half: nat)
    requires r < half
    ensures
      var even := q * (2 * half) + r;
      && even % (2 * half) == r && (even + half) % (2 * half) == r + half
      && PairNumber(even, half) == half * q + r && PairNumber(even + half, half) == half * q + r
  {
    ProductsAgree(q, half);
    var even := q * (2 * half) + r;
    DivUnique(even, 2 * half, q, r);
    DivUnique(even + half, 2 * half, q, r + half);
    DivUnique(r, half, 0, r);
    DivUnique(r + half, half, 1, r);
  }

  lemma PairIsUnique(b: nat, half: nat, j: nat)
    requires half > 0 && PairNumber(j, half) == b
    ensures
      var even := EvenOf(b, half);
      j == even || j == even + half
  {
    var p := 2 * half;
    var q, s := j / p, j % p;
    DivMod(j, p);
    var r := s % half;
    assert s == r || s == r + half by {
      if s < half { DivUnique(s, half, 0, s); } else { DivUnique(s, half, 1, s - half); }
    }
    assert b == half * q + r by { assert q * half == half * q; }
    DivUnique(b, half, q, r);
    assert q * p == p * q;
  }

  lemma PairNumberBelow(half: nat, length: nat, j: nat)
    requires half > 0 && length % (2 * half) == 0 && j < length
    ensures PairNumber(j, half) < length / 2
  {
    var q, l := j / (2 * half), length / (2 * half);
    DivMod(j, 2 * half);
    DivMod(length, 2 * half);
    BlockRoom(2 * half, q, l, j % (2 * half), j, length);
    ProductsAgree(q, half);
    ProductsAgree(l, half);
    assert j % (2 * half) % half < half;
  }

  // One more butterfly.
  lemma PartialStep(x: seq<Complex>, w: int -> Complex, unit: nat, half: nat, b: nat)
    requires half > 0 && |x| % (2 * half) == 0 && 2 * b < |x|
    ensures
      var even := EvenOf(b, half);
      var odd := even + half;
      var product := Mul(w(TwiddleOf(b, half, unit)), At(x, odd));
      && odd < |x|
      && Partial(x, w, unit, half, b)[even] == x[even] && Partial(x, w, unit, half, b)[odd] == x[odd]
      && Partial(x, w, unit, half, b + 1) ==
         Partial(x, w, unit, half, b)[even := Add(x[even], product)][odd := Sub(x[even], product)]
  {
    hide Add, Sub, Mul, PairNumber;
    PairPositions(b, half, |x|);
    var even := EvenOf(b, half);
    var odd := even + half;
    var product := Mul(w(TwiddleOf(b, half, unit)), At(x, odd));
    assert StageAt(x, w, unit, half, even) == Add(x[even], product);
    assert StageAt(x, w, unit, half, odd) == Sub(x[even], product);
    hide StageAt;
    forall j | 0 <= j < |x| && PairNumber(j, half) == b ensures j == even || j == odd {
      PairIsUnique(b, half, j);
    }
  }

  lemma PartialEnds(x: seq<Complex>, w: int -> Complex, unit: nat, half: nat)
    requires half > 0 && |x| % (2 * half) == 0
    ensures Partial(x, w, unit, half, 0) == x
    ensures Partial(x, w, unit, half, |x| / 2) == Stage(x, w, unit, half)
  {
    hide StageAt, PairNumber;
    forall j: nat | j < |x| ensures PairNumber(j, half) < |x| / 2 {
      PairNumberBelow(half, |x|, j);
    }
    assert Partial(x, w, unit, half, |x| / 2) == Stage(x, w, unit, half);
  }

  // The product of a butterfly: a plain copy for twiddle 0, a quarter turn for twiddle
  // ORDER / 4, a table lookup otherwise.
  function Product(t: Twiddles, twiddle: nat, oddRe: real, oddIm: real): Complex
    requires |t.re| == ORDER / 2 && |t.im| == ORDER / 2 && twiddle < ORDER / 2
  {
    if twiddle == 0 then Complex(oddRe, oddIm)
    else if twiddle == 8 then Complex(-oddIm, oddRe)
    else Complex(oddRe * t.re[twiddle] - oddIm * t.im[twiddle], oddRe * t.im[twiddle] + oddIm * t.re[twiddle])
  }

  lemma ProductIsRotation(t: Twiddles, w: int -> Complex, twiddle: nat, odd: Complex)
    requires RootsOfUnity(w, ORDER) && TableOf(t, w) && twiddle < ORDER / 2
    ensures Product(t, twiddle, odd.re, odd.im) == Mul(w(twiddle), odd)
  {
    RootSpecial(w, ORDER);
    hide RootsOfUnity;
    if twiddle == 0 {
      MulOne(odd);
    } else if twiddle == 8 {
      TimesI(odd);
    } else {
      assert Complex(t.re[twiddle], t.im[twiddle]) == w(twiddle);
    }
  }

  lemma TwiddleInTable(b: nat, half: nat, unit: nat)
    requires half > 0 && unit * (2 * half) == ORDER
    ensures TwiddleOf(b, half, unit) < ORDER / 2
  {
    var index := b % half;
    assert unit * half == ORDER / 2;
    MulStrict(unit, index, half);
    assert unit * index == index * unit;
  }

  method Butterfly(re: array<real>, im: array<real>, even: nat, odd: nat, t: Twiddles, twiddle: nat, ghost w: int -> Complex)
    requires re != im && even != odd && even < re.Length && even < im.Length && odd < re.Length && odd < im.Length
    requires RootsOfUnity(w, ORDER) && TableOf(t, w) && twiddle < ORDER / 2
    modifies re, im
    ensures
      var e, o := old(Complex(re[even], im[even])), old(Complex(re[odd], im[odd]));
      var sum, difference := Add(e, Mul(w(twiddle), o)), Sub(e, Mul(w(twiddle), o));
      && re[..] == old(re[..])[even := sum.re][odd := difference.re]
      && im[..] == old(im[..])[even := sum.im][odd := difference.im]
  {
    hide Mul, RootsOfUnity;
    ghost var o := Complex(re[odd], im[odd]);
    ProductIsRotation(t, w, twiddle, o);
    var product := Product(t, twiddle, re[odd], im[odd]);
    var evenRe, evenIm := re[even], im[even];
    re[even] := evenRe + product.re;
    im[even] := evenIm + product.im;
    re[odd] := evenRe - product.re;
    im[odd] := evenIm - product.im;
  }

  // Two arrays that agree with their old contents outside one range.
  twostate predicate SameOutside(re: array<real>, im: array<real>, offset: nat, count: nat)
    reads re, im
  {
    && (forall i :: 0 <= i < re.Length && !(offset <= i < offset + count) ==> re[i] == old(re[i]))
    && (forall i :: 0 <= i < im.Length && !(offset <= i < offset + count) ==> im[i] == old(im[i]))
  }

  // Butterfly number `butterfly` of a stage.
  method StageButterfly(re: array<real>, im: array<real>, offset: nat, count: nat, half: nat, unit: nat, t: Twiddles, butterfly: nat,
                        ghost w: int -> Complex, ghost x: seq<Complex>)
    requires re != im && offset + count <= re.Length && offset + count <= im.Length && |x| == count
    requires half > 0 && count % (2 * half) == 0 && unit * (2 * half) == ORDER && 2 * butterfly < count
    requires RootsOfUnity(w, ORDER) && TableOf(t, w)
    requires View(re, im, offset, count) == Partial(x, w, unit, half, butterfly)
    modifies re, im
    ensures View(re, im, offset, count) == Partial(x, w, unit, half, butterfly + 1)
    ensures SameOutside(re, im, offset, count)
  {
    hide RootsOfUnity, TableOf, Partial, Stage, Mul, Add, Sub, ViewOf, EvenOf, TwiddleOf;
    var even := EvenOf(butterfly, half);
    var odd := even + half;
    var twiddle := TwiddleOf(butterfly, half, unit);
    PartialStep(x, w, unit, half, butterfly);
    TwiddleInTable(butterfly, half, unit);
    ViewAt(re, im, offset, count, even);
    ViewAt(re, im, offset, count, odd);
    ghost var re0, im0 := re[..], im[..];
    Butterfly(re, im, offset + even, offset + odd, t, twiddle, w);
    ghost var product := Mul(w(twiddle), x[odd]);
    ViewUpdated(re0, im0, re[..], im[..], offset, count, even, odd, Add(x[even], product), Sub(x[even], product));
    ArraysOutside(re, im, re0, im0, offset, count);
  }

  method ApplyStage(re: array<real>, im: array<real>, offset: nat, count: nat, length: nat, t: Twiddles, ghost w: int -> Complex)
    requires re != im && offset + count <= re.Length && offset + count <= im.Length
    requires length >= 2 && length % 2 == 0 && count % length == 0 && ORDER / length * length == ORDER
    requires RootsOfUnity(w, ORDER) && TableOf(t, w)
    modifies re, im
    ensures View(re, im, offset, count) == Stage(old(View(re, im, offset, count)), w, ORDER / length, length / 2)
    ensures SameOutside(re, im, offset, count)
  {
    hide RootsOfUnity, TableOf, Partial, Stage, View, StageAt, PairNumber;
    var half := length / 2;
    ghost var x := View(re, im, offset, count);
    PartialEnds(x, w, ORDER / length, half);
    for butterfly := 0 to count / 2
      invariant View(re, im, offset, count) == Partial(x, w, ORDER / length, half, butterfly)
      invariant SameOutside(re, im, offset, count)
    {
      StageButterfly(re, im, offset, count, half, ORDER / length, t, butterfly, w, x);
    }
  }

  lemma ViewAt(re: array<real>, im: array<real>, offset: nat, count: nat, j: nat)
    requires offset + count <= re.Length && offset + count <= im.Length && j < count
    ensures View(re, im, offset, count)[j] == Complex(re[offset + j], im[offset + j])
  {
  }

  // Two elements of a range overwritten, seen through the view.
  lemma ViewUpdated(re: seq<real>, im: seq<real>, re': seq<real>, im': seq<real>, offset: nat, count: nat, even: nat, odd: nat, a: Complex, b: Complex)
    requires offset + count <= |re| && offset + count <= |im| && even < odd < count
    requires re' == re[offset + even := a.re][offset + odd := b.re]
    requires im' == im[offset + even := a.im][offset + odd := b.im]
    ensures ViewOf(re', im', offset, count) == ViewOf(re, im, offset, count)[even := a][odd := b]
    ensures OutsideSame(re, im, re', im', offset, count)
  {
  }

  // Two pairs of buffers that agree outside one range.
  predicate OutsideSame(re: seq<real>, im: seq<real>, re': seq<real>, im': seq<real>, offset: nat, count: nat)
  {
    && |re'| == |re| && |im'| == |im|
    && (forall i :: 0 <= i < |re| && !(offset <= i < offset + count) ==> re'[i] == re[i])
    && (forall i :: 0 <= i < |im| && !(offset <= i < offset + count) ==> im'[i] == im[i])
  }

  lemma ArraysOutside(re: array<real>, im: array<real>, re0: seq<real>, im0: seq<real>, offset: nat, count: nat)
    requires OutsideSame(re0, im0, re[..], im[..], offset, count)
    ensures forall i :: 0 <= i < re.Length && !(offset <= i < offset + count) ==> re[i] == re0[i]
    ensures forall i :: 0 <= i < im.Length && !(offset <= i < offset + count) ==> im[i] == im0[i]
  {
    forall i | 0 <= i < re.Length && !(offset <= i < offset + count) ensures re[i] == re0[i] {
      assert re[..][i] == re[i];
    }
    forall i | 0 <= i < im.Length && !(offset <= i < offset + count) ensures im[i] == im0[i] {
      assert im[..][i] == im[i];
    }
  }

  // ---- Bit-reversed order ----

  method ReverseBits(count: nat, value: nat, ghost n: nat) returns (reversed: nat)
    requires count == Pow2(n)
    ensures reversed == Reverse(value, n)
  {
    hide Or, Reverse;
    reversed := 0;
    var remaining, rest := count, value;
    ghost var k := n;
    while remaining > 1
      invariant remaining == Pow2(k)
      invariant Reverse(value, n) == Pow2(k) * reversed + Reverse(rest, k)
    {
      ReverseCons(rest / 2, rest % 2, k - 1);
      AppendBit(reversed, rest % 2, Pow2(k - 1));
      reversed := Or(2 * reversed, rest % 2);
      rest := rest / 2;
      remaining := remaining / 2;
      k := k - 1;
    }
    assert k == 0;
    ReverseNothing(rest);
  }

  lemma AppendBit(reversed: nat, bit: Bit, p: nat)
    ensures Or(2 * reversed, bit) == 2 * reversed + bit
    ensures p * (2 * reversed + bit) == 2 * p * reversed + if bit == 0 then 0 else p
  {
    hide Or;
    OrCommutes(2 * reversed, bit);
    OrAbove(bit, 1, reversed);
  }

  function PartlyReordered(x: seq<Complex>, n: nat, done: nat): (r: seq<Complex>)
    requires |x| == Pow2(n)
    ensures |r| == |x|
  {
    seq(|x|, i requires 0 <= i < |x| => if i < done || Reverse(i, n) < done then x[Reverse(i, n)] else x[i])
  }

  lemma ReorderStep(x: seq<Complex>, n: nat, i: nat)
    requires |x| == Pow2(n) && i < |x|
    ensures
      var r := Reverse(i, n);
      if i < r then
        && PartlyReordered(x, n, i)[i] == x[i] && PartlyReordered(x, n, i)[r] == x[r]
        && PartlyReordered(x, n, i + 1) == PartlyReordered(x, n, i)[i := x[r]][r := x[i]]
      else PartlyReordered(x, n, i + 1) == PartlyReordered(x, n, i)
  {
    hide Reverse;
    forall j: nat | j < |x| ensures Reverse(Reverse(j, n), n) == j {
      ReverseInvolution(j, n);
    }
  }

  lemma ReorderEnds(x: seq<Complex>, n: nat)
    requires |x| == Pow2(n)
    ensures PartlyReordered(x, n, 0) == x
    ensures PartlyReordered(x, n, |x|) == IfftTransform.Reordered(x, n)
  {
    hide Reverse;
  }

  // Reordering twice restores the data.
  lemma ReorderIsInvolution(x: seq<Complex>, n: nat)
    requires |x| == Pow2(n)
    ensures IfftTransform.Reordered(IfftTransform.Reordered(x, n), n) == x
  {
    hide Reverse;
    forall j: nat | j < |x| ensures Reverse(Reverse(j, n), n) == j {
      ReverseInvolution(j, n);
    }
  }

  method Swap(re: array<real>, im: array<real>, i: nat, j: nat)
    requires re != im && i < j && j < re.Length && j < im.Length
    modifies re, im
    ensures re[..] == old(re[..])[i := old(re[j])][j := old(re[i])]
    ensures im[..] == old(im[..])[i := old(im[j])][j := old(im[i])]
  {
    re[i], re[j] := re[j], re[i];
    im[i], im[j] := im[j], im[i];
  }

  method Reorder(re: array<real>, im: array<real>, offset: nat, count: nat, ghost n: nat)
    requires re != im && offset + count <= re.Length && offset + count <= im.Length && count == Pow2(n)
    modifies re, im
    ensures View(re, im, offset, count) == IfftTransform.Reordered(old(View(re, im, offset, count)), n)
    ensures SameOutside(re, im, offset, count)
  {
    hide Reverse, PartlyReordered, ViewOf, IfftTransform.Reordered, Pow2;
    ghost var x := View(re, im, offset, count);
    ReorderEnds(x, n);
    for index := 0 to count
      invariant View(re, im, offset, count) == PartlyReordered(x, n, index)
      invariant SameOutside(re, im, offset, count)
    {
      var reversed := ReverseBits(count, index, n);
      ReorderStep(x, n, index);
      if index < reversed {
        ViewAt(re, im, offset, count, index);
        ViewAt(re, im, offset, count, reversed);
        ghost var re0, im0 := re[..], im[..];
        Swap(re, im, offset + index, offset + reversed);
        ViewUpdated(re0, im0, re[..], im[..], offset, count, index, reversed, x[reversed], x[index]);
        ArraysOutside(re, im, re0, im0, offset, count);
      }
    }
  }

  // ---- All stages ----

  // The twiddle step of each stage is half that of the stage before.
  lemma UnitsHalve(s: nat)
    requires s < 5
    ensures ORDER / Pow2(s) == 2 * (ORDER / Pow2(s + 1))
    ensures ORDER / Pow2(s + 1) * Pow2(s + 1) == ORDER
  {
    Powers();
  }

  lemma PowersDivide(s: nat, n: nat)
    requires s <= n <= 5
    ensures Pow2(n) % Pow2(s) == 0
    ensures Pow2(s) <= Pow2(n) && (Pow2(s) == Pow2(n) ==> s == n)
  {
    Powers();
  }

  method ApplyStages(re: array<real>, im: array<real>, offset: nat, count: nat, t: Twiddles, ghost n: nat, ghost w: int -> Complex)
    requires re != im && offset + count <= re.Length && offset + count <= im.Length && count == Pow2(n) && n <= 5
    requires RootsOfUnity(w, ORDER) && TableOf(t, w)
    modifies re, im
    ensures count % Pow2(n) == 0
    ensures View(re, im, offset, count) == Stages(old(View(re, im, offset, count)), w, ORDER / Pow2(n), n)
    ensures SameOutside(re, im, offset, count)
  {
    hide RootsOfUnity, TableOf, Stage, View;
    ghost var x, s := View(re, im, offset, count), 0;
    var length := 2;
    PowersDivide(0, n);
    while length <= count
      invariant s <= n && length == Pow2(s + 1) && count % Pow2(s) == 0
      invariant View(re, im, offset, count) == Stages(x, w, ORDER / Pow2(s), s)
      invariant SameOutside(re, im, offset, count)
      decreases n - s
    {
      assert Pow2(s + 1) == 2 * Pow2(s);
      if s == n { assert false; }
      PowersDivide(s + 1, n);
      UnitsHalve(s);
      ApplyStage(re, im, offset, count, length, t, w);
      length := length * 2;
      s := s + 1;
    }
    if s < n { assert false; }
  }

  // One transform in place.
  method IfftFixed(re: array<real>, im: array<real>, offset: nat, count: nat, t: Twiddles, ghost n: nat, ghost w: int -> Complex)
    requires re != im && offset + count <= re.Length && offset + count <= im.Length && count == Pow2(n) && n <= 5
    requires RootsOfUnity(w, ORDER) && TableOf(t, w)
    modifies re, im
    ensures IsTransformOf(View(re, im, offset, count), old(View(re, im, offset, count)), w)
    ensures SameOutside(re, im, offset, count)
  {
    hide RootsOfUnity, TableOf, Stages, View, IfftTransform.Reordered, IsTransformOf, Pow2, Transform;
    ghost var x := View(re, im, offset, count);
    Reorder(re, im, offset, count, n);
    ApplyStages(re, im, offset, count, t, n, w);
    StagesTransform(x, w, ORDER / Pow2(n), n);
    TransformIsTransform(x, w, n);
  }

  // y holds, bin by bin, the transform sum of x.
  ghost predicate IsTransformOf(y: seq<Complex>, x: seq<Complex>, w: int -> Complex)
  {
    && |y| == |x| > 0
    && forall k :: 0 <= k < |y| ==> y[k] == Dft(x, w, ORDER / |x|, k)
  }

  lemma TransformIsTransform(x: seq<Complex>, w: int -> Complex, n: nat)
    requires RootsOfUnity(w, ORDER) && |x| == Pow2(n) && n <= 5
    ensures IsTransformOf(Transform(x, w, ORDER / Pow2(n), n), x, w)
  {
    hide RootsOfUnity, Transform, Dft;
    if n > 0 { UnitsHalve(n - 1); } else { assert Pow2(0) == 1; }
    forall k | 0 <= k < |x| ensures Transform(x, w, ORDER / Pow2(n), n)[k] == Dft(x, w, ORDER / |x|, k) {
      TransformIsDft(x, w, ORDER, ORDER / Pow2(n), n, k);
    }
  }

  // ---- Batches ----

  // Transform k of a batch starts here.
  function Start(k: nat, stride: nat): nat { k * stride }

  lemma StartIs(stride: nat)
    ensures forall k: nat :: Start(k, stride) == k * stride
  {
  }

  lemma StartsApart(j: nat, k: nat, size: nat, stride: nat)
    requires size <= stride && j < k
    ensures Start(j, stride) + size <= Start(k, stride)
  {
    assert k * stride == j * stride + (k - j) * stride;
    assert (k - j) * stride >= stride by { assert (k - j - 1) * stride >= 0; }
  }

  ghost predicate Fits(re: array<real>, im: array<real>, offset: nat, size: nat)
  {
    offset + size <= re.Length && offset + size <= im.Length
  }

  predicate Supported(size: nat)
  {
    size == 4 || size == 8 || size == 16 || size == 32
  }

  // Position i belongs to one of the transforms.
  ghost predicate InBatch(i: nat, size: nat, transformCount: nat, stride: nat)
  {
    exists k: nat :: k < transformCount && Start(k, stride) <= i < Start(k, stride) + size
  }

  // A range that lies apart from the one that changed still holds the same.
  lemma ViewApart(re: array<real>, im: array<real>, re0: seq<real>, im0: seq<real>, changed: nat, offset: nat, size: nat)
    requires |re0| == re.Length && |im0| == im.Length && Fits(re, im, changed, size) && Fits(re, im, offset, size)
    requires forall i :: 0 <= i < re.Length && !(changed <= i < changed + size) ==> re[i] == re0[i]
    requires forall i :: 0 <= i < im.Length && !(changed <= i < changed + size) ==> im[i] == im0[i]
    requires offset + size <= changed || changed + size <= offset
    ensures View(re, im, offset, size) == ViewOf(re0, im0, offset, size)
  {
  }

  // One range now holds the transform of what it held, and one still holds the same.
  twostate predicate Transformed(re: array<real>, im: array<real>, offset: nat, size: nat, w: int -> Complex)
    reads re, im
  {
    && Fits(re, im, offset, size)
    && if Supported(size) then IsTransformOf(View(re, im, offset, size), old(View(re, im, offset, size)), w)
       else View(re, im, offset, size) == old(View(re, im, offset, size))
  }

  twostate predicate Untouched(re: array<real>, im: array<real>, offset: nat, size: nat)
    reads re, im
  {
    Fits(re, im, offset, size) && View(re, im, offset, size) == old(View(re, im, offset, size))
  }

  method IfftOne(re: array<real>, im: array<real>, offset: nat, size: nat, t: Twiddles, ghost w: int -> Complex)
    requires re != im && Fits(re, im, offset, size)
    requires RootsOfUnity(w, ORDER) && TableOf(t, w)
    modifies re, im
    ensures Transformed(re, im, offset, size, w) && SameOutside(re, im, offset, size)
  {
    hide RootsOfUnity, TableOf, View, IsTransformOf;
    Powers();
    if size == 4 {
      IfftFixed(re, im, offset, 4, t, 2, w);
    } else if size == 8 {
      IfftFixed(re, im, offset, 8, t, 3, w);
    } else if size == 16 {
      IfftFixed(re, im, offset, 16, t, 4, w);
    } else if size == 32 {
      IfftFixed(re, im, offset, 32, t, 5, w);
    }
  }

  // Transforms start `stride` apart; each is transformed in place and nothing outside
  // them is touched. An unsupported size leaves everything as it is.
  method IfftGeneric(re: array<real>, im: array<real>, size: nat, transformCount: nat, stride: nat, t: Twiddles, ghost w: int -> Complex)
    requires re != im && RootsOfUnity(w, ORDER) && TableOf(t, w)
    requires stride >= size && forall k: nat :: k < transformCount ==> Fits(re, im, Start(k, stride), size)
    modifies re, im
    ensures forall k: nat :: k < transformCount ==> Start(k, stride) == k * stride && Transformed(re, im, Start(k, stride), size, w)
    ensures Supported(size) <==> size == 4 || size == 8 || size == 16 || size == 32
    ensures forall i :: 0 <= i < re.Length && !InBatch(i, size, transformCount, stride) ==> re[i] == old(re[i])
    ensures forall i :: 0 <= i < im.Length && !InBatch(i, size, transformCount, stride) ==> im[i] == old(im[i])
  {
    hide RootsOfUnity, TableOf, ViewOf, IsTransformOf, Start;
    StartIs(stride);
    for transform := 0 to transformCount
      invariant forall k: nat :: k < transform ==> Transformed(re, im, Start(k, stride), size, w)
      invariant forall k: nat :: transform <= k < transformCount ==> Untouched(re, im, Start(k, stride), size)
      invariant forall i :: 0 <= i < re.Length && !InBatch(i, size, transformCount, stride) ==> re[i] == old(re[i])
      invariant forall i :: 0 <= i < im.Length && !InBatch(i, size, transformCount, stride) ==> im[i] == old(im[i])
    {
      ghost var re0, im0 := re[..], im[..];
      IfftOne(re, im, Start(transform, stride), size, t, w);
      forall k: nat | k < transformCount && k != transform
        ensures Fits(re, im, Start(k, stride), size) && View(re, im, Start(k, stride), size) == ViewOf(re0, im0, Start(k, stride), size)
      {
        assert Fits(re, im, Start(k, stride), size);
        if k < transform { StartsApart(k, transform, size, stride); } else { StartsApart(transform, k, size, stride); }
        ViewApart(re, im, re0, im0, Start(transform, stride), Start(k, stride), size);
      }
    }
  }
}
