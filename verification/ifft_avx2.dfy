// The 256-bit inverse transform: three stages inside a register by lane permutations, the
// later ones over eight butterflies at a time, and the direct eight-point form.
module IfftAvx2 {
  import opened Bits
  import opened ComplexNumbers
  import opened IfftTransform
  import opened IfftKernel

  // Eight lanes of one component.
  type Lanes = v: seq<real> | |v| == 8 witness seq(8, _ => 0.0)

  function Joined(re: Lanes, im: Lanes): (x: seq<Complex>)
    ensures |x| == 8
  {
    seq(8, l requires 0 <= l < 8 => Complex(re[l], im[l]))
  }

  // ---- Stages inside a register ----

  const SWAPPED: seq<nat> := [1, 0, 3, 2, 5, 4, 7, 6]
  const PAIR_SIGNS: seq<real> := [1.0, -1.0, 1.0, -1.0, 1.0, -1.0, 1.0, -1.0]

  function Stage2(v: Lanes): Lanes
  {
    seq(8, l requires 0 <= l < 8 => v[SWAPPED[l]] + PAIR_SIGNS[l] * v[l])
  }

  // Lanes a later stage takes its even and odd legs from, its rotations and its signs.
  datatype Plan = Plan(even: seq<nat>, odd: seq<nat>, rotationRe: seq<real>, rotationIm: seq<real>, signs: seq<real>)

  predicate ValidPlan(p: Plan)
  {
    && |p.even| == |p.odd| == |p.rotationRe| == |p.rotationIm| == |p.signs| == 8
    && forall l :: 0 <= l < 8 ==> p.even[l] < 8 && p.odd[l] < 8 && (p.signs[l] == 1.0 || p.signs[l] == -1.0)
  }

  const STAGE4: Plan := Plan([0, 1, 0, 1, 4, 5, 4, 5], [2, 3, 2, 3, 6, 7, 6, 7],
                             [1.0, 0.0, 1.0, 0.0, 1.0, 0.0, 1.0, 0.0], [0.0, 1.0, 0.0, 1.0, 0.0, 1.0, 0.0, 1.0],
                             [1.0, 1.0, -1.0, -1.0, 1.0, 1.0, -1.0, -1.0])

  function Stage8Plan(half: real): Plan
  {
    Plan([0, 1, 2, 3, 0, 1, 2, 3], [4, 5, 6, 7, 4, 5, 6, 7],
         [1.0, half, 0.0, -half, 1.0, half, 0.0, -half], [0.0, half, 1.0, half, 0.0, half, 1.0, half],
         [1.0, 1.0, 1.0, 1.0, -1.0, -1.0, -1.0, -1.0])
  }

  function ProductRe(re: real, im: real, turnRe: real, turnIm: real): real { re * turnRe - im * turnIm }

  function ProductIm(re: real, im: real, turnRe: real, turnIm: real): real { re * turnIm + im * turnRe }

  function TurnedRe(p: Plan, re: Lanes, im: Lanes): Lanes
    requires ValidPlan(p)
  {
    seq(8, l requires 0 <= l < 8 =>
      p.signs[l] * ProductRe(re[p.odd[l]], im[p.odd[l]], p.rotationRe[l], p.rotationIm[l]) + re[p.even[l]])
  }

  function TurnedIm(p: Plan, re: Lanes, im: Lanes): Lanes
    requires ValidPlan(p)
  {
    seq(8, l requires 0 <= l < 8 =>
      p.signs[l] * ProductIm(re[p.odd[l]], im[p.odd[l]], p.rotationRe[l], p.rotationIm[l]) + im[p.even[l]])
  }

  // A butterfly leg with its sign.
  function Leg(e: Complex, product: Complex, plus: bool): Complex { if plus then Add(e, product) else Sub(e, product) }

  lemma TurnedLane(p: Plan, re: Lanes, im: Lanes, l: nat)
    requires ValidPlan(p) && l < 8
    ensures
      var x := Joined(re, im);
      Complex(TurnedRe(p, re, im)[l], TurnedIm(p, re, im)[l]) ==
      Leg(x[p.even[l]], Mul(Complex(p.rotationRe[l], p.rotationIm[l]), x[p.odd[l]]), p.signs[l] == 1.0)
  {
    hide ProductRe, ProductIm, Mul;
    ProductIsMul(re[p.odd[l]], im[p.odd[l]], p.rotationRe[l], p.rotationIm[l]);
  }

  lemma ProductIsMul(re: real, im: real, turnRe: real, turnIm: real)
    ensures Mul(Complex(turnRe, turnIm), Complex(re, im)) == Complex(ProductRe(re, im, turnRe, turnIm), ProductIm(re, im, turnRe, turnIm))
  {
  }

  // Where a stage finds the legs of lane l.
  lemma StageLegs(x: seq<Complex>, w: int -> Complex, unit: nat, half: nat, l: nat)
    requires |x| == 8 && half > 0 && 8 % (2 * half) == 0 && l < 8
    ensures
      var index := l % (2 * half);
      && (index < half ==> l + half < 8 && StageAt(x, w, unit, half, l) == Leg(x[l], Mul(w(unit * index), x[l + half]), true))
      && (index >= half ==> l >= half && StageAt(x, w, unit, half, l) == Leg(x[l - half], Mul(w(unit * (index - half)), x[l]), false))
  {
    hide Mul, Add, Sub;
    StageRoom(8, half, l);
  }

  lemma Stage2IsStage(re: Lanes, im: Lanes, w: int -> Complex)
    requires w(0) == ONE
    ensures Joined(Stage2(re), Stage2(im)) == Stage(Joined(re, im), w, 16, 1)
  {
    var x := Joined(re, im);
    forall l | 0 <= l < 8 ensures Joined(Stage2(re), Stage2(im))[l] == StageAt(x, w, 16, 1, l) {
      StageLegs(x, w, 16, 1, l);
      MulOne(x[if l % 2 == 0 then l + 1 else l]);
      Stage2Lane(re, im, l);
    }
  }

  lemma Stage2Lane(re: Lanes, im: Lanes, l: nat)
    requires l < 8
    ensures
      var x := Joined(re, im);
      Joined(Stage2(re), Stage2(im))[l] == if l % 2 == 0 then Add(x[l], x[l + 1]) else Sub(x[l - 1], x[l])
  {
    if l == 0 {} else if l == 1 {} else if l == 2 {} else if l == 3 {} else if l == 4 {} else if l == 5 {} else if l == 6 {} else {}
  }

  // The tables of a plan name the legs, twiddles and signs of a stage.
  ghost predicate PlanFits(p: Plan, w: int -> Complex, unit: nat, half: nat)
    requires half > 0
  {
    && ValidPlan(p)
    && forall l :: 0 <= l < 8 ==>
         var index := l % (2 * half);
         if index < half then
           p.even[l] == l && p.odd[l] == l + half && p.signs[l] == 1.0 && Complex(p.rotationRe[l], p.rotationIm[l]) == w(unit * index)
         else
           p.even[l] == l - half && p.odd[l] == l && p.signs[l] == -1.0 && Complex(p.rotationRe[l], p.rotationIm[l]) == w(unit * (index - half))
  }

  lemma TurnedIsStage(p: Plan, re: Lanes, im: Lanes, w: int -> Complex, unit: nat, half: nat)
    requires half > 0 && 8 % (2 * half) == 0 && PlanFits(p, w, unit, half)
    ensures Joined(TurnedRe(p, re, im), TurnedIm(p, re, im)) == Stage(Joined(re, im), w, unit, half)
  {
    hide Mul, StageAt, TurnedRe, TurnedIm, Leg;
    var x := Joined(re, im);
    forall l | 0 <= l < 8 ensures Joined(TurnedRe(p, re, im), TurnedIm(p, re, im))[l] == StageAt(x, w, unit, half, l) {
      TurnedLane(p, re, im, l);
      StageLegs(x, w, unit, half, l);
    }
  }

  lemma Stage4Fits(w: int -> Complex)
    requires w(0) == ONE && w(8) == I
    ensures PlanFits(STAGE4, w, 8, 2)
  {
    forall l: int | 0 <= l < 8
      ensures
        var index := l % 4;
        if index < 2 then
          STAGE4.even[l] == l && STAGE4.odd[l] == l + 2 && STAGE4.signs[l] == 1.0
          && Complex(STAGE4.rotationRe[l], STAGE4.rotationIm[l]) == w(8 * index)
        else
          STAGE4.even[l] == l - 2 && STAGE4.odd[l] == l && STAGE4.signs[l] == -1.0
          && Complex(STAGE4.rotationRe[l], STAGE4.rotationIm[l]) == w(8 * (index - 2))
    {
      if l == 0 {} else if l == 1 {} else if l == 2 {} else if l == 3 {} else if l == 4 {} else if l == 5 {} else if l == 6 {} else {}
    }
  }

  ghost predicate FitsAt(p: Plan, w: int -> Complex, l: nat)
    requires ValidPlan(p) && l < 8
  {
    if l < 4 then
      p.even[l] == l && p.odd[l] == l + 4 && p.signs[l] == 1.0 && Complex(p.rotationRe[l], p.rotationIm[l]) == w(4 * l)
    else
      p.even[l] == l - 4 && p.odd[l] == l && p.signs[l] == -1.0 && Complex(p.rotationRe[l], p.rotationIm[l]) == w(4 * (l - 4))
  }

  lemma Stage8FitsLow(w: int -> Complex, half: real, l: nat)
    requires w(0) == ONE && w(4) == Complex(half, half) && w(8) == I && w(12) == Complex(-half, half) && l < 4
    ensures ValidPlan(Stage8Plan(half)) && FitsAt(Stage8Plan(half), w, l)
  {
    if l == 0 {} else if l == 1 {} else if l == 2 {} else {}
  }

  lemma Stage8FitsHigh(w: int -> Complex, half: real, l: nat)
    requires w(0) == ONE && w(4) == Complex(half, half) && w(8) == I && w(12) == Complex(-half, half) && 4 <= l < 8
    ensures ValidPlan(Stage8Plan(half)) && FitsAt(Stage8Plan(half), w, l)
  {
    if l == 4 {} else if l == 5 {} else if l == 6 {} else {}
  }

  lemma Stage8Fits(w: int -> Complex, half: real)
    requires w(0) == ONE && w(4) == Complex(half, half) && w(8) == I && w(12) == Complex(-half, half)
    ensures PlanFits(Stage8Plan(half), w, 4, 4)
  {
    hide Stage8Plan;
    Stage8FitsLow(w, half, 0);
    var p := Stage8Plan(half);
    forall l: int | 0 <= l < 8
      ensures
        if l < 4 then
          p.even[l] == l && p.odd[l] == l + 4 && p.signs[l] == 1.0 && Complex(p.rotationRe[l], p.rotationIm[l]) == w(4 * l)
        else
          p.even[l] == l - 4 && p.odd[l] == l && p.signs[l] == -1.0 && Complex(p.rotationRe[l], p.rotationIm[l]) == w(4 * (l - 4))
    {
      if l < 4 { Stage8FitsLow(w, half, l); } else { Stage8FitsHigh(w, half, l); }
    }
  }

  // Eighth roots among the roots of the transform.
  lemma EighthRoots(w: int -> Complex, half: real)
    requires RootsOfUnity(w, ORDER) && w(4) == Complex(half, half)
    ensures w(0) == ONE && w(8) == I && w(12) == Complex(-half, half)
  {
    hide RootsOfUnity;
    RootSpecial(w, ORDER);
    RootProduct(w, ORDER, 4, 8);
    TimesI(w(4));
    MulComm(w(4), I);
  }

  // Main result inside a register: the three permuted stages are the first three stages.
  lemma RegisterStages(re: Lanes, im: Lanes, w: int -> Complex, half: real)
    requires RootsOfUnity(w, ORDER) && w(4) == Complex(half, half)
    ensures Pow2(3) == 8 && ValidPlan(STAGE4) && ValidPlan(Stage8Plan(half))
    ensures
      var re2, im2 := Stage2(re), Stage2(im);
      var re4, im4 := TurnedRe(STAGE4, re2, im2), TurnedIm(STAGE4, re2, im2);
      Joined(TurnedRe(Stage8Plan(half), re4, im4), TurnedIm(Stage8Plan(half), re4, im4)) == Stages(Joined(re, im), w, 4, 3)
  {
    hide RootsOfUnity, Stage, TurnedRe, TurnedIm, Stage2, Joined, PlanFits;
    Powers();
    EighthRoots(w, half);
    Stage4Fits(w);
    Stage8Fits(w, half);
    FittingIsValid(STAGE4, w, 8, 2);
    FittingIsValid(Stage8Plan(half), w, 4, 4);
    var re2, im2 := Stage2(re), Stage2(im);
    var re4, im4 := TurnedRe(STAGE4, re2, im2), TurnedIm(STAGE4, re2, im2);
    Stage2IsStage(re, im, w);
    TurnedIsStage(STAGE4, re2, im2, w, 8, 2);
    TurnedIsStage(Stage8Plan(half), re4, im4, w, 4, 4);
    ThreeStages(Joined(re, im), w);
  }

  lemma FittingIsValid(p: Plan, w: int -> Complex, unit: nat, half: nat)
    requires half > 0 && PlanFits(p, w, unit, half)
    ensures ValidPlan(p)
  {
  }

  lemma ThreeStages(x: seq<Complex>, w: int -> Complex)
    requires |x| == 8
    ensures Pow2(3) == 8 && Stages(x, w, 4, 3) == Stage(Stage(Stage(x, w, 16, 1), w, 8, 2), w, 4, 4)
  {
    hide Stage;
    Powers();
    assert Stages(x, w, 16, 1) == Stage(Stages(x, w, 32, 0), w, 16, 1);
    assert Stages(x, w, 8, 2) == Stage(Stages(x, w, 16, 1), w, 8, 2);
  }

  // ---- In place ----

  function Load(a: seq<real>, at: nat): Lanes
    requires at + 8 <= |a|
  {
    a[at..at + 8]
  }

  function Stored(a: seq<real>, at: nat, v: Lanes): (r: seq<real>)
    requires at + 8 <= |a|
    ensures |r| == |a|
  {
    a[..at] + v + a[at + 8..]
  }

  method Store(a: array<real>, at: nat, v: Lanes)
    requires at + 8 <= a.Length
    modifies a
    ensures a[..] == Stored(old(a[..]), at, v)
  {
    for l := 0 to 8
      invariant a[at..at + l] == v[..l] && a[..at] == old(a[..at]) && a[at + l..] == old(a[at + l..])
    {
      a[at + l] := v[l];
    }
    assert a[..] == a[..at] + a[at..at + 8] + a[at + 8..];
  }

  lemma StoredLanes(re: seq<real>, im: seq<real>, at: nat, v: Lanes, u: Lanes)
    requires at + 8 <= |re| && at + 8 <= |im|
    ensures ViewOf(Stored(re, at, v), Stored(im, at, u), at, 8) == Joined(v, u)
    ensures OutsideSame(re, im, Stored(re, at, v), Stored(im, at, u), at, 8)
  {
  }

  lemma LoadedLanes(re: seq<real>, im: seq<real>, at: nat)
    requires at + 8 <= |re| && at + 8 <= |im|
    ensures Joined(Load(re, at), Load(im, at)) == ViewOf(re, im, at, 8)
  {
  }

  // A part of a range overwritten, seen through the range.
  lemma ViewPatched(re: seq<real>, im: seq<real>, re': seq<real>, im': seq<real>, offset: nat, count: nat, base: nat, size: nat)
    requires offset + count <= |re| && offset + count <= |im| && base + size <= count
    requires OutsideSame(re, im, re', im', offset + base, size)
    ensures ViewOf(re', im', offset, count) ==
            ViewOf(re, im, offset, count)[..base] + ViewOf(re', im', offset + base, size) + ViewOf(re, im, offset, count)[base + size..]
    ensures ViewOf(re, im, offset, count)[base..base + size] == ViewOf(re, im, offset + base, size)
    ensures OutsideSame(re, im, re', im', offset, count)
  {
  }

  lemma OutsideChains(re: seq<real>, im: seq<real>, re': seq<real>, im': seq<real>, re'': seq<real>, im'': seq<real>, offset: nat, count: nat)
    requires OutsideSame(re, im, re', im', offset, count) && OutsideSame(re', im', re'', im'', offset, count)
    ensures OutsideSame(re, im, re'', im'', offset, count)
  {
  }

  // The first three stages of eight values.
  method ChunkInPlace(re: array<real>, im: array<real>, at: nat, half: real, ghost w: int -> Complex)
    requires re != im && at + 8 <= re.Length && at + 8 <= im.Length && RootsOfUnity(w, ORDER) && w(4) == Complex(half, half)
    modifies re, im
    ensures Pow2(3) == 8 && ViewOf(re[..], im[..], at, 8) == Stages(old(ViewOf(re[..], im[..], at, 8)), w, 4, 3)
    ensures OutsideSame(old(re[..]), old(im[..]), re[..], im[..], at, 8)
  {
    hide RootsOfUnity, Stages, TurnedRe, TurnedIm, Stage2, ViewOf, OutsideSame, Stored, Load, ValidPlan;
    ghost var re0, im0 := re[..], im[..];
    var lanesRe, lanesIm := Load(re[..], at), Load(im[..], at);
    LoadedLanes(re[..], im[..], at);
    RegisterStages(lanesRe, lanesIm, w, half);
    var re2, im2 := Stage2(lanesRe), Stage2(lanesIm);
    var re4, im4 := TurnedRe(STAGE4, re2, im2), TurnedIm(STAGE4, re2, im2);
    var re8, im8 := TurnedRe(Stage8Plan(half), re4, im4), TurnedIm(Stage8Plan(half), re4, im4);
    StoredLanes(re[..], im[..], at, re8, im8);
    Store(re, at, re8);
    Store(im, at, im8);
    assert re[..] == Stored(re0, at, re8) && im[..] == Stored(im0, at, im8);
  }

  // ---- Later stages ----

  // A stage over one whole block once the first `index` butterflies have run.
  function LatePartial(x: seq<Complex>, w: int -> Complex, unit: nat, half: nat, index: nat): (r: seq<Complex>)
    requires half > 0 && |x| == 2 * half
    ensures |r| == |x|
  {
    seq(|x|, j requires 0 <= j < |x| =>
      if (if j < half then j else j - half) < index then StageAt(x, w, unit, half, j) else x[j])
  }

  lemma LateEnds(x: seq<Complex>, w: int -> Complex, unit: nat, half: nat)
    requires half > 0 && |x| == 2 * half
    ensures |x| % (2 * half) == 0
    ensures LatePartial(x, w, unit, half, 0) == x && LatePartial(x, w, unit, half, half) == Stage(x, w, unit, half)
  {
    hide StageAt;
    DivUnique(2 * half, 2 * half, 1, 0);
  }

  function LateProductRe(re: Lanes, im: Lanes, turnRe: Lanes, turnIm: Lanes): Lanes
  {
    seq(8, l requires 0 <= l < 8 => ProductRe(re[l], im[l], turnRe[l], turnIm[l]))
  }

  function LateProductIm(re: Lanes, im: Lanes, turnRe: Lanes, turnIm: Lanes): Lanes
  {
    seq(8, l requires 0 <= l < 8 => ProductIm(re[l], im[l], turnRe[l], turnIm[l]))
  }

  function LanesAdd(a: Lanes, b: Lanes): Lanes { seq(8, l requires 0 <= l < 8 => a[l] + b[l]) }

  function LanesSub(a: Lanes, b: Lanes): Lanes { seq(8, l requires 0 <= l < 8 => a[l] - b[l]) }

  // Eight butterflies: what their legs become.
  lemma EightButterflies(x: seq<Complex>, w: int -> Complex, unit: nat, half: nat, index: nat, turnRe: Lanes, turnIm: Lanes,
                         evenRe: Lanes, evenIm: Lanes, oddRe: Lanes, oddIm: Lanes, l: nat)
    requires |x| == 2 * half && index + 8 <= half && l < 8
    requires Complex(evenRe[l], evenIm[l]) == x[index + l] && Complex(oddRe[l], oddIm[l]) == x[index + half + l]
    requires Complex(turnRe[l], turnIm[l]) == w(unit * (index + l))
    ensures
      var productRe, productIm := LateProductRe(oddRe, oddIm, turnRe, turnIm), LateProductIm(oddRe, oddIm, turnRe, turnIm);
      && Joined(LanesAdd(evenRe, productRe), LanesAdd(evenIm, productIm))[l] == StageAt(x, w, unit, half, index + l)
      && Joined(LanesSub(evenRe, productRe), LanesSub(evenIm, productIm))[l] == StageAt(x, w, unit, half, index + half + l)
  {
    hide Mul, ProductRe, ProductIm;
    ProductIsMul(oddRe[l], oddIm[l], turnRe[l], turnIm[l]);
    DivUnique(index + l, 2 * half, 0, index + l);
    DivUnique(index + half + l, 2 * half, 0, index + half + l);
  }

  // Storing both halves of eight butterflies moves the stage on by eight.
  lemma LateMoves(x: seq<Complex>, w: int -> Complex, unit: nat, half: nat, index: nat, before: seq<Complex>, after: seq<Complex>,
                  sums: seq<Complex>, differences: seq<Complex>)
    requires half > 0 && |x| == 2 * half && index + 8 <= half && |sums| == |differences| == 8
    requires before == LatePartial(x, w, unit, half, index)
    requires after == (before[..index] + sums + before[index + 8..])[..half + index] + differences + before[half + index + 8..]
    requires forall l: nat :: l < 8 ==> sums[l] == StageAt(x, w, unit, half, index + l)
    requires forall l: nat :: l < 8 ==> differences[l] == StageAt(x, w, unit, half, index + half + l)
    ensures after == LatePartial(x, w, unit, half, index + 8)
  {
    hide StageAt;
    forall j: nat | j < 2 * half ensures after[j] == LatePartial(x, w, unit, half, index + 8)[j] {
      if index <= j < index + 8 {
        assert after[j] == sums[j - index];
      } else if half + index <= j < half + index + 8 {
        assert after[j] == differences[j - half - index];
      } else {
        assert after[j] == before[j];
      }
    }
  }

  lemma LateLoads(re: seq<real>, im: seq<real>, offset: nat, half: nat, index: nat, x: seq<Complex>, w: int -> Complex, unit: nat, l: nat)
    requires half > 0 && |x| == 2 * half && index + 8 <= half && l < 8
    requires offset + 2 * half <= |re| && offset + 2 * half <= |im|
    requires ViewOf(re, im, offset, 2 * half) == LatePartial(x, w, unit, half, index)
    ensures Complex(Load(re, offset + index)[l], Load(im, offset + index)[l]) == x[index + l]
    ensures Complex(Load(re, offset + half + index)[l], Load(im, offset + half + index)[l]) == x[index + half + l]
  {
    hide StageAt;
    assert ViewOf(re, im, offset, 2 * half)[index + l] == x[index + l];
    assert ViewOf(re, im, offset, 2 * half)[index + half + l] == x[index + half + l];
  }

  // Two stores seen through the range.
  lemma TwoStores(re: seq<real>, im: seq<real>, offset: nat, half: nat, index: nat, sumRe: Lanes, sumIm: Lanes, differenceRe: Lanes, differenceIm: Lanes)
    requires index + 8 <= half && offset + 2 * half <= |re| && offset + 2 * half <= |im|
    ensures
      var before := ViewOf(re, im, offset, 2 * half);
      var reA, imA := Stored(re, offset + index, sumRe), Stored(im, offset + index, sumIm);
      var reB, imB := Stored(reA, offset + half + index, differenceRe), Stored(imA, offset + half + index, differenceIm);
      && ViewOf(reB, imB, offset, 2 * half) ==
           (before[..index] + Joined(sumRe, sumIm) + before[index + 8..])[..half + index] + Joined(differenceRe, differenceIm) + before[half + index + 8..]
      && OutsideSame(re, im, reB, imB, offset, 2 * half)
  {
    hide ViewOf, OutsideSame, Stored, Joined;
    var reA, imA := Stored(re, offset + index, sumRe), Stored(im, offset + index, sumIm);
    var reB, imB := Stored(reA, offset + half + index, differenceRe), Stored(imA, offset + half + index, differenceIm);
    var before, middle := ViewOf(re, im, offset, 2 * half), ViewOf(reA, imA, offset, 2 * half);
    StoredLanes(re, im, offset + index, sumRe, sumIm);
    StoredLanes(reA, imA, offset + half + index, differenceRe, differenceIm);
    ViewPatched(re, im, reA, imA, offset, 2 * half, index, 8);
    ViewPatched(reA, imA, reB, imB, offset, 2 * half, half + index, 8);
    OutsideChains(re, im, reA, imA, reB, imB, offset, 2 * half);
    assert middle[half + index + 8..] == before[half + index + 8..];
  }

  // Eight butterflies of a later stage, in place.
  method LateEight(re: array<real>, im: array<real>, offset: nat, half: nat, index: nat, turnRe: Lanes, turnIm: Lanes,
                   ghost x: seq<Complex>, ghost unit: nat, ghost w: int -> Complex)
    requires re != im && |x| == 2 * half && index + 8 <= half && offset + 2 * half <= re.Length && offset + 2 * half <= im.Length
    requires ViewOf(re[..], im[..], offset, 2 * half) == LatePartial(x, w, unit, half, index)
    requires forall l: nat :: l < 8 ==> Complex(turnRe[l], turnIm[l]) == w(unit * (index + l))
    modifies re, im
    ensures ViewOf(re[..], im[..], offset, 2 * half) == LatePartial(x, w, unit, half, index + 8)
    ensures OutsideSame(old(re[..]), old(im[..]), re[..], im[..], offset, 2 * half)
  {
    hide ViewOf, OutsideSame, Stored, Load, LatePartial, StageAt, LateProductRe, LateProductIm, LanesAdd, LanesSub, Joined;
    ghost var re0, im0 := re[..], im[..];
    var evenRe, evenIm := Load(re[..], offset + index), Load(im[..], offset + index);
    var oddRe, oddIm := Load(re[..], offset + half + index), Load(im[..], offset + half + index);
    var productRe, productIm := LateProductRe(oddRe, oddIm, turnRe, turnIm), LateProductIm(oddRe, oddIm, turnRe, turnIm);
    var sumRe, sumIm := LanesAdd(evenRe, productRe), LanesAdd(evenIm, productIm);
    var differenceRe, differenceIm := LanesSub(evenRe, productRe), LanesSub(evenIm, productIm);
    forall l: nat | l < 8
      ensures Joined(sumRe, sumIm)[l] == StageAt(x, w, unit, half, index + l)
      ensures Joined(differenceRe, differenceIm)[l] == StageAt(x, w, unit, half, index + half + l)
    {
      LateLoads(re0, im0, offset, half, index, x, w, unit, l);
      EightButterflies(x, w, unit, half, index, turnRe, turnIm, evenRe, evenIm, oddRe, oddIm, l);
    }
    TwoStores(re0, im0, offset, half, index, sumRe, sumIm, differenceRe, differenceIm);
    Store(re, offset + index, sumRe);
    Store(im, offset + index, sumIm);
    Store(re, offset + half + index, differenceRe);
    Store(im, offset + half + index, differenceIm);
    LateMoves(x, w, unit, half, index, ViewOf(re0, im0, offset, 2 * half), ViewOf(re[..], im[..], offset, 2 * half),
              Joined(sumRe, sumIm), Joined(differenceRe, differenceIm));
  }

  // A later stage over one block of 2 * half values, eight butterflies at a time.
  method LateStage(re: array<real>, im: array<real>, offset: nat, half: nat, turnRe: seq<real>, turnIm: seq<real>,
                   ghost unit: nat, ghost w: int -> Complex)
    requires re != im && half > 0 && half % 8 == 0 && offset + 2 * half <= re.Length && offset + 2 * half <= im.Length
    requires |turnRe| == |turnIm| == half && forall k :: 0 <= k < half ==> Complex(turnRe[k], turnIm[k]) == w(unit * k)
    modifies re, im
    ensures 2 * half % (2 * half) == 0
    ensures ViewOf(re[..], im[..], offset, 2 * half) == Stage(old(ViewOf(re[..], im[..], offset, 2 * half)), w, unit, half)
    ensures OutsideSame(old(re[..]), old(im[..]), re[..], im[..], offset, 2 * half)
  {
    hide ViewOf, OutsideSame, LatePartial, Stage;
    ghost var re0, im0 := re[..], im[..];
    ghost var x := ViewOf(re0, im0, offset, 2 * half);
    LateEnds(x, w, unit, half);
    NothingChanged(re0, im0, offset, 2 * half);
    var index: nat := 0;
    while index < half
      invariant index <= half && index % 8 == 0
      invariant ViewOf(re[..], im[..], offset, 2 * half) == LatePartial(x, w, unit, half, index)
      invariant OutsideSame(re0, im0, re[..], im[..], offset, 2 * half)
    {
      ghost var re1, im1 := re[..], im[..];
      assert index + 8 <= half;
      forall l: nat | l < 8 ensures Complex(Load(turnRe, index)[l], Load(turnIm, index)[l]) == w(unit * (index + l)) {
        assert Complex(turnRe[index + l], turnIm[index + l]) == w(unit * (index + l));
      }
      LateEight(re, im, offset, half, index, Load(turnRe, index), Load(turnIm, index), x, unit, w);
      OutsideChains(re0, im0, re1, im1, re[..], im[..], offset, 2 * half);
      index := index + 8;
    }
  }

  lemma NothingChanged(re: seq<real>, im: seq<real>, offset: nat, count: nat)
    ensures OutsideSame(re, im, re, im, offset, count)
  {
  }

  // ---- Sixteen and thirty-two points ----

  // The first three stages of every eight values of a range.
  method ChunksInPlace(re: array<real>, im: array<real>, offset: nat, count: nat, half: real, ghost w: int -> Complex)
    requires re != im && count % 8 == 0 && offset + count <= re.Length && offset + count <= im.Length
    requires RootsOfUnity(w, ORDER) && w(4) == Complex(half, half)
    modifies re, im
    ensures count % Pow2(3) == 0
    ensures ViewOf(re[..], im[..], offset, count) == Stages(old(ViewOf(re[..], im[..], offset, count)), w, 4, 3)
    ensures OutsideSame(old(re[..]), old(im[..]), re[..], im[..], offset, count)
  {
    hide RootsOfUnity, ViewOf, OutsideSame, Stages;
    Powers();
    ghost var re0, im0 := re[..], im[..];
    ghost var x := ViewOf(re0, im0, offset, count);
    NothingChanged(re0, im0, offset, count);
    NoStages(w);
    assert x[..0] == [] && [] + x[0..] == x;
    var base: nat := 0;
    while base < count
      invariant base <= count && base % 8 == 0 && |x| == count
      invariant ViewOf(re[..], im[..], offset, count) == Stages(x[..base], w, 4, 3) + x[base..]
      invariant OutsideSame(re0, im0, re[..], im[..], offset, count)
    {
      assert base + 8 <= count;
      ghost var re1, im1 := re[..], im[..];
      ChunkInPlace(re, im, offset + base, half, w);
      ViewPatched(re1, im1, re[..], im[..], offset, count, base, 8);
      OutsideChains(re0, im0, re1, im1, re[..], im[..], offset, count);
      ChunkAppends(x, base, w, ViewOf(re1, im1, offset, count), ViewOf(re[..], im[..], offset, count));
      base := base + 8;
    }
    assert x[..count] == x && x[count..] == [];
    assert Stages(x, w, 4, 3) + [] == Stages(x, w, 4, 3);
  }

  lemma NoStages(w: int -> Complex)
    ensures 0 % Pow2(3) == 0 && Stages([], w, 4, 3) == []
  {
    Powers();
    assert |Stages([], w, 4, 3)| == 0;
  }

  lemma ChunkAppends(x: seq<Complex>, base: nat, w: int -> Complex, before: seq<Complex>, after: seq<Complex>)
    requires Pow2(3) == 8 && base % 8 == 0 && base + 8 <= |x| && (base + 8) % 8 == 0
    requires before == Stages(x[..base], w, 4, 3) + x[base..]
    requires after == before[..base] + Stages(before[base..base + 8], w, 4, 3) + before[base + 8..]
    ensures after == Stages(x[..base + 8], w, 4, 3) + x[base + 8..]
  {
    hide Stages;
    StagesSplit(x[..base], x[base..base + 8], w, 4, 3);
    assert x[..base + 8] == x[..base] + x[base..base + 8];
    assert before[base..base + 8] == x[base..base + 8] && before[base + 8..] == x[base + 8..];
    assert before[..base] == Stages(x[..base], w, 4, 3);
  }

  lemma SameIsOutside(re: array<real>, im: array<real>, re0: seq<real>, im0: seq<real>, offset: nat, count: nat)
    requires |re0| == re.Length && |im0| == im.Length
    requires forall i :: 0 <= i < re.Length && !(offset <= i < offset + count) ==> re[i] == re0[i]
    requires forall i :: 0 <= i < im.Length && !(offset <= i < offset + count) ==> im[i] == im0[i]
    ensures OutsideSame(re0, im0, re[..], im[..], offset, count)
  {
  }

  // Two half blocks done one after the other are the whole block.
  lemma HalvesAreStage(x: seq<Complex>, w: int -> Complex, middle: seq<Complex>, after: seq<Complex>)
    requires |x| == 32
    requires middle == Stage(x[0..16], w, 2, 8) + x[16..]
    requires after == middle[..16] + Stage(middle[16..32], w, 2, 8)
    ensures after == Stage(x, w, 2, 8)
  {
    hide Stage;
    assert x == x[0..16] + x[16..] && middle[16..32] == x[16..];
    StageSplits(x[0..16], x[16..], w, 2, 8);
  }

  lemma LastStages(x: seq<Complex>, w: int -> Complex)
    ensures Pow2(3) == 8 && Pow2(4) == 16 && Pow2(5) == 32
    ensures |x| == 16 ==> Stages(x, w, 2, 4) == Stage(Stages(x, w, 4, 3), w, 2, 8)
    ensures |x| == 32 ==> Stages(x, w, 1, 5) == Stage(Stage(Stages(x, w, 4, 3), w, 2, 8), w, 1, 16)
  {
    hide Stage;
    Powers();
    if |x| == 32 {
      assert Stages(x, w, 2, 4) == Stage(Stages(x, w, 4, 3), w, 2, 8);
    }
  }

  // The sixteen-point stage on both halves of thirty-two values.
  method HalvesInPlace(re: array<real>, im: array<real>, offset: nat, turnRe: seq<real>, turnIm: seq<real>, ghost w: int -> Complex)
    requires re != im && offset + 32 <= re.Length && offset + 32 <= im.Length
    requires |turnRe| == |turnIm| == 8 && forall k :: 0 <= k < 8 ==> Complex(turnRe[k], turnIm[k]) == w(2 * k)
    modifies re, im
    ensures ViewOf(re[..], im[..], offset, 32) == Stage(old(ViewOf(re[..], im[..], offset, 32)), w, 2, 8)
    ensures OutsideSame(old(re[..]), old(im[..]), re[..], im[..], offset, 32)
  {
    hide ViewOf, OutsideSame, Stage;
    ghost var re0, im0 := re[..], im[..];
    LateStage(re, im, offset, 8, turnRe, turnIm, 2, w);
    ghost var re1, im1 := re[..], im[..];
    PatchFirst(re0, im0, re1, im1, offset);
    LateStage(re, im, offset + 16, 8, turnRe, turnIm, 2, w);
    PatchSecond(re1, im1, re[..], im[..], offset);
    OutsideChains(re0, im0, re1, im1, re[..], im[..], offset, 32);
    HalvesAreStage(ViewOf(re0, im0, offset, 32), w, ViewOf(re1, im1, offset, 32), ViewOf(re[..], im[..], offset, 32));
  }

  lemma PatchFirst(re: seq<real>, im: seq<real>, re': seq<real>, im': seq<real>, offset: nat)
    requires offset + 32 <= |re| && offset + 32 <= |im| && OutsideSame(re, im, re', im', offset, 16)
    ensures OutsideSame(re, im, re', im', offset, 32) && ViewOf(re, im, offset, 16) == ViewOf(re, im, offset, 32)[0..16]
    ensures ViewOf(re', im', offset, 32) == ViewOf(re', im', offset, 16) + ViewOf(re, im, offset, 32)[16..]
  {
    ViewPatched(re, im, re', im', offset, 32, 0, 16);
    assert ViewOf(re, im, offset, 32)[..0] == [];
  }

  lemma PatchSecond(re: seq<real>, im: seq<real>, re': seq<real>, im': seq<real>, offset: nat)
    requires offset + 32 <= |re| && offset + 32 <= |im| && OutsideSame(re, im, re', im', offset + 16, 16)
    ensures OutsideSame(re, im, re', im', offset, 32) && ViewOf(re, im, offset + 16, 16) == ViewOf(re, im, offset, 32)[16..32]
    ensures ViewOf(re', im', offset, 32) == ViewOf(re, im, offset, 32)[..16] + ViewOf(re', im', offset + 16, 16)
  {
    ViewPatched(re, im, re', im', offset, 32, 16, 16);
    assert ViewOf(re, im, offset, 32)[32..] == [];
  }

  // One transform of sixteen or thirty-two points in place.
  method IfftWide(re: array<real>, im: array<real>, offset: nat, n: nat, t: Twiddles, half: real, ghost w: int -> Complex)
    requires re != im && (n == 4 || n == 5) && offset + Pow2(n) <= re.Length && offset + Pow2(n) <= im.Length
    requires RootsOfUnity(w, ORDER) && TableOf(t, w) && w(4) == Complex(half, half)
    modifies re, im
    ensures IsTransformOf(View(re, im, offset, Pow2(n)), old(View(re, im, offset, Pow2(n))), w)
    ensures SameOutside(re, im, offset, Pow2(n))
  {
    hide RootsOfUnity, ViewOf, OutsideSame, Stage, Stages, IfftTransform.Reordered, IsTransformOf, Transform;
    Powers();
    var count := if n == 4 then 16 else 32;
    ghost var re0, im0 := re[..], im[..];
    ghost var x := View(re, im, offset, count);
    Reorder(re, im, offset, count, n);
    ghost var re1, im1 := re[..], im[..];
    SameIsOutside(re, im, re0, im0, offset, count);
    ChunksInPlace(re, im, offset, count, half, w);
    ghost var re2, im2 := re[..], im[..];
    OutsideChains(re0, im0, re1, im1, re2, im2, offset, count);
    var turnRe, turnIm := seq(8, k requires 0 <= k < 8 => t.re[2 * k]), seq(8, k requires 0 <= k < 8 => t.im[2 * k]);
    LastStages(IfftTransform.Reordered(x, n), w);
    if n == 4 {
      LateStage(re, im, offset, 8, turnRe, turnIm, 2, w);
    } else {
      HalvesInPlace(re, im, offset, turnRe, turnIm, w);
      ghost var re3, im3 := re[..], im[..];
      OutsideChains(re0, im0, re2, im2, re3, im3, offset, count);
      LateStage(re, im, offset, 16, t.re, t.im, 1, w);
      OutsideChains(re0, im0, re3, im3, re[..], im[..], offset, count);
    }
    if n == 4 { OutsideChains(re0, im0, re2, im2, re[..], im[..], offset, count); }
    ArraysOutside(re, im, re0, im0, offset, count);
    StagesTransform(x, w, ORDER / Pow2(n), n);
    TransformIsTransform(x, w, n);
  }

  // ---- Eight points directly ----

  // The transform of every second sample from one of the first two on.
  function Ifft4Stride(x: seq<Complex>, from: nat): (r: seq<Complex>)
    requires |x| == 8 && from < 2
    ensures |r| == 4
  {
    var sum02, diff02 := Add(x[from], x[from + 4]), Sub(x[from], x[from + 4]);
    var sum13, diff13 := Add(x[from + 2], x[from + 6]), Sub(x[from + 2], x[from + 6]);
    [Add(sum02, sum13), Complex(diff02.re - diff13.im, diff02.im + diff13.re),
     Sub(sum02, sum13), Complex(diff02.re + diff13.im, diff02.im - diff13.re)]
  }

  lemma TransformOfTwo(a: Complex, b: Complex, w: int -> Complex, unit: nat)
    requires w(0) == ONE
    ensures Pow2(1) == 2 && Transform([a, b], w, unit, 1) == [Add(a, b), Sub(a, b)]
  {
    hide Add, Sub, Mul;
    Powers();
    MulOne(b);
    assert unit * 0 == 0;
    assert Evens([a, b]) == [a] && Odds([a, b]) == [b];
    assert Transform([a], w, 2 * unit, 0) == [a] && Transform([b], w, 2 * unit, 0) == [b];
  }

  lemma TurnedDifference(a: Complex, b: Complex)
    ensures Add(a, Mul(I, b)) == Complex(a.re - b.im, a.im + b.re)
    ensures Sub(a, Mul(I, b)) == Complex(a.re + b.im, a.im - b.re)
  {
    TimesI(b);
  }

  lemma Ifft4IsTransform(x: seq<Complex>, from: nat, w: int -> Complex)
    requires |x| == 8 && from < 2 && w(0) == ONE && w(8) == I
    ensures Pow2(2) == 4
    ensures Ifft4Stride(x, from) == Transform([x[from], x[from + 2], x[from + 4], x[from + 6]], w, 8, 2)
  {
    hide Add, Sub, Mul;
    Powers();
    var y := [x[from], x[from + 2], x[from + 4], x[from + 6]];
    assert Evens(y) == [x[from], x[from + 4]] && Odds(y) == [x[from + 2], x[from + 6]];
    TransformOfTwo(x[from], x[from + 4], w, 16);
    TransformOfTwo(x[from + 2], x[from + 6], w, 16);
    var sum13, diff13 := Add(x[from + 2], x[from + 6]), Sub(x[from + 2], x[from + 6]);
    MulOne(sum13);
    TurnedDifference(Sub(x[from], x[from + 4]), diff13);
    assert Transform(y, w, 8, 2) == Combine(Transform(Evens(y), w, 16, 1), Transform(Odds(y), w, 16, 1), w, 8);
  }

  // Lanes of the combination: products with the first four eighth roots.
  function Products(odd: seq<Complex>, half: real): (r: seq<Complex>)
    requires |odd| == 4
    ensures |r| == 4
  {
    [Mul(Complex(1.0, 0.0), odd[0]), Mul(Complex(half, half), odd[1]), Mul(Complex(0.0, 1.0), odd[2]), Mul(Complex(-half, half), odd[3])]
  }

  function Ifft8(x: seq<Complex>, half: real): (r: seq<Complex>)
    requires |x| == 8
    ensures |r| == 8
  {
    LegsOf(Ifft4Stride(x, 0), Products(Ifft4Stride(x, 1), half))
  }

  // Sums in the lower half, differences in the upper.
  function LegsOf(even: seq<Complex>, product: seq<Complex>): (r: seq<Complex>)
    requires |even| == |product| == 4
    ensures |r| == 8
  {
    [Add(even[0], product[0]), Add(even[1], product[1]), Add(even[2], product[2]), Add(even[3], product[3]),
     Sub(even[0], product[0]), Sub(even[1], product[1]), Sub(even[2], product[2]), Sub(even[3], product[3])]
  }

  lemma LegsCombine(even: seq<Complex>, odd: seq<Complex>, w: int -> Complex, half: real)
    requires |even| == |odd| == 4 && w(0) == ONE && w(4) == Complex(half, half) && w(8) == I && w(12) == Complex(-half, half)
    ensures LegsOf(even, Products(odd, half)) == Combine(even, odd, w, 4)
  {
    hide Add, Sub, Mul, Products, Combine;
    var product := Products(odd, half);
    forall k: nat | k < 4 ensures product[k] == Mul(w(4 * k), odd[k]) {
      ProductsAt(odd, half, w, k);
    }
    forall k: nat | k < 8 ensures LegsOf(even, product)[k] == Combine(even, odd, w, 4)[k] {
      CombineAt(even, odd, w, 4, k);
      if k < 4 {
        assert LegsOf(even, product)[k] == Add(even[k], product[k]);
      } else {
        assert LegsOf(even, product)[k] == Sub(even[k - 4], product[k - 4]);
      }
    }
  }

  lemma ProductsAt(odd: seq<Complex>, half: real, w: int -> Complex, k: nat)
    requires |odd| == 4 && k < 4 && w(0) == ONE && w(4) == Complex(half, half) && w(8) == I && w(12) == Complex(-half, half)
    ensures Products(odd, half)[k] == Mul(w(4 * k), odd[k])
  {
    hide Mul;
    if k == 0 {} else if k == 1 {} else if k == 2 {} else {}
  }

  lemma EvensAndOdds(x: seq<Complex>)
    requires |x| == 8
    ensures Evens(x) == [x[0], x[2], x[4], x[6]] && Odds(x) == [x[1], x[3], x[5], x[7]]
  {
  }

  lemma Ifft8IsTransform(x: seq<Complex>, w: int -> Complex, half: real)
    requires |x| == 8 && RootsOfUnity(w, ORDER) && w(4) == Complex(half, half)
    ensures Pow2(3) == 8 && Ifft8(x, half) == Transform(x, w, 4, 3)
  {
    hide Add, Sub, Mul, RootsOfUnity, Ifft4Stride, LegsOf, Products, Combine, Evens, Odds;
    Powers();
    EighthRoots(w, half);
    Ifft4IsTransform(x, 0, w);
    Ifft4IsTransform(x, 1, w);
    EvensAndOdds(x);
    var even, odd := Ifft4Stride(x, 0), Ifft4Stride(x, 1);
    assert Transform(x, w, 4, 3) == Combine(even, odd, w, 4);
    LegsCombine(even, odd, w, half);
  }

  // One eight-point transform in place.
  method IfftEight(re: array<real>, im: array<real>, offset: nat, half: real, ghost w: int -> Complex)
    requires re != im && offset + 8 <= re.Length && offset + 8 <= im.Length
    requires RootsOfUnity(w, ORDER) && w(4) == Complex(half, half)
    modifies re, im
    ensures IsTransformOf(View(re, im, offset, 8), old(View(re, im, offset, 8)), w)
    ensures SameOutside(re, im, offset, 8)
  {
    hide RootsOfUnity, ViewOf, OutsideSame, IsTransformOf, Transform, Ifft8, Stored, Joined;
    Powers();
    ghost var re0, im0 := re[..], im[..];
    var x := View(re, im, offset, 8);
    var y := Ifft8(x, half);
    var realLanes, imagLanes := seq(8, l requires 0 <= l < 8 => y[l].re), seq(8, l requires 0 <= l < 8 => y[l].im);
    JoinedParts(y, realLanes, imagLanes);
    StoredLanes(re0, im0, offset, realLanes, imagLanes);
    Store(re, offset, realLanes);
    Store(im, offset, imagLanes);
    ArraysOutside(re, im, re0, im0, offset, 8);
    Ifft8IsTransform(x, w, half);
    TransformIsTransform(x, w, 3);
  }

  lemma JoinedParts(y: seq<Complex>, re: Lanes, im: Lanes)
    requires |y| == 8 && forall l :: 0 <= l < 8 ==> re[l] == y[l].re && im[l] == y[l].im
    ensures Joined(re, im) == y
  {
  }

  // ---- Batches ----

  // One transform of a batch; sizes without a vector form are the generic backend's.
  method IfftOneVector(re: array<real>, im: array<real>, offset: nat, size: nat, t: Twiddles, half: real, ghost w: int -> Complex)
    requires re != im && Fits(re, im, offset, size) && (size == 8 || size == 16 || size == 32)
    requires RootsOfUnity(w, ORDER) && TableOf(t, w) && w(4) == Complex(half, half)
    modifies re, im
    ensures Transformed(re, im, offset, size, w) && SameOutside(re, im, offset, size)
  {
    hide RootsOfUnity, TableOf, ViewOf, IsTransformOf;
    Powers();
    if size == 8 {
      IfftEight(re, im, offset, half, w);
    } else if size == 16 {
      IfftWide(re, im, offset, 4, t, half, w);
    } else {
      IfftWide(re, im, offset, 5, t, half, w);
    }
  }

  // The vector backend meets the contract of the generic one.
  method IfftVector(re: array<real>, im: array<real>, size: nat, transformCount: nat, stride: nat, t: Twiddles, half: real, ghost w: int -> Complex)
    requires re != im && RootsOfUnity(w, ORDER) && TableOf(t, w) && w(4) == Complex(half, half)
    requires stride >= size && forall k: nat :: k < transformCount ==> Fits(re, im, Start(k, stride), size)
    modifies re, im
    ensures forall k: nat :: k < transformCount ==> Start(k, stride) == k * stride && Transformed(re, im, Start(k, stride), size, w)
    ensures Supported(size) <==> size == 4 || size == 8 || size == 16 || size == 32
    ensures forall i :: 0 <= i < re.Length && !InBatch(i, size, transformCount, stride) ==> re[i] == old(re[i])
    ensures forall i :: 0 <= i < im.Length && !InBatch(i, size, transformCount, stride) ==> im[i] == old(im[i])
  {
    hide RootsOfUnity, TableOf, ViewOf, IsTransformOf, Start;
    StartIs(stride);
    if size != 8 && size != 16 && size != 32 {
      IfftGeneric(re, im, size, transformCount, stride, t, w);
      return;
    }
    for transform := 0 to transformCount
      invariant forall k: nat :: k < transform ==> Transformed(re, im, Start(k, stride), size, w)
      invariant forall k: nat :: transform <= k < transformCount ==> Untouched(re, im, Start(k, stride), size)
      invariant forall i :: 0 <= i < re.Length && !InBatch(i, size, transformCount, stride) ==> re[i] == old(re[i])
      invariant forall i :: 0 <= i < im.Length && !InBatch(i, size, transformCount, stride) ==> im[i] == old(im[i])
    {
      ghost var re0, im0 := re[..], im[..];
      IfftOneVector(re, im, Start(transform, stride), size, t, half, w);
      forall k: nat | k < transformCount && k != transform
        ensures Fits(re, im, Start(k, stride), size) && View(re, im, Start(k, stride), size) == ViewOf(re0, im0, Start(k, stride), size)
      {
        assert Fits(re, im, Start(k, stride), size);
        if k < transform { StartsApart(k, transform, size, stride); } else { StartsApart(transform, k, size, stride); }
        ViewApart(re, im, re0, im0, Start(transform, stride), Start(k, stride), size);
      }
    }
  }
}
