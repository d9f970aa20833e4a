// The mirrored history ring: which sample every slot of the doubled buffer holds.
module PfbRing {
  import opened Bits
  import opened ComplexNumbers
  import opened IfftTransform

  // Newest of the first n sample times that lands in slot p of a ring of the given size.
  function Newest(n: int, size: nat, p: int): int
    requires size > 0
  {
    n - 1 - (n - 1 - p) % size
  }

  // Both copies of the ring hold the newest samples of the stream, zero before its start.
  ghost predicate RingHolds(re: seq<real>, im: seq<real>, size: nat, stream: seq<Complex>)
  {
    && size > 0 && |re| == 2 * size && |im| == 2 * size
    && forall p :: 0 <= p < 2 * size ==> Complex(re[p], im[p]) == At(stream, Newest(|stream|, size, p))
  }

  // A slot read no later than one ring length behind holds the sample it names.
  lemma ReadSlot(re: seq<real>, im: seq<real>, size: nat, stream: seq<Complex>, p: nat, i: int, turns: int)
    requires RingHolds(re, im, size, stream) && p < 2 * size
    requires p == i + turns * size && |stream| - size <= i < |stream|
    ensures Complex(re[p], im[p]) == At(stream, i)
  {
    var a := |stream| - 1 - i;
    assert |stream| - 1 - p == size * -turns + a by { assert size * -turns == -(turns * size); }
    DivUnique(|stream| - 1 - p, size, -turns, a);
  }

  // Writing the next sample into its slot and the mirror of that slot.
  lemma WriteSlot(re: seq<real>, im: seq<real>, size: nat, stream: seq<Complex>, v: Complex)
    requires RingHolds(re, im, size, stream)
    ensures
      var p := |stream| % size;
      p < size && RingHolds(re[p := v.re][p + size := v.re], im[p := v.im][p + size := v.im], size, stream + [v])
  {
    hide Newest;
    var n := |stream|;
    var p := n % size;
    DivMod(n, size);
    forall q | 0 <= q < 2 * size
      ensures (q == p || q == p + size) ==> Newest(n + 1, size, q) == n
      ensures q != p && q != p + size ==> Newest(n + 1, size, q) == Newest(n, size, q) < n
    {
      NextNewest(n, size, p, q);
    }
  }

  lemma NextNewest(n: nat, size: nat, p: nat, q: nat)
    requires size > 0 && p == n % size && q < 2 * size
    ensures (q == p || q == p + size) ==> Newest(n + 1, size, q) == n
    ensures q != p && q != p + size ==> Newest(n + 1, size, q) == Newest(n, size, q)
    ensures Newest(n, size, q) < n
  {
    DivMod(n, size);
    var turns := n / size;
    var a := (n - q) % size;
    var d := (n - q) / size;
    assert n - q == size * d + a && 0 <= a < size;
    if a == 0 {
      SameSlot(n, size, p, q, turns, d);
    } else {
      assert n - 1 - q == size * d + (a - 1);
      DivUnique(n - 1 - q, size, d, a - 1);
    }
    if q == p {
      DivUnique(n - q, size, turns, 0);
    } else if q == p + size {
      assert n - q == size * (turns - 1) + 0;
      DivUnique(n - q, size, turns - 1, 0);
    }
  }

  // Only the slot of time n and its mirror are a whole number of turns away from n.
  lemma SameSlot(n: nat, size: nat, p: nat, q: nat, turns: int, d: int)
    requires size > 0 && n == size * turns + p && p < size && q < 2 * size && n - q == size * d
    ensures q == p || q == p + size
  {
    var k := turns - d;
    assert q - p == size * k by { assert size * k == size * turns - size * d; }
    if k <= -1 {
      if k < -1 { MulStrict(size, k, -1); }
      assert false;
    }
    if k >= 2 {
      if k > 2 { MulStrict(size, 2, k); }
      assert false;
    }
  }

  // A fresh ring of zeros belongs to the empty stream.
  lemma EmptyRing(re: seq<real>, im: seq<real>, size: nat)
    requires size > 0 && |re| == 2 * size && |im| == 2 * size
    requires forall p :: 0 <= p < 2 * size ==> re[p] == 0.0 && im[p] == 0.0
    ensures RingHolds(re, im, size, [])
  {
    forall p | 0 <= p < 2 * size ensures Newest(0, size, p) < 0 {
      assert (-1 - p) % size >= 0;
    }
  }

  // Two rings of the same stream are the same.
  lemma RingIsDetermined(re: seq<real>, im: seq<real>, re': seq<real>, im': seq<real>, size: nat, stream: seq<Complex>)
    requires RingHolds(re, im, size, stream) && RingHolds(re', im', size, stream)
    ensures re == re' && im == im'
  {
    forall p | 0 <= p < 2 * size ensures re[p] == re'[p] && im[p] == im'[p] {
      assert Complex(re[p], im[p]) == Complex(re'[p], im'[p]);
    }
  }

  // The two halves of the ring are equal.
  lemma HalvesAgree(re: seq<real>, im: seq<real>, size: nat, stream: seq<Complex>, p: nat)
    requires RingHolds(re, im, size, stream) && p < size
    ensures re[p] == re[p + size] && im[p] == im[p + size]
  {
    var n := |stream|;
    var d, a := (n - 1 - p) / size, (n - 1 - p) % size;
    assert n - 1 - (p + size) == size * (d - 1) + a;
    DivUnique(n - 1 - (p + size), size, d - 1, a);
    assert Complex(re[p], im[p]) == Complex(re[p + size], im[p + size]);
  }

  // The newest time of a slot is the only one within a ring length that lands there.
  lemma NewestTurns(n: int, size: nat, p: int) returns (turns: int)
    requires size > 0
    ensures n - size <= Newest(n, size, p) < n && p == Newest(n, size, p) + turns * size
  {
    var a := n - 1 - p;
    turns := -(a / size);
    assert a == size * (a / size) + a % size;
    assert turns * size == -(size * (a / size));
  }

  lemma NewestIs(n: int, size: nat, p: int, i: int, turns: int)
    requires size > 0 && n - size <= i < n && p == i + turns * size
    ensures Newest(n, size, p) == i
  {
    assert n - 1 - p == size * -turns + (n - 1 - i) by { assert size * -turns == -(turns * size); }
    DivUnique(n - 1 - p, size, -turns, n - 1 - i);
  }
}
