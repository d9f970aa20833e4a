// The 512-bit accumulation of the exact layout: eight hops at a time as four pairs of
// hops, with unrolled row loops over windows visited from the newest backwards.
module PfbWide {
  import opened Bits
  import opened ComplexNumbers
  import opened IfftTransform
  import opened PfbRing
  import opened PfbD4x4

  // Sixteen lanes: one window of two hops.
  type Pair = p: seq<real> | |p| == 16 witness seq(16, _ => 0.0)
  type MultiplyAdd = (Window, Window, Window) -> Window

  function NoPair(): Pair { seq(16, _ => 0.0) }

  function Low(p: Pair): Window { p[..8] }

  function High(p: Pair): Window { p[8..] }

  function Duplicated(c: Window): Pair { c + c }

  // A 512-bit multiply-add treats its halves separately; `fma` is any 256-bit one, rounding
  // included.
  function WideFma(fma: MultiplyAdd, a: Pair, b: Pair, c: Pair): Pair
  {
    fma(Low(a), Low(b), Low(c)) + fma(High(a), High(b), High(c))
  }

  lemma HalvesOfFma(fma: MultiplyAdd, a: Pair, c: Window, sum: Pair)
    ensures Low(WideFma(fma, a, Duplicated(c), sum)) == fma(Low(a), c, Low(sum))
    ensures High(WideFma(fma, a, Duplicated(c), sum)) == fma(High(a), c, High(sum))
  {
    assert Low(Duplicated(c)) == c && High(Duplicated(c)) == c;
  }

  function LoadPair(history: seq<real>, at: int): Pair
    requires 0 <= at && at + 16 <= |history|
  {
    history[at..at + 16]
  }

  // Every window of every pair lies in the buffer: the newest belongs to hops 5 and 7, the
  // oldest to the last row of hops 0 and 2.
  predicate Reaches(history: seq<real>, origin: int, rows: nat)
  {
    0 <= origin + 8 - 8 * rows && origin + 4 * 5 + 16 <= |history|
  }

  // Row r of the pair whose first hop is `first`, rows accumulated in ascending order.
  function PairRows(fma: MultiplyAdd, history: seq<real>, coefficients: seq<real>, origin: int, first: nat, rows: nat): Pair
    requires rows * 8 <= |coefficients| && Reaches(history, origin, rows) && first <= 5
  {
    if rows == 0 then NoPair()
    else
      WideFma(fma, LoadPair(history, origin + 4 * first - 8 * (rows - 1)), Duplicated(Row(coefficients, rows - 1)),
              PairRows(fma, history, coefficients, origin, first, rows - 1))
  }

  lemma PairOfNoRows(fma: MultiplyAdd, history: seq<real>, coefficients: seq<real>, origin: int, first: nat)
    requires Reaches(history, origin, 0) && first <= 5
    ensures PairRows(fma, history, coefficients, origin, first, 0) == NoPair()
  {
  }

  lemma PairStep(fma: MultiplyAdd, history: seq<real>, coefficients: seq<real>, origin: int, first: nat, row: nat)
    requires (row + 1) * 8 <= |coefficients| && Reaches(history, origin, row + 1) && first <= 5
    ensures PairRows(fma, history, coefficients, origin, first, row + 1) ==
            WideFma(fma, LoadPair(history, origin + 4 * first - 8 * row), Duplicated(Row(coefficients, row)),
                    PairRows(fma, history, coefficients, origin, first, row))
  {
  }

  // The four accumulators after some rows.
  ghost predicate RowsDone(fma: MultiplyAdd, history: seq<real>, coefficients: seq<real>, origin: int, rows: nat, p0: Pair, p1: Pair, p2: Pair, p3: Pair)
    requires rows * 8 <= |coefficients| && Reaches(history, origin, rows)
  {
    && p0 == PairRows(fma, history, coefficients, origin, 0, rows)
    && p1 == PairRows(fma, history, coefficients, origin, 1, rows)
    && p2 == PairRows(fma, history, coefficients, origin, 4, rows)
    && p3 == PairRows(fma, history, coefficients, origin, 5, rows)
  }

  // Which tails a row count leaves, and which of them a fixed row count compiles.
  predicate RunsTwos(fixedRows: nat) { fixedRows == 0 || fixedRows % 4 >= 2 }

  predicate RunsOnes(fixedRows: nat) { fixedRows == 0 || fixedRows % 2 != 0 }

  lemma NoTwosLeft(fixedRows: nat, rows: nat, quads: nat)
    requires 4 * quads <= rows < 4 * quads + 4 && (fixedRows == 0 || fixedRows == rows) && !RunsTwos(fixedRows)
    ensures rows < 4 * quads + 2
  {
    DivUnique(rows, 4, quads, rows - 4 * quads);
  }

  lemma NoOnesLeft(fixedRows: nat, rows: nat, twos: nat)
    requires 2 * twos <= rows < 2 * twos + 2 && (fixedRows == 0 || fixedRows == rows) && !RunsOnes(fixedRows)
    ensures rows == 2 * twos
  {
    DivUnique(rows, 2, twos, rows - 2 * twos);
  }

  // Four pairs of hops with the row loops unrolled by four and two. The unrolled loops can
  // be left out at compile time when the row count is fixed and needs no tail.
  method AccumulateEight(fma: MultiplyAdd, history: seq<real>, coefficients: seq<real>, fixedRows: nat, rows: nat, origin: int)
    returns (p0: Pair, p1: Pair, p2: Pair, p3: Pair)
    requires fixedRows == 0 || fixedRows == rows
    requires rows * 8 <= |coefficients| && Reaches(history, origin, rows)
    ensures RowsDone(fma, history, coefficients, origin, rows, p0, p1, p2, p3)
  {
    hide RowsDone, RunsTwos, RunsOnes;
    NoRowsYet(fma, history, coefficients, origin);
    p0, p1, p2, p3 := NoPair(), NoPair(), NoPair(), NoPair();
    var window, row: nat := origin, 0;
    ghost var steps: nat := 0;
    while row + 4 <= rows
      invariant row <= rows && row == 4 * steps && window == origin - 8 * row
      invariant RowsDone(fma, history, coefficients, origin, row, p0, p1, p2, p3)
    {
      p0, p1, p2, p3 := FourRows(fma, history, coefficients, window, origin, row, p0, p1, p2, p3);
      row, window, steps := row + 4, window - 32, steps + 1;
    }
    if !RunsTwos(fixedRows) { NoTwosLeft(fixedRows, rows, steps); }
    steps := 2 * steps;
    if RunsTwos(fixedRows) {
      while row + 2 <= rows
        invariant row <= rows && row == 2 * steps && window == origin - 8 * row
        invariant RowsDone(fma, history, coefficients, origin, row, p0, p1, p2, p3)
      {
        p0, p1, p2, p3 := TwoRows(fma, history, coefficients, window, origin, row, p0, p1, p2, p3);
        row, window, steps := row + 2, window - 16, steps + 1;
      }
    }
    if !RunsOnes(fixedRows) { NoOnesLeft(fixedRows, rows, steps); }
    if RunsOnes(fixedRows) {
      while row < rows
        invariant row <= rows && window == origin - 8 * row
        invariant RowsDone(fma, history, coefficients, origin, row, p0, p1, p2, p3)
      {
        p0, p1, p2, p3 := OneRow(fma, history, coefficients, window, origin, row, p0, p1, p2, p3);
        row, window := row + 1, window - 8;
      }
    }
  }

  lemma NoRowsYet(fma: MultiplyAdd, history: seq<real>, coefficients: seq<real>, origin: int)
    requires Reaches(history, origin, 0)
    ensures RowsDone(fma, history, coefficients, origin, 0, NoPair(), NoPair(), NoPair(), NoPair())
  {
  }

  lemma StepAll(fma: MultiplyAdd, history: seq<real>, coefficients: seq<real>, origin: int, row: nat)
    requires (row + 1) * 8 <= |coefficients| && Reaches(history, origin, row + 1)
    ensures
      var c := Duplicated(Row(coefficients, row));
      && PairRows(fma, history, coefficients, origin, 0, row + 1) ==
           WideFma(fma, LoadPair(history, origin + 4 * 0 - 8 * row), c, PairRows(fma, history, coefficients, origin, 0, row))
      && PairRows(fma, history, coefficients, origin, 1, row + 1) ==
           WideFma(fma, LoadPair(history, origin + 4 * 1 - 8 * row), c, PairRows(fma, history, coefficients, origin, 1, row))
      && PairRows(fma, history, coefficients, origin, 4, row + 1) ==
           WideFma(fma, LoadPair(history, origin + 4 * 4 - 8 * row), c, PairRows(fma, history, coefficients, origin, 4, row))
      && PairRows(fma, history, coefficients, origin, 5, row + 1) ==
           WideFma(fma, LoadPair(history, origin + 4 * 5 - 8 * row), c, PairRows(fma, history, coefficients, origin, 5, row))
  {
    hide WideFma, LoadPair, Duplicated, Row, PairRows;
    PairStep(fma, history, coefficients, origin, 0, row);
    PairStep(fma, history, coefficients, origin, 1, row);
    PairStep(fma, history, coefficients, origin, 4, row);
    PairStep(fma, history, coefficients, origin, 5, row);
  }

  // Four rows of every pair; each window is loaded once and feeds up to two pairs.
  method FourRows(fma: MultiplyAdd, history: seq<real>, coefficients: seq<real>, window: int, ghost origin: int, row: nat,
                  a0: Pair, a1: Pair, a2: Pair, a3: Pair)
    returns (p0: Pair, p1: Pair, p2: Pair, p3: Pair)
    requires (row + 4) * 8 <= |coefficients| && Reaches(history, origin, row + 4) && window == origin - 8 * row
    requires RowsDone(fma, history, coefficients, origin, row, a0, a1, a2, a3)
    ensures RowsDone(fma, history, coefficients, origin, row + 4, p0, p1, p2, p3)
  {
    hide WideFma, LoadPair, Duplicated, Row, PairRows;
    StepAll(fma, history, coefficients, origin, row);
    StepAll(fma, history, coefficients, origin, row + 1);
    StepAll(fma, history, coefficients, origin, row + 2);
    StepAll(fma, history, coefficients, origin, row + 3);
    var c0, c1 := Duplicated(Row(coefficients, row)), Duplicated(Row(coefficients, row + 1));
    var c2, c3 := Duplicated(Row(coefficients, row + 2)), Duplicated(Row(coefficients, row + 3));
    var samples := LoadPair(history, window + 4 * 5);
    p3 := WideFma(fma, samples, c0, a3);
    samples := LoadPair(history, window + 4 * 4);
    p2 := WideFma(fma, samples, c0, a2);
    samples := LoadPair(history, window + 4 * 3);
    p3 := WideFma(fma, samples, c1, p3);
    samples := LoadPair(history, window + 4 * 2);
    p2 := WideFma(fma, samples, c1, p2);
    samples := LoadPair(history, window + 4 * 1);
    p1 := WideFma(fma, samples, c0, a1);
    p3 := WideFma(fma, samples, c2, p3);
    samples := LoadPair(history, window + 4 * 0);
    p0 := WideFma(fma, samples, c0, a0);
    p2 := WideFma(fma, samples, c2, p2);
    samples := LoadPair(history, window - 4 * 1);
    p1 := WideFma(fma, samples, c1, p1);
    p3 := WideFma(fma, samples, c3, p3);
    samples := LoadPair(history, window - 4 * 2);
    p0 := WideFma(fma, samples, c1, p0);
    p2 := WideFma(fma, samples, c3, p2);
    samples := LoadPair(history, window - 4 * 3);
    p1 := WideFma(fma, samples, c2, p1);
    samples := LoadPair(history, window - 4 * 4);
    p0 := WideFma(fma, samples, c2, p0);
    samples := LoadPair(history, window - 4 * 5);
    p1 := WideFma(fma, samples, c3, p1);
    samples := LoadPair(history, window - 4 * 6);
    p0 := WideFma(fma, samples, c3, p0);
  }

  method TwoRows(fma: MultiplyAdd, history: seq<real>, coefficients: seq<real>, window: int, ghost origin: int, row: nat,
                 a0: Pair, a1: Pair, a2: Pair, a3: Pair)
    returns (p0: Pair, p1: Pair, p2: Pair, p3: Pair)
    requires (row + 2) * 8 <= |coefficients| && Reaches(history, origin, row + 2) && window == origin - 8 * row
    requires RowsDone(fma, history, coefficients, origin, row, a0, a1, a2, a3)
    ensures RowsDone(fma, history, coefficients, origin, row + 2, p0, p1, p2, p3)
  {
    hide WideFma, LoadPair, Duplicated, Row, PairRows;
    StepAll(fma, history, coefficients, origin, row);
    StepAll(fma, history, coefficients, origin, row + 1);
    var c0, c1 := Duplicated(Row(coefficients, row)), Duplicated(Row(coefficients, row + 1));
    var samples := LoadPair(history, window + 4 * 5);
    p3 := WideFma(fma, samples, c0, a3);
    samples := LoadPair(history, window + 4 * 4);
    p2 := WideFma(fma, samples, c0, a2);
    samples := LoadPair(history, window + 4 * 3);
    p3 := WideFma(fma, samples, c1, p3);
    samples := LoadPair(history, window + 4 * 2);
    p2 := WideFma(fma, samples, c1, p2);
    samples := LoadPair(history, window + 4 * 1);
    p1 := WideFma(fma, samples, c0, a1);
    samples := LoadPair(history, window + 4 * 0);
    p0 := WideFma(fma, samples, c0, a0);
    samples := LoadPair(history, window - 4 * 1);
    p1 := WideFma(fma, samples, c1, p1);
    samples := LoadPair(history, window - 4 * 2);
    p0 := WideFma(fma, samples, c1, p0);
  }

  method OneRow(fma: MultiplyAdd, history: seq<real>, coefficients: seq<real>, window: int, ghost origin: int, row: nat,
                a0: Pair, a1: Pair, a2: Pair, a3: Pair)
    returns (p0: Pair, p1: Pair, p2: Pair, p3: Pair)
    requires (row + 1) * 8 <= |coefficients| && Reaches(history, origin, row + 1) && window == origin - 8 * row
    requires RowsDone(fma, history, coefficients, origin, row, a0, a1, a2, a3)
    ensures RowsDone(fma, history, coefficients, origin, row + 1, p0, p1, p2, p3)
  {
    hide WideFma, LoadPair, Duplicated, Row, PairRows;
    StepAll(fma, history, coefficients, origin, row);
    var c0 := Duplicated(Row(coefficients, row));
    var samples := LoadPair(history, window + 4 * 5);
    p3 := WideFma(fma, samples, c0, a3);
    samples := LoadPair(history, window + 4 * 4);
    p2 := WideFma(fma, samples, c0, a2);
    samples := LoadPair(history, window + 4 * 1);
    p1 := WideFma(fma, samples, c0, a1);
    samples := LoadPair(history, window + 4 * 0);
    p0 := WideFma(fma, samples, c0, a0);
  }

  // ---- Which windows these are ----

  // First lane of row 0 of hop 0; the lower copy of the ring serves a batch whose last hop
  // would run past the upper one.
  function Origin(batchCursor: nat, size: nat): int
  {
    if batchCursor + 7 * 4 + 1 > size then batchCursor - 7 else batchCursor + size - 7
  }

  lemma BatchReaches(history: seq<real>, batchCursor: nat, size: nat, rows: nat)
    requires |history| == 2 * size && batchCursor < size && rows * 8 + 28 <= size
    ensures Reaches(history, Origin(batchCursor, size), rows)
  {
  }

  // Wherever the origin lies, a window shows hop `hop`'s row.
  lemma WindowOfHop(history: seq<real>, batchCursor: nat, size: nat, rows: nat, hop: nat, row: nat)
    requires Mirrored(history, size) && batchCursor < size && rows * 8 + 28 <= size && hop < 8 && row < rows
    ensures
      var at := Origin(batchCursor, size) + 4 * hop - 8 * row;
      && (batchCursor + 4 * hop) % size < size && 0 <= at && at + 8 <= |history|
      && history[at..at + 8] == Load(history, RowAddress((batchCursor + 4 * hop) % size, size, row))
  {
    var shifted := batchCursor + 4 * hop;
    if shifted < size {
      DivUnique(shifted, size, 0, shifted);
    } else {
      DivUnique(shifted, size, 1, shifted - size);
    }
    var at, address := Origin(batchCursor, size) + 4 * hop - 8 * row, RowAddress(shifted % size, size, row);
    if at != address {
      assert address == at + size;
      forall p | at <= p < at + 8 ensures history[p] == history[p + size] {}
    }
    assert history[at..at + 8] == history[address..address + 8];
  }

  // Each half of a pair accumulates one hop exactly as the row-by-row loop does.
  lemma {:induction false} HalvesAreHops(fma: MultiplyAdd, history: seq<real>, coefficients: seq<real>, batchCursor: nat, size: nat,
                                         first: nat, rows: nat, done: nat)
    requires Mirrored(history, size) && batchCursor < size && rows * 8 + 28 <= size && rows * 8 <= |coefficients|
    requires first <= 5 && done <= rows
    ensures (batchCursor + 4 * first) % size < size && (batchCursor + 4 * (first + 2)) % size < size
    ensures Reaches(history, Origin(batchCursor, size), done)
    ensures
      var pair := PairRows(fma, history, coefficients, Origin(batchCursor, size), first, done);
      && Low(pair) == RowByRow(fma, history, coefficients, (batchCursor + 4 * first) % size, size, done)
      && High(pair) == RowByRow(fma, history, coefficients, (batchCursor + 4 * (first + 2)) % size, size, done)
  {
    hide WideFma, Duplicated, Row, Mirrored, Load, RowAddress, PairRows, RowByRow;
    MirroredLength(history, size);
    BatchReaches(history, batchCursor, size, done);
    DivMod(batchCursor + 4 * first, size);
    DivMod(batchCursor + 4 * (first + 2), size);
    var origin := Origin(batchCursor, size);
    var near, far := (batchCursor + 4 * first) % size, (batchCursor + 4 * (first + 2)) % size;
    if done == 0 {
      assert PairRows(fma, history, coefficients, origin, first, 0) == NoPair() by { PairOfNoRows(fma, history, coefficients, origin, first); }
      NoRows(fma, history, coefficients, near, size);
      NoRows(fma, history, coefficients, far, size);
      assert Low(NoPair()) == seq(8, _ => 0.0) && High(NoPair()) == seq(8, _ => 0.0);
    } else {
      var row := done - 1;
      HalvesAreHops(fma, history, coefficients, batchCursor, size, first, rows, row);
      WindowOfHop(history, batchCursor, size, rows, first, row);
      WindowOfHop(history, batchCursor, size, rows, first + 2, row);
      var at := origin + 4 * first - 8 * row;
      assert Low(LoadPair(history, at)) == history[at..at + 8];
      assert High(LoadPair(history, at)) == history[at + 8..at + 16];
      PairStep(fma, history, coefficients, origin, first, row);
      InRingOnce(near, size, row);
      InRingOnce(far, size, row);
      RowStep(fma, history, coefficients, near, size, row);
      RowStep(fma, history, coefficients, far, size, row);
      HalvesOfFma(fma, LoadPair(history, at), Row(coefficients, row), PairRows(fma, history, coefficients, origin, first, row));
    }
  }

  // Eight hops from one batch cursor, regrouped in hop order: each is the row-by-row
  // accumulation of its own cursor.
  method BatchOfEight(fma: MultiplyAdd, history: seq<real>, coefficients: seq<real>, fixedRows: nat, rows: nat, batchCursor: nat, size: nat)
    returns (hops: seq<Window>)
    requires fixedRows == 0 || fixedRows == rows
    requires Mirrored(history, size) && batchCursor < size && rows * 8 + 28 <= size && rows * 8 <= |coefficients|
    ensures |hops| == 8
    ensures forall k: nat :: k < 8 ==>
      (batchCursor + 4 * k) % size < size && hops[k] == RowByRow(fma, history, coefficients, (batchCursor + 4 * k) % size, size, rows)
  {
    hide PairRows, Mirrored, RowByRow, Low, High;
    MirroredLength(history, size);
    BatchReaches(history, batchCursor, size, rows);
    var origin := batchCursor + size - 7;
    if batchCursor + 7 * 4 + 1 > size {
      origin := origin - size;
    }
    var p0, p1, p2, p3 := AccumulateEight(fma, history, coefficients, fixedRows, rows, origin);
    HalvesAreHops(fma, history, coefficients, batchCursor, size, 0, rows, rows);
    HalvesAreHops(fma, history, coefficients, batchCursor, size, 1, rows, rows);
    HalvesAreHops(fma, history, coefficients, batchCursor, size, 4, rows, rows);
    HalvesAreHops(fma, history, coefficients, batchCursor, size, 5, rows, rows);
    hops := [Low(p0), Low(p1), High(p0), High(p1), Low(p2), Low(p3), High(p2), High(p3)];
  }

  // The lanes of a row hold the samples the filter names, newest last.
  lemma RowHoldsSamples(re: seq<real>, im: seq<real>, size: nat, stream: seq<Complex>, time: nat, row: nat, l: nat)
    requires RingHolds(re, im, size, stream) && time < |stream| && |stream| - size <= time - row * 8 - 7 && l < 8
    requires (row + 1) * 8 <= size
    ensures
      var at := RowAddress(time % size, size, row);
      && 0 <= at && at + 8 <= 2 * size
      && Complex(Load(re, at)[l], Load(im, at)[l]) == At(stream, time - row * 8 - 7 + l)
  {
    hide Newest;
    DivMod(time, size);
    var at, turns: int := RowAddress(time % size, size, row), 1 - time / size;
    assert turns * size == size - size * (time / size);
    ReadSlot(re, im, size, stream, at + l, time - row * 8 - 7 + l, turns);
  }
}
