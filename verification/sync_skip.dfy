// Coasting over samples without producing symbols.
module SyncSkip {
  import opened ComplexNumbers
  import opened IfftTransform
  import opened SyncLoop
  import opened SyncStream

  function Ceiling(x: real): int { -((-x).Floor) }

  // Symbols of the coasting grid before the end of the skipped samples.
  function Coasted(time: real, omega: real, end: real): (k: nat)
    requires omega >= 1.0
  {
    if time < end then CeilingIsNat((end - time) / omega) else 0
  }

  function CeilingIsNat(x: real): nat { if x > 0.0 then Ceiling(x) else 0 }

  function Periods(k: real, omega: real): real { k * omega }

  function OnGrid(time: real, omega: real, k: int): real { time + Periods(k as real, omega) }

  // A lane after coasting over `count` samples.
  function SkipLane(s: LaneState, count: nat, earliest: real): LaneState
    requires s.omega >= 1.0
  {
    var end := count as real;
    var k := Coasted(s.time, s.omega, end);
    s.(time := Max(OnGrid(s.time, s.omega, k) - end, earliest), symbols := s.symbols + k, havePrevious := false)
  }

  // ---- The grid ----

  lemma QuotientIsPositive(x: real, omega: real)
    requires omega >= 1.0 && x > 0.0
    ensures x / omega > 0.0 && Periods(x / omega, omega) == x
  {
  }

  lemma PeriodsGrow(k: real, q: real, omega: real)
    requires omega >= 1.0
    ensures k < q <==> Periods(k, omega) < Periods(q, omega)
  {
    if k < q {
      assert (q - k) * omega > 0.0;
    } else {
      assert (k - q) * omega >= 0.0;
    }
  }

  lemma PeriodsAdd(a: real, b: real, omega: real)
    ensures Periods(a + b, omega) == Periods(a, omega) + Periods(b, omega)
  {
  }

  // The coasted time is the first point of the lane's grid at or after the end.
  lemma FirstAtOrAfter(time: real, omega: real, end: real)
    requires omega >= 1.0
    ensures OnGrid(time, omega, Coasted(time, omega, end)) >= end
    ensures Coasted(time, omega, end) > 0 ==> OnGrid(time, omega, Coasted(time, omega, end) - 1) < end
  {
    hide Periods;
    if time < end {
      var q := (end - time) / omega;
      var k: int := Coasted(time, omega, end);
      QuotientIsPositive(end - time, omega);
      assert k as real >= q && (k - 1) as real < q;
      PeriodsGrow(k as real, q, omega);
      PeriodsGrow((k - 1) as real, q, omega);
    } else {
      NoPeriods(omega);
    }
  }

  lemma NoPeriods(omega: real)
    ensures Periods(0.0, omega) == 0.0
  {
  }

  // And the only one.
  lemma OnlyFirst(time: real, omega: real, end: real, k: nat)
    requires omega >= 1.0 && OnGrid(time, omega, k) >= end && (k > 0 ==> OnGrid(time, omega, k - 1) < end)
    ensures k == Coasted(time, omega, end)
  {
    hide Periods, Coasted;
    FirstAtOrAfter(time, omega, end);
    var c: int, n: int := Coasted(time, omega, end), k;
    if n < c {
      PeriodsGrow((c - 1) as real, n as real, omega);
    } else if c < n {
      PeriodsGrow((n - 1) as real, c as real, omega);
    }
  }

  lemma GridMoves(time: real, omega: real, a: int, b: int, shift: real)
    ensures OnGrid(OnGrid(time, omega, a) - shift, omega, b) == OnGrid(time, omega, a + b) - shift
  {
    hide Periods;
    PeriodsAdd(a as real, b as real, omega);
    assert (a + b) as real == a as real + b as real;
  }

  // Coasting twice passes the grid points coasting once passes.
  lemma CoastInTwo(time: real, omega: real, a: real, b: real)
    requires omega >= 1.0 && 0.0 <= b
    ensures
      var k := Coasted(time, omega, a);
      Coasted(time, omega, a + b) == k + Coasted(OnGrid(time, omega, k) - a, omega, b)
  {
    hide Coasted, OnGrid;
    var k := Coasted(time, omega, a);
    var l: int := Coasted(OnGrid(time, omega, k) - a, omega, b);
    FirstAtOrAfter(time, omega, a);
    FirstAtOrAfter(OnGrid(time, omega, k) - a, omega, b);
    GridMoves(time, omega, k, l, a);
    GridMoves(time, omega, k, l - 1, a);
    OnlyFirst(time, omega, a + b, k + l);
  }

  // After a skip the next symbol never lies before the end, so the earliest time plays no part.
  lemma SkipEndsInside(s: LaneState, count: nat, earliest: real)
    requires s.omega >= 1.0 && earliest <= 0.0
    ensures SkipLane(s, count, earliest).time == OnGrid(s.time, s.omega, Coasted(s.time, s.omega, count as real)) - count as real >= 0.0
  {
    hide Coasted, OnGrid;
    FirstAtOrAfter(s.time, s.omega, count as real);
  }

  // Main result: skipping twice is skipping the whole, in grid time, symbol count and history.
  lemma SkipsCompose(s: LaneState, a: nat, b: nat, earliest: real)
    requires s.omega >= 1.0 && earliest <= 0.0
    ensures SkipLane(SkipLane(s, a, earliest), b, earliest) == SkipLane(s, a + b, earliest)
  {
    hide Coasted, OnGrid;
    var first := SkipLane(s, a, earliest);
    SkipEndsInside(s, a, earliest);
    SkipEndsInside(first, b, earliest);
    SkipEndsInside(s, a + b, earliest);
    assert (a + b) as real == a as real + b as real;
    CoastInTwo(s.time, s.omega, a as real, b as real);
    GridMoves(s.time, s.omega, Coasted(s.time, s.omega, a as real), Coasted(first.time, first.omega, b as real), a as real);
  }

  lemma HistoriesCompose(kept: seq<Complex>, a: seq<Complex>, b: seq<Complex>, history: nat)
    requires |kept| == history
    ensures |KeptAfter(kept, a, history)| == history
    ensures KeptAfter(KeptAfter(kept, a, history), b, history) == KeptAfter(kept, a + b, history)
  {
    var first := KeptAfter(kept, a, history);
    if |b| >= history {
      assert b[|b| - history..] == (a + b)[|a + b| - history..];
    } else if |a| >= history {
      assert first + b == (a + b)[|a| - history..];
    } else {
      assert first + b == (kept + (a + b))[|a|..];
    }
  }
}
