/** How many modules of a version 8 symbol carry data: exactly eight for every codeword. */
module QrCapacity {
  import opened Arithmetic
  import opened QrBch
  import opened Results
  import opened QrData
  import opened QrPatterns
  import opened QrWalk

  // ----- Which modules the function patterns occupy -----

  predicate InAlignment(row: int, column: int) {
    Around(row, column, 6, 24, 2) || Around(row, column, 24, 6, 2) || Around(row, column, 24, 24, 2) ||
    Around(row, column, 24, 42, 2) || Around(row, column, 42, 24, 2) || Around(row, column, 42, 42, 2)
  }
  predicate IsFunction(row: int, column: int) {
    (row <= 8 && column <= 8) || (row <= 8 && column >= 41) || (row >= 41 && column <= 8) ||
    row == 6 || column == 6 || InAlignment(row, column) ||
    (row <= 5 && 38 <= column <= 40) || (column <= 5 && 38 <= row <= 40)
  }

  lemma PatternIsFunction(mask: nat, row: int, column: int)
    requires OnGrid(row, column)
    ensures Pattern(mask, row, column).Some? <==> IsFunction(row, column)
  {
    hide FormatWord, BitAt, Ring, FinderDark;
  }

  function PatternGrid(mask: nat): (g: Grid)
    ensures IsGrid(g)
    ensures forall r, c :: OnGrid(r, c) ==> g[r][c] == Pattern(mask, r, c)
  {
    seq(MODULES, r => seq(MODULES, c => Pattern(mask, r, c)))
  }

  // ----- Counting the free modules of a pair of columns -----

  function Free(row: int, column: int): nat { if IsFunction(row, column) then 0 else 1 }

  // Free modules in columns c and c - 1, rows lo up to hi.
  function InRows(c: int, lo: int, hi: int): nat
    decreases hi - lo
  {
    if hi <= lo then 0 else InRows(c, lo, hi - 1) + Free(hi - 1, c) + Free(hi - 1, c - 1)
  }

  lemma {:induction false} InRowsSplit(c: int, lo: int, mid: int, hi: int)
    requires lo <= mid <= hi
    ensures InRows(c, lo, hi) == InRows(c, lo, mid) + InRows(c, mid, hi)
    decreases hi - mid
  {
    hide Free;
    if mid < hi { InRowsSplit(c, lo, mid, hi - 1); }
  }

  // The occupied modules only change at these rows.
  function BandOf(row: int): int {
    if row < 4 then 0 else if row < 6 then 4 else if row < 7 then 6 else if row < 9 then 7
    else if row < 22 then 9 else if row < 27 then 22 else if row < 38 then 27 else if row < 40 then 38
    else if row < 41 then 40 else if row < 45 then 41 else 45
  }
  lemma SameBand(lo: int, row: int, column: int)
    requires 0 <= lo <= row < MODULES && BandOf(lo) == BandOf(row) && OnGrid(0, column)
    ensures Free(row, column) == Free(lo, column)
  {}

  function Band(c: int, lo: int, hi: int): int { (hi - lo) * (Free(lo, c) + Free(lo, c - 1)) }

  lemma {:induction false} EqualRows(c: int, lo: int, hi: int)
    requires 0 <= lo < hi <= MODULES && 1 <= c < MODULES && BandOf(lo) == BandOf(hi - 1)
    ensures InRows(c, lo, hi) == Band(c, lo, hi)
    decreases hi
  {
    hide Free, Band, BandOf;
    SameBand(lo, hi - 1, c);
    SameBand(lo, hi - 1, c - 1);
    OneMoreRow(c, lo, hi);
    if hi - 1 > lo {
      BandsAreOrdered(lo, hi - 2, hi - 1);
      EqualRows(c, lo, hi - 1);
    } else {
      assert InRows(c, lo, lo) == 0;
    }
  }
  lemma BandsAreOrdered(lo: int, mid: int, hi: int)
    requires 0 <= lo <= mid <= hi < MODULES && BandOf(lo) == BandOf(hi)
    ensures BandOf(lo) == BandOf(mid)
  {}
  lemma OneMoreRow(c: int, lo: int, hi: int)
    requires lo < hi
    ensures Band(c, lo, hi) == Band(c, lo, hi - 1) + Free(lo, c) + Free(lo, c - 1) && Band(c, lo, lo) == 0
  {
    hide Free;
    Difference(hi - lo, hi - lo - 1, Free(lo, c) + Free(lo, c - 1));
  }

  lemma InBands(c: int)
    requires 1 <= c < MODULES
    ensures InRows(c, 0, MODULES) ==
            Band(c, 0, 4) + Band(c, 4, 6) + Band(c, 6, 7) + Band(c, 7, 9) + Band(c, 9, 22) + Band(c, 22, 27) +
            Band(c, 27, 38) + Band(c, 38, 40) + Band(c, 40, 41) + Band(c, 41, 45) + Band(c, 45, 49)
  {
    hide Free, InRows, Band;
    EqualRows(c, 0, 4); EqualRows(c, 4, 6); EqualRows(c, 6, 7); EqualRows(c, 7, 9); EqualRows(c, 9, 22);
    EqualRows(c, 22, 27);
    EqualRows(c, 27, 38); EqualRows(c, 38, 40); EqualRows(c, 40, 41); EqualRows(c, 41, 45); EqualRows(c, 45, 49);
    InRowsSplit(c, 0, 4, 49); InRowsSplit(c, 4, 6, 49); InRowsSplit(c, 6, 7, 49); InRowsSplit(c, 7, 9, 49);
    InRowsSplit(c, 9, 22, 49); InRowsSplit(c, 22, 27, 49); InRowsSplit(c, 27, 38, 49); InRowsSplit(c, 38, 40, 49);
    InRowsSplit(c, 40, 41, 49); InRowsSplit(c, 41, 45, 49);
  }

  lemma Middle(c: int)
    requires 10 <= c <= 20 || 28 <= c <= 36
    ensures InRows(c, 0, MODULES) == 96
  {
    hide InRows;
    InBands(c);
  }
  lemma RightEdge(c: int)
    requires 46 <= c <= 48
    ensures InRows(c, 0, MODULES) == 80
  {
    hide InRows;
    InBands(c);
  }
  lemma RightAlignment(c: int)
    requires 42 <= c <= 44
    ensures InRows(c, 0, MODULES) == 60
  {
    hide InRows;
    InBands(c);
  }
  lemma Column40(c: int)
    requires c == 40
    ensures InRows(c, 0, MODULES) == 74
  {
    hide InRows;
    InBands(c);
  }
  lemma Column38(c: int)
    requires c == 38
    ensures InRows(c, 0, MODULES) == 90
  {
    hide InRows;
    InBands(c);
  }
  lemma CentreAlignment(c: int)
    requires 24 <= c <= 26
    ensures InRows(c, 0, MODULES) == 68
  {
    hide InRows;
    InBands(c);
  }
  lemma Column22(c: int)
    requires c == 22
    ensures InRows(c, 0, MODULES) == 82
  {
    hide InRows;
    InBands(c);
  }
  lemma Column8(c: int)
    requires c == 8
    ensures InRows(c, 0, MODULES) == 54
  {
    hide InRows;
    InBands(c);
  }
  lemma Column5(c: int)
    requires c == 5
    ensures InRows(c, 0, MODULES) == 48
  {
    hide InRows;
    InBands(c);
  }
  lemma LeftEdge(c: int)
    requires 1 <= c <= 3
    ensures InRows(c, 0, MODULES) == 58
  {
    hide InRows;
    InBands(c);
  }

  // Free modules of the columns right of pair p, hence met by the walk before it.
  function FreeBefore(p: nat): nat
    requires p <= PAIRS
  {
    if p == 0 then 0 else FreeBefore(p - 1) + InRows(PairColumn(p - 1), 0, MODULES)
  }

  // The first sixteen pairs and the last eight.
  lemma FreeBefore8()
    ensures FreeBefore(8) == 80 + 80 + 60 + 60 + 74 + 90 + 96 + 96
  {
    hide InRows;
    RightEdge(48); RightEdge(46); RightAlignment(44); RightAlignment(42);
    Column40(40); Column38(38); Middle(36); Middle(34);
    assert FreeBefore(2) == 160;
    assert FreeBefore(4) == 280;
    assert FreeBefore(6) == 444;
  }
  lemma FreeBefore16()
    ensures FreeBefore(16) == 636 + 96 + 96 + 96 + 68 + 68 + 82 + 96 + 96
  {
    hide InRows;
    FreeBefore8();
    Middle(32); Middle(30); Middle(28); CentreAlignment(26); CentreAlignment(24); Column22(22); Middle(20); Middle(18);
    assert FreeBefore(10) == 828;
    assert FreeBefore(12) == 992;
    assert FreeBefore(14) == 1142;
  }
  // 242 codewords of eight bits fill the symbol exactly.
  lemma FreeModules()
    ensures FreeBefore(PAIRS) == 8 * TOTAL_CODEWORDS
  {
    hide InRows;
    FreeBefore16();
    Middle(16); Middle(14); Middle(12); Middle(10); Column8(8); Column5(5); LeftEdge(3); LeftEdge(1);
    assert FreeBefore(18) == 1526;
    assert FreeBefore(20) == 1718;
    assert FreeBefore(22) == 1820;
  }

  // ----- The walk meets exactly those modules -----

  ghost predicate HolesAreFree(g: Grid)
    requires IsGrid(g)
  {
    forall r, c :: OnGrid(r, c) ==> (g[r][c].None? <==> Free(r, c) == 1)
  }

  // One step of the walk, at a module named by its row and column.
  lemma OneStep(g: Grid, t: nat, row: nat, column: nat)
    requires IsGrid(g) && HolesAreFree(g) && t < STEPS && row == WalkRow(t) && column == WalkColumn(t)
    ensures HolesBefore(g, t + 1) == HolesBefore(g, t) + Free(row, column)
  {
    hide WalkRow, WalkColumn, IsFunction, Free;
    FreeIsBit(row, column);
  }
  lemma StepIsAt(p: nat, offset: nat, side: nat)
    requires p < PAIRS && offset < MODULES && side < 2
    ensures var t := 98 * p + 2 * offset + side;
            t < STEPS && WalkRow(t) == (if p % 2 == 0 then MODULES - 1 - offset else offset) &&
                WalkColumn(t) == PairColumn(p) - side
  {
    hide PairColumn;
    Decompose(p, offset, side);
  }
  lemma TwoSteps(g: Grid, p: nat, offset: nat)
    requires IsGrid(g) && HolesAreFree(g) && p < PAIRS && offset < MODULES
    ensures var t, row := 98 * p + 2 * offset, if p % 2 == 0 then MODULES - 1 - offset else offset;
            HolesBefore(g, t + 2) == HolesBefore(g, t) + Free(row, PairColumn(p)) + Free(row, PairColumn(p) - 1)
  {
    hide WalkRow, WalkColumn, PairColumn, Free, HolesBefore, HolesAreFree, IsGrid;
    var t, row := 98 * p + 2 * offset, if p % 2 == 0 then MODULES - 1 - offset else offset;
    StepIsAt(p, offset, 0);
    StepIsAt(p, offset, 1);
    OneStep(g, t, row, PairColumn(p));
    OneStep(g, t + 1, row, PairColumn(p) - 1);
  }
  lemma FreeIsBit(r: int, c: int) ensures Free(r, c) == 0 || Free(r, c) == 1 { hide IsFunction; }

  lemma {:induction false} HolesInPair(g: Grid, p: nat, offset: nat)
    requires IsGrid(g) && HolesAreFree(g) && p < PAIRS && offset <= MODULES
    ensures HolesBefore(g, 98 * p + 2 * offset) == HolesBefore(g, 98 * p) +
            if p % 2 == 0 then InRows(PairColumn(p), MODULES - offset, MODULES) else InRows(PairColumn(p), 0, offset)
    decreases offset
  {
    hide PairColumn, Free, HolesBefore, HolesAreFree;
    if offset > 0 {
      HolesInPair(g, p, offset - 1);
      TwoSteps(g, p, offset - 1);
      var c, row := PairColumn(p), MODULES - offset;
      if p % 2 == 0 {
        InRowsSplit(c, row, row + 1, MODULES);
        assert InRows(c, row, row + 1) == InRows(c, row, row) + Free(row, c) + Free(row, c - 1);
        assert InRows(c, row, row) == 0;
      }
    }
  }

  lemma {:induction false} HolesBeforePair(g: Grid, p: nat)
    requires IsGrid(g) && HolesAreFree(g) && p <= PAIRS
    ensures HolesBefore(g, 98 * p) == FreeBefore(p)
    decreases p
  {
    hide PairColumn, InRows, HolesAreFree;
    if p > 0 {
      HolesBeforePair(g, p - 1);
      HolesInPair(g, p - 1, MODULES);
    }
  }

  // The walk over a symbol with its patterns drawn places 1936 bits.
  lemma WalkPlacesEveryBit(g: Grid)
    requires IsGrid(g) && HolesAreFree(g)
    ensures HolesBefore(g, STEPS) == 8 * TOTAL_CODEWORDS
  {
    hide HolesBefore, FreeBefore, HolesAreFree;
    HolesBeforePair(g, PAIRS);
    FreeModules();
  }
}
