/** The zigzag walk that places data bits: two columns at a time from the right, alternating upward
    and downward, skipping column 6 and every module that is already drawn. */
module QrWalk {
  import opened GaloisField
  import opened Results
  import opened QrData

  const MODULES: nat := 49
  const PAIRS: nat := 24
  const STEPS: nat := 2352

  type Cell = Option<bool>

  // The eight data masks.
  predicate Masked(row: nat, column: nat, mask: nat)
    requires mask < 8
  {
    if mask == 0 then (row + column) % 2 == 0
    else if mask == 1 then row % 2 == 0
    else if mask == 2 then column % 3 == 0
    else if mask == 3 then (row + column) % 3 == 0
    else if mask == 4 then (row / 2 + column / 3) % 2 == 0
    else if mask == 5 then (row * column) % 2 + (row * column) % 3 == 0
    else if mask == 6 then ((row * column) % 2 + (row * column) % 3) % 2 == 0
    else ((row * column) % 3 + (row + column) % 2) % 2 == 0
  }

  predicate DataBit(codewords: seq<bv8>, bit: nat) {
    bit < |codewords| * 8 && BitOf(codewords[bit / 8], bit % 8)
  }

  // ----- The order of the walk -----

  predicate OnGrid(row: int, column: int) { 0 <= row < MODULES && 0 <= column < MODULES }

  // The right column of the p-th pair: 48, 46, .., 8, then 5, 3, 1.
  function PairColumn(p: nat): (c: nat)
    requires p < PAIRS
    ensures 1 <= c < MODULES
  {
    if p < 21 then 48 - 2 * p else 47 - 2 * p
  }

  function WalkRow(t: nat): (r: nat)
    requires t < STEPS
    ensures r < MODULES
  {
    var offset := t % 98 / 2;
    if t / 98 % 2 == 0 then MODULES - 1 - offset else offset
  }

  function WalkColumn(t: nat): (c: nat)
    requires t < STEPS
    ensures c < MODULES && c != 6
  {
    PairColumn(t / 98) - t % 2
  }

  // The step at which the walk reaches a module outside column 6.
  function StepOf(row: nat, column: nat): (t: nat)
    requires OnGrid(row, column) && column != 6
    ensures t < STEPS
  {
    var p := if column > 6 then (48 - column) / 2 else (47 - column) / 2;
    98 * p + 2 * (if p % 2 == 0 then MODULES - 1 - row else row) + (PairColumn(p) - column)
  }

  lemma WalkReachesEveryModule(row: nat, column: nat)
    requires OnGrid(row, column) && column != 6
    ensures WalkRow(StepOf(row, column)) == row && WalkColumn(StepOf(row, column)) == column
  {
    var p := if column > 6 then (48 - column) / 2 else (47 - column) / 2;
    var offset := if p % 2 == 0 then MODULES - 1 - row else row;
    var side := PairColumn(p) - column;
    Decompose(p, offset, side);
  }
  lemma WalkVisitsOnce(t: nat)
    requires t < STEPS
    ensures StepOf(WalkRow(t), WalkColumn(t)) == t
  {
    Decompose(t / 98, t % 98 / 2, t % 2);
  }
  lemma Decompose(p: nat, offset: nat, side: nat)
    requires offset < MODULES && side < 2
    ensures var t := 98 * p + 2 * offset + side; t / 98 == p && t % 98 / 2 == offset && t % 2 == side
  {}

  // ----- What filling a partly drawn matrix means -----

  type Grid = seq<seq<Cell>>

  ghost predicate IsGrid(g: Grid) { |g| == MODULES && forall r :: 0 <= r < MODULES ==> |g[r]| == MODULES }

  predicate Hole(g: Grid, t: nat)
    requires IsGrid(g) && t < STEPS
  {
    g[WalkRow(t)][WalkColumn(t)].None?
  }

  // How many holes the walk meets before step t.
  function HolesBefore(g: Grid, t: nat): nat
    requires IsGrid(g) && t <= STEPS
  {
    if t == 0 then 0 else HolesBefore(g, t - 1) + (if Hole(g, t - 1) then 1 else 0)
  }

  // A module once the walk has taken t steps over the drawn matrix g.
  function Filled(g: Grid, codewords: seq<bv8>, mask: nat, t: nat, row: nat, column: nat): Cell
    requires IsGrid(g) && mask < 8 && t <= STEPS && OnGrid(row, column)
  {
    if column != 6 && StepOf(row, column) < t && g[row][column].None?
    then Some(DataBit(codewords, HolesBefore(g, StepOf(row, column))) != Masked(row, column, mask))
    else g[row][column]
  }

  // The bits the same walk reads back from modules that were holes.
  function ReadBack(g: Grid, read: Grid, mask: nat, t: nat): seq<bool>
    requires IsGrid(g) && IsGrid(read) && mask < 8 && t <= STEPS
  {
    if t == 0 then []
    else if !Hole(g, t - 1) then ReadBack(g, read, mask, t - 1)
    else
      var row, column := WalkRow(t - 1), WalkColumn(t - 1);
      ReadBack(g, read, mask, t - 1) + [(read[row][column] == Some(true)) != Masked(row, column, mask)]
  }

  ghost predicate FilledGrid(g: Grid, filled: Grid, codewords: seq<bv8>, mask: nat)
    requires IsGrid(g) && mask < 8
  {
    IsGrid(filled) && forall row, column :: OnGrid(row, column) ==>
      filled[row][column] == Filled(g, codewords, mask, STEPS, row, column)
  }

  // Filling leaves no hole outside column 6 and changes no module already drawn.
  lemma FillingIsComplete(g: Grid, filled: Grid, codewords: seq<bv8>, mask: nat, row: nat, column: nat)
    requires IsGrid(g) && mask < 8 && FilledGrid(g, filled, codewords, mask) && OnGrid(row, column)
    requires forall r :: 0 <= r < MODULES ==> g[r][6].Some?
    ensures filled[row][column].Some?
    ensures g[row][column].Some? ==> filled[row][column] == g[row][column]
  {}

  // Every bit of the stream lands in exactly one hole: the walk read back gives the stream.
  lemma {:induction false} ReadUndoesFill(g: Grid, filled: Grid, codewords: seq<bv8>, mask: nat, t: nat)
    requires IsGrid(g) && mask < 8 && FilledGrid(g, filled, codewords, mask) && t <= STEPS
    ensures |ReadBack(g, filled, mask, t)| == HolesBefore(g, t)
    ensures forall i: nat :: i < HolesBefore(g, t) ==> ReadBack(g, filled, mask, t)[i] == DataBit(codewords, i)
    decreases t
  {
    hide Masked, DataBit, WalkRow, WalkColumn, StepOf;
    if t > 0 {
      ReadUndoesFill(g, filled, codewords, mask, t - 1);
      WalkVisitsOnce(t - 1);
      var row, column := WalkRow(t - 1), WalkColumn(t - 1);
      assert filled[row][column] == Filled(g, codewords, mask, STEPS, row, column);
    }
  }

  // ----- The loop over the matrix -----

  ghost predicate Progress(m: array2<Cell>, g: Grid, codewords: seq<bv8>, mask: nat, t: nat, bit: nat)
    reads m
    requires IsGrid(g) && mask < 8 && t <= STEPS
  {
    && m.Length0 == m.Length1 == MODULES
    && bit == HolesBefore(g, t)
    && forall row, column :: OnGrid(row, column) ==>
         m[row, column] == Filled(g, codewords, mask, t, row, column)
  }

  ghost predicate Shows(m: array2<Cell>, g: Grid)
    reads m
    requires IsGrid(g)
  {
    m.Length0 == m.Length1 == MODULES && forall row, column :: OnGrid(row, column) ==> m[row, column] == g[row][column]
  }

  method FillCodewords(m: array2<Cell>, codewords: seq<bv8>, mask: nat, ghost g: Grid)
    requires IsGrid(g) && mask < 8 && Shows(m, g)
    modifies m
    ensures m.Length0 == m.Length1 == MODULES
    ensures forall row, column :: OnGrid(row, column) ==>
              m[row, column] == Filled(g, codewords, mask, STEPS, row, column)
  {
    var bit := 0;
    var upward := true;
    var column := MODULES - 1;
    ghost var p := 0;
    hide Filled, HolesBefore, Progress, Shows, IsGrid, ColumnAt, PairColumn;
    ColumnStarts();
    NothingFilled(m, codewords, mask, g);
    while column > 0
      invariant 0 <= p <= PAIRS && upward == (p % 2 == 0)
      invariant column == ColumnAt(p)
      invariant Progress(m, g, codewords, mask, 98 * p, bit)
      decreases column
    {
      ColumnMoves(p);
      if column == 6 { column := column - 1; }
      bit := FillPair(m, codewords, mask, column, upward, bit, g, p);
      upward := !upward;
      column := column - 2;
      p := p + 1;
    }
    ColumnEnds(p);
    EverythingFilled(m, codewords, mask, g, bit);
  }
  // The loop variable before the p-th pair; column 6 is stepped over.
  function ColumnAt(p: nat): int { if p < 21 then 48 - 2 * p else if p == 21 then 6 else 47 - 2 * p }
  lemma ColumnStarts() ensures ColumnAt(0) == 48 {}
  lemma ColumnMoves(p: nat)
    requires p <= PAIRS && ColumnAt(p) > 0
    ensures p < PAIRS && PairColumn(p) == (if ColumnAt(p) == 6 then 5 else ColumnAt(p)) &&
            ColumnAt(p + 1) == PairColumn(p) - 2
    ensures (p + 1) % 2 == 0 <==> p % 2 != 0
  {}
  lemma ColumnEnds(p: nat) requires p <= PAIRS && ColumnAt(p) <= 0 ensures p == PAIRS {}
  lemma NothingFilled(m: array2<Cell>, codewords: seq<bv8>, mask: nat, g: Grid)
    requires IsGrid(g) && mask < 8 && Shows(m, g)
    ensures Progress(m, g, codewords, mask, 0, 0)
  {
    hide StepOf, DataBit, Masked;
  }
  lemma EverythingFilled(m: array2<Cell>, codewords: seq<bv8>, mask: nat, g: Grid, bit: nat)
    requires IsGrid(g) && mask < 8 && Progress(m, g, codewords, mask, STEPS, bit)
    ensures m.Length0 == m.Length1 == MODULES
    ensures forall row, column :: OnGrid(row, column) ==>
            m[row, column] == Filled(g, codewords, mask, STEPS, row, column)
  {
    hide Filled, HolesBefore;
  }

  method FillPair(m: array2<Cell>, codewords: seq<bv8>, mask: nat, column: nat, upward: bool, start: nat,
          ghost g: Grid, ghost p: nat)
    returns (bit: nat)
    requires IsGrid(g) && mask < 8 && p < PAIRS && column == PairColumn(p) && upward == (p % 2 == 0)
    requires Progress(m, g, codewords, mask, 98 * p, start)
    modifies m
    ensures Progress(m, g, codewords, mask, 98 * (p + 1), bit)
  {
    bit := start;
    hide Filled, HolesBefore, Progress;
    for offset := 0 to MODULES
      invariant Progress(m, g, codewords, mask, 98 * p + 2 * offset, bit)
    {
      var row := if upward then MODULES - 1 - offset else offset;
      Decompose(p, offset, 0);
      bit := FillModule(m, codewords, mask, row, column, bit, g, 98 * p + 2 * offset);
      Decompose(p, offset, 1);
      bit := FillModule(m, codewords, mask, row, column - 1, bit, g, 98 * p + 2 * offset + 1);
    }
  }

  method FillModule(m: array2<Cell>, codewords: seq<bv8>, mask: nat, row: nat, target: nat, start: nat, ghost g: Grid,
          ghost t: nat)
    returns (bit: nat)
    requires IsGrid(g) && mask < 8 && t < STEPS && row == WalkRow(t) && target == WalkColumn(t)
    requires Progress(m, g, codewords, mask, t, start)
    modifies m
    ensures Progress(m, g, codewords, mask, t + 1, bit)
  {
    bit := start;
    WalkVisitsOnce(t);
    forall r, c | OnGrid(r, c) && c != 6 && StepOf(r, c) == t ensures r == row && c == target {
      WalkReachesEveryModule(r, c);
    }
    hide WalkRow, WalkColumn, StepOf, DataBit, Masked;
    if m[row, target].None? {
      m[row, target] := Some(DataBit(codewords, bit) != Masked(row, target, mask));
      bit := bit + 1;
    }
  }
}
