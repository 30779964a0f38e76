/** The function patterns of a version 8 symbol: what the drawing code writes, and the geometry of
    the standard it must match. */
module QrPatterns {
  import opened QrBch
  import opened Results
  import opened QrData
  import opened QrWalk

  // ----- The geometry -----

  function Abs(a: int): nat { if a < 0 then -a else a }

  // Chebyshev distance from a centre: the number of the square ring a module lies on.
  function Ring(row: int, column: int, centerRow: int, centerColumn: int): nat {
    var dr, dc := Abs(row - centerRow), Abs(column - centerColumn);
    if dr > dc then dr else dc
  }

  predicate Around(row: int, column: int, centerRow: int, centerColumn: int, distance: int) {
    centerRow - distance <= row <= centerRow + distance && centerColumn - distance <= column <= centerColumn + distance
  }

  const ALIGNMENT: seq<int> := [6, 24, 42]

  // Dark core, light ring, dark ring, and the light separator around it.
  predicate FinderDark(ring: nat) { ring != 2 && ring != 4 }

  const VERSION_WORD: nat := Word(8, 0x1f25)

  // Error correction level L (01), the mask, their BCH bits, and the fixed format mask.
  function FormatWord(mask: nat): nat { Xor(Word(8 + mask, 0x537), 0x5412) }

  // The pattern under each module before the data is placed.
  function FinderAt(row: int, column: int): Cell {
    if Around(row, column, 3, 3, 4) then Some(FinderDark(Ring(row, column, 3, 3)))
    else if Around(row, column, 3, 45, 4) then Some(FinderDark(Ring(row, column, 3, 45)))
    else if Around(row, column, 45, 3, 4) then Some(FinderDark(Ring(row, column, 45, 3)))
    else None
  }
  function AlignmentCenter(row: int, column: int): Option<(int, int)> {
    if Around(row, column, 6, 24, 2) then Some((6, 24))
    else if Around(row, column, 24, 6, 2) then Some((24, 6))
    else if Around(row, column, 24, 24, 2) then Some((24, 24))
    else if Around(row, column, 24, 42, 2) then Some((24, 42))
    else if Around(row, column, 42, 24, 2) then Some((42, 24))
    else if Around(row, column, 42, 42, 2) then Some((42, 42))
    else None
  }
  function AlignmentAt(row: int, column: int): Cell {
    match AlignmentCenter(row, column)
    case Some((centerRow, centerColumn)) => Some(Ring(row, column, centerRow, centerColumn) != 1)
    case None => None
  }
  function TimingAt(row: int, column: int): Cell {
    if row == 6 && 8 <= column < MODULES - 8 then Some(column % 2 == 0)
    else if column == 6 && 8 <= row < MODULES - 8 then Some(row % 2 == 0)
    else None
  }
  // The 6 by 3 block of the version word, and its transpose.
  function VersionIn(value: nat, row: int, column: int): Cell {
    if 0 <= row <= 5 && 38 <= column <= 40 then Some(BitAt(value, 3 * row + column - 38))
    else if 0 <= column <= 5 && 38 <= row <= 40 then Some(BitAt(value, 3 * column + row - 38))
    else None
  }
  function VersionAt(row: int, column: int): Cell { VersionIn(VERSION_WORD, row, column) }
  function FormatIndex(row: int, column: int): Option<nat> {
    if column == 8 && 0 <= row <= 5 then Some(row)
    else if column == 8 && 7 <= row <= 8 then Some(row - 1)
    else if column == 8 && 42 <= row < MODULES then Some(row - 34)
    else if row == 8 && 41 <= column < MODULES then Some(48 - column)
    else if row == 8 && column == 7 then Some(8)
    else if row == 8 && 0 <= column <= 5 then Some(14 - column)
    else None
  }

  function Over(top: Cell, bottom: Cell): Cell { if top.Some? then top else bottom }

  // Everything except the format bits.
  function FixedPattern(row: int, column: int): Cell {
    if row == MODULES - 8 && column == 8 then Some(true)
    else
      Over(VersionAt(row, column), Over(AlignmentAt(row, column), Over(TimingAt(row, column), FinderAt(row, column))))
  }
  function Pattern(mask: nat, row: int, column: int): Cell {
    FormatOver(FormatWord(mask), row, column, FixedPattern(row, column))
  }

  // ----- The drawing code -----

  predicate InRange(value: int, from: int, to: int) { from <= value <= to }

  predicate IsFinderDark(row: int, column: int) {
    if !InRange(row, 0, 6) || !InRange(column, 0, 6) then false
    else
      var onRing := row == 0 || row == 6 || column == 0 || column == 6;
      onRing || (InRange(row, 2, 4) && InRange(column, 2, 4))
  }

  lemma FinderDarkIsRing(row: int, column: int)
    requires -1 <= row <= 7 && -1 <= column <= 7
    ensures IsFinderDark(row, column) == FinderDark(Ring(row, column, 3, 3))
  {}

  ghost predicate Square(m: array2<Cell>) { m.Length0 == m.Length1 == MODULES }

  method Finder(m: array2<Cell>, left: int, top: int)
    requires Square(m)
    modifies m
    ensures forall r, c :: OnGrid(r, c) ==>
              m[r, c] == if Around(r, c, top + 3, left + 3, 4) then Some(FinderDark(Ring(r, c, top + 3, left + 3)))
                         else old(m[r, c])
  {
    hide IsFinderDark, FinderDark, Ring;
    for row := -1 to 8
      invariant forall r, c :: OnGrid(r, c) ==>
                  m[r, c] == if Around(r, c, top + 3, left + 3, 4) &&
                      r - top < row then Some(FinderDark(Ring(r, c, top + 3, left + 3))) else old(m[r, c])
    {
      for column := -1 to 8
        invariant forall r, c :: OnGrid(r, c) ==>
                    m[r, c] == if Around(r, c, top + 3, left + 3, 4) &&
                        (r - top < row || (r - top == row && c - left < column))
                               then Some(FinderDark(Ring(r, c, top + 3, left + 3))) else old(m[r, c])
      {
        var y, x := top + row, left + column;
        if !InRange(y, 0, MODULES - 1) || !InRange(x, 0, MODULES - 1) { continue; }
        FinderDarkIsRing(row, column);
        RingMoves(row, column, 3, 3, top, left);
        m[y, x] := Some(IsFinderDark(row, column));
      }
    }
  }

  lemma RingMoves(row: int, column: int, a: int, b: int, dr: int, dc: int)
    ensures Ring(row, column, a, b) == Ring(dr + row, dc + column, dr + a, dc + b)
  {}

  method Alignment(m: array2<Cell>, centerRow: int, centerColumn: int)
    requires Square(m) && 2 <= centerRow < MODULES - 2 && 2 <= centerColumn < MODULES - 2
    modifies m
    ensures forall r, c :: OnGrid(r, c) ==>
              m[r, c] == if Around(r, c, centerRow, centerColumn, 2)
                  then Some(Ring(r, c, centerRow, centerColumn) != 1) else old(m[r, c])
  {
    hide Ring;
    for row := -2 to 3
      invariant forall r, c :: OnGrid(r, c) ==>
                  m[r, c] == if Around(r, c, centerRow, centerColumn, 2) &&
                      r - centerRow < row then Some(Ring(r, c, centerRow, centerColumn) != 1) else old(m[r, c])
    {
      for column := -2 to 3
        invariant forall r, c :: OnGrid(r, c) ==>
                    m[r, c] == if Around(r, c, centerRow, centerColumn, 2) &&
                        (r - centerRow < row || (r - centerRow == row && c - centerColumn < column))
                               then Some(Ring(r, c, centerRow, centerColumn) != 1) else old(m[r, c])
      {
        RingMoves(row, column, 0, 0, centerRow, centerColumn);
        m[centerRow + row, centerColumn + column] := Some(Ring(row, column, 0, 0) != 1);
      }
    }
  }

  method ReserveVersion(m: array2<Cell>)
    requires Square(m)
    modifies m
    ensures forall r, c :: OnGrid(r, c) ==> m[r, c] == Over(VersionAt(r, c), old(m[r, c]))
  {
    hide Or, ShiftLeft, Remainder, Degree, Word, BitAt, VersionIn;
    var version := 8;
    var remainder := Bch(ShiftLeft(version, 12), 0x1f25);
    var value := Or(remainder, ShiftLeft(version, 12));
    JoinedVersion(version);
    DrawVersion(m, value);
  }
  lemma JoinedVersion(data: nat)
    ensures Or(Remainder(ShiftLeft(data, 12), 0x1f25), ShiftLeft(data, 12)) == Word(data, 0x1f25)
    ensures data == 8 ==> VERSION_WORD == Word(data, 0x1f25)
  {
    hide Or, Remainder, ShiftLeft;
    DegreeOfVersion();
  }
  lemma JoinedFormat(data: nat)
    ensures Or(Remainder(ShiftLeft(data, 10), 0x537), ShiftLeft(data, 10)) == Word(data, 0x537)
  {
    hide Or, Remainder, ShiftLeft;
    DegreeOfFormat();
  }
  lemma DegreeOfVersion() ensures Degree(0x1f25) == 12 {}
  lemma DegreeOfFormat() ensures Degree(0x537) == 10 {}

  method DrawVersion(m: array2<Cell>, value: nat)
    requires Square(m)
    modifies m
    ensures forall r, c :: OnGrid(r, c) ==> m[r, c] == Over(VersionIn(value, r, c), old(m[r, c]))
  {
    hide BitAt;
    for index := 0 to 18
      invariant forall r, c :: OnGrid(r, c) ==>
                  m[r, c] == if 0 <= r <= 5 && 38 <= c <= 40 &&
                      3 * r + c - 38 < index then Some(BitAt(value, 3 * r + c - 38))
                             else if 0 <= c <= 5 && 38 <= r <= 40 &&
                                 3 * c + r - 38 < index then Some(BitAt(value, 3 * c + r - 38))
                             else old(m[r, c])
    {
      var dark := BitAt(value, index);
      m[index / 3, MODULES - 11 + index % 3] := Some(dark);
      m[MODULES - 11 + index % 3, index / 3] := Some(dark);
    }
  }

  method PlaceTiming(m: array2<Cell>)
    requires Square(m)
    modifies m
    ensures forall r, c :: OnGrid(r, c) ==> m[r, c] == Over(TimingAt(r, c), old(m[r, c]))
  {
    for index := 8 to MODULES - 8
      invariant forall r, c :: OnGrid(r, c) ==>
                  m[r, c] == if (r == 6 && 8 <= c < index) || (c == 6 && 8 <= r < index) then TimingAt(r, c)
                             else old(m[r, c])
    {
      m[6, index] := Some(index % 2 == 0);
      m[index, 6] := Some(index % 2 == 0);
    }
  }

  // The centres (row, column) whose alignment pattern is drawn once the first n of the nine pairs
  // have been considered; the three pairs at the finders are skipped.
  predicate Considered(row: int, column: int, n: nat) {
    match AlignmentCenter(row, column)
    case Some((a, b)) => 3 * (a / 18) + b / 18 < n
    case None => false
  }

  method PlaceAlignments(m: array2<Cell>)
    requires Square(m)
    modifies m
    ensures forall r, c :: OnGrid(r, c) ==> m[r, c] == Over(AlignmentAt(r, c), old(m[r, c]))
  {
    hide Ring;
    for i := 0 to 3
      invariant forall r, c :: OnGrid(r, c) ==>
                m[r, c] == if Considered(r, c, 3 * i) then AlignmentAt(r, c) else old(m[r, c])
    {
      for j := 0 to 3
        invariant forall r, c :: OnGrid(r, c) ==>
                  m[r, c] == if Considered(r, c, 3 * i + j) then AlignmentAt(r, c) else old(m[r, c])
      {
        var row, column := ALIGNMENT[i], ALIGNMENT[j];
        if (row == 6 && column == 6) || (row == 6 && column == MODULES - 7) || (row == MODULES - 7 && column == 6) {
          continue;
        }
        Alignment(m, row, column);
      }
    }
  }

  method PlaceFinders(m: array2<Cell>)
    requires Square(m)
    modifies m
    ensures forall r, c :: OnGrid(r, c) ==> m[r, c] == Over(FinderAt(r, c), old(m[r, c]))
  {
    hide Ring, FinderDark;
    Finder(m, 0, 0);
    Finder(m, MODULES - 7, 0);
    Finder(m, 0, MODULES - 7);
  }

  method PlacePatterns(m: array2<Cell>)
    requires Square(m) && forall r, c :: OnGrid(r, c) ==> m[r, c].None?
    modifies m
    ensures forall r, c :: OnGrid(r, c) ==> m[r, c] == FixedPattern(r, c)
  {
    hide FinderAt, TimingAt, AlignmentAt, VersionAt;
    PlaceFinders(m);
    PlaceTiming(m);
    PlaceAlignments(m);
    m[MODULES - 8, 8] := Some(true);
    ReserveVersion(m);
    DarkModuleIsAlone();
  }
  lemma DarkModuleIsAlone() ensures VersionAt(MODULES - 8, 8).None? {}

  method PlaceFormat(m: array2<Cell>, mask: nat)
    requires Square(m) && mask < 8
    modifies m
    ensures forall r, c :: OnGrid(r, c) ==> m[r, c] == FormatOver(FormatWord(mask), r, c, old(m[r, c]))
  {
    hide *;
    var data := 8 + mask;
    var remainder := Bch(ShiftLeft(data, 10), 0x537);
    var value := Xor(Or(remainder, ShiftLeft(data, 10)), 0x5412);
    JoinedFormat(data);
    assert value == FormatWord(mask) by { FormatWordIs(mask); }
    DrawFormat(m, value);
  }
  lemma FormatWordIs(mask: nat) ensures FormatWord(mask) == Xor(Word(8 + mask, 0x537), 0x5412) { hide Xor, Word; }

  function FormatOver(value: nat, row: int, column: int, below: Cell): Cell {
    match FormatIndex(row, column)
    case Some(i) => Some(BitAt(value, i))
    case None => below
  }

  method DrawFormat(m: array2<Cell>, value: nat)
    requires Square(m)
    modifies m
    ensures forall r, c :: OnGrid(r, c) ==> m[r, c] == FormatOver(value, r, c, old(m[r, c]))
  {
    hide BitAt;
    for index := 0 to 15
      invariant forall r, c :: OnGrid(r, c) ==>
                  m[r, c] == if FormatIndex(r, c).Some? &&
                      FormatIndex(r, c).value < index then Some(BitAt(value, FormatIndex(r, c).value)) else old(m[r, c])
    {
      DrawFormatBit(m, value, index);
    }
  }
  method DrawFormatBit(m: array2<Cell>, value: nat, index: nat)
    requires Square(m) && index < 15
    modifies m
    ensures forall r, c :: OnGrid(r, c) ==>
              m[r, c] == if FormatIndex(r, c) == Some(index) then Some(BitAt(value, index)) else old(m[r, c])
  {
    hide BitAt;
    var dark := BitAt(value, index);
    if index < 6 { m[index, 8] := Some(dark); }
    else if index < 8 { m[index + 1, 8] := Some(dark); }
    else { m[MODULES - 15 + index, 8] := Some(dark); }
    if index < 8 { m[8, MODULES - index - 1] := Some(dark); }
    else if index < 9 { m[8, 15 - index] := Some(dark); }
    else { m[8, 15 - index - 1] := Some(dark); }
  }
}
