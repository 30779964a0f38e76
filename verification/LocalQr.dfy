/** The encoder as a whole, and a reader that follows the standard's decoding steps: format bits,
    mask, zigzag, de-interleaving, segment. */
module LocalQr {
  import opened GaloisField
  import opened Results
  import opened ReedSolomon
  import opened QrData
  import opened QrWalk
  import opened QrPatterns
  import opened QrCapacity
  import Bch = QrBch

  type Symbol = seq<seq<bool>>

  ghost predicate IsSymbol(s: Symbol) { |s| == MODULES && forall r :: 0 <= r < MODULES ==> |s[r]| == MODULES }

  // ----- The reader -----

  // Where the two copies of format bit i are read: down column 8 and along row 8.
  function FormatRow(i: nat): (r: nat)
    requires i < 15
    ensures r < MODULES
  {
    if i < 6 then i else if i < 8 then i + 1 else MODULES - 15 + i
  }
  function FormatColumn(i: nat): (c: nat)
    requires i < 15
    ensures c < MODULES
  {
    if i < 8 then MODULES - i - 1 else if i < 9 then 7 else 14 - i
  }

  // Bit k of the five data bits of the format word, with the fixed format mask taken off.
  predicate FormatData(s: Symbol, k: nat)
    requires IsSymbol(s) && k < 5
  {
    s[FormatRow(10 + k)][8] != Bch.BitAt(0x5412, 10 + k)
  }
  predicate IsLevelL(s: Symbol)
    requires IsSymbol(s)
  {
    FormatData(s, 3) && !FormatData(s, 4)
  }
  function ReadMask(s: Symbol): (mask: nat)
    requires IsSymbol(s)
    ensures mask < 8
  {
    (if FormatData(s, 0) then 1 else 0) + (if FormatData(s, 1) then 2 else 0) + (if FormatData(s, 2) then 4 else 0)
  }

  // The modules a reader knows to hold data, whatever the mask.
  function Template(): (g: Grid)
    ensures IsGrid(g)
    ensures forall r, c :: OnGrid(r, c) ==> g[r][c] == if IsFunction(r, c) then Some(false) else None
  {
    seq(MODULES, r => seq(MODULES, c => if IsFunction(r, c) then Some(false) else None))
  }
  function AsGrid(s: Symbol): (g: Grid)
    requires IsSymbol(s)
    ensures IsGrid(g)
    ensures forall r, c :: OnGrid(r, c) ==> g[r][c] == Some(s[r][c])
  {
    seq(MODULES, r requires 0 <= r < MODULES => seq(MODULES, c requires 0 <= c < MODULES => Some(s[r][c])))
  }

  function ReadBits(s: Symbol): seq<bool>
    requires IsSymbol(s)
  {
    ReadBack(Template(), AsGrid(s), ReadMask(s), STEPS)
  }
  function BytesOf(bits: seq<bool>, n: nat): (r: seq<bv8>)
    requires |bits| == 8 * n
    ensures |r| == n
  {
    seq(n, i requires 0 <= i < n => ByteOf(bits[8 * i..8 * i + 8]))
  }
  function ReadSymbol(s: Symbol): Option<seq<bv8>>
    requires IsSymbol(s)
  {
    var bits := ReadBits(s);
    if !IsLevelL(s) || |bits| != 8 * TOTAL_CODEWORDS then None
    else ParseSegment(BitsOf(DataOf(BytesOf(bits, TOTAL_CODEWORDS))))
  }

  // ----- The symbol the encoder draws -----

  function SymbolOf(codewords: seq<bv8>, mask: nat): (s: Symbol)
    requires mask < 8
    ensures IsSymbol(s)
    ensures forall r, c :: OnGrid(r, c) ==>
            s[r][c] == (Filled(PatternGrid(mask), codewords, mask, STEPS, r, c) == Some(true))
  {
    seq(MODULES, r requires 0 <= r < MODULES => seq(MODULES, c requires 0 <= c < MODULES =>
      Filled(PatternGrid(mask), codewords, mask, STEPS, r, c) == Some(true)))
  }

  // ----- Reading the format bits -----

  lemma {:induction false} BitOfXor(a: nat, b: nat, i: nat)
    ensures Bch.BitAt(Bch.Xor(a, b), i) == (Bch.BitAt(a, i) != Bch.BitAt(b, i))
    decreases i
  {
    Bch.HalfOfXor(a, b);
    hide Bch.Xor;
    if i > 0 { BitOfXor(a / 2, b / 2, i - 1); }
  }
  lemma {:induction false} BitOfShift(v: nat, m: nat, i: nat)
    ensures Bch.BitAt(Bch.ShiftRight(v, m), i) == Bch.BitAt(v, m + i)
    decreases m
  {
    if m > 0 { BitOfShift(v / 2, m - 1, i); }
  }
  lemma DataBits(mask: nat)
    requires mask < 8
    ensures Bch.BitAt(8 + mask, 0) == (mask % 2 == 1) && Bch.BitAt(8 + mask, 1) == (mask / 2 % 2 == 1)
    ensures Bch.BitAt(8 + mask, 2) == (mask / 4 == 1) && Bch.BitAt(8 + mask, 3) && !Bch.BitAt(8 + mask, 4)
  {
    hide Bch.BitAt;
    var v := 8 + mask;
    NextBit(v, 0); NextBit(v, 1); NextBit(v, 2); NextBit(v, 3);
    NextBit(v / 2, 0); NextBit(v / 2, 1); NextBit(v / 2, 2);
    NextBit(v / 4, 0); NextBit(v / 4, 1);
    NextBit(v / 8, 0);
    assert v / 2 / 2 == v / 4 && v / 4 / 2 == v / 8 && v / 8 / 2 == 0;
  }
  lemma NextBit(v: nat, i: nat)
    ensures Bch.BitAt(v, i + 1) == Bch.BitAt(v / 2, i)
    ensures Bch.BitAt(v, 0) == (v % 2 == 1) && Bch.BitAt(v / 2, 0) == (v / 2 % 2 == 1)
  {}
  lemma FormatBit(mask: nat, k: nat)
    requires mask < 8 && k < 5
    ensures (Bch.BitAt(FormatWord(mask), 10 + k) != Bch.BitAt(0x5412, 10 + k)) == Bch.BitAt(8 + mask, k)
  {
    hide Bch.BitAt, Bch.Xor, Bch.Word;
    BitOfXor(Bch.Word(8 + mask, 0x537), 0x5412, 10 + k);
    DegreeOfFormat();
    Bch.WordIsCodeword(8 + mask, 0x537);
    BitOfShift(Bch.Word(8 + mask, 0x537), 10, k);
  }

  // Both drawn copies hold the format word.
  lemma FormatIsDrawn(codewords: seq<bv8>, mask: nat, i: nat)
    requires mask < 8 && i < 15
    ensures var s := SymbolOf(codewords, mask);
            s[FormatRow(i)][8] == s[8][FormatColumn(i)] == Bch.BitAt(FormatWord(mask), i)
  {
    hide FormatWord, Bch.BitAt, FixedPattern, StepOf, DataBit, HolesBefore;
  }

  lemma MaskIsRead(codewords: seq<bv8>, mask: nat)
    requires mask < 8
    ensures var s := SymbolOf(codewords, mask); IsLevelL(s) && ReadMask(s) == mask
  {
    hide FormatWord, Bch.BitAt, SymbolOf, FormatRow;
    FormatDataIs(codewords, mask, 0); FormatDataIs(codewords, mask, 1); FormatDataIs(codewords, mask, 2);
    FormatDataIs(codewords, mask, 3); FormatDataIs(codewords, mask, 4);
    DataBits(mask);
  }
  lemma FormatDataIs(codewords: seq<bv8>, mask: nat, k: nat)
    requires mask < 8 && k < 5
    ensures FormatData(SymbolOf(codewords, mask), k) == Bch.BitAt(8 + mask, k)
  {
    hide FormatWord, Bch.BitAt, SymbolOf, FormatRow, FormatColumn;
    FormatIsDrawn(codewords, mask, 10 + k);
    FormatBit(mask, k);
  }

  // ----- Reading the data -----

  lemma {:induction false} SameHolesSameBits(g: Grid, h: Grid, read: Grid, again: Grid, mask: nat, t: nat)
    requires IsGrid(g) && IsGrid(h) && IsGrid(read) && IsGrid(again) && mask < 8 && t <= STEPS
    requires forall r, c :: OnGrid(r, c) ==> g[r][c].None? == h[r][c].None?
    requires forall r, c :: OnGrid(r, c) ==> (read[r][c] == Some(true)) == (again[r][c] == Some(true))
    ensures ReadBack(g, read, mask, t) == ReadBack(h, again, mask, t)
    decreases t
  {
    hide Masked, WalkRow, WalkColumn;
    if t > 0 { SameHolesSameBits(g, h, read, again, mask, t - 1); }
  }

  function FilledCells(codewords: seq<bv8>, mask: nat): (f: Grid)
    requires mask < 8
    ensures FilledGrid(PatternGrid(mask), f, codewords, mask)
  {
    seq(MODULES, r requires 0 <= r < MODULES => seq(MODULES, c requires 0 <= c < MODULES =>
      Filled(PatternGrid(mask), codewords, mask, STEPS, r, c)))
  }

  lemma PatternHoles(mask: nat)
    ensures HolesAreFree(PatternGrid(mask))
    ensures forall r, c :: OnGrid(r, c) ==> PatternGrid(mask)[r][c].None? == Template()[r][c].None?
  {
    hide IsFunction, Pattern;
    forall r, c | OnGrid(r, c)
      ensures PatternGrid(mask)[r][c].None? <==> Free(r, c) == 1
      ensures PatternGrid(mask)[r][c].None? == Template()[r][c].None?
    {
      PatternIsFunction(mask, r, c);
    }
  }

  lemma BitsAreRead(codewords: seq<bv8>, mask: nat)
    requires mask < 8 && |codewords| == TOTAL_CODEWORDS
    ensures ReadBits(SymbolOf(codewords, mask)) == BitsOf(codewords)
  {
    hide Filled, PatternGrid, Template, ReadBack, HolesBefore, ReadMask, BitOf;
    var s, g, filled := SymbolOf(codewords, mask), PatternGrid(mask), FilledCells(codewords, mask);
    MaskIsRead(codewords, mask);
    PatternHoles(mask);
    SameHolesSameBits(Template(), g, AsGrid(s), filled, mask, STEPS);
    ReadUndoesFill(g, filled, codewords, mask, STEPS);
    WalkPlacesEveryBit(g);
  }

  lemma BytesOfBits(codewords: seq<bv8>)
    ensures BytesOf(BitsOf(codewords), |codewords|) == codewords
  {
    hide BitsOf, ByteOf, Bits;
    forall i: nat | i < |codewords| ensures BytesOf(BitsOf(codewords), |codewords|)[i] == codewords[i] {
      BitsOfSlice(codewords, i);
      ByteOfBits(codewords[i]);
    }
  }

  // The codewords the encoder computes for a byte string.
  ghost predicate Encodes(codewords: seq<bv8>, bytes: seq<bv8>)
    requires |bytes| <= MAX_BYTES
  {
    exists data :: |data| == DATA_CODEWORDS && BitsOf(data) == Stream(bytes) && IsInterleaved(codewords, data)
  }

  lemma EncodesUniquely(c1: seq<bv8>, c2: seq<bv8>, bytes: seq<bv8>)
    requires |bytes| <= MAX_BYTES && Encodes(c1, bytes) && Encodes(c2, bytes)
    ensures c1 == c2
  {
    hide BitsOf, Stream, Codeword, Block;
    var d1 :| |d1| == DATA_CODEWORDS && BitsOf(d1) == Stream(bytes) && IsInterleaved(c1, d1);
    var d2 :| |d2| == DATA_CODEWORDS && BitsOf(d2) == Stream(bytes) && IsInterleaved(c2, d2);
    BitsOfInjective(d1, d2);
    assert ReadBlock(c1, 0) == ReadBlock(c2, 0) && ReadBlock(c1, 1) == ReadBlock(c2, 1);
    forall i: nat | i < TOTAL_CODEWORDS ensures c1[i] == c2[i] {
      assert ReadBlock(c1, i % 2)[i / 2] == c1[i / 2 * BLOCKS + i % 2];
      assert ReadBlock(c2, i % 2)[i / 2] == c2[i / 2 * BLOCKS + i % 2];
    }
  }

  // The only codewords that encode the bytes.
  ghost predicate EncodesOnly(codewords: seq<bv8>, bytes: seq<bv8>)
    requires |bytes| <= MAX_BYTES
  {
    Encodes(codewords, bytes) && forall other :: Encodes(other, bytes) ==> other == codewords
  }
  lemma EncodedOnce(codewords: seq<bv8>, bytes: seq<bv8>)
    requires |bytes| <= MAX_BYTES && Encodes(codewords, bytes)
    ensures EncodesOnly(codewords, bytes)
  {
    hide Encodes;
    forall other | Encodes(other, bytes) ensures other == codewords { EncodesUniquely(other, codewords, bytes); }
  }

  // Any drawn symbol reads back as the bytes, and both of its blocks are codewords of the
  // Reed-Solomon code.
  lemma ReaderRecoversBytes(bytes: seq<bv8>, codewords: seq<bv8>, mask: nat)
    requires |bytes| <= MAX_BYTES && mask < 8 && Encodes(codewords, bytes)
    ensures ReadSymbol(SymbolOf(codewords, mask)) == Some(bytes)
    ensures forall b: nat :: b < BLOCKS ==> ZeroSyndromes(ReadBlock(codewords, b))
  {
    hide ReadBits, SymbolOf, BitsOf, BytesOf, DataOf, ParseSegment, Stream, IsLevelL, Block, Codeword, ZeroSyndromes;
    var data :| |data| == DATA_CODEWORDS && BitsOf(data) == Stream(bytes) && IsInterleaved(codewords, data);
    MaskIsRead(codewords, mask);
    BitsAreRead(codewords, mask);
    BytesOfBits(codewords);
    DataOfInterleaved(codewords, data);
    ParseUndoesStream(bytes);
    forall b: nat | b < BLOCKS ensures ZeroSyndromes(ReadBlock(codewords, b)) {
      CodewordHasZeroSyndromes(Block(data, b));
    }
  }

  // Different byte strings never share a symbol.
  lemma SymbolsDiffer(p: seq<bv8>, q: seq<bv8>, pc: seq<bv8>, qc: seq<bv8>, pm: nat, qm: nat)
    requires |p| <= MAX_BYTES && |q| <= MAX_BYTES && pm < 8 && qm < 8
    requires Encodes(pc, p) && Encodes(qc, q) && SymbolOf(pc, pm) == SymbolOf(qc, qm)
    ensures p == q && pm == qm
  {
    hide Encodes, ReadSymbol, SymbolOf, ReadMask;
    ReaderRecoversBytes(p, pc, pm);
    ReaderRecoversBytes(q, qc, qm);
    MaskIsRead(pc, pm);
    MaskIsRead(qc, qm);
  }

  // ----- The encoder -----

  method BuildMatrix(codewords: seq<bv8>, mask: nat) returns (s: Symbol)
    requires mask < 8
    ensures s == SymbolOf(codewords, mask)
  {
    hide Filled, FixedPattern, FormatWord, Bch.BitAt;
    var m := new Cell[MODULES, MODULES]((r, c) => None);
    PlacePatterns(m);
    PlaceFormat(m, mask);
    FillCodewords(m, codewords, mask, PatternGrid(mask));
    s := seq(MODULES, r requires 0 <= r < MODULES reads m =>
        seq(MODULES, c requires 0 <= c < MODULES reads m => m[r, c] == Some(true)));
    SameSymbol(s, SymbolOf(codewords, mask));
  }
  lemma SameSymbol(s: Symbol, t: Symbol)
    requires IsSymbol(s) && IsSymbol(t) && forall r, c :: OnGrid(r, c) ==> s[r][c] == t[r][c]
    ensures s == t
  {
    forall r: nat | r < MODULES ensures s[r] == t[r] {
      assert forall c: nat :: c < MODULES ==> OnGrid(r, c) && s[r][c] == t[r][c];
    }
  }

  // The mask kept: the lowest penalty, the first of equals.
  ghost predicate Chosen(codewords: seq<bv8>, score: Symbol -> int, s: Symbol, masks: nat)
    requires masks <= 8
  {
    exists k: nat :: k < masks && s == SymbolOf(codewords, k) && forall m: nat :: m < masks ==>
      score(s) <= score(SymbolOf(codewords, m)) && (m < k ==> score(s) < score(SymbolOf(codewords, m)))
  }

  method CreateLocalQr(bytes: seq<bv8>, score: Symbol -> int) returns (qr: Option<Symbol>)
    ensures qr.Some? <==> |bytes| <= MAX_BYTES
    ensures qr.Some? ==> IsSymbol(qr.value) && ReadSymbol(qr.value) == Some(bytes)
    ensures qr.Some? ==> exists codewords :: Chosen(codewords, score, qr.value, 8) && EncodesOnly(codewords, bytes)
  {
    if |bytes| > DATA_CODEWORDS - 2 { return None; }
    hide ReadSymbol, SymbolOf, BitsOf, Stream, IsInterleaved, ExpUpTo, LogUpTo;
    var data := PackData(bytes);
    var tables := new Tables();
    var codewords := Interleave(tables, data[..]);
    assert Encodes(codewords, bytes);
    qr := ChooseMask(codewords, score);
    ghost var k: nat :| k < 8 && qr.value == SymbolOf(codewords, k);
    ReaderRecoversBytes(bytes, codewords, k);
    EncodedOnce(codewords, bytes);
  }

  method ChooseMask(codewords: seq<bv8>, score: Symbol -> int) returns (best: Option<Symbol>)
    ensures best.Some? && Chosen(codewords, score, best.value, 8)
  {
    hide SymbolOf, Chosen;
    best := None;
    var lowest := 0;
    for mask := 0 to 8
      invariant best.None? <==> mask == 0
      invariant best.Some? ==> lowest == score(best.value) && Chosen(codewords, score, best.value, mask)
    {
      var candidate := BuildMatrix(codewords, mask);
      var penalty := score(candidate);
      if best.None? {
        FirstChosen(codewords, score);
        best, lowest := Some(candidate), penalty;
      } else {
        NextChosen(codewords, score, best.value, mask);
        if penalty < lowest { best, lowest := Some(candidate), penalty; }
      }
    }
  }
  lemma FirstChosen(codewords: seq<bv8>, score: Symbol -> int)
    ensures Chosen(codewords, score, SymbolOf(codewords, 0), 1)
  {
    hide SymbolOf;
  }
  lemma NextChosen(codewords: seq<bv8>, score: Symbol -> int, s: Symbol, masks: nat)
    requires masks < 8 && Chosen(codewords, score, s, masks)
    ensures var candidate := SymbolOf(codewords, masks);
            if score(candidate) < score(s) then Chosen(codewords, score, candidate, masks + 1)
            else Chosen(codewords, score, s, masks + 1)
  {
    hide SymbolOf;
  }
}
