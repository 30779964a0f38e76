/** The data stream of a version 8-L byte-mode symbol: header, bytes, terminator and padding packed
    into 194 data codewords, and the two error-corrected blocks interleaved into 242 codewords. */
module QrData {
  import opened GaloisField
  import opened Results
  import opened ReedSolomon

  const DATA_CODEWORDS: nat := 194
  const BLOCKS: nat := 2
  const BLOCK_LENGTH: nat := 97
  const TOTAL_CODEWORDS: nat := 242
  // The longest byte string the encoder accepts: mode, length and terminator fill two codewords.
  const MAX_BYTES: nat := 192

  // ----- Bits, the most significant first -----

  function Mask(k: nat): bv8
    requires k < 8
  {
    if k == 0 then 0x80 else if k == 1 then 0x40 else if k == 2 then 0x20 else if k == 3 then 0x10
    else if k == 4 then 0x08 else if k == 5 then 0x04 else if k == 6 then 0x02 else 0x01
  }

  predicate BitOf(b: bv8, k: nat)
    requires k < 8
  {
    b & Mask(k) != 0
  }

  function Bits(b: bv8): (r: seq<bool>)
    ensures |r| == 8
  {
    seq(8, k requires 0 <= k < 8 => BitOf(b, k))
  }

  function BitsOf(data: seq<bv8>): (r: seq<bool>)
    ensures |r| == 8 * |data|
  {
    seq(8 * |data|, i requires 0 <= i < 8 * |data| => BitOf(data[i / 8], i % 8))
  }

  function BitValue(bit: bool, k: nat): bv8
    requires k < 8
  {
    if bit then Mask(k) else 0
  }

  function ByteOf(bits: seq<bool>): bv8
    requires |bits| == 8
  {
    BitValue(bits[0], 0) | BitValue(bits[1], 1) | BitValue(bits[2], 2) | BitValue(bits[3], 3) |
    BitValue(bits[4], 4) | BitValue(bits[5], 5) | BitValue(bits[6], 6) | BitValue(bits[7], 7)
  }

  lemma ByteOfBits(b: bv8)
    ensures ByteOf(Bits(b)) == b
  {
    SplitByte(b);
  }
  lemma SplitByte(b: bv8)
    ensures (b & 0x80) | (b & 0x40) | (b & 0x20) | (b & 0x10) | (b & 0x08) | (b & 0x04) | (b & 0x02) | (b & 0x01) == b
  {}

  lemma SetBit(b: bv8, k: nat, j: nat)
    requires k < 8 && j < 8
    ensures BitOf(b | Mask(k), j) == (j == k || BitOf(b, j))
  {}
  lemma ZeroBits(k: nat)
    requires k < 8
    ensures !BitOf(0, k)
  {}

  lemma BitsOfAppend(data: seq<bv8>, b: bv8)
    ensures BitsOf(data + [b]) == BitsOf(data) + Bits(b)
  {
    hide BitOf;
    forall i: nat | i < 8 * |data| + 8 ensures BitsOf(data + [b])[i] == (BitsOf(data) + Bits(b))[i] {
      assert i / 8 < |data| || (i / 8 == |data| && i % 8 == i - 8 * |data|);
    }
  }
  lemma BitsOfSlice(data: seq<bv8>, i: nat)
    requires i < |data|
    ensures BitsOf(data)[8 * i..8 * i + 8] == Bits(data[i])
  {
    hide BitOf;
    forall k: nat | k < 8 ensures BitsOf(data)[8 * i + k] == Bits(data[i])[k] {
      assert (8 * i + k) / 8 == i && (8 * i + k) % 8 == k;
    }
  }
  lemma BitsOfConcat(p: seq<bv8>, q: seq<bv8>)
    ensures BitsOf(p + q) == BitsOf(p) + BitsOf(q)
  {
    hide BitOf;
    forall i: nat | i < 8 * |p| + 8 * |q| ensures BitsOf(p + q)[i] == (BitsOf(p) + BitsOf(q))[i] {
      if i >= 8 * |p| {
        assert i / 8 == |p| + (i - 8 * |p|) / 8 && i % 8 == (i - 8 * |p|) % 8;
      }
    }
  }
  lemma BitsOfInjective(p: seq<bv8>, q: seq<bv8>)
    requires BitsOf(p) == BitsOf(q)
    ensures p == q
  {
    assert |p| == |q|;
    forall i: nat | i < |p| ensures p[i] == q[i] {
      BitsOfSlice(p, i);
      BitsOfSlice(q, i);
      ByteOfBits(p[i]);
      ByteOfBits(q[i]);
    }
  }

  // ----- The bit stream of a byte string -----

  const BYTE_MODE: seq<bool> := [false, true, false, false]

  // Mode indicator 0100, an 8-bit count, the bytes, and a four-bit terminator.
  function Segment(bytes: seq<bv8>): (r: seq<bool>)
    requires |bytes| <= MAX_BYTES
    ensures |r| == 8 * (|bytes| + 2)
  {
    BYTE_MODE + Bits(ToByte(|bytes|)) + BitsOf(bytes) + [false, false, false, false]
  }

  function Padding(n: nat): (r: seq<bv8>)
    ensures |r| == n
  {
    seq(n, k requires 0 <= k < n => if k % 2 == 0 then 0xec else 0x11)
  }

  function Stream(bytes: seq<bv8>): (r: seq<bool>)
    requires |bytes| <= MAX_BYTES
    ensures |r| == 8 * DATA_CODEWORDS
  {
    Segment(bytes) + BitsOf(Padding(MAX_BYTES - |bytes|))
  }

  method Push(target: seq<bool>, value: bv8) returns (longer: seq<bool>)
    ensures longer == target + Bits(value)
  {
    longer := target;
    for index := 0 to 8
      invariant longer == target + Bits(value)[..index]
    {
      longer := longer + [BitOf(value, index)];
    }
  }

  method PackData(bytes: seq<bv8>) returns (packed: array<bv8>)
    requires |bytes| <= MAX_BYTES
    ensures fresh(packed) && packed.Length == DATA_CODEWORDS
    ensures BitsOf(packed[..]) == Stream(bytes)
  {
    hide BitOf, Segment, BitsOf;
    var bits := SegmentBits(bytes);
    packed := new bv8[DATA_CODEWORDS](_ => 0);
    WriteBits(packed, bits);
    WritePadding(packed, |bits| / 8);
    assert packed[..] == packed[..|bits| / 8] + packed[|bits| / 8..];
    BitsOfConcat(packed[..|bits| / 8], packed[|bits| / 8..]);
  }

  method SegmentBits(bytes: seq<bv8>) returns (bits: seq<bool>)
    requires |bytes| <= MAX_BYTES
    ensures bits == Segment(bytes)
  {
    hide BitOf, Bits, ToByte, BitsOf;
    bits := BYTE_MODE;
    bits := Push(bits, ToByte(|bytes|));
    for index := 0 to |bytes|
      invariant bits == BYTE_MODE + Bits(ToByte(|bytes|)) + BitsOf(bytes[..index])
    {
      bits := Push(bits, bytes[index]);
      BitsOfAppend(bytes[..index], bytes[index]);
      assert bytes[..index + 1] == bytes[..index] + [bytes[index]];
    }
    assert bytes[..|bytes|] == bytes;
    bits := Terminate(bits, DATA_CODEWORDS * 8);
    bits := FillByte(bits);
  }

  // Up to four zero bits, as far as the capacity allows.
  method Terminate(bits: seq<bool>, capacity: nat) returns (ended: seq<bool>)
    requires |bits| <= capacity
    ensures bits <= ended && |ended| == if |bits| + 4 <= capacity then |bits| + 4 else capacity
    ensures forall k :: |bits| <= k < |ended| ==> !ended[k]
  {
    ended := bits;
    var index := 0;
    while index < 4 && |ended| < capacity
      invariant 0 <= index <= 4 && |ended| == |bits| + index <= capacity
      invariant bits <= ended && forall k :: |bits| <= k < |ended| ==> !ended[k]
    {
      ended := ended + [false];
      index := index + 1;
    }
  }

  // Zero bits up to the next byte boundary.
  method FillByte(bits: seq<bool>) returns (filled: seq<bool>)
    ensures bits <= filled && |filled| % 8 == 0 && |filled| < |bits| + 8
    ensures forall k :: |bits| <= k < |filled| ==> !filled[k]
  {
    filled := bits;
    ghost var whole := (|bits| + 7) / 8;
    while |filled| % 8 != 0
      invariant bits <= filled && |filled| <= 8 * whole
      invariant forall k :: |bits| <= k < |filled| ==> !filled[k]
      decreases 8 * whole - |filled|
    {
      filled := filled + [false];
    }
  }

  method WriteBits(packed: array<bv8>, bits: seq<bool>)
    requires |bits| % 8 == 0 && |bits| / 8 <= packed.Length
    requires forall i :: 0 <= i < packed.Length ==> packed[i] == 0
    modifies packed
    ensures BitsOf(packed[..|bits| / 8]) == bits
  {
    hide BitOf;
    forall i: nat | i < 8 * packed.Length ensures !BitOf(packed[i / 8], i % 8) { ZeroBits(i % 8); }
    for index := 0 to |bits|
      invariant forall i :: 0 <= i < 8 * packed.Length ==>
                  BitOf(packed[i / 8], i % 8) == (i < index && bits[i])
    {
      WriteBit(packed, index, bits[index]);
    }
  }

  method WriteBit(packed: array<bv8>, index: nat, bit: bool)
    requires index < 8 * packed.Length
    modifies packed
    ensures forall i :: 0 <= i < 8 * packed.Length ==>
              BitOf(packed[i / 8], i % 8) == ((i == index && bit) || BitOf(old(packed[i / 8]), i % 8))
  {
    hide BitOf, Mask;
    if bit {
      packed[index / 8] := packed[index / 8] | Mask(index % 8);
      forall i: nat | i < 8 * packed.Length
        ensures BitOf(packed[i / 8], i % 8) == (i == index || BitOf(old(packed[i / 8]), i % 8))
      {
        if i / 8 == index / 8 { SetBit(old(packed[index / 8]), index % 8, i % 8); }
      }
    }
  }

  method WritePadding(packed: array<bv8>, start: nat)
    requires start <= packed.Length
    modifies packed
    ensures packed[..start] == old(packed[..start])
    ensures packed[start..] == Padding(packed.Length - start)
  {
    var index, pad := start, 0;
    while index < packed.Length
      invariant start <= index <= packed.Length && pad == index - start
      invariant packed[..start] == old(packed[..start])
      invariant forall k :: start <= k < index ==> packed[k] == Padding(packed.Length - start)[k - start]
    {
      packed[index] := if pad % 2 == 0 then 0xec else 0x11;
      index, pad := index + 1, pad + 1;
    }
  }

  // ----- Reading the stream back -----

  // A byte-mode segment: the mode nibble, the count, then that many bytes.
  function ParseSegment(bits: seq<bool>): Option<seq<bv8>> {
    if |bits| < 12 || bits[..4] != BYTE_MODE then None
    else
      var n := Index(ByteOf(bits[4..12]));
      if |bits| < 12 + 8 * n then None
      else Some(seq(n, i requires 0 <= i < n => ByteOf(bits[12 + 8 * i..20 + 8 * i])))
  }

  lemma SliceMiddle(p: seq<bool>, m: seq<bool>, t: seq<bool>, i: nat, j: nat)
    requires i <= j <= |m|
    ensures (p + m + t)[|p| + i..|p| + j] == m[i..j]
  {}

  lemma ParseUndoesStream(bytes: seq<bv8>)
    requires |bytes| <= MAX_BYTES
    ensures ParseSegment(Stream(bytes)) == Some(bytes)
  {
    hide BitOf, ByteOf, ToByte, Index, BitsOf, Bits;
    var bits, n := Stream(bytes), |bytes|;
    assert bits[..4] == BYTE_MODE;
    assert bits[4..12] == Bits(ToByte(n));
    ByteOfBits(ToByte(n));
    IndexToByte(n);
    var head, tail := BYTE_MODE + Bits(ToByte(n)), [false, false, false, false] + BitsOf(Padding(MAX_BYTES - n));
    assert bits == head + BitsOf(bytes) + tail;
    var read := ParseSegment(bits).value;
    forall i: nat | i < n ensures read[i] == bytes[i] {
      SliceMiddle(head, BitsOf(bytes), tail, 8 * i, 8 * i + 8);
      BitsOfSlice(bytes, i);
      ByteOfBits(bytes[i]);
    }
    assert read == bytes;
  }

  // ----- Blocks -----

  function Block(data: seq<bv8>, b: nat): (r: seq<bv8>)
    requires |data| == DATA_CODEWORDS && b < BLOCKS
    ensures |r| == BLOCK_LENGTH
  {
    data[b * BLOCK_LENGTH..(b + 1) * BLOCK_LENGTH]
  }

  // The codewords of block `b` picked out of the interleaved sequence: its data, then its checks.
  function ReadBlock(codewords: seq<bv8>, b: nat): (r: seq<bv8>)
    requires |codewords| == TOTAL_CODEWORDS && b < BLOCKS
    ensures |r| == BLOCK_LENGTH + EC_CODEWORDS_PER_BLOCK
  {
    seq(BLOCK_LENGTH + EC_CODEWORDS_PER_BLOCK,
      i requires 0 <= i < BLOCK_LENGTH + EC_CODEWORDS_PER_BLOCK => codewords[i * BLOCKS + b])
  }

  ghost predicate IsInterleaved(codewords: seq<bv8>, data: seq<bv8>)
    requires |data| == DATA_CODEWORDS
  {
    |codewords| == TOTAL_CODEWORDS &&
    forall b: nat :: b < BLOCKS ==> ReadBlock(codewords, b) == Codeword(Block(data, b))
  }

  function DataOf(codewords: seq<bv8>): (r: seq<bv8>)
    requires |codewords| == TOTAL_CODEWORDS
    ensures |r| == DATA_CODEWORDS
  {
    ReadBlock(codewords, 0)[..BLOCK_LENGTH] + ReadBlock(codewords, 1)[..BLOCK_LENGTH]
  }

  lemma DataOfInterleaved(codewords: seq<bv8>, data: seq<bv8>)
    requires |data| == DATA_CODEWORDS && IsInterleaved(codewords, data)
    ensures DataOf(codewords) == data
  {
    assert ReadBlock(codewords, 0)[..BLOCK_LENGTH] == Block(data, 0);
    assert ReadBlock(codewords, 1)[..BLOCK_LENGTH] == Block(data, 1);
  }

  method Interleave(tables: Tables, data: seq<bv8>) returns (result: seq<bv8>)
    requires tables.Valid() && |data| == DATA_CODEWORDS
    ensures IsInterleaved(result, data)
  {
    hide CheckCodewords, ExpUpTo, LogUpTo;
    var blocks := [Block(data, 0), Block(data, 1)];
    var ecc: seq<seq<bv8>> := [];
    for b := 0 to BLOCKS
      invariant |ecc| == b && forall k :: 0 <= k < b ==> ecc[k] == CheckCodewords(blocks[k])
    {
      var check := ComputeCheckCodewords(tables, blocks[b]);
      ecc := ecc + [check[..]];
    }
    result := AppendColumns([], blocks, BLOCK_LENGTH);
    result := AppendColumns(result, ecc, EC_CODEWORDS_PER_BLOCK);
    forall b: nat | b < BLOCKS ensures ReadBlock(result, b) == Codeword(Block(data, b)) {
      assert forall i: nat :: i < BLOCK_LENGTH ==> result[i * BLOCKS + b] == blocks[b][i];
      assert forall i: nat :: i < EC_CODEWORDS_PER_BLOCK ==> result[(BLOCK_LENGTH + i) * BLOCKS + b] == ecc[b][i];
    }
  }

  // Takes one codeword of every block in turn.
  method AppendColumns(start: seq<bv8>, blocks: seq<seq<bv8>>, length: nat) returns (result: seq<bv8>)
    requires |blocks| == BLOCKS && forall b :: 0 <= b < BLOCKS ==> |blocks[b]| == length
    ensures start <= result && |result| == |start| + length * BLOCKS
    ensures forall i: nat, b: nat {:trigger blocks[b][i]} :: i < length && b < BLOCKS ==>
              result[|start| + i * BLOCKS + b] == blocks[b][i]
  {
    result := start;
    for index := 0 to length
      invariant start <= result && |result| == |start| + index * BLOCKS
      invariant forall i: nat, b: nat {:trigger blocks[b][i]} :: i < index && b < BLOCKS ==>
                  result[|start| + i * BLOCKS + b] == blocks[b][i]
    {
      for b := 0 to BLOCKS
        invariant start <= result && |result| == |start| + index * BLOCKS + b
        invariant forall i: nat, c: nat {:trigger blocks[c][i]} ::
                    c < BLOCKS && (i < index || (i == index && c < b)) ==>
                    result[|start| + i * BLOCKS + c] == blocks[c][i]
      {
        result := result + [blocks[b][index]];
      }
    }
  }
}
