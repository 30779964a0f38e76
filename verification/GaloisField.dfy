/** The field GF(256) with modulus x^8 + x^4 + x^3 + x^2 + 1 (0x11d), over which the QR
    error-correction codewords are computed. Addition is exclusive-or; multiplication is carry-less
    multiplication reduced by the modulus. */
module GaloisField {

  function Xor(a: bv8, b: bv8): bv8 { a ^ b }

  // Multiplication by x: a shift that wraps by the modulus when the degree-7 bit falls out.
  function Xtime(a: bv8): bv8 {
    if a & 0x80 != 0 then (a << 1) ^ 0x1d else a << 1
  }

  function Half(b: bv8): bv8 { b >> 1 }

  function Part(b: bv8, a: bv8): bv8 { if b & 1 != 0 then a else 0 }

  // The product of `a` with the low `n` bits of `b`, in Horner form.
  function MulLow(a: bv8, b: bv8, n: nat): bv8
    decreases n
  {
    if n == 0 then 0 else Xor(Part(b, a), Xtime(MulLow(a, Half(b), n - 1)))
  }

  function Mul(a: bv8, b: bv8): bv8 { MulLow(a, b, 8) }

  // ----- Exclusive-or -----

  lemma XorComm(a: bv8, b: bv8) ensures Xor(a, b) == Xor(b, a) {}
  lemma XorAssoc(a: bv8, b: bv8, c: bv8) ensures Xor(Xor(a, b), c) == Xor(a, Xor(b, c)) {}
  lemma XorSwap(p: bv8, q: bv8, r: bv8, s: bv8)
    ensures Xor(Xor(p, q), Xor(r, s)) == Xor(Xor(p, r), Xor(q, s))
  {
    XorAssoc(p, q, Xor(r, s));
    XorAssoc(q, r, s);
    XorComm(q, r);
    XorAssoc(r, q, s);
    XorAssoc(p, r, Xor(q, s));
    hide Xor;
  }
  lemma XorSelf(a: bv8) ensures Xor(a, a) == 0 {}
  lemma XorZero(a: bv8) ensures Xor(a, 0) == a && Xor(0, a) == a {}
  lemma XorCancel(a: bv8, b: bv8) ensures Xor(Xor(a, b), b) == a && (Xor(a, b) == 0 <==> a == b) {}

  // ----- The steps of a multiplication are linear -----

  lemma ShiftXor(a: bv8, b: bv8)
    ensures (a ^ b) << 1 == (a << 1) ^ (b << 1)
    ensures ((a ^ b) & 0x80) == (a & 0x80) ^ (b & 0x80)
  {}
  lemma TopBit(a: bv8) ensures a & 0x80 == 0 || a & 0x80 == 0x80 {}
  lemma XorShuffle(a: bv8, b: bv8, m: bv8)
    ensures (a ^ m) ^ (b ^ m) == a ^ b
    ensures (a ^ m) ^ b == (a ^ b) ^ m
    ensures a ^ (b ^ m) == (a ^ b) ^ m
  {}

  lemma XtimeXor(a: bv8, b: bv8)
    ensures Xtime(Xor(a, b)) == Xor(Xtime(a), Xtime(b))
  {
    ShiftXor(a, b);
    TopBit(a);
    TopBit(b);
    XorShuffle(a << 1, b << 1, 0x1d);
  }
  lemma XtimeInjective(a: bv8, b: bv8)
    requires Xtime(a) == Xtime(b)
    ensures a == b
  {}
  lemma HalfXor(a: bv8, b: bv8) ensures Half(Xor(a, b)) == Xor(Half(a), Half(b)) {}
  lemma PartXor(b: bv8, a: bv8, c: bv8) ensures Part(b, Xor(a, c)) == Xor(Part(b, a), Part(b, c)) {}
  lemma PartXorSelector(a: bv8, b: bv8, c: bv8)
    ensures Part(Xor(b, c), a) == Xor(Part(b, a), Part(c, a))
  {
    assert (b ^ c) & 1 == (b & 1) ^ (c & 1);
    assert b & 1 == 0 || b & 1 == 1;
    assert c & 1 == 0 || c & 1 == 1;
    XorSelf(a);
    XorZero(a);
  }
  lemma XtimePart(b: bv8, a: bv8) ensures Xtime(Part(b, a)) == Part(b, Xtime(a)) {}
  lemma {:induction false} MulLowXorLeft(a: bv8, c: bv8, b: bv8, n: nat)
    ensures MulLow(Xor(a, c), b, n) == Xor(MulLow(a, b, n), MulLow(c, b, n))
    decreases n
  {
    if n == 0 { XorSelf(0); } else {
      var p, q := MulLow(a, Half(b), n - 1), MulLow(c, Half(b), n - 1);
      hide Xor, Xtime, Half, Part;
      MulLowXorLeft(a, c, Half(b), n - 1);
      XtimeXor(p, q);
      PartXor(b, a, c);
      XorSwap(Part(b, a), Part(b, c), Xtime(p), Xtime(q));
    }
  }
  lemma {:induction false} MulLowXorRight(a: bv8, b: bv8, c: bv8, n: nat)
    ensures MulLow(a, Xor(b, c), n) == Xor(MulLow(a, b, n), MulLow(a, c, n))
    decreases n
  {
    if n == 0 { XorSelf(0); } else {
      var p, q := MulLow(a, Half(b), n - 1), MulLow(a, Half(c), n - 1);
      hide Xor, Xtime, Half, Part;
      MulLowXorRight(a, Half(b), Half(c), n - 1);
      HalfXor(b, c);
      XtimeXor(p, q);
      PartXorSelector(a, b, c);
      XorSwap(Part(b, a), Part(c, a), Xtime(p), Xtime(q));
    }
  }
  lemma {:induction false} MulLowXtime(a: bv8, b: bv8, n: nat)
    ensures MulLow(Xtime(a), b, n) == Xtime(MulLow(a, b, n))
    decreases n
  {
    if n > 0 {
      var p := MulLow(a, Half(b), n - 1);
      hide Xor, Xtime, Half, Part;
      MulLowXtime(a, Half(b), n - 1);
      XtimePart(b, a);
      XtimeXor(Part(b, a), Xtime(p));
    }
  }
  lemma {:induction false} MulLowZero(b: bv8, n: nat)
    ensures MulLow(0, b, n) == 0
    decreases n
  {
    if n > 0 {
      MulLowZero(Half(b), n - 1);
      assert Xtime(0) == 0 && Part(b, 0) == 0 && Xor(0, 0) == 0;
    }
  }

  // ----- Field laws -----

  lemma MulXorLeft(a: bv8, b: bv8, c: bv8)
    ensures Mul(Xor(a, b), c) == Xor(Mul(a, c), Mul(b, c))
  {
    MulLowXorLeft(a, b, c, 8);
  }
  lemma MulXorRight(a: bv8, b: bv8, c: bv8)
    ensures Mul(a, Xor(b, c)) == Xor(Mul(a, b), Mul(a, c))
  {
    MulLowXorRight(a, b, c, 8);
  }
  lemma MulZero(a: bv8)
    ensures Mul(0, a) == 0 && Mul(a, 0) == 0
  {
    MulLowZero(a, 8);
    MulCommutes(a, 0);
  }
  // Below degree 8 no reduction happens, so multiplying 1 by the low bits of `b` copies them.
  lemma MulOneStep(b: bv8, n: nat)
    requires MulLow(1, Half(b), n) == Half(b)
    ensures MulLow(1, b, n + 1) == b
  {
    var h := Half(b);
    assert h & 0x80 == 0 by { HalfTop(b); }
    assert Xor(Part(b, 1), h << 1) == b by { HalfDouble(b); }
  }
  lemma HalfTop(b: bv8) ensures (b >> 1) & 0x80 == 0 {}
  lemma HalfDouble(b: bv8)
    ensures Xor(Part(b, 1), Half(b) << 1) == b
  {
    assert b & 1 == 0 || b & 1 == 1;
    assert (b & 1) ^ ((b >> 1) << 1) == b;
  }
  lemma MulOne(b: bv8)
    ensures Mul(1, b) == b
  {
    var b1 := Half(b); var b2 := Half(b1); var b3 := Half(b2); var b4 := Half(b3);
    var b5 := Half(b4); var b6 := Half(b5); var b7 := Half(b6);
    assert Half(b7) == 0;
    hide Half;
    MulOneStep(b7, 0); MulOneStep(b6, 1); MulOneStep(b5, 2); MulOneStep(b4, 3);
    MulOneStep(b3, 4); MulOneStep(b2, 5); MulOneStep(b1, 6); MulOneStep(b, 7);
  }
  lemma {:induction false} MulOfLow(a: bv8, b: bv8, n: nat)
    ensures Mul(MulLow(1, b, n), a) == MulLow(a, b, n)
    decreases n
  {
    if n == 0 { MulLowZero(a, 8); } else {
      var p := MulLow(1, Half(b), n - 1);
      assert Mul(Part(b, 1), a) == Part(b, a) by { MulOne(a); MulLowZero(a, 8); }
      hide Xor, Xtime, Half, Part;
      MulOfLow(a, Half(b), n - 1);
      MulXorLeft(Part(b, 1), Xtime(p), a);
      MulLowXtime(p, a, 8);
    }
  }
  lemma MulCommutes(a: bv8, b: bv8)
    ensures Mul(a, b) == Mul(b, a)
  {
    hide Xor, Xtime, Half, Part;
    MulOfLow(a, b, 8);
    MulOne(b);
  }
  lemma {:induction false} MulAssocLow(a: bv8, b: bv8, c: bv8, n: nat)
    ensures MulLow(Mul(a, b), c, n) == Mul(a, MulLow(b, c, n))
    decreases n
  {
    if n == 0 { MulZero(a); } else {
      var p := MulLow(b, Half(c), n - 1);
      assert Mul(a, Part(c, b)) == Part(c, Mul(a, b)) by { MulZero(a); }
      hide Xor, Xtime, Half, Part, Mul;
      MulAssocLow(a, b, Half(c), n - 1);
      MulXorRight(a, Part(c, b), Xtime(p));
      assert Mul(a, Xtime(p)) == Xtime(Mul(a, p)) by {
        MulCommutes(a, Xtime(p));
        MulCommutes(a, p);
        MulXtime(p, a);
      }
    }
  }
  lemma MulXtime(a: bv8, b: bv8)
    ensures Mul(Xtime(a), b) == Xtime(Mul(a, b))
  {
    MulLowXtime(a, b, 8);
  }
  lemma MulAssoc(a: bv8, b: bv8, c: bv8)
    ensures Mul(Mul(a, b), c) == Mul(a, Mul(b, c))
  {
    MulAssocLow(a, b, c, 8);
  }

  // ----- Powers of the generator x -----

  function Exp(i: nat): bv8 { if i == 0 then 1 else Xtime(Exp(i - 1)) }

  lemma {:induction false} ExpAdd(i: nat, j: nat)
    ensures Exp(i + j) == Mul(Exp(i), Exp(j))
    decreases i
  {
    hide Xtime, Mul;
    if i == 0 { MulOne(Exp(j)); } else {
      ExpAdd(i - 1, j);
      MulXtime(Exp(i - 1), Exp(j));
    }
  }
  lemma {:induction false} ExpNonzero(i: nat)
    ensures Exp(i) != 0
    decreases i
  {
    if i > 0 { ExpNonzero(i - 1); }
  }
  lemma {:induction false} ExpCancel(i: nat, j: nat)
    requires Exp(i + j) == Exp(i)
    ensures Exp(j) == 1
    decreases i
  {
    if i > 0 {
      XtimeInjective(Exp(i + j - 1), Exp(i - 1));
      hide Xtime;
      ExpCancel(i - 1, j);
    }
  }
  // x has order exactly 255: x^255 = 1, and no maximal proper divisor of 255 is an exponent of it.
  lemma ExpLandmarks()
    ensures Exp(255) == 1 && Exp(85) != 1 && Exp(51) != 1 && Exp(15) != 1
  {
    assert Exp(4) == 0x10;
    assert Exp(8) == 0x1d;
    assert Exp(7) == 0x80;
    assert Exp(15) == 0x26 by { ExpAdd(8, 7); assert Mul(0x1d, 0x80) == 0x26; }
    assert Exp(16) == 0x4c by { ExpAdd(8, 8); assert Mul(0x1d, 0x1d) == 0x4c; }
    assert Exp(17) == 0x98 by { ExpAdd(16, 1); assert Mul(0x4c, 0x2) == 0x98; }
    assert Exp(34) == 0x4e by { ExpAdd(17, 17); assert Mul(0x98, 0x98) == 0x4e; }
    assert Exp(51) == 0xa by { ExpAdd(34, 17); assert Mul(0x4e, 0x98) == 0xa; }
    assert Exp(85) == 0xd6 by { ExpAdd(51, 34); assert Mul(0xa, 0x4e) == 0xd6; }
    assert Exp(170) == 0xd7 by { ExpAdd(85, 85); assert Mul(0xd6, 0xd6) == 0xd7; }
    assert Exp(255) == 0x1 by { ExpAdd(170, 85); assert Mul(0xd7, 0xd6) == 0x1; }
  }

  // A common divisor of two periods that is itself a period (Euclid by subtraction).
  lemma {:induction false} CommonPeriod(a: nat, b: nat) returns (d: nat, p: nat, q: nat)
    requires Exp(a) == 1 && Exp(b) == 1 && b > 0
    ensures d > 0 && Exp(d) == 1 && a == p * d && b == q * d
    decreases a + b, b
  {
    if a == 0 { d, p, q := b, 0, 1; }
    else if a >= b {
      ExpAdd(b, a - b);
      MulOne(Exp(a - b));
      d, p, q := CommonPeriod(a - b, b);
      assert (p + q) * d == p * d + q * d;
      p := p + q;
    } else {
      d, q, p := CommonPeriod(b, a);
    }
  }
  lemma {:induction false} PeriodTimes(d: nat, m: nat)
    requires Exp(d) == 1
    ensures Exp(m * d) == 1
    decreases m
  {
    if m > 0 {
      assert m * d == d + (m - 1) * d;
      ExpAdd(d, (m - 1) * d);
      PeriodTimes(d, m - 1);
      MulOne(1);
    }
  }
  lemma DivisorOf255(d: nat, m: nat)
    requires d * m == 255 && d < 255
    ensures d in {1, 3, 5, 15, 17, 51, 85}
  {
    if d >= 16 && m >= 16 { ProductBound(d, m); }
    if d < 16 { SmallFactor(d, m); } else { SmallFactor(m, d); }
  }
  lemma ProductBound(d: nat, m: nat) requires d >= 16 && m >= 16 ensures d * m >= 256 {}
  lemma SmallFactor(d: nat, m: nat)
    requires d * m == 255 && d < 16
    ensures d == 1 || (d == 3 && m == 85) || (d == 5 && m == 51) || (d == 15 && m == 17)
  {
    if d == 0 || d == 2 || d == 4 || d == 6 || d == 7 || d == 8 {}
    else if d == 9 || d == 10 || d == 11 || d == 12 || d == 13 || d == 14 {}
  }
  lemma SmallPeriod(d: nat)
    requires d in {1, 3, 5, 15, 17, 51, 85} && Exp(d) == 1
    ensures Exp(85) == 1 || Exp(51) == 1 || Exp(15) == 1
  {
    if d in {1, 5, 17, 85} { PeriodTimes(d, 85 / d); }
    else if d == 15 { PeriodTimes(d, 1); }
    else { PeriodTimes(d, 51 / d); }
  }
  lemma FactorBound(q: nat, d: nat)
    requires q * d > 0
    ensures d <= q * d
  {}
  lemma ExpOrder(k: nat)
    requires 0 < k < 255
    ensures Exp(k) != 1
  {
    if Exp(k) == 1 {
      assert Exp(255) == 1 by { ExpLandmarks(); }
      var d, p, q := CommonPeriod(255, k);
      FactorBound(q, d);
      DivisorOf255(d, p);
      SmallPeriod(d);
      ExpLandmarks();
      assert false;
    }
  }
  lemma ExpDistinct(i: nat, j: nat)
    requires i < j < 255
    ensures Exp(i) != Exp(j)
  {
    if Exp(i) == Exp(j) {
      ExpCancel(i, j - i);
      ExpOrder(j - i);
    }
  }

  // ----- Bytes as table indices -----

  // The number whose binary digits are the low n bits.
  function Number(b: bv8, n: nat): nat { if n == 0 then 0 else LowBit(b) + 2 * Number(Half(b), n - 1) }
  function LowBit(b: bv8): nat { if b & 1 != 0 then 1 else 0 }
  function Double(b: bv8, odd: bool): bv8 { if odd then (b << 1) | 1 else b << 1 }
  // The byte whose low n bits are the binary digits of a number.
  function Byte(i: nat, n: nat): bv8 { if n == 0 then 0 else Double(Byte(i / 2, n - 1), i % 2 == 1) }

  function Index(b: bv8): (i: nat)
    ensures i < 256
  {
    NumberBound(b, 8);
    Number(b, 8)
  }
  function ToByte(i: nat): bv8
    requires i < 256
  {
    Byte(i, 8)
  }
  function TwoTo(n: nat): nat { if n == 0 then 1 else 2 * TwoTo(n - 1) }
  function HighMask(n: nat): bv8 { if n == 0 then 0xff else HighMask(n - 1) << 1 }

  lemma {:induction false} NumberBound(b: bv8, n: nat)
    ensures Number(b, n) < TwoTo(n) && TwoTo(8) == 256
    decreases n
  {
    hide Half;
    if n > 0 { NumberBound(Half(b), n - 1); }
  }
  lemma SameHalves(a: bv8, b: bv8)
    requires Half(a) == Half(b) && LowBit(a) == LowBit(b)
    ensures a == b
  {}
  lemma {:induction false} NumberInjective(a: bv8, b: bv8, n: nat)
    requires Number(a, n) == Number(b, n) && a & HighMask(n) == 0 && b & HighMask(n) == 0
    ensures a == b
    decreases n
  {
    hide Half, HighMask;
    if n == 0 { WholeMask(a); WholeMask(b); } else {
      assert LowBit(a) == LowBit(b);
      HalfBelow(a, n);
      HalfBelow(b, n);
      NumberInjective(Half(a), Half(b), n - 1);
      SameHalves(a, b);
    }
  }
  lemma WholeMask(b: bv8) requires b & HighMask(0) == 0 ensures b == 0 {}
  lemma HalfBelow(b: bv8, n: nat)
    requires n > 0 && b & HighMask(n) == 0
    ensures Half(b) & HighMask(n - 1) == 0
  {
    HalfOfMask(b, HighMask(n - 1));
  }
  lemma HalfOfMask(b: bv8, h: bv8) requires b & (h << 1) == 0 ensures (b >> 1) & h == 0 {}
  lemma IndexInjective(a: bv8, b: bv8)
    requires Index(a) == Index(b)
    ensures a == b
  {
    hide Number, HighMask;
    Masks();
    NumberInjective(a, b, 8);
  }
  lemma HalfOfDouble(c: bv8, odd: bool)
    requires c & 0x80 == 0
    ensures Half(Double(c, odd)) == c && LowBit(Double(c, odd)) == if odd then 1 else 0
  {}
  lemma MaskDoubles(c: bv8, h: bv8, odd: bool)
    requires c & h == 0
    ensures Double(c, odd) & (h << 1) == 0
  {}
  lemma {:induction false} ByteBelow(i: nat, n: nat)
    ensures Byte(i, n) & HighMask(n) == 0
    decreases n
  {
    hide Double;
    if n > 0 {
      ByteBelow(i / 2, n - 1);
      MaskDoubles(Byte(i / 2, n - 1), HighMask(n - 1), i % 2 == 1);
    }
  }
  lemma MaskHasTop(n: nat)
    requires n <= 7
    ensures HighMask(n) & 0x80 == 0x80
  {
    hide HighMask;
    Masks();
  }
  lemma Masks()
    ensures HighMask(0) == 0xff && HighMask(1) == 0xfe && HighMask(2) == 0xfc && HighMask(3) == 0xf8
    ensures HighMask(4) == 0xf0 && HighMask(5) == 0xe0 && HighMask(6) == 0xc0 && HighMask(7) == 0x80 && HighMask(8) == 0
  {}
  lemma TopIsClear(c: bv8, h: bv8) requires c & h == 0 && h & 0x80 == 0x80 ensures c & 0x80 == 0 {}
  lemma {:induction false} NumberOfByte(i: nat, n: nat)
    requires n <= 8 && i < TwoTo(n)
    ensures Number(Byte(i, n), n) == i
    decreases n
  {
    hide Double, Half, LowBit, HighMask;
    if n > 0 {
      var c := Byte(i / 2, n - 1);
      NumberOfByte(i / 2, n - 1);
      ByteBelow(i / 2, n - 1);
      MaskHasTop(n - 1);
      TopIsClear(c, HighMask(n - 1));
      HalfOfDouble(c, i % 2 == 1);
    }
  }
  lemma IndexToByte(i: nat)
    requires i < 256
    ensures Index(ToByte(i)) == i
  {
    hide Number, Byte;
    NumberBound(0, 8);
    NumberOfByte(i, 8);
  }

  // The powers x^0 .. x^254 are 255 different nonzero bytes, so they are all of them.
  ghost function Image(n: nat): set<nat> { set i: nat | i < n :: Index(Exp(i)) }

  lemma {:induction false} ImageSize(n: nat)
    requires n <= 255
    ensures |Image(n)| == n
    decreases n
  {
    if n > 0 {
      hide Index, Exp;
      ImageSize(n - 1);
      if Index(Exp(n - 1)) in Image(n - 1) {
        var i: nat :| i < n - 1 && Index(Exp(i)) == Index(Exp(n - 1));
        IndexInjective(Exp(i), Exp(n - 1));
        ExpDistinct(i, n - 1);
      }
      assert Image(n) == Image(n - 1) + {Index(Exp(n - 1))};
    }
  }
  lemma {:induction false} SizeWithin(s: set<nat>, n: nat)
    requires forall k :: k in s ==> 0 < k <= n
    ensures |s| <= n
    decreases n
  {
    if n > 0 {
      SizeWithin(s - {n}, n - 1);
    } else {
      assert s == {};
    }
  }
  lemma EveryNonzeroIsPower(v: bv8) returns (i: nat)
    requires v != 0
    ensures i < 255 && Exp(i) == v
  {
    hide Index, Exp;
    var s := Image(255) + {Index(v)};
    ImageSize(255);
    forall k | k in s ensures 0 < k <= 255 {
      if k == Index(v) { NonzeroIndex(v); } else {
        var j: nat :| j < 255 && Index(Exp(j)) == k;
        ExpNonzero(j);
        NonzeroIndex(Exp(j));
      }
    }
    SizeWithin(s, 255);
    i :| i < 255 && Index(Exp(i)) == Index(v);
    IndexInjective(Exp(i), v);
  }
  lemma NonzeroIndex(v: bv8)
    requires v != 0
    ensures Index(v) > 0
  {
    if Index(v) == 0 { IndexInjective(v, 0); }
  }

  lemma NoZeroDivisors(a: bv8, b: bv8)
    requires a != 0 && b != 0
    ensures Mul(a, b) != 0
  {
    hide Mul, Exp;
    var i := EveryNonzeroIsPower(a);
    var j := EveryNonzeroIsPower(b);
    ExpAdd(i, j);
    ExpNonzero(i + j);
  }

  // ----- The tables -----

  ghost predicate ExpUpTo(exp: array<bv8>, n: nat)
    reads exp
  {
    n <= exp.Length && forall i :: 0 <= i < n ==> exp[i] == Exp(i)
  }
  ghost predicate LogUpTo(log: array<bv8>, n: nat)
    reads log
  {
    log.Length == 256 && forall i: nat {:trigger Exp(i)} :: i < n ==> Index(log[Index(Exp(i))]) == i
  }

  lemma ExpPeriodic(i: nat)
    ensures Exp(i + 255) == Exp(i)
  {
    ExpLandmarks();
    ExpAdd(255, i);
    MulOne(Exp(i));
  }
  lemma ShiftStep(value: bv16)
    requires value < 256
    ensures var shifted := value << 1;
            var next := if shifted & 0x100 != 0 then shifted ^ 0x11d else shifted;
            next < 256 && next as bv8 == Xtime(value as bv8)
  {}
  lemma NewSlot(n: nat)
    requires n < 255
    ensures forall i: nat {:trigger Exp(i)} :: i < n ==> Index(Exp(i)) != Index(Exp(n))
  {
    forall i: nat | i < n ensures Index(Exp(i)) != Index(Exp(n)) {
      ExpDistinct(i, n);
      if Index(Exp(i)) == Index(Exp(n)) { IndexInjective(Exp(i), Exp(n)); }
    }
  }

  /** The log and antilog tables, filled once by stepping through the powers of x. */
  class Tables {
    const exp: array<bv8>
    const log: array<bv8>

    ghost predicate Valid()
      reads exp, log
    {
      exp != log && exp.Length == 512 && ExpUpTo(exp, 512) && LogUpTo(log, 255)
    }

    constructor ()
      ensures Valid() && fresh(exp) && fresh(log)
    {
      exp := new bv8[512](_ => 0);
      log := new bv8[256](_ => 0);
      new;
      FillFirstPeriod(exp, log);
      RepeatPeriod(exp, log);
    }

    static method FillFirstPeriod(exp: array<bv8>, log: array<bv8>)
      requires exp != log && exp.Length == 512 && log.Length == 256
      modifies exp, log
      ensures ExpUpTo(exp, 255) && LogUpTo(log, 255)
    {
      var value: bv16 := 1;
      hide Index;
      for index := 0 to 255
        invariant value < 256 && value as bv8 == Exp(index)
        invariant ExpUpTo(exp, index) && LogUpTo(log, index)
      {
        Record(exp, log, index, value as bv8);
        ShiftStep(value);
        value := value << 1;
        if value & 0x100 != 0 { value := value ^ 0x11d; }
      }
    }

    // One slot of each table.
    static method Record(exp: array<bv8>, log: array<bv8>, index: nat, value: bv8)
      requires exp != log && exp.Length == 512 && index < 255 && value == Exp(index)
      requires ExpUpTo(exp, index) && LogUpTo(log, index)
      modifies exp, log
      ensures ExpUpTo(exp, index + 1) && LogUpTo(log, index + 1)
    {
      hide Exp, Index, ToByte;
      exp[index] := value;
      NewSlot(index);
      IndexToByte(index);
      log[Index(value)] := ToByte(index);
    }

    static method RepeatPeriod(exp: array<bv8>, log: array<bv8>)
      requires exp != log && exp.Length == 512 && ExpUpTo(exp, 255) && LogUpTo(log, 255)
      modifies exp
      ensures ExpUpTo(exp, 512) && LogUpTo(log, 255)
    {
      hide Exp, Index;
      for index := 255 to 512
        invariant ExpUpTo(exp, index) && LogUpTo(log, 255)
      {
        exp[index] := exp[index - 255];
        ExpPeriodic(index - 255);
      }
    }

    method Multiply(left: bv8, right: bv8) returns (product: bv8)
      requires Valid()
      ensures product == Mul(left, right)
    {
      if left == 0 || right == 0 {
        MulZero(left);
        MulZero(right);
        return 0;
      }
      ghost var i := EveryNonzeroIsPower(left);
      ghost var j := EveryNonzeroIsPower(right);
      ExpAdd(i, j);
      product := exp[Index(log[Index(left)]) + Index(log[Index(right)])];
    }
  }
}
