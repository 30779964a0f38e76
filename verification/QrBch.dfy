/** The BCH words of a symbol: division of polynomials over GF(2) held in numbers, bit k being the
    coefficient of x^k. No step raises the degree, so a number that starts below 2^31 stays there. */
module QrBch {

  function Parity(a: nat, b: nat): (p: nat)
    ensures p < 2
  {
    (a + b) % 2
  }

  function Xor(a: nat, b: nat): nat
    decreases a + b
  {
    if a == 0 && b == 0 then 0 else 2 * Xor(a / 2, b / 2) + Parity(a, b)
  }

  function Or(a: nat, b: nat): nat
    decreases a + b
  {
    if a == 0 && b == 0 then 0
    else 2 * Or(a / 2, b / 2) + (if a % 2 == 1 || b % 2 == 1 then 1 else 0)
  }

  // The coefficient of x^i: (v >>> i) & 1.
  predicate BitAt(v: nat, i: nat)
    decreases i
  {
    if i == 0 then v % 2 == 1 else BitAt(v / 2, i - 1)
  }

  // The degree of a nonzero polynomial: floor(log2(v)).
  function Degree(v: nat): nat
    requires v != 0
  {
    if v == 1 then 0 else 1 + Degree(v / 2)
  }

  // v(x) x^k
  function ShiftLeft(v: nat, k: nat): nat
    decreases k
  {
    if k == 0 then v else 2 * ShiftLeft(v, k - 1)
  }

  // ----- Exclusive-or -----

  lemma {:induction false} XorSelf(a: nat)
    ensures Xor(a, a) == 0
  {
    if a > 0 { XorSelf(a / 2); }
  }
  lemma {:induction false} XorZero(a: nat)
    ensures Xor(a, 0) == a && Xor(0, a) == a
  {
    if a > 0 { XorZero(a / 2); }
  }
  lemma HalfOfXor(a: nat, b: nat)
    ensures Xor(a, b) / 2 == Xor(a / 2, b / 2) && Xor(a, b) % 2 == Parity(a, b)
  {}
  lemma {:induction false} XorAssoc(a: nat, b: nat, c: nat)
    ensures Xor(Xor(a, b), c) == Xor(a, Xor(b, c))
    decreases a + b + c
  {
    hide Xor;
    if a == 0 { XorZero(b); XorZero(Xor(b, c)); } else {
      XorAssoc(a / 2, b / 2, c / 2);
      HalfOfXor(a, b);
      HalfOfXor(b, c);
      HalfOfXor(Xor(a, b), c);
      HalfOfXor(a, Xor(b, c));
      ParityAssoc(a, b, c, Xor(a, b), Xor(b, c));
      Halves(Xor(Xor(a, b), c), Xor(a, Xor(b, c)));
    }
  }
  lemma ParityAssoc(a: nat, b: nat, c: nat, ab: nat, bc: nat)
    requires ab % 2 == Parity(a, b) && bc % 2 == Parity(b, c)
    ensures Parity(ab, c) == Parity(a, bc)
  {}
  lemma Halves(a: nat, b: nat)
    requires a / 2 == b / 2 && a % 2 == b % 2
    ensures a == b
  {}

  // ----- Degrees -----

  lemma {:induction false} LeadingTermsCancel(v: nat, w: nat)
    requires v != 0 && w != 0 && Degree(v) == Degree(w)
    ensures Xor(v, w) == 0 || Degree(Xor(v, w)) < Degree(v)
  {
    if v == 1 || w == 1 { XorSelf(1); } else {
      LeadingTermsCancel(v / 2, w / 2);
      HalfOfXor(v, w);
    }
  }
  lemma {:induction false} ShiftRaisesDegree(g: nat, k: nat)
    requires g != 0
    ensures ShiftLeft(g, k) != 0 && Degree(ShiftLeft(g, k)) == Degree(g) + k
    decreases k
  {
    if k > 0 { ShiftRaisesDegree(g, k - 1); }
  }

  // Subtracting the aligned generator removes the leading term, so the degree strictly drops.
  lemma StepDrops(v: nat, g: nat)
    requires v != 0 && g != 0 && Degree(v) >= Degree(g)
    ensures var w := Xor(v, ShiftLeft(g, Degree(v) - Degree(g)));
            w == 0 || Degree(w) < Degree(v)
  {
    ShiftRaisesDegree(g, Degree(v) - Degree(g));
    LeadingTermsCancel(v, ShiftLeft(g, Degree(v) - Degree(g)));
  }

  // ----- The remainder -----

  function Size(v: nat): nat { if v == 0 then 0 else 1 + Degree(v) }

  function Remainder(value: nat, g: nat): nat
    requires g != 0
    decreases Size(value)
  {
    if value == 0 || Degree(value) < Degree(g) then value
    else
      StepDrops(value, g);
      Remainder(Xor(value, ShiftLeft(g, Degree(value) - Degree(g))), g)
  }

  // q(x) g(x), where q is the sum of the listed powers of x.
  ghost function Product(g: nat, powers: seq<nat>): nat {
    if powers == [] then 0 else Xor(ShiftLeft(g, powers[0]), Product(g, powers[1..]))
  }
  ghost predicate IsMultiple(v: nat, g: nat) { exists powers: seq<nat> :: v == Product(g, powers) }

  lemma {:induction false} RemainderLeavesMultiple(value: nat, g: nat)
    requires g != 0
    ensures IsMultiple(Xor(value, Remainder(value, g)), g)
    ensures Size(Remainder(value, g)) <= Degree(g)
    decreases Size(value)
  {
    if value == 0 || Degree(value) < Degree(g) {
      XorSelf(value);
      assert Product(g, []) == 0;
    } else {
      var k := Degree(value) - Degree(g);
      var s, r := ShiftLeft(g, k), Remainder(value, g);
      StepDrops(value, g);
      RemainderLeavesMultiple(Xor(value, s), g);
      var powers: seq<nat> :| Xor(Xor(value, s), r) == Product(g, powers);
      MoveTerm(value, s, r);
      var all := [k] + powers;
      assert all[1..] == powers;
      assert Xor(value, r) == Product(g, all);
    }
  }
  lemma MoveTerm(v: nat, s: nat, r: nat)
    ensures Xor(s, Xor(Xor(v, s), r)) == Xor(v, r)
  {
    XorComm(v, s);
    XorAssoc(s, v, r);
    XorAssoc(s, s, Xor(v, r));
    XorSelf(s);
    XorZero(Xor(v, r));
  }
  lemma {:induction false} XorComm(a: nat, b: nat)
    ensures Xor(a, b) == Xor(b, a)
    decreases a + b
  {
    if a + b > 0 { XorComm(a / 2, b / 2); }
  }

  // A remainder fits below a value shifted past the generator's degree, so joining the two with a
  // bitwise or is the same as adding them, and the joined word is a multiple of the generator.
  lemma {:induction false} JoinLow(v: nat, m: nat, r: nat)
    requires Size(r) <= m
    ensures Or(r, ShiftLeft(v, m)) == Xor(ShiftLeft(v, m), r)
    ensures ShiftRight(Or(r, ShiftLeft(v, m)), m) == v
    decreases m
  {
    hide Xor, Or, Degree, Size;
    var w := ShiftLeft(v, m);
    if m == 0 { NoBits(r); XorZero(v); OrZero(v); } else {
      HalfIsSmaller(r, m);
      JoinLow(v, m - 1, r / 2);
      HalfOfXor(w, r);
      HalfOfOr(r, w);
      Halves(Or(r, w), Xor(w, r));
    }
  }
  lemma NoBits(r: nat) requires Size(r) <= 0 ensures r == 0 {}
  lemma HalfIsSmaller(r: nat, m: nat) requires Size(r) <= m && m > 0 ensures Size(r / 2) <= m - 1 {}
  lemma HalfOfOr(a: nat, b: nat)
    ensures Or(a, b) / 2 == Or(a / 2, b / 2)
    ensures Or(a, b) % 2 == if a % 2 == 1 || b % 2 == 1 then 1 else 0
  {}
  function ShiftRight(v: nat, m: nat): nat
    decreases m
  {
    if m == 0 then v else ShiftRight(v / 2, m - 1)
  }
  lemma {:induction false} OrZero(a: nat)
    ensures Or(0, a) == a
  {
    if a > 0 { OrZero(a / 2); }
  }

  // The word drawn for `data`: the data bits above, the remainder in the freed low bits.
  function Word(data: nat, g: nat): nat
    requires g != 0
  {
    Or(Remainder(ShiftLeft(data, Degree(g)), g), ShiftLeft(data, Degree(g)))
  }

  lemma WordIsCodeword(data: nat, g: nat)
    requires g != 0
    ensures IsMultiple(Word(data, g), g)
    ensures ShiftRight(Word(data, g), Degree(g)) == data
  {
    var value := ShiftLeft(data, Degree(g));
    RemainderLeavesMultiple(value, g);
    JoinLow(data, Degree(g), Remainder(value, g));
  }

  method Bch(value: nat, polynomial: nat) returns (result: nat)
    requires polynomial != 0
    ensures result == Remainder(value, polynomial)
  {
    result := value;
    var degree := Degree(polynomial);
    while result != 0 && Degree(result) >= degree
      invariant Remainder(result, polynomial) == Remainder(value, polynomial)
      decreases Size(result)
    {
      StepDrops(result, polynomial);
      result := Xor(result, ShiftLeft(polynomial, Degree(result) - degree));
    }
  }
}
