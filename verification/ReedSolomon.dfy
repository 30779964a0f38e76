/** The error-correction codewords of one block: a shift register that divides the data polynomial
    by the generator polynomial (x + 1)(x + a)...(x + a^23). Polynomials are sequences of
    coefficients, the highest degree first. */
module ReedSolomon {
  import opened GaloisField

  const EC_CODEWORDS_PER_BLOCK: nat := 24

  // ----- Polynomials over GF(256) -----

  function Eval(p: seq<bv8>, z: bv8): bv8 {
    if p == [] then 0 else Xor(Mul(Eval(p[..|p| - 1], z), z), p[|p| - 1])
  }

  function Pow(z: bv8, k: nat): bv8 { if k == 0 then 1 else Mul(Pow(z, k - 1), z) }

  function Plus(p: seq<bv8>, q: seq<bv8>): (r: seq<bv8>)
    requires |p| == |q|
    ensures |r| == |p|
  {
    seq(|p|, i requires 0 <= i < |p| => Xor(p[i], q[i]))
  }

  function Scale(p: seq<bv8>, a: bv8): (r: seq<bv8>)
    ensures |r| == |p|
  {
    seq(|p|, i requires 0 <= i < |p| => Mul(p[i], a))
  }

  function Zeros(n: nat): (r: seq<bv8>) ensures |r| == n { seq(n, _ => 0) }

  // p(x) times (x + a).
  function TimesLinear(p: seq<bv8>, a: bv8): (r: seq<bv8>)
    ensures |r| == |p| + 1
  {
    Plus(p + [0], [0] + Scale(p, a))
  }

  lemma {:induction false} EvalPlus(p: seq<bv8>, q: seq<bv8>, z: bv8)
    requires |p| == |q|
    ensures Eval(Plus(p, q), z) == Xor(Eval(p, z), Eval(q, z))
    decreases |p|
  {
    hide Xor, Mul;
    if p == [] { XorSelf(0); } else {
      var n := |p| - 1;
      assert Plus(p, q)[..n] == Plus(p[..n], q[..n]);
      EvalPlus(p[..n], q[..n], z);
      MulXorLeft(Eval(p[..n], z), Eval(q[..n], z), z);
      XorSwap(Mul(Eval(p[..n], z), z), Mul(Eval(q[..n], z), z), p[n], q[n]);
    }
  }

  lemma {:induction false} EvalScale(p: seq<bv8>, a: bv8, z: bv8)
    ensures Eval(Scale(p, a), z) == Mul(Eval(p, z), a)
    decreases |p|
  {
    hide Xor, Mul;
    if p == [] { MulZero(a); } else {
      var n := |p| - 1;
      var e := Eval(p[..n], z);
      assert Scale(p, a)[..n] == Scale(p[..n], a);
      EvalScale(p[..n], a, z);
      MulXorLeft(Mul(e, z), p[n], a);
      MulAssoc(e, a, z);
      MulCommutes(a, z);
      MulAssoc(e, z, a);
    }
  }

  lemma {:induction false} EvalConcat(p: seq<bv8>, q: seq<bv8>, z: bv8)
    ensures Eval(p + q, z) == Xor(Mul(Eval(p, z), Pow(z, |q|)), Eval(q, z))
    decreases |q|
  {
    hide Xor, Mul;
    if q == [] {
      assert p + q == p;
      MulCommutes(Eval(p, z), 1);
      MulOne(Eval(p, z));
      XorZero(Eval(p, z));
    } else {
      var n := |q| - 1;
      var e := Eval(p, z);
      assert (p + q)[..|p + q| - 1] == p + q[..n];
      EvalConcat(p, q[..n], z);
      MulXorLeft(Mul(e, Pow(z, n)), Eval(q[..n], z), z);
      MulAssoc(e, Pow(z, n), z);
      XorAssoc(Mul(Mul(e, Pow(z, n)), z), Mul(Eval(q[..n], z), z), q[n]);
    }
  }

  lemma {:induction false} EvalZeros(n: nat, z: bv8)
    ensures Eval(Zeros(n), z) == 0
    decreases n
  {
    hide Xor, Mul;
    if n > 0 {
      assert Zeros(n)[..n - 1] == Zeros(n - 1);
      EvalZeros(n - 1, z);
      MulZero(z);
      XorSelf(0);
    }
  }

  lemma EvalSingle(c: bv8, z: bv8)
    ensures Eval([c], z) == c
  {
    hide Xor, Mul;
    assert [c][..0] == [];
    MulZero(z);
    XorZero(c);
  }

  lemma EvalAppend(p: seq<bv8>, c: bv8, z: bv8)
    ensures Eval(p + [c], z) == Xor(Mul(Eval(p, z), z), c)
  {
    assert (p + [c])[..|p|] == p;
  }

  lemma EvalTimesLinear(p: seq<bv8>, a: bv8, z: bv8)
    ensures Eval(TimesLinear(p, a), z) == Mul(Eval(p, z), Xor(z, a))
  {
    hide Xor, Mul;
    var e := Eval(p, z);
    EvalPlus(p + [0], [0] + Scale(p, a), z);
    EvalAppend(p, 0, z);
    XorZero(Mul(e, z));
    EvalConcat([0], Scale(p, a), z);
    EvalSingle(0, z);
    MulZero(Pow(z, |p|));
    EvalScale(p, a, z);
    XorZero(Mul(e, a));
    MulXorRight(e, z, a);
  }

  // ----- The generator polynomial -----

  function Generator(degree: nat): (g: seq<bv8>)
    ensures |g| == degree + 1 && g[0] == 1
    decreases degree
  {
    if degree == 0 then [1] else
      MonicStep(Generator(degree - 1), Exp(degree - 1));
      TimesLinear(Generator(degree - 1), Exp(degree - 1))
  }

  lemma MonicStep(p: seq<bv8>, a: bv8)
    requires p != []
    ensures TimesLinear(p, a)[0] == p[0]
  {
    hide Xor, Mul;
    XorZero(p[0]);
  }

  // Its roots are exactly the listed powers of x.
  lemma {:induction false} GeneratorRoots(degree: nat, i: nat)
    requires i < degree
    ensures Eval(Generator(degree), Exp(i)) == 0
    decreases degree
  {
    hide Xor, Mul, Exp;
    var p, a := Generator(degree - 1), Exp(degree - 1);
    EvalTimesLinear(p, a, Exp(i));
    if i == degree - 1 {
      XorSelf(a);
      MulZero(Eval(p, a));
    } else {
      GeneratorRoots(degree - 1, i);
      MulZero(Xor(Exp(i), a));
    }
  }

  // ----- The shift register -----

  function Step(g: seq<bv8>, r: seq<bv8>, value: bv8): (s: seq<bv8>)
    requires |g| == |r| > 0
    ensures |s| == |r|
  {
    Plus(r[1..] + [0], Scale(g, Xor(value, r[0])))
  }

  function Register(g: seq<bv8>, data: seq<bv8>): (r: seq<bv8>)
    requires g != []
    ensures |r| == |g|
    decreases |data|
  {
    if data == [] then Zeros(|g|)
    else Step(g, Register(g, data[..|data| - 1]), data[|data| - 1])
  }

  // The generator is monic, so where it vanishes its tail takes the value z^n.
  lemma TailAtRoot(g: seq<bv8>, z: bv8)
    requires Eval([1] + g, z) == 0
    ensures Eval(g, z) == Pow(z, |g|)
  {
    EvalConcat([1], g, z);
    EvalSingle(1, z);
    MulOne(Pow(z, |g|));
    XorCancel(Pow(z, |g|), Eval(g, z));
    hide Xor, Mul;
  }

  lemma ShiftLeading(r: seq<bv8>, z: bv8)
    requires r != []
    ensures Mul(Eval(r, z), z) == Xor(Mul(r[0], Pow(z, |r|)), Eval(r[1..] + [0], z))
  {
    hide Xor, Mul, Eval;
    var tail, low := r[1..], Pow(z, |r| - 1);
    assert r == [r[0]] + tail;
    EvalConcat([r[0]], tail, z);
    EvalSingle(r[0], z);
    MulXorLeft(Mul(r[0], low), Eval(tail, z), z);
    MulAssoc(r[0], low, z);
    EvalAppend(tail, 0, z);
    XorZero(Mul(Eval(tail, z), z));
  }

  lemma StepAtRoot(g: seq<bv8>, r: seq<bv8>, value: bv8, z: bv8)
    requires |g| == |r| > 0
    requires Eval([1] + g, z) == 0
    ensures Eval(Step(g, r, value), z) == Xor(Mul(Eval(r, z), z), Mul(value, Pow(z, |g|)))
  {
    var top := Pow(z, |g|);
    var factor := Xor(value, r[0]);
    var shifted := r[1..] + [0];
    TailAtRoot(g, z);
    ShiftLeading(r, z);
    EvalPlus(shifted, Scale(g, factor), z);
    EvalScale(g, factor, z);
    MulCommutes(top, factor);
    MulXorLeft(value, r[0], top);
    XorRotate(Eval(shifted, z), Mul(value, top), Mul(r[0], top));
    hide Xor, Mul, Eval, Pow, Plus, Scale;
  }

  lemma XorRotate(t: bv8, v: bv8, r: bv8)
    ensures Xor(t, Xor(v, r)) == Xor(Xor(r, t), v)
  {
    XorComm(v, r);
    XorAssoc(t, r, v);
    XorComm(t, r);
    hide Xor;
  }

  // At every root of the generator the register holds data(z) z^n: it is the division remainder.
  lemma {:induction false} RegisterAtRoot(g: seq<bv8>, data: seq<bv8>, z: bv8)
    requires g != [] && Eval([1] + g, z) == 0
    ensures Eval(Register(g, data), z) == Mul(Eval(data, z), Pow(z, |g|))
    decreases |data|
  {
    hide Xor, Mul;
    if data == [] {
      EvalZeros(|g|, z);
      MulZero(Pow(z, |g|));
    } else {
      var n := |data| - 1;
      var e, top := Eval(data[..n], z), Pow(z, |g|);
      RegisterAtRoot(g, data[..n], z);
      StepAtRoot(g, Register(g, data[..n]), data[n], z);
      MulXorLeft(Mul(e, z), data[n], top);
      MulAssoc(e, top, z);
      MulCommutes(top, z);
      MulAssoc(e, z, top);
    }
  }

  function CheckCodewords(data: seq<bv8>): (r: seq<bv8>)
    ensures |r| == EC_CODEWORDS_PER_BLOCK
  {
    Register(Generator(EC_CODEWORDS_PER_BLOCK)[1..], data)
  }

  function Codeword(data: seq<bv8>): (c: seq<bv8>)
    ensures |c| == |data| + EC_CODEWORDS_PER_BLOCK
  {
    data + CheckCodewords(data)
  }

  // A word the standard accepts as error-free: every syndrome is zero.
  ghost predicate ZeroSyndromes(word: seq<bv8>) {
    forall i: nat :: i < EC_CODEWORDS_PER_BLOCK ==> Eval(word, Exp(i)) == 0
  }

  lemma CodewordHasZeroSyndromes(data: seq<bv8>)
    ensures ZeroSyndromes(Codeword(data))
  {
    forall i: nat | i < EC_CODEWORDS_PER_BLOCK ensures Eval(Codeword(data), Exp(i)) == 0 {
      var full := Generator(EC_CODEWORDS_PER_BLOCK);
      var z := Exp(i);
      hide Xor, Mul, Exp;
      assert full == [1] + full[1..];
      GeneratorRoots(EC_CODEWORDS_PER_BLOCK, i);
      RegisterAtRoot(full[1..], data, z);
      EvalConcat(data, CheckCodewords(data), z);
      XorSelf(Eval(CheckCodewords(data), z));
    }
  }

  // ----- Minimum distance -----

  function Weight(c: seq<bv8>): nat {
    if c == [] then 0 else Weight(c[..|c| - 1]) + (if c[|c| - 1] != 0 then 1 else 0)
  }

  function Distance(u: seq<bv8>, v: seq<bv8>): nat
    requires |u| == |v|
  {
    Weight(Plus(u, v))
  }

  function Dot(c: seq<bv8>, v: seq<bv8>): bv8
    requires |c| == |v|
    decreases |c|
  {
    if c == [] then 0
    else Xor(Dot(c[..|c| - 1], v[..|v| - 1]), Mul(c[|c| - 1], v[|v| - 1]))
  }

  // (x^m)^j, and how it grows in either argument.
  function PowerOf(m: nat, j: nat): bv8 { Exp(j * m) }

  lemma PowerOfZero(j: nat)
    ensures PowerOf(0, j) == 1
  {
    assert j * 0 == 0;
  }
  lemma PowerOfNextPlace(m: nat, j: nat)
    ensures PowerOf(m + 1, j) == Mul(PowerOf(m, j), Exp(j))
  {
    assert j * (m + 1) == j * m + j;
    ExpAdd(j * m, j);
  }
  lemma PowerOfNextExponent(m: nat, j: nat)
    ensures PowerOf(m, j + 1) == Mul(Exp(m), PowerOf(m, j))
  {
    assert (j + 1) * m == m + j * m;
    ExpAdd(m, j * m);
  }

  // Position k of a word of length n stands for X_k = x^(n-1-k). `Values` is f(X_k) X_k^j over
  // all positions, `Powers` is X_k^j.
  function Values(n: nat, j: nat, f: seq<bv8>): (v: seq<bv8>)
    ensures |v| == n
  {
    seq(n, k requires 0 <= k < n => Mul(Eval(f, Exp(n - 1 - k)), PowerOf(n - 1 - k, j)))
  }

  function Powers(n: nat, j: nat): (v: seq<bv8>)
    ensures |v| == n
  {
    seq(n, k requires 0 <= k < n => PowerOf(n - 1 - k, j))
  }

  lemma {:induction false} DotPlus(c: seq<bv8>, u: seq<bv8>, v: seq<bv8>)
    requires |c| == |u| == |v|
    ensures Dot(c, Plus(u, v)) == Xor(Dot(c, u), Dot(c, v))
    decreases |c|
  {
    hide Xor, Mul;
    if c == [] { XorSelf(0); } else {
      var n := |c| - 1;
      assert Plus(u, v)[..n] == Plus(u[..n], v[..n]);
      DotPlus(c[..n], u[..n], v[..n]);
      MulXorRight(c[n], u[n], v[n]);
      XorSwap(Dot(c[..n], u[..n]), Dot(c[..n], v[..n]), Mul(c[n], u[n]), Mul(c[n], v[n]));
    }
  }

  lemma {:induction false} DotScale(c: seq<bv8>, u: seq<bv8>, a: bv8)
    requires |c| == |u|
    ensures Dot(c, Scale(u, a)) == Mul(Dot(c, u), a)
    decreases |c|
  {
    hide Xor, Mul;
    if c == [] { MulZero(a); } else {
      var n := |c| - 1;
      assert Scale(u, a)[..n] == Scale(u[..n], a);
      DotScale(c[..n], u[..n], a);
      MulXorLeft(Dot(c[..n], u[..n]), Mul(c[n], u[n]), a);
      MulAssoc(c[n], u[n], a);
    }
  }

  lemma PowersStep(n: nat, j: nat)
    ensures Powers(n + 1, j) == Scale(Powers(n, j), Exp(j)) + [1]
  {
    hide Xor, Mul, Exp, PowerOf;
    forall k: nat | k < n ensures Powers(n + 1, j)[k] == Scale(Powers(n, j), Exp(j))[k] {
      PowerOfNextPlace(n - 1 - k, j);
    }
    PowerOfZero(j);
  }

  lemma {:induction false} EvalAsDot(c: seq<bv8>, j: nat)
    ensures Eval(c, Exp(j)) == Dot(c, Powers(|c|, j))
    decreases |c|
  {
    hide Xor, Mul, Exp, Powers, Scale;
    if c != [] {
      var n := |c| - 1;
      EvalAsDot(c[..n], j);
      PowersStep(n, j);
      DotScale(c[..n], Powers(n, j), Exp(j));
      MulCommutes(c[n], 1);
      MulOne(c[n]);
    }
  }

  // f(X_k) X_k^j for f = h x + a is h(X_k) X_k^(j+1) plus a X_k^j.
  lemma ValuesStep(n: nat, j: nat, h: seq<bv8>, a: bv8)
    ensures Values(n, j, h + [a]) == Plus(Values(n, j + 1, h), Scale(Powers(n, j), a))
  {
    hide Xor, Mul, Exp, Eval, PowerOf;
    forall k: nat | k < n
      ensures Values(n, j, h + [a])[k] == Plus(Values(n, j + 1, h), Scale(Powers(n, j), a))[k]
    {
      var m: nat := n - 1 - k;
      var e, x, xj := Eval(h, Exp(m)), Exp(m), PowerOf(m, j);
      EvalAppend(h, a, x);
      MulXorLeft(Mul(e, x), a, xj);
      MulAssoc(e, x, xj);
      PowerOfNextExponent(m, j);
      MulCommutes(a, xj);
    }
  }

  // The check equations say every polynomial of degree below 24 sums to zero against the word.
  lemma {:induction false} LowDegreeVanishes(c: seq<bv8>, j: nat, f: seq<bv8>)
    requires ZeroSyndromes(c) && j + |f| <= EC_CODEWORDS_PER_BLOCK
    ensures Dot(c, Values(|c|, j, f)) == 0
    decreases |f|
  {
    hide Xor, Mul, Exp, Eval, Values, Powers, Scale, Plus;
    if f == [] {
      ValuesOfNothing(|c|, j);
      DotScale(c, Powers(|c|, j), 0);
      MulZero(Dot(c, Powers(|c|, j)));
    } else {
      var n, m := |c|, |f| - 1;
      var h, a := f[..m], f[m];
      assert f == h + [a];
      ValuesStep(n, j, h, a);
      LowDegreeVanishes(c, j + 1, h);
      DotPlus(c, Values(n, j + 1, h), Scale(Powers(n, j), a));
      DotScale(c, Powers(n, j), a);
      EvalAsDot(c, j);
      MulZero(a);
      XorSelf(0);
    }
  }

  lemma ValuesOfNothing(n: nat, j: nat)
    ensures Values(n, j, []) == Scale(Powers(n, j), 0)
  {
    hide Xor, Mul, Exp, PowerOf, Eval;
    forall k: nat | k < n ensures Values(n, j, [])[k] == Scale(Powers(n, j), 0)[k] {
      NoTerm(n - 1 - k, j);
      assert Values(n, j, [])[k] == Mul(Eval([], Exp(n - 1 - k)), PowerOf(n - 1 - k, j));
      assert Scale(Powers(n, j), 0)[k] == Mul(Powers(n, j)[k], 0);
    }
  }
  lemma NoTerm(m: nat, j: nat)
    ensures Mul(Eval([], Exp(m)), PowerOf(m, j)) == Mul(PowerOf(m, j), 0)
  {
    hide Mul, Exp, PowerOf;
    MulZero(PowerOf(m, j));
  }

  // The product of (x + X_k) over the nonzero positions k < m other than t.
  ghost function Locator(c: seq<bv8>, t: nat, m: nat): (f: seq<bv8>)
    requires t < |c| && m <= |c|
    ensures |f| == 1 + Weight(c[..m]) - (if t < m && c[t] != 0 then 1 else 0)
    decreases m
  {
    if m == 0 then [1] else
      assert c[..m][..m - 1] == c[..m - 1];
      var rest := Locator(c, t, m - 1);
      if m - 1 != t && c[m - 1] != 0 then TimesLinear(rest, Exp(|c| - m)) else rest
  }

  lemma {:induction false} LocatorZero(c: seq<bv8>, t: nat, m: nat, k: nat)
    requires t < |c| && m <= |c| && k < m && k != t && c[k] != 0
    ensures Eval(Locator(c, t, m), Exp(|c| - 1 - k)) == 0
    decreases m
  {
    hide Xor, Mul, Exp;
    var z, x, rest := Exp(|c| - 1 - k), Exp(|c| - m), Locator(c, t, m - 1);
    EvalTimesLinear(rest, x, z);
    if k == m - 1 {
      XorSelf(x);
      MulZero(Eval(rest, z));
    } else {
      LocatorZero(c, t, m - 1, k);
      MulZero(Xor(z, x));
    }
  }

  lemma {:induction false} LocatorNonzero(c: seq<bv8>, t: nat, m: nat)
    requires t < |c| <= 255 && m <= |c|
    ensures Eval(Locator(c, t, m), Exp(|c| - 1 - t)) != 0
    decreases m
  {
    hide Xor, Mul, Exp;
    var z := Exp(|c| - 1 - t);
    if m == 0 { EvalSingle(1, z); } else {
      LocatorNonzero(c, t, m - 1);
      if m - 1 != t && c[m - 1] != 0 {
        var x, rest := Exp(|c| - m), Locator(c, t, m - 1);
        EvalTimesLinear(rest, x, z);
        if |c| - m < |c| - 1 - t { ExpDistinct(|c| - m, |c| - 1 - t); } else { ExpDistinct(|c| - 1 - t, |c| - m); }
        XorCancel(z, x);
        NoZeroDivisors(Eval(rest, z), Xor(z, x));
      }
    }
  }

  lemma {:induction false} DotZero(c: seq<bv8>, v: seq<bv8>)
    requires |c| == |v| && forall k :: 0 <= k < |c| ==> Mul(c[k], v[k]) == 0
    ensures Dot(c, v) == 0
    decreases |c|
  {
    hide Xor, Mul;
    if c != [] {
      DotZero(c[..|c| - 1], v[..|c| - 1]);
      XorSelf(0);
    }
  }

  lemma {:induction false} DotSingle(c: seq<bv8>, v: seq<bv8>, t: nat)
    requires |c| == |v| && t < |c|
    requires forall k :: 0 <= k < |c| && k != t ==> Mul(c[k], v[k]) == 0
    ensures Dot(c, v) == Mul(c[t], v[t])
    decreases |c|
  {
    hide Xor, Mul;
    var n := |c| - 1;
    if t == n {
      DotZero(c[..n], v[..n]);
    } else {
      DotSingle(c[..n], v[..n], t);
    }
    XorZero(Mul(c[t], v[t]));
  }

  // A nonzero word of at most 255 symbols that passes the check has at least 25 nonzero symbols.
  lemma MinimumWeight(c: seq<bv8>, t: nat)
    requires |c| <= 255 && ZeroSyndromes(c)
    requires t < |c| && c[t] != 0
    ensures Weight(c) > EC_CODEWORDS_PER_BLOCK
  {
    hide Xor, Mul, Exp, Eval, PowerOf, Dot, Values, Locator, Weight, ZeroSyndromes;
    if Weight(c) <= EC_CODEWORDS_PER_BLOCK {
      LightWordVanishes(c, t);
      TermAtIsNonzero(c, t);
      assert false;
    }
  }
  // The locator's values cancel every term of a light word but one.
  lemma LightWordVanishes(c: seq<bv8>, t: nat)
    requires |c| <= 255 && ZeroSyndromes(c) && t < |c| && c[t] != 0 && Weight(c) <= EC_CODEWORDS_PER_BLOCK
    ensures Mul(c[t], Values(|c|, 0, Locator(c, t, |c|))[t]) == 0
  {
    hide Xor, Mul, Exp, Eval, PowerOf, Dot, ZeroSyndromes;
    var n := |c|;
    assert c[..n] == c;
    var f := Locator(c, t, n);
    var v := Values(n, 0, f);
    LowDegreeVanishes(c, 0, f);
    forall k | 0 <= k < n && k != t ensures Mul(c[k], v[k]) == 0 {
      OtherTermsVanish(c, t, k);
    }
    DotSingle(c, v, t);
  }
  lemma TermAtIsNonzero(c: seq<bv8>, t: nat)
    requires |c| <= 255 && t < |c| && c[t] != 0
    ensures Mul(c[t], Values(|c|, 0, Locator(c, t, |c|))[t]) != 0
  {
    hide Xor, Mul, Exp, Eval, PowerOf, Dot, Locator;
    var n := |c|;
    var f := Locator(c, t, n);
    LocatorNonzero(c, t, n);
    PowerOfNonzero(n - 1 - t, 0);
    NoZeroDivisors(Eval(f, Exp(n - 1 - t)), PowerOf(n - 1 - t, 0));
    NoZeroDivisors(c[t], Values(n, 0, f)[t]);
  }

  lemma PowerOfNonzero(m: nat, j: nat)
    ensures PowerOf(m, j) != 0
  {
    ExpNonzero(j * m);
  }

  lemma OtherTermsVanish(c: seq<bv8>, t: nat, k: nat)
    requires t < |c| && k < |c| && k != t
    ensures Mul(c[k], Values(|c|, 0, Locator(c, t, |c|))[k]) == 0
  {
    hide Xor, Mul, Exp, Eval;
    var f := Locator(c, t, |c|);
    MulZero(PowerOf(|c| - 1 - k, 0));
    MulZero(c[k]);
    MulZero(Values(|c|, 0, f)[k]);
    if c[k] != 0 { LocatorZero(c, t, |c|, k); }
  }

  lemma ZeroSyndromesPlus(u: seq<bv8>, v: seq<bv8>)
    requires |u| == |v| && ZeroSyndromes(u) && ZeroSyndromes(v)
    ensures ZeroSyndromes(Plus(u, v))
  {
    forall i: nat | i < EC_CODEWORDS_PER_BLOCK ensures Eval(Plus(u, v), Exp(i)) == 0 {
      EvalPlus(u, v, Exp(i));
      XorSelf(0);
    }
  }

  // Two different error-free words of one length differ in at least 25 places.
  lemma MinimumDistance(u: seq<bv8>, v: seq<bv8>)
    requires |u| == |v| <= 255 && ZeroSyndromes(u) && ZeroSyndromes(v)
    requires u != v
    ensures Distance(u, v) > EC_CODEWORDS_PER_BLOCK
  {
    var t :| 0 <= t < |u| && u[t] != v[t];
    XorCancel(u[t], v[t]);
    ZeroSyndromesPlus(u, v);
    MinimumWeight(Plus(u, v), t);
  }

  lemma {:induction false} DistanceTriangle(u: seq<bv8>, v: seq<bv8>, w: seq<bv8>)
    requires |u| == |v| == |w|
    ensures Distance(u, v) <= Distance(u, w) + Distance(v, w)
    decreases |u|
  {
    hide Xor;
    if u != [] {
      var n := |u| - 1;
      DistanceTriangle(u[..n], v[..n], w[..n]);
      assert Plus(u, v)[..n] == Plus(u[..n], v[..n]);
      assert Plus(u, w)[..n] == Plus(u[..n], w[..n]);
      assert Plus(v, w)[..n] == Plus(v[..n], w[..n]);
      XorCancel(u[n], v[n]);
      XorCancel(u[n], w[n]);
      XorCancel(v[n], w[n]);
    }
  }

  // What the check codewords are for: with up to 12 damaged symbols the data is still determined.
  lemma TwelveErrorsAreCorrectable(data: seq<bv8>, other: seq<bv8>, received: seq<bv8>)
    requires |data| == |other| <= 255 - EC_CODEWORDS_PER_BLOCK
    requires |received| == |data| + EC_CODEWORDS_PER_BLOCK
    requires Distance(Codeword(data), received) <= EC_CODEWORDS_PER_BLOCK / 2
    requires Distance(Codeword(other), received) <= EC_CODEWORDS_PER_BLOCK / 2
    ensures data == other
  {
    CodewordHasZeroSyndromes(data);
    CodewordHasZeroSyndromes(other);
    DistanceTriangle(Codeword(data), Codeword(other), received);
    if Codeword(data) != Codeword(other) { MinimumDistance(Codeword(data), Codeword(other)); }
    assert data == Codeword(data)[..|data|] && other == Codeword(other)[..|data|];
  }

  // The check codewords are the only 24 symbols that complete the data to an error-free word.
  lemma CheckCodewordsAreUnique(data: seq<bv8>, check: seq<bv8>)
    requires |data| <= 255 - EC_CODEWORDS_PER_BLOCK && |check| == EC_CODEWORDS_PER_BLOCK
    requires ZeroSyndromes(data + check)
    ensures check == CheckCodewords(data)
  {
    CodewordHasZeroSyndromes(data);
    var u, v := data + check, Codeword(data);
    if u != v {
      MinimumDistance(u, v);
      SharedPrefix(data, check, CheckCodewords(data));
    }
    assert check == u[|data|..] && CheckCodewords(data) == v[|data|..];
  }

  lemma {:induction false} SharedPrefix(p: seq<bv8>, q: seq<bv8>, r: seq<bv8>)
    requires |q| == |r|
    ensures Distance(p + q, p + r) <= |q|
    decreases |p| + |q|
  {
    hide Xor;
    var n := |p| + |q| - 1;
    if q != [] {
      SharedPrefix(p, q[..|q| - 1], r[..|q| - 1]);
      assert Plus(p + q, p + r)[..n] == Plus(p + q[..|q| - 1], p + r[..|q| - 1]);
    } else if p != [] {
      SharedPrefix(p[..n], [], []);
      assert Plus(p + q, p + r)[..n] == Plus(p[..n] + [], p[..n] + []);
      XorSelf(p[n]);
    }
  }

  // ----- The loops over byte arrays -----

  method Polynomial(tables: Tables, degree: nat) returns (tail: seq<bv8>)
    requires tables.Valid() && degree <= 512
    ensures tail == Generator(degree)[1..]
  {
    hide Xor, Mul, Exp;
    var values := new bv8[1](_ => 1);
    for power := 0 to degree
      invariant tables.Valid() && values[..] == Generator(power)
    {
      values := MultiplyByLinear(tables, values, tables.exp[power]);
    }
    tail := values[1..];
  }

  method MultiplyByLinear(tables: Tables, values: array<bv8>, root: bv8) returns (next: array<bv8>)
    requires tables.Valid()
    ensures fresh(next) && next[..] == TimesLinear(values[..], root)
  {
    hide Xor, Mul, Exp, ExpUpTo, LogUpTo;
    next := new bv8[values.Length + 1](_ => 0);
    ghost var goal := TimesLinear(values[..], root);
    XorZero(0);
    for index := 0 to values.Length
      invariant next[..index] == goal[..index]
      invariant next[index] == if index == 0 then 0 else Mul(values[index - 1], root)
      invariant forall k :: index < k < next.Length ==> next[k] == 0
    {
      XorComm(next[index], values[index]);
      next[index] := Xor(next[index], values[index]);
      var product := tables.Multiply(values[index], root);
      XorZero(product);
      next[index + 1] := Xor(next[index + 1], product);
    }
    XorZero(next[values.Length]);
  }

  method ComputeCheckCodewords(tables: Tables, data: seq<bv8>) returns (remainder: array<bv8>)
    requires tables.Valid()
    ensures fresh(remainder) && remainder[..] == CheckCodewords(data)
  {
    hide Xor, Mul, Exp, ExpUpTo, LogUpTo;
    var generator := Polynomial(tables, EC_CODEWORDS_PER_BLOCK);
    remainder := new bv8[EC_CODEWORDS_PER_BLOCK](_ => 0);
    for index := 0 to |data|
      invariant fresh(remainder) && tables.Valid()
      invariant remainder[..] == Register(generator, data[..index])
    {
      Feed(tables, generator, remainder, data[index]);
      assert data[..index + 1][..index] == data[..index];
    }
    assert data[..|data|] == data;
  }

  // One data byte through the register: move every cell down, then add factor times the generator.
  method Feed(tables: Tables, generator: seq<bv8>, remainder: array<bv8>, value: bv8)
    requires tables.Valid() && remainder != tables.exp && remainder != tables.log
    requires |generator| == remainder.Length > 0
    modifies remainder
    ensures remainder[..] == Step(generator, old(remainder[..]), value)
  {
    hide Xor, Mul, Exp, Plus, Scale;
    var factor := Xor(value, remainder[0]);
    ShiftDown(remainder);
    AddMultiple(tables, generator, remainder, factor);
  }

  method ShiftDown(cells: array<bv8>)
    requires cells.Length > 0
    modifies cells
    ensures cells[..] == old(cells[1..]) + [0]
  {
    forall k | 0 <= k < cells.Length - 1 { cells[k] := cells[k + 1]; }
    cells[cells.Length - 1] := 0;
  }

  method AddMultiple(tables: Tables, generator: seq<bv8>, cells: array<bv8>, factor: bv8)
    requires tables.Valid() && cells != tables.exp && cells != tables.log
    requires |generator| == cells.Length
    modifies cells
    ensures cells[..] == Plus(old(cells[..]), Scale(generator, factor))
  {
    hide Xor, Mul, Exp, ExpUpTo, LogUpTo;
    for index := 0 to cells.Length
      invariant tables.Valid()
      invariant forall k :: 0 <= k < index ==> cells[k] == Xor(old(cells[k]), Mul(generator[k], factor))
      invariant forall k :: index <= k < cells.Length ==> cells[k] == old(cells[k])
    {
      var product := tables.Multiply(generator[index], factor);
      cells[index] := Xor(cells[index], product);
    }
  }
}
