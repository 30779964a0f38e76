/** Typed amounts: the keypad, the sanitizer for pasted text, the display, and the canonical amount. */
module MoneyInput {
  import opened Arithmetic
  import opened Results

  datatype Unit = Ones | Thousands | Millions

  const MAX_INPUT: nat := 9_999_999_999

  function Factor(unit: Unit): nat {
    match unit case Ones => 1 case Thousands => 1_000 case Millions => 1_000_000
  }
  function Places(unit: Unit): nat {
    match unit case Ones => 0 case Thousands => 3 case Millions => 6
  }

  // ----- Digits and numbers -----

  predicate IsDigit(c: char) { '0' <= c <= '9' }
  predicate DigitsOnly(s: string) { forall i :: 0 <= i < |s| ==> IsDigit(s[i]) }

  function DigitValue(c: char): nat
    requires IsDigit(c)
  {
    c as int - '0' as int
  }
  function DigitChar(d: nat): (c: char)
    requires d < 10
    ensures IsDigit(c) && DigitValue(c) == d
  {
    ('0' as int + d) as char
  }
  function Parse(s: string): nat
    requires DigitsOnly(s)
  {
    if s == "" then 0 else 10 * Parse(s[..|s| - 1]) + DigitValue(s[|s| - 1])
  }
  function Decimal(n: nat): (s: string)
    ensures DigitsOnly(s) && s != ""
  {
    if n < 10 then [DigitChar(n)] else Decimal(n / 10) + [DigitChar(n % 10)]
  }

  lemma {:induction false} ParseDecimal(n: nat)
    ensures Parse(Decimal(n)) == n
    decreases n
  {
    var s := Decimal(n);
    if n < 10 { assert s[..0] == ""; } else {
      ParseDecimal(n / 10);
      assert s[..|s| - 1] == Decimal(n / 10);
    }
  }

  // ----- Parts of a typed amount -----

  // Where the decimal point is, or the end.
  function Dot(s: string): (k: nat)
    ensures k <= |s| && (k < |s| ==> s[k] == '.') && forall i :: 0 <= i < k ==> s[i] != '.'
  {
    if s == "" then 0 else if s[0] == '.' then 0 else 1 + Dot(s[1..])
  }
  function Whole(s: string): string { s[..Dot(s)] }
  function Fraction(s: string): string { if Dot(s) < |s| then s[Dot(s) + 1..] else "" }

  predicate Typed(s: string) { DigitsOnly(Whole(s)) && DigitsOnly(Fraction(s)) }

  function Zeros(n: nat): (s: string)
    ensures |s| == n && DigitsOnly(s)
  {
    seq(n, _ => '0')
  }
  function Pad(s: string, n: nat): (r: string)
    requires DigitsOnly(s)
    ensures DigitsOnly(r) && (|s| <= n ==> |r| == n)
  {
    if |s| < n then s + Zeros(n - |s|) else s
  }

  function CanonicalNumber(digits: string, unit: Unit): Option<nat>
    requires Typed(digits)
  {
    if |Fraction(digits)| > Places(unit) then None
    else
      var amount := Parse(Whole(digits)) * Factor(unit) + if Places(unit) == 0 then 0
                                                          else Parse(Pad(Fraction(digits), Places(unit)));
      if amount <= MAX_INPUT then Some(amount) else None
  }
  predicate Fits(digits: string, unit: Unit)
    requires Typed(digits)
  {
    CanonicalNumber(digits, unit).Some?
  }

  // ----- The keypad -----

  function StripAllZeros(s: string): string { if s != "" && s[0] == '0' then StripAllZeros(s[1..]) else s }
  // Leading zeros before another digit.
  function StripZeros(s: string): string { if |s| >= 2 && s[0] == '0' && IsDigit(s[1]) then StripZeros(s[1..]) else s }

  function AppendDigit(digits: string, c: char, unit: Unit): string
    requires Typed(digits)
  {
    if !IsDigit(c) then digits
    else if Dot(digits) < |digits| then
      AppendParts(digits, c);
      if |Fraction(digits)| >= Places(unit) then digits
      else if Fits(digits + [c], unit) then digits + [c] else digits
    else
      StripTyped(digits, c);
      var next := StripZeros(StripAllZeros(digits) + [c]);
      if Fits(next, unit) then next else StripAllZeros(digits)
  }
  function AppendSeparator(digits: string, unit: Unit): string {
    if Places(unit) == 0 || Dot(digits) < |digits| then digits
    else if digits == "" then "0." else digits + "."
  }
  function RemoveDigit(digits: string): string { if digits == "" then "" else digits[..|digits| - 1] }

  lemma {:induction false} DotAt(s: string, k: nat)
    requires k <= |s| && (k < |s| ==> s[k] == '.') && forall i :: 0 <= i < k ==> s[i] != '.'
    ensures Dot(s) == k
  {
    if k > 0 { DotAt(s[1..], k - 1); }
  }
  lemma DigitsHaveNoDot(w: string)
    requires DigitsOnly(w)
    ensures forall i :: 0 <= i < |w| ==> w[i] != '.'
  {
    forall i | 0 <= i < |w| ensures w[i] != '.' { assert IsDigit(w[i]); }
  }
  lemma DotOf(w: string, f: string)
    requires DigitsOnly(w)
    ensures Dot(w + "." + f) == |w| && Whole(w + "." + f) == w && Fraction(w + "." + f) == f
    ensures Dot(w) == |w| && Whole(w) == w && Fraction(w) == ""
  {
    hide Dot, DigitsOnly;
    DigitsHaveNoDot(w);
    DotAt(w + "." + f, |w|);
    DotAt(w, |w|);
  }
  lemma AppendParts(digits: string, c: char)
    requires Typed(digits) && Dot(digits) < |digits| && IsDigit(c)
    ensures Typed(digits + [c]) && Whole(digits + [c]) == Whole(digits) &&
            Fraction(digits + [c]) == Fraction(digits) + [c]
  {
    hide Dot, DigitsOnly;
    var k := Dot(digits);
    DotAt(digits + [c], k);
    assert (digits + [c])[..k] == digits[..k];
    assert (digits + [c])[k + 1..] == digits[k + 1..] + [c];
    OneMoreDigit(Fraction(digits), c);
  }
  lemma OneMoreDigit(s: string, c: char)
    requires DigitsOnly(s) && IsDigit(c)
    ensures DigitsOnly(s + [c])
  {}
  lemma {:induction false} StripAllSound(s: string)
    requires DigitsOnly(s)
    ensures DigitsOnly(StripAllZeros(s)) && Parse(StripAllZeros(s)) == Parse(s)
  {
    if s != "" && s[0] == '0' {
      StripAllSound(s[1..]);
      LeadingZero(s[1..]);
      assert s == "0" + s[1..];
    }
  }
  lemma {:induction false} LeadingZero(s: string)
    requires DigitsOnly(s)
    ensures DigitsOnly("0" + s) && Parse("0" + s) == Parse(s)
    decreases |s|
  {
    var t := "0" + s;
    if s == "" { assert t[..0] == ""; } else {
      assert t[..|t| - 1] == "0" + s[..|s| - 1];
      LeadingZero(s[..|s| - 1]);
    }
  }
  lemma {:induction false} StripSound(s: string)
    requires DigitsOnly(s)
    ensures DigitsOnly(StripZeros(s)) && Parse(StripZeros(s)) == Parse(s) && (s != "" ==> StripZeros(s) != "") &&
            StripZeros(StripZeros(s)) == StripZeros(s)
  {
    if |s| >= 2 && s[0] == '0' && IsDigit(s[1]) {
      StripSound(s[1..]);
      LeadingZero(s[1..]);
      assert s == "0" + s[1..];
    }
  }
  lemma NoDotIsDigits(digits: string)
    requires Typed(digits) && Dot(digits) == |digits|
    ensures DigitsOnly(digits)
  {
    assert Whole(digits) == digits;
  }
  lemma StripTyped(digits: string, c: char)
    requires Typed(digits) && Dot(digits) == |digits| && IsDigit(c)
    ensures DigitsOnly(StripAllZeros(digits)) && DigitsOnly(StripAllZeros(digits) + [c])
    ensures Typed(StripZeros(StripAllZeros(digits) + [c])) && Typed(StripAllZeros(digits))
  {
    NoDotIsDigits(digits);
    StripAllSound(digits);
    StripSound(StripAllZeros(digits) + [c]);
    DotOf(StripZeros(StripAllZeros(digits) + [c]), "");
    DotOf(StripAllZeros(digits), "");
  }

  // ----- Keypad runs stay amounts -----

  lemma {:induction false} ParseMonotone(a: string, b: string)
    requires DigitsOnly(a) && DigitsOnly(b) && |a| == |b| && forall i :: 0 <= i < |a| ==> a[i] <= b[i]
    ensures Parse(a) <= Parse(b)
    decreases |a|
  {
    if a != "" { ParseMonotone(a[..|a| - 1], b[..|b| - 1]); }
  }
  lemma ShorterFraction(f: string, n: nat)
    requires DigitsOnly(f) && 0 < |f| <= n
    ensures DigitsOnly(f[..|f| - 1]) && Parse(Pad(f[..|f| - 1], n)) <= Parse(Pad(f, n))
  {
    hide Parse;
    ParseMonotone(Pad(f[..|f| - 1], n), Pad(f, n));
  }
  lemma SameParts(a: string, b: string, unit: Unit)
    requires Typed(a) && Typed(b) && Parse(Whole(a)) <= Parse(Whole(b)) && Fraction(a) == Fraction(b) && Fits(b, unit)
    ensures Fits(a, unit)
  {
    hide Parse, Pad, Whole, Fraction;
    Monotone(Factor(unit), Parse(Whole(a)), Parse(Whole(b)));
    Commutes(Factor(unit), Parse(Whole(a)));
    Commutes(Factor(unit), Parse(Whole(b)));
  }

  ghost predicate Held(digits: string, unit: Unit) { Typed(digits) && Fits(digits, unit) }

  lemma RemoveKeeps(digits: string, unit: Unit)
    requires Held(digits, unit)
    ensures Held(RemoveDigit(digits), unit)
  {
    hide Parse, Pad, Dot, Fits, DigitsOnly;
    if digits != "" {
      var shorter, k, n := RemoveDigit(digits), Dot(digits), |digits|;
      DotAt(shorter, if k < n - 1 then k else n - 1);
      if k == n {
        assert Whole(digits) == digits;
        RemovedWhole(digits);
        DotOf(shorter, "");
        DotOf(digits, "");
        SameParts(shorter, digits, unit);
      } else if k == n - 1 {
        assert Whole(shorter) == Whole(digits) &&
            Fraction(shorter) == Fraction(digits) by { assert shorter[..n - 1] == digits[..k];
            assert digits[k + 1..] == ""; }
        SameParts(shorter, digits, unit);
      } else {
        assert shorter[..k] == digits[..k] && shorter[k + 1..] == digits[k + 1..][..n - k - 2];
        RemovedFraction(digits, shorter, unit);
      }
    }
  }
  lemma RemovedWhole(w: string)
    requires DigitsOnly(w) && w != ""
    ensures DigitsOnly(w[..|w| - 1]) && Parse(w[..|w| - 1]) <= Parse(w)
  {}
  lemma RemovedFraction(digits: string, shorter: string, unit: Unit)
    requires Held(digits, unit) && Whole(shorter) == Whole(digits) && Fraction(digits) != "" &&
             Fraction(shorter) == Fraction(digits)[..|Fraction(digits)| - 1]
    ensures Held(shorter, unit)
  {
    hide Parse, Pad, Whole, Fraction;
    var f := Fraction(digits);
    ShorterFraction(f, Places(unit));
  }
  lemma SeparatorKeeps(digits: string, unit: Unit)
    requires Held(digits, unit)
    ensures Held(AppendSeparator(digits, unit), unit)
  {
    hide Parse, Pad, Dot, Fits, DigitsOnly, Places;
    if Dot(digits) == |digits| {
      NoDotIsDigits(digits);
      DotOf(digits, "");
      assert digits + "." + "" == digits + ".";
      if digits == "" {
        ZeroPoint();
        SameParts("0.", "", unit);
      } else {
        assert Typed(digits + ".");
        SameParts(digits + ".", digits, unit);
      }
    }
  }
  lemma ZeroPoint()
    ensures Typed("0.") && Typed("") && Parse(Whole("0.")) == 0 == Parse(Whole("")) &&
            Fraction("0.") == "" == Fraction("")
  {
    hide Dot;
    DotAt("0.", 1);
    DotAt("", 0);
    assert "0"[..0] == "";
    assert Whole("0.") == "0" && DigitsOnly("0") && Parse("0") == 0;
  }
  lemma DigitKeeps(digits: string, c: char, unit: Unit)
    requires Held(digits, unit)
    ensures Held(AppendDigit(digits, c, unit), unit)
  {
    hide Parse, Pad, Dot, Fits, DigitsOnly, StripZeros, StripAllZeros;
    if IsDigit(c) {
      if Dot(digits) < |digits| { AppendParts(digits, c); } else {
        StripTyped(digits, c);
        NoDotIsDigits(digits);
        StripAllSound(digits);
        DotOf(StripAllZeros(digits), "");
        assert Whole(digits) == digits;
        SameParts(StripAllZeros(digits), digits, unit);
      }
    }
  }

  datatype Key = Digit(c: char) | Separator | Backspace
  function Press(digits: string, key: Key, unit: Unit): string
    requires Typed(digits)
  {
    match key
    case Digit(c) => AppendDigit(digits, c, unit)
    case Separator => AppendSeparator(digits, unit)
    case Backspace => RemoveDigit(digits)
  }
  lemma PressKeeps(digits: string, key: Key, unit: Unit)
    requires Held(digits, unit)
    ensures Held(Press(digits, key, unit), unit)
  {
    hide Held, AppendDigit, AppendSeparator, RemoveDigit;
    match key
    case Digit(c) => DigitKeeps(digits, c, unit);
    case Separator => SeparatorKeeps(digits, unit);
    case Backspace => RemoveKeeps(digits, unit);
  }
  ghost predicate Reached(digits: string, keys: seq<Key>, unit: Unit)
    decreases |keys|
  {
    if keys == [] then digits == ""
    else
      exists before :: Typed(before) && Reached(before, keys[..|keys| - 1], unit) &&
          digits == Press(before, keys[|keys| - 1], unit)
  }
  // However it was typed: what the keypad shows is a whole amount within the limit.
  lemma {:induction false} EveryKeypadRunIsAnAmount(digits: string, keys: seq<Key>, unit: Unit)
    requires Reached(digits, keys, unit)
    ensures Typed(digits) && CanonicalNumber(digits, unit).Some? && CanonicalNumber(digits, unit).value <= MAX_INPUT
    decreases |keys|
  {
    hide Press, Typed, Held;
    if keys == [] { EmptyIsHeld(unit); } else {
      var before :| Typed(before) && Reached(before, keys[..|keys| - 1], unit) &&
          digits == Press(before, keys[|keys| - 1], unit);
      EveryKeypadRunIsAnAmount(before, keys[..|keys| - 1], unit);
      HeldWhen(before, unit);
      PressKeeps(before, keys[|keys| - 1], unit);
      HeldMeans(digits, unit);
    }
  }
  lemma HeldWhen(digits: string, unit: Unit)
    requires Typed(digits) && CanonicalNumber(digits, unit).Some?
    ensures Held(digits, unit)
  {}
  lemma HeldMeans(digits: string, unit: Unit)
    requires Held(digits, unit)
    ensures Typed(digits) && CanonicalNumber(digits, unit).Some? && CanonicalNumber(digits, unit).value <= MAX_INPUT
  {
    hide Parse, Pad;
  }
  lemma EmptyIsHeld(unit: Unit)
    ensures Typed("") && CanonicalNumber("", unit).Some? && CanonicalNumber("", unit).value <= MAX_INPUT
  {
    hide Parse, Zeros;
    ZeroPoint();
    ZerosParse(Places(unit));
    assert "" + Zeros(Places(unit)) == Zeros(Places(unit));
    assert |Pad("", Places(unit))| == Places(unit);
  }
  lemma {:induction false} ZerosParse(n: nat)
    ensures Parse(Zeros(n)) == 0 && Parse("") == 0
  {
    if n > 0 {
      ZerosParse(n - 1);
      assert Zeros(n)[..n - 1] == Zeros(n - 1);
    }
  }

  // ----- Pasted text -----

  // Keeps digits and separators, a comma becoming a point.
  function Clean(value: string): string {
    if value == "" then ""
    else
      (if IsDigit(value[0]) then [value[0]] else if value[0] == '.' || value[0] == ',' then "." else "") +
          Clean(value[1..])
  }
  function RemoveDots(s: string): string {
    if s == "" then "" else (if s[0] == '.' then "" else [s[0]]) + RemoveDots(s[1..])
  }
  predicate Cleaned(s: string) { forall i :: 0 <= i < |s| ==> IsDigit(s[i]) || s[i] == '.' }

  lemma {:induction false} CleanIsCleaned(value: string)
    ensures Cleaned(Clean(value))
  {
    if value != "" { CleanIsCleaned(value[1..]); }
  }
  lemma {:induction false} RemoveDotsDigits(s: string)
    requires Cleaned(s)
    ensures DigitsOnly(RemoveDots(s))
  {
    if s != "" {
      assert Cleaned(s[1..]);
      RemoveDotsDigits(s[1..]);
    }
  }
  lemma WholeDigits(s: string)
    requires Cleaned(s)
    ensures DigitsOnly(Whole(s)) && Cleaned(Fraction(s))
  {
    hide Dot;
  }
  lemma PrefixDigits(s: string, n: nat)
    requires DigitsOnly(s) && n <= |s|
    ensures DigitsOnly(s[..n])
  {}
  function Shorten(s: string, n: nat): string { if |s| <= n then s else s[..n] }

  function MaxDigits(unit: Unit): nat { MAX_INPUT / Factor(unit) }
  function CapToLimit(digits: string, unit: Unit): string
    requires Typed(digits)
  {
    if Fits(digits, unit) then digits else Decimal(MaxDigits(unit))
  }
  // The text with a decimal point, its parts already cleaned.
  function WithFraction(whole: string, fraction: string): string {
    (if whole == "" then "0" else whole) + "." + fraction
  }

  lemma PartsAreTyped(cleaned: string, places: nat)
    requires Cleaned(cleaned)
    ensures Typed(StripZeros(Whole(cleaned)))
    ensures Typed(WithFraction(StripZeros(Whole(cleaned)), Shorten(RemoveDots(Fraction(cleaned)), places)))
    ensures DigitsOnly(StripZeros(Whole(cleaned))) && DigitsOnly(Shorten(RemoveDots(Fraction(cleaned)), places))
  {
    hide Dot, Whole, Fraction, StripZeros, RemoveDots, DigitsOnly;
    WholeDigits(cleaned);
    StripSound(Whole(cleaned));
    RemoveDotsDigits(Fraction(cleaned));
    var whole, rest := StripZeros(Whole(cleaned)), RemoveDots(Fraction(cleaned));
    if |rest| > places { PrefixDigits(rest, places); }
    DotOf(whole, "");
    ZeroIsDigits();
    DotOf(if whole == "" then "0" else whole, Shorten(rest, places));
    TypedParts(whole, Shorten(rest, places));
  }
  lemma ZeroIsDigits() ensures DigitsOnly("0") && DigitsOnly("") && StripZeros("0") == "0" && StripZeros("") == "" {}
  lemma TypedParts(whole: string, fraction: string)
    requires DigitsOnly(whole) && DigitsOnly(fraction)
    ensures Typed(whole) && Typed(WithFraction(whole, fraction))
  {
    hide Dot, DigitsOnly;
    ZeroIsDigits();
    DotOf(whole, "");
    DotOf(if whole == "" then "0" else whole, fraction);
  }

  function SanitizeCleaned(cleaned: string, unit: Unit): string
    requires Cleaned(cleaned)
  {
    PartsAreTyped(cleaned, Places(unit));
    var whole := StripZeros(Whole(cleaned));
    if Dot(cleaned) == |cleaned| || Places(unit) == 0 then CapToLimit(whole, unit)
    else CapToLimit(WithFraction(whole, Shorten(RemoveDots(Fraction(cleaned)), Places(unit))), unit)
  }
  function Sanitize(value: string, unit: Unit): string {
    CleanIsCleaned(value);
    SanitizeCleaned(Clean(value), unit)
  }

  // What the sanitizer can return.
  ghost predicate Normal(d: string, unit: Unit) {
    Typed(d) && Fits(d, unit) && StripZeros(Whole(d)) == Whole(d) && Cleaned(d) &&
    (Dot(d) < |d| ==> Places(unit) > 0 && Whole(d) != "" && |Fraction(d)| <= Places(unit))
  }

  lemma {:induction false} DecimalIsStripped(n: nat)
    ensures StripZeros(Decimal(n)) == Decimal(n) && (n > 0 ==> Decimal(n)[0] != '0')
    decreases n
  {
    if n >= 10 {
      DecimalIsStripped(n / 10);
      assert Decimal(n)[0] == Decimal(n / 10)[0];
    } else if n > 0 {
      assert DigitValue('0') == 0;
    }
  }
  lemma WholeAmount(w: string, unit: Unit)
    requires DigitsOnly(w)
    ensures Typed(w) && (Fits(w, unit) <==> Parse(w) * Factor(unit) <= MAX_INPUT)
    ensures Fits(w, unit) ==> CanonicalNumber(w, unit) == Some(Parse(w) * Factor(unit))
  {
    hide Parse, Dot, DigitsOnly, Zeros, Pad, Whole, Fraction, Factor, Places;
    ZeroIsDigits();
    DotOf(w, "");
    EmptyFraction(unit);
  }
  lemma EmptyFraction(unit: Unit)
    ensures DigitsOnly("") && Parse(Pad("", Places(unit))) == 0
  {
    hide Parse, Zeros;
    ZerosParse(Places(unit));
    assert "" + Zeros(Places(unit)) == Zeros(Places(unit));
  }
  lemma CapIsNormal(unit: Unit)
    ensures Normal(Decimal(MaxDigits(unit)), unit)
  {
    hide Parse, Dot, Decimal, StripZeros, Fits, Typed;
    var d := Decimal(MaxDigits(unit));
    ParseDecimal(MaxDigits(unit));
    DecimalIsStripped(MaxDigits(unit));
    WholeAmount(d, unit);
    DotOf(d, "");
    Division(MAX_INPUT, Factor(unit));
  }
  lemma DigitsAreCleaned(d: string, f: string)
    requires DigitsOnly(d) && DigitsOnly(f)
    ensures Cleaned(d) && Cleaned(d + "." + f)
  {}

  lemma SanitizedIsNormal(cleaned: string, unit: Unit)
    requires Cleaned(cleaned)
    ensures Normal(SanitizeCleaned(cleaned, unit), unit)
  {
    hide Parse, Dot, StripZeros, RemoveDots, DigitsOnly, Fits, Cleaned, Decimal, Normal;
    PartsAreTyped(cleaned, Places(unit));
    CapIsNormal(unit);
    WholeDigits(cleaned);
    StripSound(Whole(cleaned));
    var whole, fraction := StripZeros(Whole(cleaned)), Shorten(RemoveDots(Fraction(cleaned)), Places(unit));
    if Dot(cleaned) == |cleaned| || Places(unit) == 0 {
      if Fits(whole, unit) { NormalWhole(whole, unit); }
    } else if Fits(WithFraction(whole, fraction), unit) { NormalParts(whole, fraction, unit); }
  }
  lemma NormalWhole(w: string, unit: Unit)
    requires DigitsOnly(w) && StripZeros(w) == w && Typed(w) && Fits(w, unit)
    ensures Normal(w, unit)
  {
    hide Dot, StripZeros, Fits, DigitsOnly, Typed;
    ZeroIsDigits();
    DotOf(w, "");
    DigitsAreCleaned(w, "");
  }
  lemma NormalParts(whole: string, f: string, unit: Unit)
    requires DigitsOnly(whole) && DigitsOnly(f) && StripZeros(whole) == whole && |f| <= Places(unit) && Places(unit) > 0
    requires Typed(WithFraction(whole, f)) && Fits(WithFraction(whole, f), unit)
    ensures Normal(WithFraction(whole, f), unit)
  {
    hide Dot, StripZeros, Fits, DigitsOnly, Typed;
    ZeroIsDigits();
    var w := if whole == "" then "0" else whole;
    DotOf(w, f);
    DigitsAreCleaned(w, f);
  }

  lemma {:induction false} CleanKeepsCleaned(s: string)
    requires Cleaned(s)
    ensures Clean(s) == s
  {
    if s != "" {
      assert Cleaned(s[1..]);
      CleanKeepsCleaned(s[1..]);
      assert s == [s[0]] + s[1..];
    }
  }
  lemma {:induction false} DigitsHaveNoDots(s: string)
    requires DigitsOnly(s)
    ensures RemoveDots(s) == s
  {
    if s != "" {
      assert DigitsOnly(s[1..]);
      DigitsHaveNoDots(s[1..]);
      assert s == [s[0]] + s[1..];
    }
  }
  // A sanitized text is left alone.
  lemma NormalIsFixed(d: string, unit: Unit)
    requires Normal(d, unit)
    ensures SanitizeCleaned(d, unit) == d
  {
    hide Parse, StripZeros, RemoveDots, DigitsOnly, Fits, Cleaned, Decimal, Dot;
    PartsAreTyped(d, Places(unit));
    DigitsHaveNoDots(Fraction(d));
    if Dot(d) < |d| { assert d == Whole(d) + "." + Fraction(d); } else { assert Whole(d) == d; }
  }
  lemma SanitizeIsIdempotent(value: string, unit: Unit)
    ensures Sanitize(Sanitize(value, unit), unit) == Sanitize(value, unit)
  {
    hide Clean, SanitizeCleaned, Normal;
    CleanIsCleaned(value);
    SanitizedIsNormal(Clean(value), unit);
    var d := Sanitize(value, unit);
    NormalIsClean(d, unit);
    CleanKeepsCleaned(d);
    NormalIsFixed(d, unit);
  }
  lemma NormalIsClean(d: string, unit: Unit)
    requires Normal(d, unit)
    ensures Cleaned(d) && Typed(d)
  {
    hide Fits, StripZeros, Dot;
  }

  // ----- The display -----

  // A space before every group of three digits from the right.
  function GroupThousands(digits: string): string
    decreases |digits|
  {
    if |digits| <= 3 then digits else GroupThousands(digits[..|digits| - 3]) + " " + digits[|digits| - 3..]
  }
  function FormatDisplay(digits: string, separator: char): string {
    if digits == "" then ""
    else if Dot(digits) == |digits| then GroupThousands(digits)
    else GroupThousands(Whole(digits)) + [separator] + Fraction(digits)
  }
  lemma {:induction false} CleanConcat(a: string, b: string)
    ensures Clean(a + b) == Clean(a) + Clean(b)
  {
    if a == "" { assert a + b == b; } else {
      assert (a + b)[1..] == a[1..] + b;
      CleanConcat(a[1..], b);
    }
  }
  lemma {:induction false} CleanUngroups(digits: string)
    requires DigitsOnly(digits)
    ensures Clean(GroupThousands(digits)) == digits
    decreases |digits|
  {
    hide Clean;
    if |digits| <= 3 { DigitsAreCleaned(digits, ""); CleanKeepsCleaned(digits); } else {
      var head, tail := digits[..|digits| - 3], digits[|digits| - 3..];
      CleanUngroups(head);
      DigitsAreCleaned(tail, "");
      CleanKeepsCleaned(tail);
      SpaceIsDropped();
      CleanConcat(GroupThousands(head) + " ", tail);
      CleanConcat(GroupThousands(head), " ");
    }
  }
  lemma SpaceIsDropped() ensures Clean(" ") == "" {}
  lemma SeparatorIsPoint(separator: char)
    requires separator == '.' || separator == ','
    ensures Clean([separator]) == "."
  {
    assert [separator][1..] == "";
  }

  // Reading back what is displayed gives the digits that were typed, with either separator.
  lemma SanitizeUndoesDisplay(value: string, unit: Unit, separator: char)
    requires separator == '.' || separator == ','
    ensures Sanitize(FormatDisplay(Sanitize(value, unit), separator), unit) == Sanitize(value, unit)
  {
    hide Clean, SanitizeCleaned, Normal, FormatDisplay;
    CleanIsCleaned(value);
    SanitizedIsNormal(Clean(value), unit);
    var d := Sanitize(value, unit);
    NormalIsClean(d, unit);
    DisplayIsClean(d, separator);
    NormalIsFixed(d, unit);
  }
  lemma DisplayIsClean(d: string, separator: char)
    requires Typed(d) && (separator == '.' || separator == ',')
    ensures Clean(FormatDisplay(d, separator)) == d
  {
    hide Clean, Dot, DigitsOnly, GroupThousands;
    if d == "" { EmptyIsClean(); } else if Dot(d) == |d| {
      NoDotIsDigits(d);
      CleanUngroups(d);
    } else {
      var w, f := Whole(d), Fraction(d);
      CleanUngroups(w);
      SeparatorIsPoint(separator);
      DigitsAreCleaned(f, f);
      CleanKeepsCleaned(f);
      CleanConcat(GroupThousands(w) + [separator], f);
      CleanConcat(GroupThousands(w), [separator]);
      assert d == w + "." + f;
    }
  }
  lemma EmptyIsClean() ensures Clean("") == "" {}

  // ----- The canonical amount -----

  datatype InputState = InputState(digits: string, unit: Unit)

  function ToCanonical(state: InputState): string
    requires Typed(state.digits)
  {
    if state.digits == "" then ""
    else match CanonicalNumber(state.digits, state.unit) case Some(amount) => Decimal(amount) case None => ""
  }
  // In the preferred unit when it divides evenly, otherwise in ones.
  function FromCanonical(canonical: string, preferred: Unit): InputState
    requires DigitsOnly(canonical)
  {
    if canonical == "" then InputState("", preferred)
    else
      var amount := Parse(canonical);
      if amount % Factor(preferred) == 0 then InputState(Decimal(amount / Factor(preferred)), preferred)
      else InputState(canonical, Ones)
  }
  lemma FromCanonicalIsTyped(canonical: string, preferred: Unit)
    requires DigitsOnly(canonical)
    ensures Typed(FromCanonical(canonical, preferred).digits)
  {
    hide Dot, Parse, Decimal, DigitsOnly;
    DotOf(canonical, "");
    DotOf(Decimal(Parse(canonical) / Factor(preferred)), "");
    ZeroIsDigits();
  }
  // Whatever unit it is shown in, an amount comes back - exactly up to the limit.
  lemma CanonicalRoundTrip(n: nat, preferred: Unit)
    ensures Typed(FromCanonical(Decimal(n), preferred).digits)
    ensures ToCanonical(FromCanonical(Decimal(n), preferred)) == Decimal(n) <==> n <= MAX_INPUT
  {
    hide Dot, Parse, Decimal, DigitsOnly, Typed, CanonicalNumber;
    FromCanonicalIsTyped(Decimal(n), preferred);
    ParseDecimal(n);
    var state := FromCanonical(Decimal(n), preferred);
    if n % Factor(preferred) == 0 {
      ParseDecimal(n / Factor(preferred));
      WholeAmount(Decimal(n / Factor(preferred)), preferred);
      Division(n, Factor(preferred));
    } else {
      WholeAmount(Decimal(n), Ones);
    }
  }
}
