/** Decimal prices in the administration service: what `normalizePrice` accepts and what its
    canonical form means. */
module Price {
  import opened Common
  import opened Text

  const PRECISION := 2
  const TOTAL_DIGITS := 12

  predicate IsDigit(c: char) {
    '0' <= c <= '9'
  }

  predicate AllDigits(s: string) {
    forall i | 0 <= i < |s| :: IsDigit(s[i])
  }

  function Digit(c: char): nat
    requires IsDigit(c)
  {
    (c as int) - ('0' as int)
  }

  // ----- meaning, independent of the code

  function Number(digits: string): nat
    requires AllDigits(digits)
  {
    if digits == [] then 0 else 10 * Number(digits[..|digits| - 1]) + Digit(digits[|digits| - 1])
  }

  function Pow10(n: nat): (p: nat)
    ensures p > 0
  {
    if n == 0 then 1 else 10 * Pow10(n - 1)
  }

  /** The number a decimal numeral denotes: whole part plus fraction. */
  function Value(whole: string, fraction: string): real
    requires AllDigits(whole) && AllDigits(fraction)
  {
    Number(whole) as real + Number(fraction) as real / Pow10(|fraction|) as real
  }

  /** `whole` or `whole.fraction`. */
  function Numeral(whole: string, fraction: string): string {
    if fraction == [] then whole else whole + "." + fraction
  }

  // ----- the code

  /** strings.Index(s, "."), or |s| when there is none. */
  function Point(s: string): (k: nat)
    ensures k <= |s| && (k < |s| ==> s[k] == '.') && forall i | 0 <= i < k :: s[i] != '.'
  {
    if s == [] || s[0] == '.' then 0 else
      var k := Point(s[1..]);
      assert forall i | 1 <= i < k + 1 :: s[i] == s[1..][i - 1];
      1 + k
  }

  function StripZeros(s: string): string {
    if s != [] && s[0] == '0' then StripZeros(s[1..]) else s
  }

  function WholeOf(value: string): string {
    value[..Point(value)]
  }

  function FractionOf(value: string): string {
    if Point(value) < |value| then value[Point(value) + 1..] else []
  }

  predicate Acceptable(value: string) {
    var whole, fraction := WholeOf(value), FractionOf(value);
    && whole != [] && AllDigits(whole) && AllDigits(fraction)
    && (Point(value) < |value| ==> 1 <= |fraction| <= PRECISION)
    && |whole| + |fraction| <= TOTAL_DIGITS
  }

  function Canonical(whole: string, fraction: string): string
    requires |fraction| <= PRECISION
  {
    var stripped := StripZeros(whole);
    (if stripped == [] then "0" else stripped) + "." + fraction + seq(PRECISION - |fraction|, _ => '0')
  }

  function Normalize(text: string): Option<string> {
    var value := TrimSpace(text);
    if Acceptable(value) then Some(Canonical(WholeOf(value), FractionOf(value))) else None
  }

  method DecimalDigits(value: string) returns (ok: bool)
    ensures ok <==> AllDigits(value)
  {
    for i := 0 to |value|
      invariant forall k | 0 <= k < i :: IsDigit(value[k])
    {
      if value[i] < '0' || value[i] > '9' { return false; }
    }
    return true;
  }

  method Cut(value: string) returns (whole: string, fraction: string, found: bool)
    ensures whole == WholeOf(value) && fraction == FractionOf(value) && found == (Point(value) < |value|)
  {
    var k := 0;
    while k < |value| && value[k] != '.'
      invariant k <= |value| && forall i | 0 <= i < k :: value[i] != '.'
    {
      k := k + 1;
    }
    assert k == Point(value);
    if k < |value| { return value[..k], value[k + 1..], true; }
    return value, [], false;
  }

  method TrimLeftZeros(s: string) returns (r: string)
    ensures r == StripZeros(s)
  {
    r := s;
    while r != [] && r[0] == '0'
      invariant StripZeros(r) == StripZeros(s)
      decreases |r|
    {
      r := r[1..];
    }
  }

  method NormalizePrice(text: string) returns (price: Option<string>)
    ensures price == Normalize(text)
  {
    var value := TrimSpace(text);
    var whole, fraction, hasFraction := Cut(value);
    var fractionDigits := DecimalDigits(fraction);
    var wholeDigits := DecimalDigits(whole);
    var invalidFraction := hasFraction && (fraction == [] || |fraction| > PRECISION || !fractionDigits);
    if whole == [] || !wholeDigits || invalidFraction { return None; }
    if |whole| + |fraction| > TOTAL_DIGITS { return None; }
    whole := TrimLeftZeros(whole);
    if whole == [] { whole := "0"; }
    return Some(whole + "." + fraction + seq(PRECISION - |fraction|, _ => '0'));
  }

  // ----- which texts are accepted

  lemma {:induction false} PointSplits(whole: string, rest: string)
    requires AllDigits(whole) && (rest == [] || rest[0] == '.')
    ensures Point(whole + rest) == |whole|
  {
    var s := whole + rest;
    assert forall i | 0 <= i < |whole| :: s[i] == whole[i];
    if rest != [] { assert s[|whole|] == '.'; }
  }

  lemma NumeralParts(whole: string, fraction: string)
    requires AllDigits(whole) && AllDigits(fraction) && whole != []
    ensures WholeOf(Numeral(whole, fraction)) == whole && FractionOf(Numeral(whole, fraction)) == fraction
    ensures Point(Numeral(whole, fraction)) < |Numeral(whole, fraction)| <==> fraction != []
    ensures IsTrimmed(Numeral(whole, fraction))
  {
    if fraction == [] {
      PointSplits(whole, []);
      assert whole + [] == whole;
    } else {
      PointSplits(whole, "." + fraction);
      assert Numeral(whole, fraction) == whole + ("." + fraction);
    }
  }

  /** Surrounded by any white space, the accepted texts are exactly the numerals with a whole part,
      at most two decimals and at most twelve digits in all. */
  lemma NumeralAccepted(left: string, whole: string, fraction: string, right: string)
    requires AllSpace(left) && AllSpace(right) && AllDigits(whole) && AllDigits(fraction) && whole != []
    ensures Normalize(left + Numeral(whole, fraction) + right) ==
      if |fraction| <= PRECISION && |whole| + |fraction| <= TOTAL_DIGITS then Some(Canonical(whole, fraction)) else None
  {
    NumeralParts(whole, fraction);
    TrimPadded(left, Numeral(whole, fraction), right);
  }

  lemma AcceptedIsNumeral(text: string) returns (left: string, whole: string, fraction: string, right: string)
    requires Normalize(text).Some?
    ensures AllSpace(left) && AllSpace(right) && AllDigits(whole) && AllDigits(fraction) && whole != []
    ensures text == left + Numeral(whole, fraction) + right
    ensures |fraction| <= PRECISION && |whole| + |fraction| <= TOTAL_DIGITS
    ensures Normalize(text) == Some(Canonical(whole, fraction))
  {
    left, right := TrimSplits(text);
    whole, fraction := WholeOf(TrimSpace(text)), FractionOf(TrimSpace(text));
    assert TrimSpace(text) == Numeral(whole, fraction);
  }

  // ----- what the canonical form means

  lemma TenTimes(d: nat, p: nat, n: nat, last: nat)
    ensures 10 * (d * p + n) + last == d * (10 * p) + (10 * n + last)
  {
  }

  lemma {:induction false} NumberOfTail(s: string)
    requires AllDigits(s) && s != []
    ensures Number(s) == Digit(s[0]) * Pow10(|s| - 1) + Number(s[1..])
  {
    if |s| == 1 {
      assert s[..0] == [];
    } else {
      var n := |s| - 1;
      NumberOfTail(s[..n]);
      assert s[1..][..n - 1] == s[..n][1..];
      TenTimes(Digit(s[0]), Pow10(n - 1), Number(s[..n][1..]), Digit(s[n]));
    }
  }

  lemma {:induction false} StripKeepsNumber(s: string)
    requires AllDigits(s)
    ensures AllDigits(StripZeros(s)) && Number(StripZeros(s)) == Number(s) && |StripZeros(s)| <= |s|
    ensures StripZeros(s) == [] || StripZeros(s)[0] != '0'
  {
    if s != [] && s[0] == '0' {
      NumberOfTail(s);
      StripKeepsNumber(s[1..]);
    }
  }

  /** A numeral of n digits is below 10^n, and at least 10^(n-1) unless it starts with a zero. */
  lemma {:induction false} NumberBounds(s: string)
    requires AllDigits(s)
    ensures Number(s) < Pow10(|s|)
    ensures s != [] && s[0] != '0' ==> Pow10(|s| - 1) <= Number(s)
  {
    if s != [] {
      var front := s[..|s| - 1];
      NumberBounds(front);
      if |s| > 1 { assert front[0] == s[0]; }
    }
  }

  /** Numerals of one length are equal when their numbers are. */
  lemma {:induction false} NumberIsInjective(a: string, b: string)
    requires AllDigits(a) && AllDigits(b) && |a| == |b| && Number(a) == Number(b)
    ensures a == b
  {
    if a != [] {
      var n := |a| - 1;
      assert Number(a) == 10 * Number(a[..n]) + Digit(a[n]) && Number(b) == 10 * Number(b[..n]) + Digit(b[n]);
      NumberIsInjective(a[..n], b[..n]);
      assert a == a[..n] + [a[n]] && b == b[..n] + [b[n]];
    }
  }

  lemma {:induction false} Pow10Grows(m: nat, n: nat)
    requires m <= n
    ensures Pow10(m) <= Pow10(n)
  {
    if m < n { Pow10Grows(m, n - 1); }
  }

  predicate NoLeadingZero(s: string) {
    s != [] && (s[0] == '0' ==> |s| == 1)
  }

  lemma ShorterIsSmaller(a: string, b: string)
    requires AllDigits(a) && AllDigits(b) && a != [] && NoLeadingZero(b) && |a| < |b|
    ensures Number(a) < Number(b)
  {
    NumberBounds(a);
    NumberBounds(b);
    Pow10Grows(|a|, |b| - 1);
  }

  lemma NumberFixesWhole(a: string, b: string)
    requires AllDigits(a) && AllDigits(b) && NoLeadingZero(a) && NoLeadingZero(b) && Number(a) == Number(b)
    ensures a == b
  {
    if |a| < |b| {
      ShorterIsSmaller(a, b);
    } else if |b| < |a| {
      ShorterIsSmaller(b, a);
    } else {
      NumberIsInjective(a, b);
    }
  }

  function WholeDigits(whole: string): string {
    if StripZeros(whole) == [] then "0" else StripZeros(whole)
  }

  function Cents(fraction: string): string
    requires |fraction| <= PRECISION
  {
    fraction + seq(PRECISION - |fraction|, _ => '0')
  }

  /** The canonical form is a numeral with a minimal whole part and two decimals, of the same value. */
  lemma CanonicalMeans(whole: string, fraction: string)
    requires AllDigits(whole) && AllDigits(fraction) && |fraction| <= PRECISION
    ensures Canonical(whole, fraction) == Numeral(WholeDigits(whole), Cents(fraction))
    ensures AllDigits(WholeDigits(whole)) && NoLeadingZero(WholeDigits(whole))
    ensures Number(WholeDigits(whole)) == Number(whole)
    ensures AllDigits(Cents(fraction)) && |Cents(fraction)| == PRECISION
    ensures Value(WholeDigits(whole), Cents(fraction)) == Value(whole, fraction)
  {
    StripKeepsNumber(whole);
    assert "0"[..0] == [];
    var zeros := seq(PRECISION - |fraction|, _ => '0');
    assert Canonical(whole, fraction) == WholeDigits(whole) + "." + (fraction + zeros);
    CentsValue(fraction);
  }

  lemma CentsNumber(fraction: string)
    requires AllDigits(fraction) && |fraction| <= PRECISION
    ensures AllDigits(Cents(fraction)) && |Cents(fraction)| == PRECISION
    ensures Number(Cents(fraction)) ==
      if |fraction| == 2 then Number(fraction) else if |fraction| == 1 then 10 * Number(fraction) else 0
  {
    var c := Cents(fraction);
    var tens := c[..1];
    assert tens[..0] == [];
    assert Number(c) == 10 * Number(tens) + Digit(c[1]) && Number(tens) == Digit(c[0]);
    if |fraction| == 1 { assert tens == fraction; }
    if |fraction| == 2 { assert c == fraction; }
  }

  lemma PowersOfTen()
    ensures Pow10(0) == 1 && Pow10(1) == 10 && Pow10(2) == 100
  {
    assert Pow10(0) == 1;
    assert Pow10(1) == 10 * Pow10(0);
  }

  lemma SameFraction(cents: nat, n: nat, p: nat, q: nat)
    requires q == 100
    requires (p == 1 && n == 0 && cents == 0) || (p == 10 && cents == 10 * n) || (p == 100 && cents == n)
    ensures cents as real / q as real == n as real / p as real
  {
    if p == 10 {
      assert n as real / 10.0 == (10 * n) as real / 100.0;
    } else if p == 100 {
      assert n as real / 100.0 == cents as real / 100.0;
    }
  }

  lemma CentsValue(fraction: string)
    requires AllDigits(fraction) && |fraction| <= PRECISION
    ensures AllDigits(Cents(fraction)) && |Cents(fraction)| == PRECISION
    ensures Number(Cents(fraction)) as real / Pow10(PRECISION) as real ==
      Number(fraction) as real / Pow10(|fraction|) as real
  {
    CentsNumber(fraction);
    PowersOfTen();
    if fraction == [] { EmptyNumber(fraction); }
    hide Number, Cents, Pow10, AllDigits;
    SameFraction(Number(Cents(fraction)), Number(fraction), Pow10(|fraction|), Pow10(PRECISION));
  }

  lemma EmptyNumber(s: string)
    requires s == []
    ensures Number(s) == 0
  {
  }

  /** Normalising keeps the number; equal outputs mean equal numbers and the reverse. */
  lemma NormalizeIsByValue(left: string, whole: string, fraction: string, right: string,
                           left': string, whole': string, fraction': string, right': string)
    requires AllSpace(left) && AllSpace(right) && AllSpace(left') && AllSpace(right')
    requires AllDigits(whole) && AllDigits(fraction) && AllDigits(whole') && AllDigits(fraction')
    requires whole != [] && whole' != []
    requires Normalize(left + Numeral(whole, fraction) + right).Some?
    requires Normalize(left' + Numeral(whole', fraction') + right').Some?
    ensures Normalize(left + Numeral(whole, fraction) + right) == Normalize(left' + Numeral(whole', fraction') + right')
      <==> Value(whole, fraction) == Value(whole', fraction')
  {
    NumeralAccepted(left, whole, fraction, right);
    NumeralAccepted(left', whole', fraction', right');
    CanonicalMeans(whole, fraction);
    CanonicalMeans(whole', fraction');
    var w, f, w', f' := WholeDigits(whole), Cents(fraction), WholeDigits(whole'), Cents(fraction');
    if Numeral(w, f) == Numeral(w', f') {
      NumeralParts(w, f);
      NumeralParts(w', f');
    } else if Value(w, f) == Value(w', f') {
      SameValueSameParts(w, f, w', f');
    }
  }

  lemma SameValueSameParts(w: string, f: string, w': string, f': string)
    requires AllDigits(w) && AllDigits(f) && AllDigits(w') && AllDigits(f')
    requires NoLeadingZero(w) && NoLeadingZero(w') && |f| == |f'| == PRECISION
    requires Value(w, f) == Value(w', f')
    ensures w == w' && f == f'
  {
    assert Pow10(0) == 1 && Pow10(1) == 10 && Pow10(2) == 100;
    NumberBounds(f);
    NumberBounds(f');
    assert 100 * Number(w) + Number(f) == 100 * Number(w') + Number(f') by {
      assert (100 * Number(w) + Number(f)) as real == 100.0 * Value(w, f);
      assert (100 * Number(w') + Number(f')) as real == 100.0 * Value(w', f');
    }
    NumberFixesWhole(w, w');
    NumberIsInjective(f, f');
  }

  /** NUMERIC(12,2): two decimals, and ten digits before the point. */
  predicate FitsColumn(whole: string, fraction: string)
    requires AllDigits(whole) && AllDigits(fraction)
  {
    |fraction| <= PRECISION && Number(whole) < Pow10(TOTAL_DIGITS - PRECISION)
  }

  /** An accepted price keeps its value; the result fits the column exactly when its own digits
      number at most ten before the point, which is exactly when the result would be accepted
      again, and then it is a fixed point. */
  lemma NormalizedPrice(text: string)
    returns (left: string, whole: string, fraction: string, right: string, w: string, f: string)
    requires Normalize(text).Some?
    ensures AllDigits(whole) && AllDigits(fraction) && AllDigits(w) && AllDigits(f)
    ensures AllSpace(left) && AllSpace(right) && text == left + Numeral(whole, fraction) + right
    ensures Normalize(text) == Some(Numeral(w, f)) && |f| == PRECISION && NoLeadingZero(w)
    ensures Value(w, f) == Value(whole, fraction)
    ensures |w| <= TOTAL_DIGITS - PRECISION <==> FitsColumn(w, f)
    ensures Normalize(Numeral(w, f)) == if FitsColumn(w, f) then Some(Numeral(w, f)) else None
  {
    left, whole, fraction, right := AcceptedIsNumeral(text);
    CanonicalMeans(whole, fraction);
    w, f := WholeDigits(whole), Cents(fraction);
    DigitsFit(w);
    CanonicalIsFixed(w, f);
    NumeralAccepted([], w, f, []);
    assert [] + Numeral(w, f) + [] == Numeral(w, f);
  }

  lemma DigitsFit(w: string)
    requires AllDigits(w) && NoLeadingZero(w)
    ensures |w| <= TOTAL_DIGITS - PRECISION <==> Number(w) < Pow10(TOTAL_DIGITS - PRECISION)
  {
    NumberBounds(w);
    if |w| <= TOTAL_DIGITS - PRECISION { Pow10Grows(|w|, TOTAL_DIGITS - PRECISION); }
    else { Pow10Grows(TOTAL_DIGITS - PRECISION, |w| - 1); }
  }

  lemma CanonicalIsFixed(w: string, f: string)
    requires AllDigits(w) && AllDigits(f) && NoLeadingZero(w) && |f| == PRECISION
    ensures Canonical(w, f) == Numeral(w, f)
  {
    if w[0] == '0' { assert w == "0" && StripZeros(w) == StripZeros(w[1..]); }
    assert seq(PRECISION - |f|, _ => '0') == [];
  }

  /** Whole parts of eleven or twelve digits are accepted once, do not fit the column and are
      refused when they come back. */
  lemma LongWholesAreLost(whole: string)
    requires AllDigits(whole) && NoLeadingZero(whole) && TOTAL_DIGITS - PRECISION < |whole| <= TOTAL_DIGITS
    ensures Normalize(whole) == Some(whole + "." + Cents([])) && Normalize(whole + "." + Cents([])) == None
    ensures !FitsColumn(whole, Cents([]))
  {
    var cents := Cents([]);
    assert StripZeros(whole) == whole;
    CanonicalMeans(whole, []);
    DigitsFit(whole);
    NumeralAccepted([], whole, [], []);
    NumeralAccepted([], whole, cents, []);
    assert [] + Numeral(whole, []) + [] == whole;
    assert [] + Numeral(whole, cents) + [] == whole + "." + cents;
  }

  /** Such a price exists: eleven ones. */
  lemma SomePriceIsLost()
    ensures exists text :: Normalize(text).Some? && Normalize(Normalize(text).value) == None
  {
    var ones := seq(TOTAL_DIGITS - 1, _ => '1');
    LongWholesAreLost(ones);
    assert Normalize(ones).Some?;
  }
}
