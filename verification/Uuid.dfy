/** Identifiers as text. PostgreSQL reads a uuid as eight groups of four hexadecimal digits of
    either case, with a hyphen allowed after each group but the last and braces allowed around it
    all (PostgreSQL documentation, section 8.12), and always writes it in one canonical form. */
module Uuid {
  import opened Common
  import opened Sorting
  import opened Text

  const DIGITS := 32
  const GROUPS := 8

  function Pow16(k: nat): (p: nat)
    ensures p > 0
  {
    if k == 0 then 1 else 16 * Pow16(k - 1)
  }

  /** The identifiers a uuid column can hold. */
  predicate Fits(id: nat) {
    id < Pow16(DIGITS)
  }

  predicate IsHex(c: char) {
    '0' <= c <= '9' || 'a' <= c <= 'f' || 'A' <= c <= 'F'
  }

  predicate AllHex(s: string) {
    forall i | 0 <= i < |s| :: IsHex(s[i])
  }

  function HexValue(c: char): (v: nat)
    requires IsHex(c)
    ensures v < 16
  {
    if c <= '9' then (c as int) - ('0' as int)
    else if 'a' <= c then (c as int) - ('a' as int) + 10
    else (c as int) - ('A' as int) + 10
  }

  function HexChar(v: nat): (c: char)
    requires v < 16
    ensures IsHex(c) && HexValue(c) == v
  {
    if v < 10 then (('0' as int) + v) as char else (('a' as int) + v - 10) as char
  }

  function Number(digits: string): nat
    requires AllHex(digits)
  {
    if digits == [] then 0 else 16 * Number(digits[..|digits| - 1]) + HexValue(digits[|digits| - 1])
  }

  /** The last k lower-case digits of n. */
  function Hex(n: nat, k: nat): (s: string)
    ensures |s| == k && AllHex(s)
  {
    if k == 0 then [] else Hex(n / 16, k - 1) + [HexChar(n % 16)]
  }

  // ----- reading and writing

  /** The digits of n groups, where a hyphen may follow each but the last. */
  function GroupDigits(s: string, n: nat): (digits: Option<string>)
    ensures digits.Some? ==> |digits.value| == 4 * n && AllHex(digits.value)
  {
    if n == 0 then (if s == [] then Some([]) else None)
    else if |s| < 4 || !AllHex(s[..4]) then None
    else
      var rest := GroupDigits(if n > 1 && |s| > 4 && s[4] == '-' then s[5..] else s[4..], n - 1);
      if rest.None? then None else Some(s[..4] + rest.value)
  }

  function Unbraced(text: string): string {
    if |text| >= 2 && text[0] == '{' && text[|text| - 1] == '}' then text[1..|text| - 1] else text
  }

  /** uuid_in: the identifier a text denotes, if it is one. */
  function Parse(text: string): Option<nat> {
    var digits := GroupDigits(Unbraced(text), GROUPS);
    if digits.None? then None else Some(Number(digits.value))
  }

  function Group(h: string, i: nat): (g: string)
    requires |h| == DIGITS && i < GROUPS
    ensures |g| == 4 && g[0] == h[4 * i] && (AllHex(h) ==> AllHex(g))
  {
    h[4 * i..4 * i + 4]
  }

  /** uuid_out. */
  function Render(id: nat): (text: string)
    ensures |text| == 36
  {
    var h := Hex(id, DIGITS);
    Group(h, 0) + (Group(h, 1) + ("-" + (Group(h, 2) + ("-" + (Group(h, 3) + ("-" + (Group(h, 4) + ("-" +
      (Group(h, 5) + (Group(h, 6) + Group(h, 7)))))))))))
  }

  // ----- what is read back is what was written

  lemma {:induction false} NumberOfHex(n: nat, k: nat)
    requires n < Pow16(k)
    ensures Number(Hex(n, k)) == n
  {
    if k > 0 {
      var front := Hex(n / 16, k - 1);
      NumberOfHex(n / 16, k - 1);
      assert Hex(n, k)[..k - 1] == front;
    }
  }

  lemma {:induction false} NumberFits(digits: string)
    requires AllHex(digits)
    ensures Number(digits) < Pow16(|digits|)
  {
    if digits != [] { NumberFits(digits[..|digits| - 1]); }
  }

  lemma ParsedFits(text: string)
    requires Parse(text).Some?
    ensures Fits(Parse(text).value)
  {
    NumberFits(GroupDigits(Unbraced(text), GROUPS).value);
  }

  /** Reading one group, then a hyphen or not, then the rest. */
  lemma ReadGroup(g: string, hyphen: string, rest: string, n: nat, digits: string)
    requires |g| == 4 && AllHex(g) && n > 0 && (hyphen == "-" || hyphen == []) && AllHex(digits)
    requires GroupDigits(rest, n) == Some(digits) && rest != [] && IsHex(rest[0])
    ensures GroupDigits(g + (hyphen + rest), n + 1) == Some(g + digits)
  {
    var s := g + (hyphen + rest);
    assert s[..4] == g;
    if hyphen == "-" {
      assert s[4] == '-' && s[5..] == rest;
    } else {
      assert s[4..] == rest && s[4] == rest[0];
    }
  }

  lemma LastGroup(g: string)
    requires |g| == 4 && AllHex(g)
    ensures GroupDigits(g, 1) == Some(g)
  {
    assert g[..4] == g && g[4..] == [];
    assert GroupDigits([], 0) == Some([]);
    assert g + [] == g;
  }

  /** The canonical text from the fifth group on. */
  function RenderedEnd(h: string): string
    requires |h| == DIGITS
  {
    Group(h, 4) + ("-" + (Group(h, 5) + (Group(h, 6) + Group(h, 7))))
  }

  lemma EndSlices(h: string)
    requires |h| == DIGITS
    ensures h[24..] == Group(h, 6) + Group(h, 7) && h[20..] == Group(h, 5) + h[24..] && h[16..] == Group(h, 4) + h[20..]
  {
  }

  lemma EndGroups(h: string)
    requires |h| == DIGITS && AllHex(h)
    ensures GroupDigits(RenderedEnd(h), 4) == Some(h[16..]) && RenderedEnd(h)[0] == h[16]
  {
    var g7, g6, g5, g4 := Group(h, 7), Group(h, 6), Group(h, 5), Group(h, 4);
    EndSlices(h);
    hide GroupDigits, Group;
    LastGroup(g7);
    assert [] + g7 == g7 && [] + h[24..] == h[24..];
    ReadGroup(g6, [], g7, 1, g7);
    ReadGroup(g5, [], h[24..], 2, h[24..]);
    ReadGroup(g4, "-", h[20..], 3, h[20..]);
  }

  lemma StartSlices(h: string)
    requires |h| == DIGITS
    ensures h[12..] == Group(h, 3) + h[16..] && h[8..] == Group(h, 2) + h[12..]
    ensures h[4..] == Group(h, 1) + h[8..] && h == Group(h, 0) + h[4..]
  {
  }

  lemma StartGroups(h: string, end: string)
    requires |h| == DIGITS && AllHex(h)
    requires GroupDigits(end, 4) == Some(h[16..]) && end != [] && end[0] == h[16]
    ensures var text := Group(h, 0) + (Group(h, 1) + ("-" + (Group(h, 2) + ("-" + (Group(h, 3) + ("-" + end))))));
      GroupDigits(text, GROUPS) == Some(h) && text[0] == h[0]
  {
    var g3, g2, g1, g0 := Group(h, 3), Group(h, 2), Group(h, 1), Group(h, 0);
    StartSlices(h);
    hide GroupDigits, Group;
    var t3 := g3 + ("-" + end);
    var t2 := g2 + ("-" + t3);
    var t1 := g1 + ("-" + t2);
    ReadGroup(g3, "-", end, 4, h[16..]);
    ReadGroup(g2, "-", t3, 5, h[12..]);
    ReadGroup(g1, "-", t2, 6, h[8..]);
    assert [] + t1 == t1;
    ReadGroup(g0, [], t1, 7, h[4..]);
  }

  /** What the column writes reads back as the same identifier. */
  lemma ParseRender(id: nat)
    requires Fits(id)
    ensures Parse(Render(id)) == Some(id)
  {
    var h := Hex(id, DIGITS);
    EndGroups(h);
    StartGroups(h, RenderedEnd(h));
    NumberOfHex(id, DIGITS);
    hide GroupDigits, Hex, Group;
    assert Render(id)[0] == h[0] && IsHex(h[0]);
    assert Unbraced(Render(id)) == Render(id);
  }

  // ----- exactly which texts are read

  /** Digits in groups of four, with a hyphen after those groups but the last that have one. */
  function Grouped(h: string, hyphens: seq<bool>): string
    requires |h| == 4 * (|hyphens| + 1)
    decreases |hyphens|
  {
    if hyphens == [] then h
    else h[..4] + ((if hyphens[0] then "-" else []) + Grouped(h[4..], hyphens[1..]))
  }

  lemma {:induction false} GroupedIsRead(h: string, hyphens: seq<bool>)
    requires |h| == 4 * (|hyphens| + 1) && AllHex(h)
    ensures GroupDigits(Grouped(h, hyphens), |hyphens| + 1) == Some(h)
    ensures Grouped(h, hyphens) != [] && Grouped(h, hyphens)[0] == h[0]
    decreases |hyphens|
  {
    hide GroupDigits;
    if hyphens == [] {
      LastGroup(h);
    } else {
      var rest := Grouped(h[4..], hyphens[1..]);
      GroupedIsRead(h[4..], hyphens[1..]);
      ReadGroup(h[..4], if hyphens[0] then "-" else [], rest, |hyphens|, h[4..]);
      assert h[..4] + h[4..] == h;
    }
  }

  lemma GroupDigitsUnfold(s: string, n: nat)
    requires n > 0 && GroupDigits(s, n).Some?
    ensures |s| >= 4 && AllHex(s[..4])
    ensures var hyphen := n > 1 && |s| > 4 && s[4] == '-';
      var rest := if hyphen then s[5..] else s[4..];
      && s == s[..4] + ((if hyphen then "-" else []) + rest) && GroupDigits(rest, n - 1).Some?
      && GroupDigits(s, n).value == s[..4] + GroupDigits(rest, n - 1).value
  {
  }

  lemma {:induction false} ReadIsGrouped(s: string, n: nat) returns (hyphens: seq<bool>)
    requires n > 0 && GroupDigits(s, n).Some?
    ensures |hyphens| == n - 1 && s == Grouped(GroupDigits(s, n).value, hyphens)
    decreases n
  {
    GroupDigitsUnfold(s, n);
    var digits := GroupDigits(s, n).value;
    var hyphen := n > 1 && |s| > 4 && s[4] == '-';
    var rest := if hyphen then s[5..] else s[4..];
    if n == 1 {
      hyphens := [];
      NoMoreDigits(rest);
      assert s[..4] + [] == s[..4];
    } else {
      hide GroupDigits;
      var more := ReadIsGrouped(rest, n - 1);
      hyphens := [hyphen] + more;
      assert digits[..4] == s[..4] && digits[4..] == GroupDigits(rest, n - 1).value && hyphens[1..] == more;
    }
  }

  lemma NoMoreDigits(rest: string)
    requires GroupDigits(rest, 0).Some?
    ensures rest == [] && GroupDigits(rest, 0) == Some([])
  {
  }

  /** A text is read as an identifier exactly when it consists of 32 hexadecimal digits of either case,
      with any hyphens between groups of four, in braces or not; it denotes the digits' number. */
  lemma ParsesIff(text: string, id: nat)
    ensures Parse(text) == Some(id) <==>
      exists h: string, hyphens: seq<bool> :: Spells(text, h, hyphens) && Number(h) == id
  {
    hide GroupDigits, Number, Grouped;
    if Parse(text) == Some(id) {
      var s := Unbraced(text);
      var h := GroupDigits(s, GROUPS).value;
      var hyphens := ReadIsGrouped(s, GROUPS);
      assert s != text ==> text == "{" + s + "}";
      assert Spells(text, h, hyphens);
    }
    if h: string, hyphens: seq<bool> :| Spells(text, h, hyphens) && Number(h) == id {
      var s := Grouped(h, hyphens);
      GroupedIsRead(h, hyphens);
      assert ("{" + s + "}")[1..|s| + 1] == s;
      assert Unbraced(text) == s;
    }
  }

  ghost predicate Spells(text: string, h: string, hyphens: seq<bool>) {
    && |h| == DIGITS && AllHex(h) && |hyphens| == GROUPS - 1
    && (text == Grouped(h, hyphens) || text == "{" + Grouped(h, hyphens) + "}")
  }

  // ----- upper case

  function Upper(c: char): char {
    if 'a' <= c <= 'f' then ((c as int) - 32) as char else c
  }

  function ToUpper(s: string): (r: string)
    ensures |r| == |s| && forall i | 0 <= i < |s| :: r[i] == Upper(s[i])
  {
    seq(|s|, i requires 0 <= i < |s| => Upper(s[i]))
  }

  lemma UpperHex(s: string)
    ensures AllHex(ToUpper(s)) <==> AllHex(s)
  {
    assert forall c :: IsHex(Upper(c)) <==> IsHex(c);
    if AllHex(ToUpper(s)) {
      forall i | 0 <= i < |s| ensures IsHex(s[i]) { assert IsHex(ToUpper(s)[i]); }
    }
  }

  lemma {:induction false} UpperNumber(digits: string)
    requires AllHex(digits)
    ensures AllHex(ToUpper(digits)) && Number(ToUpper(digits)) == Number(digits)
  {
    UpperHex(digits);
    if digits != [] {
      UpperNumber(digits[..|digits| - 1]);
      assert ToUpper(digits)[..|digits| - 1] == ToUpper(digits[..|digits| - 1]);
      assert forall c | IsHex(c) :: HexValue(Upper(c)) == HexValue(c);
    }
  }

  lemma UpperSlices(s: string)
    requires |s| >= 4
    ensures ToUpper(s)[..4] == ToUpper(s[..4]) && ToUpper(s)[4..] == ToUpper(s[4..])
    ensures AllHex(ToUpper(s)[..4]) <==> AllHex(s[..4])
    ensures |s| > 4 ==> ToUpper(s)[5..] == ToUpper(s[5..]) && (ToUpper(s)[4] == '-' <==> s[4] == '-')
  {
    UpperHex(s[..4]);
    assert ToUpper(s)[..4] == ToUpper(s[..4]);
  }

  lemma UpperConcat(a: string, b: string)
    ensures ToUpper(a + b) == ToUpper(a) + ToUpper(b)
  {
  }

  lemma {:induction false} UpperGroups(s: string, n: nat)
    ensures GroupDigits(ToUpper(s), n) ==
      if GroupDigits(s, n).None? then None else Some(ToUpper(GroupDigits(s, n).value))
    decreases n
  {
    if n == 0 {
      assert ToUpper([]) == [];
    } else if |s| >= 4 {
      var rest := if n > 1 && |s| > 4 && s[4] == '-' then s[5..] else s[4..];
      UpperSlices(s);
      UpperGroups(rest, n - 1);
      assert GroupDigits(rest, n - 1).Some? ==>
        GroupDigits(s, n).None? || GroupDigits(s, n).value == s[..4] + GroupDigits(rest, n - 1).value;
      if GroupDigits(rest, n - 1).Some? { UpperConcat(s[..4], GroupDigits(rest, n - 1).value); }
      hide ToUpper;
    }
  }

  /** The case of the digits does not matter to what a text denotes. */
  lemma ParseIgnoresCase(text: string)
    ensures Parse(ToUpper(text)) == Parse(text)
  {
    var body := Unbraced(text);
    assert Unbraced(ToUpper(text)) == ToUpper(body);
    UpperGroups(body, GROUPS);
    if GroupDigits(body, GROUPS).Some? { UpperNumber(GroupDigits(body, GROUPS).value); }
  }

  // ----- order

  /** The first place where two texts of one length differ decides their order. */
  lemma {:induction false} LessAt(a: string, b: string, j: nat)
    requires |a| == |b| && j < |a| && a[..j] == b[..j] && a[j] < b[j]
    ensures Less(a, b)
  {
    if j > 0 {
      assert a[0] == a[..j][0] && b[0] == b[..j][0];
      assert a[1..][..j - 1] == a[..j][1..] && b[1..][..j - 1] == b[..j][1..];
      LessAt(a[1..], b[1..], j - 1);
    }
  }

  /** A smaller number has a smaller digit where the two first differ. */
  lemma {:induction false} HexDiffers(m: nat, n: nat, k: nat) returns (j: nat)
    requires m < n < Pow16(k)
    ensures j < k && Hex(m, k)[..j] == Hex(n, k)[..j] && Hex(m, k)[j] < Hex(n, k)[j]
  {
    var p, q := Hex(m / 16, k - 1), Hex(n / 16, k - 1);
    if m / 16 < n / 16 {
      j := HexDiffers(m / 16, n / 16, k - 1);
      assert Hex(m, k)[..j] == p[..j] && Hex(n, k)[..j] == q[..j];
    } else {
      j := k - 1;
      assert Hex(m, k)[..j] == p && Hex(n, k)[..j] == q;
    }
  }

  /** Hyphens before the j-th digit in the canonical form. */
  function Hyphens(j: nat): nat {
    if j < 8 then 0 else if j < 12 then 1 else if j < 16 then 2 else if j < 20 then 3 else 4
  }

  lemma RenderedChars(id: nat)
    ensures |Render(id)| == 36
    ensures Render(id)[8] == Render(id)[13] == Render(id)[18] == Render(id)[23] == '-'
    ensures forall j | 0 <= j < DIGITS :: Render(id)[j + Hyphens(j)] == Hex(id, DIGITS)[j]
  {
    hide Hex;
  }

  lemma RenderedPrefix(m: nat, n: nat, j: nat, i: nat)
    requires j < DIGITS && Hex(m, DIGITS)[..j] == Hex(n, DIGITS)[..j] && i < j + Hyphens(j)
    ensures |Render(m)| == |Render(n)| == 36 && Render(m)[i] == Render(n)[i]
  {
    hide Render, Hex;
    RenderedChars(m);
    RenderedChars(n);
    if i !in {8, 13, 18, 23} {
      var d := if i < 8 then i else if i < 13 then i - 1 else if i < 18 then i - 2 else if i < 23 then i - 3 else i - 4;
      assert d + Hyphens(d) == i && d < j;
      assert Hex(m, DIGITS)[d] == Hex(m, DIGITS)[..j][d] == Hex(n, DIGITS)[..j][d];
    }
  }

  /** The canonical texts sort as their identifiers do: ORDER BY id is the byte order of the text. */
  lemma RenderAscends(m: nat, n: nat)
    requires m < n && Fits(n)
    ensures Less(Render(m), Render(n))
  {
    hide Render, Hex, Less;
    var j := HexDiffers(m, n, DIGITS);
    RenderedChars(m);
    RenderedChars(n);
    var at := j + Hyphens(j);
    forall i | 0 <= i < at ensures Render(m)[i] == Render(n)[i] { RenderedPrefix(m, n, j, i); }
    assert Render(m)[..at] == Render(n)[..at];
    LessAt(Render(m), Render(n), at);
  }

  // ----- leading digits

  lemma {:induction false} Pow16Grows(m: nat, n: nat)
    requires m <= n
    ensures Pow16(m) <= Pow16(n)
  {
    if m < n { Pow16Grows(m, n - 1); }
  }

  /** What is left of n without its last k digits. */
  function Leading(n: nat, k: nat): nat {
    if k == 0 then n else Leading(n / 16, k - 1)
  }

  /** The leading digits of a numeral are those of the quotient. */
  lemma {:induction false} LeadingDigits(n: nat, k: nat, j: nat)
    requires j <= k
    ensures Hex(n, k)[..j] == Hex(Leading(n, k - j), j)
    decreases k
  {
    if j < k {
      LeadingDigits(n / 16, k - 1, j);
      assert Hex(n, k)[..j] == Hex(n / 16, k - 1)[..j];
    }
  }

  lemma {:induction false} LeadingOfMultiple(m: nat, k: nat)
    ensures m * Pow16(k) >= 0 && Leading(m * Pow16(k), k) == m
  {
    if k > 0 {
      Regrouped(m, Pow16(k - 1));
      LeadingOfMultiple(m, k - 1);
    }
  }

  lemma Regrouped(m: nat, p: nat)
    ensures m * (16 * p) == 16 * (m * p) && m * p >= 0 && m * (16 * p) / 16 == m * p
  {
  }

  lemma {:induction false} LeadingFits(n: nat, k: nat, j: nat)
    requires j <= k && n < Pow16(k)
    ensures Leading(n, k - j) < Pow16(j)
    decreases k
  {
    if j < k { LeadingFits(n / 16, k - 1, j); }
  }

  lemma FirstGroups(id: nat)
    requires Fits(id)
    ensures Render(id)[..8] == Hex(Leading(id, 24), 8) && Number(Hex(Leading(id, 24), 8)) == Leading(id, 24)
  {
    hide Render, Hex, Number, Leading;
    RenderedHead(id);
    LeadingDigits(id, DIGITS, 8);
    LeadingFits(id, DIGITS, 8);
    NumberOfHex(Leading(id, 24), 8);
  }

  /** Two identifiers share their first eight digits exactly when they agree above 24 digits. */
  lemma FirstGroupsAgreeIff(a: nat, b: nat)
    requires Fits(a) && Fits(b)
    ensures Render(a)[..8] == Render(b)[..8] <==> Leading(a, 24) == Leading(b, 24)
  {
    hide *;
    FirstGroups(a);
    FirstGroups(b);
  }

  lemma RenderedHead(id: nat)
    ensures Render(id)[..8] == Hex(id, DIGITS)[..8]
  {
    RenderedChars(id);
    hide Render, Hex;
    forall i | 0 <= i < 8 ensures Render(id)[i] == Hex(id, DIGITS)[i] { assert i + Hyphens(i) == i; }
  }

  lemma UpperKeepsLowerDistinct(a: string, b: string)
    requires AllLower(a) && AllLower(b) && ToUpper(a) == ToUpper(b)
    ensures a == b
  {
    assert |a| == |b|;
    forall i | 0 <= i < |a| ensures a[i] == b[i] { assert ToUpper(a)[i] == ToUpper(b)[i]; }
  }

  /** Without upper-case letters. */
  predicate AllLower(s: string) {
    forall i | 0 <= i < |s| :: !('A' <= s[i] <= 'F')
  }

  lemma {:induction false} HexIsLower(n: nat, k: nat)
    ensures AllLower(Hex(n, k))
  {
    if k > 0 { HexIsLower(n / 16, k - 1); }
  }
}
