/** Strings as sequences of code points: `strings.TrimSpace` and the byte-wise order, which on
    UTF-8 text is the order of code points. */
module Text {
  import opened Sorting

  /** unicode.IsSpace. */
  predicate IsSpace(c: char) {
    || '\t' <= c <= '\r' || c == ' ' || c == '\U{85}' || c == '\U{A0}' || c == '\U{1680}'
    || '\U{2000}' <= c <= '\U{200A}' || c == '\U{2028}' || c == '\U{2029}' || c == '\U{202F}'
    || c == '\U{205F}' || c == '\U{3000}'
  }

  predicate AllSpace(s: string) {
    forall i | 0 <= i < |s| :: IsSpace(s[i])
  }

  function TrimLeft(s: string): string {
    if s != [] && IsSpace(s[0]) then TrimLeft(s[1..]) else s
  }

  function TrimRight(s: string): string {
    if s != [] && IsSpace(s[|s| - 1]) then TrimRight(s[..|s| - 1]) else s
  }

  function TrimSpace(s: string): string {
    TrimRight(TrimLeft(s))
  }

  predicate IsTrimmed(s: string) {
    s == [] || (!IsSpace(s[0]) && !IsSpace(s[|s| - 1]))
  }

  lemma {:induction false} TrimLeftPadding(pad: string, s: string)
    requires AllSpace(pad)
    ensures TrimLeft(pad + s) == TrimLeft(s)
  {
    if pad == [] {
      assert pad + s == s;
    } else {
      assert (pad + s)[1..] == pad[1..] + s;
      TrimLeftPadding(pad[1..], s);
    }
  }

  lemma {:induction false} TrimRightPadding(s: string, pad: string)
    requires AllSpace(pad)
    ensures TrimRight(s + pad) == TrimRight(s)
  {
    if pad == [] {
      assert s + pad == s;
    } else {
      assert (s + pad)[..|s + pad| - 1] == s + pad[..|pad| - 1];
      TrimRightPadding(s, pad[..|pad| - 1]);
    }
  }

  lemma {:induction false} TrimLeftSplits(s: string) returns (pad: string)
    ensures AllSpace(pad) && s == pad + TrimLeft(s)
    ensures TrimLeft(s) == [] || !IsSpace(TrimLeft(s)[0])
  {
    if s != [] && IsSpace(s[0]) {
      var rest := TrimLeftSplits(s[1..]);
      pad := [s[0]] + rest;
      assert s == [s[0]] + s[1..];
    } else {
      pad := [];
    }
  }

  lemma {:induction false} TrimRightSplits(s: string) returns (pad: string)
    ensures AllSpace(pad) && s == TrimRight(s) + pad
    ensures TrimRight(s) == [] || !IsSpace(TrimRight(s)[|TrimRight(s)| - 1])
  {
    if s != [] && IsSpace(s[|s| - 1]) {
      var rest := TrimRightSplits(s[..|s| - 1]);
      pad := rest + [s[|s| - 1]];
      assert s == s[..|s| - 1] + [s[|s| - 1]];
    } else {
      pad := [];
    }
  }

  /** TrimSpace removes exactly the surrounding white space. */
  lemma TrimSplits(s: string) returns (left: string, right: string)
    ensures AllSpace(left) && AllSpace(right) && IsTrimmed(TrimSpace(s))
    ensures s == left + TrimSpace(s) + right
  {
    left := TrimLeftSplits(s);
    right := TrimRightSplits(TrimLeft(s));
    var inner := TrimSpace(s);
    if inner != [] { assert inner[0] == TrimLeft(s)[0]; }
  }

  lemma {:induction false} LeadingTextStays(left: string, s: string)
    requires s != [] && !IsSpace(s[0]) && AllSpace(left)
    ensures TrimLeft(left + s) == s
  {
    TrimLeftPadding(left, s);
  }

  /** Whatever white space surrounds a trimmed text, TrimSpace recovers it. */
  lemma TrimPadded(left: string, s: string, right: string)
    requires AllSpace(left) && AllSpace(right) && IsTrimmed(s)
    ensures TrimSpace(left + s + right) == s
  {
    if s == [] {
      assert left + s + right == (left + right) + [];
      TrimLeftPadding(left + right, []);
    } else {
      assert left + s + right == left + (s + right);
      LeadingTextStays(left, s + right);
      TrimRightPadding(s, right);
    }
  }

  /** Trimming leaves nothing exactly when there is nothing but white space. */
  lemma TrimmedAwayIff(s: string)
    ensures TrimSpace(s) == [] <==> AllSpace(s)
  {
    var left, right := TrimSplits(s);
    if AllSpace(s) {
      assert s + [] + [] == s;
      TrimPadded(s, [], []);
    }
    assert TrimSpace(s) == [] ==> s == left + right;
  }

  lemma TrimmedIsFixed(s: string)
    requires IsTrimmed(s)
    ensures TrimSpace(s) == s
  {
    TrimPadded([], s, []);
    assert [] + s + [] == s;
  }

  /** Two parts joined around a NUL, as the composite map keys are. */
  function Joined(a: string, b: string): string {
    a + "\0" + b
  }

  /** Joined keys identify their parts when the first part holds no NUL. */
  lemma {:induction false} JoinedIsInjective(a: string, b: string, c: string, d: string)
    requires '\0' !in a && '\0' !in c && Joined(a, b) == Joined(c, d)
    ensures a == c && b == d
  {
    var s, t := Joined(a, b), Joined(c, d);
    assert s[|a|] == '\0' && t[|c|] == '\0';
    assert a == s[..|a|] && c == t[..|c|];
    assert b == s[|a| + 1..] && d == t[|c| + 1..];
  }

  // ----- order

  predicate Less(a: string, b: string) {
    b != [] && (a == [] || a[0] < b[0] || (a[0] == b[0] && Less(a[1..], b[1..])))
  }

  lemma {:induction false} LessIsStrict(a: string, b: string)
    ensures !(Less(a, b) && Less(b, a)) && !Less(a, a)
    decreases |a|
  {
    if a != [] {
      LessIsStrict(a[1..], if b == [] then [] else b[1..]);
    }
  }

  lemma {:induction false} LessIsTotal(a: string, b: string)
    ensures a == b || Less(a, b) || Less(b, a)
  {
    if a != [] && b != [] && a[0] == b[0] {
      LessIsTotal(a[1..], b[1..]);
      assert a == [a[0]] + a[1..] && b == [b[0]] + b[1..];
    }
  }

  lemma {:induction false} LessIsTransitive(a: string, b: string, c: string)
    requires Less(a, b) && Less(b, c)
    ensures Less(a, c)
  {
    if a != [] && a[0] == b[0] == c[0] {
      LessIsTransitive(a[1..], b[1..], c[1..]);
    }
  }

  lemma LessSorts()
    ensures StrictWeakOrder(Less) && Total(Less)
  {
    forall a, b ensures !(Less(a, b) && Less(b, a)) && (a == b || Less(a, b) || Less(b, a)) {
      LessIsStrict(a, b);
      LessIsTotal(a, b);
    }
    forall a, b, c | Less(a, c) ensures Less(a, b) || Less(b, c) {
      LessIsTotal(a, b);
      if Less(b, a) { LessIsTransitive(b, a, c); }
    }
  }
}
