/**
 * String facilities of the .NET base library that the service relies on:
 * `string.IsNullOrWhiteSpace`, `string.IsNullOrEmpty`, ordinal case-insensitive search,
 * `int.ToString()`, `int.TryParse` and `string.Join`.
 */
module Text {
  import opened Wrappers

  /** A 32-bit signed C# `int`. */
  type Int32 = x: int | -0x8000_0000 <= x <= 0x7FFF_FFFF

  const MinInt32: int := -0x8000_0000
  const MaxInt32: int := 0x7FFF_FFFF

  // ---------------------------------------------------------------------------
  // Whitespace

  /** `char.IsWhiteSpace`: the Unicode space, line and paragraph separators and
      the control characters U+0009..U+000D and U+0085. */
  predicate IsWhiteSpace(c: char) {
    || ('\U{0009}' <= c <= '\U{000D}')
    || c == ' ' || c == '\U{0085}' || c == '\U{00A0}' || c == '\U{1680}'
    || ('\U{2000}' <= c <= '\U{200A}')
    || c == '\U{2028}' || c == '\U{2029}' || c == '\U{202F}' || c == '\U{205F}' || c == '\U{3000}'
  }

  /** `string.IsNullOrWhiteSpace`: null, empty, or whitespace only. */
  predicate IsNullOrWhiteSpace(s: Option<string>) {
    s.None? || forall i :: 0 <= i < |s.value| ==> IsWhiteSpace(s.value[i])
  }

  /** `string.IsNullOrEmpty`. */
  predicate IsNullOrEmpty(s: Option<string>) {
    s.None? || s.value == ""
  }

  // ---------------------------------------------------------------------------
  // Ordinal case-insensitive comparison (ASCII case folding)

  function ToUpperAscii(c: char): (u: char)
    ensures 'a' <= c <= 'z' ==> 'A' <= u <= 'Z' && u as int == c as int - 32
    ensures !('a' <= c <= 'z') ==> u == c
  {
    if 'a' <= c <= 'z' then (c as int - 32) as char else c
  }

  /** The string with every ASCII lower-case letter upper-cased. */
  function UpperAscii(s: string): (u: string)
    ensures |u| == |s| && forall i :: 0 <= i < |s| ==> u[i] == ToUpperAscii(s[i])
  {
    seq(|s|, i requires 0 <= i < |s| => ToUpperAscii(s[i]))
  }

  predicate EqualsIgnoreCase(a: string, b: string) {
    |a| == |b| && forall i :: 0 <= i < |a| ==> ToUpperAscii(a[i]) == ToUpperAscii(b[i])
  }

  /** `s.StartsWith(prefix, StringComparison.OrdinalIgnoreCase)`. */
  predicate StartsWithIgnoreCase(s: string, prefix: string) {
    |prefix| <= |s| && EqualsIgnoreCase(s[..|prefix|], prefix)
  }

  /** `s.Contains(needle, StringComparison.OrdinalIgnoreCase)`, as a scan from the left. */
  function ContainsIgnoreCase(s: string, needle: string): bool
    decreases |s|
  {
    StartsWithIgnoreCase(s, needle) || (|s| > 0 && ContainsIgnoreCase(s[1..], needle))
  }

  /** The window of `s` at offset `k` matches `needle` up to case. */
  predicate MatchesAt(s: string, needle: string, k: int) {
    0 <= k && k + |needle| <= |s| && EqualsIgnoreCase(s[k..k + |needle|], needle)
  }

  lemma MatchesAtStart(s: string, needle: string)
    ensures MatchesAt(s, needle, 0) <==> StartsWithIgnoreCase(s, needle)
  {
    if |needle| <= |s| {
      assert s[0..|needle|] == s[..|needle|];
    }
  }

  lemma MatchesAtShift(s: string, needle: string, k: int)
    requires 0 < |s| && 0 <= k
    ensures MatchesAt(s[1..], needle, k) <==> MatchesAt(s, needle, k + 1)
  {
    if k + 1 + |needle| <= |s| {
      assert s[1..][k..k + |needle|] == s[k + 1..k + 1 + |needle|];
    }
  }

  /** The left-to-right scan finds the needle exactly when some window matches it. */
  lemma {:induction false} ContainsIgnoreCaseIff(s: string, needle: string)
    ensures ContainsIgnoreCase(s, needle) <==> exists k :: MatchesAt(s, needle, k)
    decreases |s|
  {
    MatchesAtStart(s, needle);
    if StartsWithIgnoreCase(s, needle) {
      assert MatchesAt(s, needle, 0);
    } else if |s| == 0 {
      assert |needle| > 0;
    } else {
      ContainsIgnoreCaseIff(s[1..], needle);
      if ContainsIgnoreCase(s[1..], needle) {
        var k :| MatchesAt(s[1..], needle, k);
        MatchesAtShift(s, needle, k);
      } else {
        forall k | MatchesAt(s, needle, k) ensures false {
          MatchesAtShift(s, needle, k - 1);
        }
      }
    }
  }

  /** Case-insensitive search does not depend on the case of the searched text. */
  lemma {:induction false} ContainsIgnoreCaseOfUpper(s: string, needle: string)
    ensures ContainsIgnoreCase(UpperAscii(s), needle) == ContainsIgnoreCase(s, needle)
    decreases |s|
  {
    var u := UpperAscii(s);
    if |needle| <= |s| {
      assert EqualsIgnoreCase(u[..|needle|], needle) == EqualsIgnoreCase(s[..|needle|], needle);
    }
    if |s| > 0 {
      assert u[1..] == UpperAscii(s[1..]);
      ContainsIgnoreCaseOfUpper(s[1..], needle);
    }
  }

  // ---------------------------------------------------------------------------
  // String length as .NET counts it

  /** The UTF-16 code units of one character: a surrogate pair above the Basic
      Multilingual Plane, one unit otherwise. */
  function CodeUnits(c: char): (n: nat)
    ensures n == 1 || n == 2
    ensures n == 2 <==> c as int >= 0x1_0000
  {
    if c as int >= 0x1_0000 then 2 else 1
  }

  /** `string.Length`: the number of UTF-16 code units, at least one and at most two per
      character. */
  function Utf16Length(s: string): (n: nat)
    ensures |s| <= n <= 2 * |s|
  {
    if s == [] then 0 else Utf16Length(s[..|s| - 1]) + CodeUnits(s[|s| - 1])
  }

  /** Text within the Basic Multilingual Plane has one code unit per character. */
  lemma {:induction false} Utf16LengthOfBmp(s: string)
    requires forall i :: 0 <= i < |s| ==> s[i] as int < 0x1_0000
    ensures Utf16Length(s) == |s|
    decreases |s|
  {
    if s != [] {
      Utf16LengthOfBmp(s[..|s| - 1]);
    }
  }

  /** Text made only of characters above the Basic Multilingual Plane has two code units
      per character. */
  lemma {:induction false} Utf16LengthOfAstral(s: string)
    requires forall i :: 0 <= i < |s| ==> s[i] as int >= 0x1_0000
    ensures Utf16Length(s) == 2 * |s|
    decreases |s|
  {
    if s != [] {
      Utf16LengthOfAstral(s[..|s| - 1]);
    }
  }

  // ---------------------------------------------------------------------------
  // Decimal text of integers

  predicate IsDigit(c: char) {
    '0' <= c <= '9'
  }

  predicate AllDigits(s: string) {
    forall i :: 0 <= i < |s| ==> IsDigit(s[i])
  }

  function DigitValue(c: char): (d: nat)
    requires IsDigit(c)
    ensures d < 10
  {
    c as int - '0' as int
  }

  function DigitChar(d: nat): (c: char)
    requires d < 10
    ensures IsDigit(c) && DigitValue(c) == d
  {
    ('0' as int + d) as char
  }

  /** The shortest decimal digits of a natural number. */
  function NatToDecimal(n: nat): (r: string)
    ensures 1 <= |r| && AllDigits(r)
    decreases n
  {
    if n < 10 then [DigitChar(n)] else NatToDecimal(n / 10) + [DigitChar(n % 10)]
  }

  /** `int.ToString()` in the invariant culture: a leading '-' for negative values. */
  function IntToDecimal(n: int): (r: string)
    ensures 1 <= |r|
    ensures n >= 0 <==> IsDigit(r[0])
    ensures n < 0 <==> r[0] == '-'
  {
    if n < 0 then "-" + NatToDecimal(-n) else NatToDecimal(n)
  }

  /** The value of a string of decimal digits, leading zeros allowed. */
  function DigitsValue(s: string): nat
    requires AllDigits(s)
  {
    if s == [] then 0 else 10 * DigitsValue(s[..|s| - 1]) + DigitValue(s[|s| - 1])
  }

  lemma {:induction false} DigitsValueOfDecimal(n: nat)
    ensures DigitsValue(NatToDecimal(n)) == n
    decreases n
  {
    if n >= 10 {
      var p := NatToDecimal(n / 10);
      var s := p + [DigitChar(n % 10)];
      assert s[..|s| - 1] == p;
      DigitsValueOfDecimal(n / 10);
    }
  }

  /** The text carries a leading '+' or '-'. */
  predicate HasSign(s: string) {
    |s| > 0 && (s[0] == '-' || s[0] == '+')
  }

  /** The text after an optional leading sign. */
  function Unsigned(s: string): (d: string)
    ensures HasSign(s) ==> d == s[1..]
    ensures !HasSign(s) ==> d == s
  {
    if HasSign(s) then s[1..] else s
  }

  /** The value of optionally signed digit text: negated exactly when the sign is '-'. */
  function SignedValue(s: string): (v: int)
    requires AllDigits(Unsigned(s))
    ensures HasSign(s) && s[0] == '-' ==> v == -(DigitsValue(Unsigned(s)) as int)
    ensures !(HasSign(s) && s[0] == '-') ==> v == DigitsValue(Unsigned(s))
  {
    if HasSign(s) && s[0] == '-' then -(DigitsValue(Unsigned(s)) as int) else DigitsValue(Unsigned(s))
  }

  /**
   * `int.TryParse`: an optional '+' or '-' sign followed by one or more decimal
   * digits whose value lies in the 32-bit range; `None` when the text does not parse.
   */
  function TryParseInt32(s: string): (r: Option<Int32>)
    ensures r.Some? <==> |Unsigned(s)| > 0 && AllDigits(Unsigned(s)) && MinInt32 <= SignedValue(s) <= MaxInt32
    ensures r.Some? ==> r.value == SignedValue(s)
  {
    var digits := Unsigned(s);
    if |digits| == 0 || !AllDigits(digits) then None
    else
      var value := SignedValue(s);
      if MinInt32 <= value <= MaxInt32 then Some(value) else None
  }

  /** What parsable text looks like: a digit or a sign first, digits after it, a lone
      character only when it is a digit, and a '-' in front of every negative value. */
  lemma ParsedShape(s: string)
    requires TryParseInt32(s).Some?
    ensures 1 <= |s| && (IsDigit(s[0]) || s[0] == '+' || s[0] == '-')
    ensures AllDigits(s[1..]) && (|s| == 1 ==> IsDigit(s[0]))
    ensures TryParseInt32(s).value < 0 ==> s[0] == '-'
  {
    if !HasSign(s) {
      assert IsDigit(s[0]);
    }
  }

  /** A leading zero does not change the value of digit text. */
  lemma {:induction false} DigitsValueLeadingZero(d: string)
    requires AllDigits(d)
    ensures AllDigits("0" + d) && DigitsValue("0" + d) == DigitsValue(d)
    decreases |d|
  {
    var z := "0" + d;
    assert AllDigits(z) by {
      forall i | 0 <= i < |z| ensures IsDigit(z[i]) {
        if i > 0 { assert z[i] == d[i - 1]; }
      }
    }
    if |d| > 0 {
      var init := d[..|d| - 1];
      assert z[..|z| - 1] == "0" + init;
      assert z[|z| - 1] == d[|d| - 1];
      DigitsValueLeadingZero(init);
    }
  }

  /** Text the formatter never produces still parses: an explicit '+', leading zeros,
      and a negative zero. */
  lemma ParseAcceptsNonCanonical(n: nat)
    requires n <= MaxInt32
    ensures TryParseInt32("+" + NatToDecimal(n)) == Some(n)
    ensures TryParseInt32("0" + NatToDecimal(n)) == Some(n)
    ensures TryParseInt32("-0") == Some(0)
  {
    var d := NatToDecimal(n);
    DigitsValueOfDecimal(n);
    var plus := "+" + d;
    assert HasSign(plus) && Unsigned(plus) == d;
    var zero := "0" + d;
    DigitsValueLeadingZero(d);
    assert !HasSign(zero) && Unsigned(zero) == zero;
    assert Unsigned("-0") == "0";
    assert DigitsValue("0") == DigitsValue([]) * 10 + 0;
  }

  /** Parsing the decimal text of any 32-bit integer gives that integer back. */
  lemma ParseOfDecimal(n: Int32)
    ensures TryParseInt32(IntToDecimal(n)) == Some(n)
  {
    var s := IntToDecimal(n);
    if n < 0 {
      var d := NatToDecimal(-(n as int));
      assert s == "-" + d;
      assert s[0] == '-' && s[1..] == d;
      DigitsValueOfDecimal(-(n as int));
      assert DigitsValue(s[1..]) == -(n as int);
    } else {
      var d := NatToDecimal(n);
      assert s == d && IsDigit(s[0]);
      DigitsValueOfDecimal(n);
      assert DigitsValue(s) == n;
    }
  }

  // ---------------------------------------------------------------------------
  // Joining

  /** `string.Join(sep, xs)`. */
  function Join(sep: string, xs: seq<string>): string
  {
    if |xs| == 0 then "" else if |xs| == 1 then xs[0] else xs[0] + sep + Join(sep, xs[1..])
  }

  /** The decimal texts of a list of integers, in order. */
  function Decimals(ns: seq<int>): (r: seq<string>)
    ensures |r| == |ns| && forall i :: 0 <= i < |ns| ==> r[i] == IntToDecimal(ns[i])
  {
    seq(|ns|, i requires 0 <= i < |ns| => IntToDecimal(ns[i]))
  }

  /** `t` occurs in `s` starting at offset `k`. */
  predicate OccursAt(t: string, s: string, k: int) {
    0 <= k && k + |t| <= |s| && s[k..k + |t|] == t
  }

  ghost predicate IsSubstring(t: string, s: string) {
    exists k :: OccursAt(t, s, k)
  }

  /** An occurrence survives putting text on either side, shifted by the text in front. */
  lemma OccursInside(t: string, s: string, k: int, before: string, after: string)
    requires OccursAt(t, s, k)
    ensures OccursAt(t, before + s + after, |before| + k)
  {
    var m := before + s + after;
    var at := |before| + k;
    forall j | 0 <= j < |t|
      ensures m[at..at + |t|][j] == t[j]
    {
      assert m[at + j] == s[k + j];
    }
  }

  /** A joined string names every one of its parts. */
  lemma {:induction false} JoinContainsEach(sep: string, xs: seq<string>, i: int)
    requires 0 <= i < |xs|
    ensures IsSubstring(xs[i], Join(sep, xs))
    decreases |xs|
  {
    var j := Join(sep, xs);
    if i == 0 {
      assert OccursAt(xs[0], j, 0);
    } else {
      JoinContainsEach(sep, xs[1..], i - 1);
      var rest := Join(sep, xs[1..]);
      var k :| OccursAt(xs[i], rest, k);
      var off := |xs[0]| + |sep|;
      assert j == xs[0] + sep + rest;
      assert j[off + k..off + k + |xs[i]|] == rest[k..k + |xs[i]|];
      assert OccursAt(xs[i], j, off + k);
    }
  }
}
