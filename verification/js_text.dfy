/**
 * The pieces of JavaScript's string semantics that the two components rely on:
 * the white-space class used by `\s` and `String.prototype.trim`, the decimal
 * text of a number, the reading of a number by `parseFloat` and by `Number`,
 * and the UTF-16 `length` of a string.
 *
 * Numbers are integers in this model: `parseFloat` and `Number` read only the
 * integer forms (an optional sign followed by decimal digits).
 */
module JsText {
  import opened Options

  /** ECMAScript WhiteSpace and LineTerminator code points: the class `\s`
      and what `trim` removes. */
  predicate IsSpace(c: char) {
    var u := c as int;
    u == 0x09 || u == 0x0A || u == 0x0B || u == 0x0C || u == 0x0D || u == 0x20 ||
    u == 0xA0 || u == 0x1680 || (0x2000 <= u <= 0x200A) ||
    u == 0x2028 || u == 0x2029 || u == 0x202F || u == 0x205F || u == 0x3000 || u == 0xFEFF
  }

  /** Every character of `s` is white space (this includes the empty string). */
  predicate Blank(s: string) {
    forall i :: 0 <= i < |s| ==> IsSpace(s[i])
  }

  /** How many white-space characters `s` starts with. */
  function LeadingSpaces(s: string): (n: nat)
    ensures n <= |s| && Blank(s[..n])
    ensures n < |s| ==> !IsSpace(s[n])
  {
    if s != [] && IsSpace(s[0]) then
      var m := LeadingSpaces(s[1..]);
      assert s[..m + 1] == [s[0]] + s[1..][..m];
      m + 1
    else 0
  }

  /** How many white-space characters `s` ends with. */
  function TrailingSpaces(s: string): (n: nat)
    ensures n <= |s| && Blank(s[|s| - n..])
    ensures n < |s| ==> !IsSpace(s[|s| - n - 1])
  {
    if s != [] && IsSpace(s[|s| - 1]) then
      var m := TrailingSpaces(s[..|s| - 1]);
      assert s[|s| - (m + 1)..] == s[..|s| - 1][|s| - 1 - m..] + [s[|s| - 1]];
      m + 1
    else 0
  }

  /** `s.trimStart()`: the suffix left after dropping leading white space. */
  function TrimStart(s: string): (r: string)
    ensures |r| <= |s| && r == s[|s| - |r|..]
    ensures Blank(s[..|s| - |r|])
    ensures r != [] ==> !IsSpace(r[0])
  {
    s[LeadingSpaces(s)..]
  }

  /** `s.trimEnd()`: the prefix left after dropping trailing white space. */
  function TrimEnd(s: string): (r: string)
    ensures |r| <= |s| && r == s[..|r|]
    ensures Blank(s[|r|..])
    ensures r != [] ==> !IsSpace(r[|r| - 1])
  {
    s[..|s| - TrailingSpaces(s)]
  }

  /** `s.trim()`: `s` without the white space at both ends. */
  function Trim(s: string): (r: string)
    ensures |r| <= |s|
    ensures r != [] ==> !IsSpace(r[0]) && !IsSpace(r[|r| - 1])
  {
    TrimEnd(TrimStart(s))
  }

  /** `s` is the trimmed string with white space before and after it: what
      `Trim` drops is white space, and only from the two ends. */
  lemma TrimSlice(s: string)
    ensures var a := TrimStart(s); var r := Trim(s);
      s == s[..|s| - |a|] + r + a[|r|..] && Blank(s[..|s| - |a|]) && Blank(a[|r|..])
  {
    var a := TrimStart(s);
    var r := TrimEnd(a);
    assert r == Trim(s);
    SuffixSplit(s, |s| - |a|, r);
  }

  /** Cutting `s` at `k` and its suffix again after a prefix `r` gives three
      consecutive pieces. */
  lemma SuffixSplit(s: string, k: nat, r: string)
    requires k <= |s| && |r| <= |s| - k && r == s[k..][..|r|]
    ensures s == s[..k] + r + s[k..][|r|..]
  {
    assert s[k..] == r + s[k..][|r|..];
  }

  /** A string trims to the empty string exactly when it is all white space. */
  lemma TrimEmptyIffBlank(s: string)
    ensures Trim(s) == [] <==> Blank(s)
  {
    var a := TrimStart(s);
    var k := |s| - |a|;
    var r := TrimEnd(a);
    assert r == Trim(s);
    if r == [] {
      assert a[|r|..] == a;
      assert a == [];
      assert s[..k] == s;
    } else {
      assert s[k] == r[0];
    }
  }

  /** The JavaScript `length` of a string: UTF-16 code units, so a code point
      outside the Basic Multilingual Plane counts twice. */
  function Utf16Length(s: string): (n: nat)
    ensures |s| <= n <= 2 * |s|
  {
    if s == [] then 0 else (if s[0] as int >= 0x10000 then 2 else 1) + Utf16Length(s[1..])
  }

  predicate IsDigit(c: char) {
    '0' <= c <= '9'
  }

  predicate AllDigits(s: string) {
    forall i :: 0 <= i < |s| ==> IsDigit(s[i])
  }

  function DigitValue(c: char): nat {
    if IsDigit(c) then c as int - '0' as int else 0
  }

  function DigitChar(d: nat): (c: char)
    requires d < 10
    ensures IsDigit(c) && DigitValue(c) == d
  {
    ('0' as int + d) as char
  }

  /** The value of a string of decimal digits, most significant first. */
  function DigitsValue(s: string): nat {
    if s == [] then 0 else DigitsValue(s[..|s| - 1]) * 10 + DigitValue(s[|s| - 1])
  }

  /** The decimal text of a natural number, as `String(n)` writes it:
      digits only, no leading zero except for 0 itself. */
  function NatToString(n: nat): (r: string)
    ensures r != [] && AllDigits(r)
    ensures r[0] == '0' <==> n == 0
    ensures n == 0 ==> r == "0"
  {
    if n < 10 then [DigitChar(n)] else NatToString(n / 10) + [DigitChar(n % 10)]
  }

  /** Reading back the decimal text of a number gives the number. */
  lemma {:induction false} NatToStringRoundTrip(n: nat)
    ensures DigitsValue(NatToString(n)) == n
  {
    var r := NatToString(n);
    if n >= 10 {
      NatToStringRoundTrip(n / 10);
      assert r[..|r| - 1] == NatToString(n / 10);
    }
  }

  /** The decimal text of an integer, with a leading '-' when negative. */
  function IntToString(n: int): string {
    if n < 0 then "-" + NatToString(-n) else NatToString(n)
  }

  /** The longest prefix of `s` made of decimal digits. */
  function DigitRun(s: string): (r: string)
    ensures |r| <= |s| && r == s[..|r|] && AllDigits(r)
    ensures |r| < |s| ==> !IsDigit(s[|r|])
  {
    if s != [] && IsDigit(s[0]) then [s[0]] + DigitRun(s[1..]) else []
  }

  /** `parseFloat(s)` on the integer forms: leading white space is skipped, an
      optional sign is read, then the longest run of digits; no digit at all
      gives NaN, written None. */
  function ParseFloat(s: string): (r: Option<int>)
    ensures var t := TrimStart(s);
      r.Some? <==> t != [] && (IsDigit(t[0]) || ((t[0] == '-' || t[0] == '+') && |t| > 1 && IsDigit(t[1])))
    ensures r.Some? && r.value < 0 ==> TrimStart(s)[0] == '-'
  {
    SignedDigits(TrimStart(s))
  }

  /** The number an optional sign and a run of digits at the start of `t`
      denote, or None when no digit follows the sign. */
  function SignedDigits(t: string): (r: Option<int>)
    ensures r.Some? <==> t != [] && (IsDigit(t[0]) || ((t[0] == '-' || t[0] == '+') && |t| > 1 && IsDigit(t[1])))
    ensures r.Some? && r.value < 0 ==> t[0] == '-'
  {
    var signed := t != [] && (t[0] == '-' || t[0] == '+');
    var digits := DigitRun(if signed then t[1..] else t);
    if digits == [] then None
    else if signed && t[0] == '-' then Some(-(DigitsValue(digits) as int))
    else Some(DigitsValue(digits))
  }

  /** A sign followed by a run of digits reads as the signed value of the
      run. */
  lemma SignedDigitsOfRun(t: string, d: string)
    requires d != [] && AllDigits(d)
    requires t == d || (t != [] && t[0] in "-+" && t[1..] == d)
    ensures SignedDigits(t) == Some(if t != d && t[0] == '-' then -(DigitsValue(d) as int) else DigitsValue(d))
  {
    DigitRunOfDigits(d);
  }

  /** `parseFloat` reads a run of digits as its value. */
  lemma ParseFloatOfDigits(d: string)
    requires d != [] && AllDigits(d)
    ensures ParseFloat(d) == Some(DigitsValue(d))
  {
    assert TrimStart(d) == d by {
      assert !IsSpace(d[0]);
    }
    SignedDigitsOfRun(d, d);
  }

  /** `parseFloat` reads a minus sign and a run of digits as the negated
      value. */
  lemma ParseFloatOfNegatedDigits(d: string)
    requires d != [] && AllDigits(d)
    ensures ParseFloat("-" + d) == Some(-(DigitsValue(d) as int))
  {
    var s := "-" + d;
    assert s[0] == '-' && s[1..] == d && s != d;
    assert TrimStart(s) == s by {
      assert !IsSpace(s[0]);
    }
    SignedDigitsOfRun(s, d);
  }

  /** Text that starts with a character that is neither white space, a
      sign nor a digit is not a number to `parseFloat`. */
  lemma ParseFloatOfWord(s: string)
    requires s != [] && !IsSpace(s[0]) && !IsDigit(s[0]) && s[0] != '-' && s[0] != '+'
    ensures ParseFloat(s) == None
  {
    assert TrimStart(s) == s;
    assert DigitRun(s) == [];
  }

  /** `parseFloat` reads back the text `-m` of a negative number. */
  lemma NegativeTextReadBack(m: nat)
    ensures ParseFloat("-" + NatToString(m)) == Some(-(m as int))
  {
    NatToStringRoundTrip(m);
    ParseFloatOfNegatedDigits(NatToString(m));
  }

  /** `parseFloat` reads back the text `String(n)` of every integer. */
  lemma ParseFloatOfIntToString(n: int)
    ensures ParseFloat(IntToString(n)) == Some(n)
  {
    if n < 0 {
      var m: nat := -n;
      assert IntToString(n) == "-" + NatToString(m);
      NegativeTextReadBack(m);
    } else {
      NatToStringRoundTrip(n);
      ParseFloatOfDigits(NatToString(n));
    }
  }

  lemma {:induction false} DigitRunOfDigits(s: string)
    requires AllDigits(s)
    ensures DigitRun(s) == s
  {
    if s != [] { DigitRunOfDigits(s[1..]); }
  }

  /** `Number(s)` on the integer forms: the trimmed text must be empty (giving
      0) or an optional sign followed by one or more digits and nothing else;
      anything else is NaN, written None. */
  function StringToNumber(s: string): (r: Option<int>)
    ensures Trim(s) == [] ==> r == Some(0)
    ensures r.Some? && Trim(s) != [] ==> ParseFloat(s) == r
    ensures var t := Trim(s);
      var d := if t != [] && (t[0] == '-' || t[0] == '+') then t[1..] else t;
      r.Some? <==> t == [] || (d != [] && AllDigits(d))
  {
    var t := Trim(s);
    var rest := if t != [] && (t[0] == '-' || t[0] == '+') then t[1..] else t;
    if t == [] then Some(0)
    else if rest == [] || !AllDigits(rest) then None
    else
      var n := if t[0] == '-' then -(DigitsValue(rest) as int) else DigitsValue(rest);
      assert ParseFloat(s) == Some(n) by { ParseFloatOfTrimmed(s, rest); }
      Some(n)
  }

  /** On text whose trimmed form is a signed run of digits, `parseFloat`
      reads the signed value of the run: the white space after the run
      stops it. */
  lemma ParseFloatOfTrimmed(s: string, d: string)
    requires var t := Trim(s); t != [] && d == (if t[0] == '-' || t[0] == '+' then t[1..] else t)
    requires d != [] && AllDigits(d)
    ensures ParseFloat(s) == Some(if Trim(s)[0] == '-' then -(DigitsValue(d) as int) else DigitsValue(d))
  {
    var a := TrimStart(s);
    var t := TrimEnd(a);
    assert t == Trim(s);
    var w := a[|t|..];
    assert a == t + w;
    assert w == [] || !IsDigit(w[0]) by {
      if w != [] {
        assert IsSpace(w[0]);
      }
    }
    SignedDigitsBefore(t, d, w);
  }

  /** A signed run of digits followed by a non-digit, or by nothing, reads
      as the signed value of the run. */
  lemma SignedDigitsBefore(t: string, d: string, w: string)
    requires t != [] && d == (if t[0] == '-' || t[0] == '+' then t[1..] else t)
    requires d != [] && AllDigits(d) && (w == [] || !IsDigit(w[0]))
    ensures SignedDigits(t + w) == Some(if t[0] == '-' then -(DigitsValue(d) as int) else DigitsValue(d))
  {
    var a := t + w;
    assert a[0] == t[0];
    if t[0] == '-' || t[0] == '+' {
      assert a[1..] == d + w;
    } else {
      assert a == d + w;
    }
    DigitRunBefore(d, w);
  }

  /** A run of digits followed by a non-digit, or by nothing, is read
      whole. */
  lemma DigitRunBefore(d: string, w: string)
    requires AllDigits(d) && (w == [] || !IsDigit(w[0]))
    ensures DigitRun(d + w) == d
  {
    assert (d + w)[..|d|] == d;
  }
}
