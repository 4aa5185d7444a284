/** Decimal text and integers as Python's `int(str)` and `str(int)` treat
    them: `int` strips surrounding whitespace, accepts one optional sign and
    ASCII digits with single underscores between them; `str` writes the
    canonical form (a minus sign for negatives, no leading zeros). */
module Numerals {
  import opened Wrappers

  predicate IsDigit(c: char) {
    '0' <= c <= '9'
  }

  function DigitValue(c: char): nat
    requires IsDigit(c)
  {
    (c as int) - ('0' as int)
  }

  function DigitChar(d: nat): (c: char)
    requires d < 10
    ensures IsDigit(c) && DigitValue(c) == d
  {
    (('0' as int) + d) as char
  }

  predicate AllDigits(s: string) {
    forall i :: 0 <= i < |s| ==> IsDigit(s[i])
  }

  /** The characters Python's `str.isspace` accepts: the ASCII controls
      TAB..CR and FS..US, space, NEL, NBSP and the Unicode space separators. */
  predicate IsSpace(c: char) {
    || c == ' ' || '\t' <= c <= '\r' || '\U{1c}' <= c <= '\U{1f}'
    || c == '\U{85}' || c == '\U{a0}' || c == '\U{1680}'
    || '\U{2000}' <= c <= '\U{200a}' || c == '\U{2028}' || c == '\U{2029}'
    || c == '\U{202f}' || c == '\U{205f}' || c == '\U{3000}'
  }

  /** Value of a string of decimal digits, most significant first. */
  function DigitsValue(s: string): nat
    requires AllDigits(s)
  {
    if |s| == 0 then 0 else DigitsValue(s[..|s| - 1]) * 10 + DigitValue(s[|s| - 1])
  }

  /** `str(n)` for a natural number: the shortest digit string denoting it. */
  function NatToDecimal(n: nat): (s: string)
    ensures 0 < |s| && AllDigits(s)
    ensures DigitsValue(s) == n
    ensures s[0] == '0' ==> n == 0
  {
    if n < 10 then [DigitChar(n)]
    else
      var prefix := NatToDecimal(n / 10);
      assert (prefix + [DigitChar(n % 10)])[..|prefix|] == prefix;
      prefix + [DigitChar(n % 10)]
  }

  /** `str(i)` for any integer. */
  function IntToDecimal(i: int): (s: string)
    ensures 0 < |s|
    ensures i < 0 <==> s[0] == '-'
    ensures i >= 0 ==> s == NatToDecimal(i)
    ensures i < 0 ==> s == "-" + NatToDecimal(-i)
  {
    if i < 0 then "-" + NatToDecimal(-i) else NatToDecimal(i)
  }

  /** `s` with leading and trailing whitespace removed (`str.strip()`). */
  function Strip(s: string): (t: string)
    ensures |t| <= |s|
    ensures 0 < |t| ==> !IsSpace(t[0]) && !IsSpace(t[|t| - 1])
    ensures t == [] ==> forall i :: 0 <= i < |s| ==> IsSpace(s[i])
    ensures forall c :: c in t ==> c in s
  {
    StripEnd(StripStart(s))
  }

  function StripStart(s: string): (t: string)
    ensures |t| <= |s| && t == s[|s| - |t|..]
    ensures 0 < |t| ==> !IsSpace(t[0])
    ensures t == [] ==> forall i :: 0 <= i < |s| ==> IsSpace(s[i])
  {
    if 0 < |s| && IsSpace(s[0]) then StripStart(s[1..]) else s
  }

  function StripEnd(s: string): (t: string)
    ensures |t| <= |s| && t == s[..|t|]
    ensures 0 < |t| ==> !IsSpace(t[|t| - 1])
    ensures t == [] ==> forall i :: 0 <= i < |s| ==> IsSpace(s[i])
  {
    if 0 < |s| && IsSpace(s[|s| - 1]) then StripEnd(s[..|s| - 1]) else s
  }

  /** Digits with optional single underscores strictly between two digits,
      the shape Python's `int` accepts after the sign. */
  predicate DigitGroups(s: string) {
    && 0 < |s|
    && IsDigit(s[0])
    && IsDigit(s[|s| - 1])
    && (forall i :: 0 <= i < |s| ==> IsDigit(s[i]) || s[i] == '_')
    && (forall i :: 0 <= i < |s| - 1 && s[i] == '_' ==> IsDigit(s[i + 1]))
  }

  /** `s` without its underscores. */
  function DropUnderscores(s: string): (t: string)
    requires forall i :: 0 <= i < |s| ==> IsDigit(s[i]) || s[i] == '_'
    ensures AllDigits(t)
    ensures AllDigits(s) ==> t == s
  {
    if |s| == 0 then []
    else if s[0] == '_' then DropUnderscores(s[1..])
    else [s[0]] + DropUnderscores(s[1..])
  }

  /** Python's `int(s)` on a string: the integer it denotes, or `None`
      where Python raises `ValueError`. */
  function ParseInt(s: string): (r: Option<int>)
    ensures r.Some? ==> 0 < |Strip(s)| && IsDigit(Strip(s)[|Strip(s)| - 1])
  {
    var t := Strip(s);
    var negative := 0 < |t| && t[0] == '-';
    var body := if 0 < |t| && (t[0] == '-' || t[0] == '+') then t[1..] else t;
    if DigitGroups(body) then
      var magnitude: int := DigitsValue(DropUnderscores(body));
      Some(if negative then -magnitude else magnitude)
    else
      None
  }

  lemma {:induction false} StripCanonical(s: string)
    requires 0 < |s| && !IsSpace(s[0]) && !IsSpace(s[|s| - 1])
    ensures Strip(s) == s
  {
  }

  /** Text without a single digit is never an integer. */
  lemma {:induction false} NoDigitNoInt(s: string)
    requires forall i :: 0 <= i < |s| ==> !IsDigit(s[i])
    ensures ParseInt(s) == None
  {
  }

  /** Python's `int(str(i)) == i`: formatting an integer and parsing it
      back gives the same integer. */
  lemma {:induction false} ParseFormatRoundTrip(i: int)
    ensures ParseInt(IntToDecimal(i)) == Some(i)
  {
    var s := IntToDecimal(i);
    StripCanonical(s);
    if i < 0 {
      assert s[1..] == NatToDecimal(-i);
    }
  }

  /** The text of `str(i)` is a minus sign or a run of digits, so it never
      contains a delimiter such as `)`. */
  lemma DecimalChars(i: int)
    ensures forall k :: 0 <= k < |IntToDecimal(i)| ==>
      IntToDecimal(i)[k] == '-' || IsDigit(IntToDecimal(i)[k])
  {
    var s := IntToDecimal(i);
    if i < 0 {
      assert forall k :: 1 <= k < |s| ==> s[k] == NatToDecimal(-i)[k - 1];
    }
  }
}
