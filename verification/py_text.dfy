/** The string operations of Python the client uses: `repr(str)` (inside its
    error messages), `str.upper()` (choosing the POST branch) and
    `str.startswith` (recognising absolute URLs). */
module PyText {
  import opened Wrappers

  predicate StartsWith(s: string, prefix: string) {
    |prefix| <= |s| && s[..|prefix|] == prefix
  }

  // ---------------------------------------------------------------------
  // repr(str)

  function HexDigit(d: nat): (c: char)
    requires d < 16
  {
    "0123456789abcdef"[d]
  }

  function HexValue(c: char): Option<nat> {
    if '0' <= c <= '9' then Some(c as int - '0' as int)
    else if 'a' <= c <= 'f' then Some(c as int - 'a' as int + 10)
    else None
  }

  /** The quote `repr` wraps a string in: double quotes when the string holds
      a single quote and no double quote, single quotes otherwise. */
  function QuoteFor(s: string): (q: char)
    ensures q == '\'' || q == '"'
  {
    if '\'' in s && '"' !in s then '"' else '\''
  }

  /** A control character `repr` writes as `\xhh`. */
  predicate IsHexEscaped(c: char) {
    (c < ' ' && c != '\t' && c != '\n' && c != '\r') || c == '\U{7f}'
  }

  /** How `repr` writes one character inside quotes `q`. */
  function EscapeChar(c: char, q: char): string {
    if c == q || c == '\\' then ['\\', c]
    else if c == '\t' then "\\t"
    else if c == '\n' then "\\n"
    else if c == '\r' then "\\r"
    else if IsHexEscaped(c) then ['\\', 'x', HexDigit(c as int / 16), HexDigit(c as int % 16)]
    else [c]
  }

  function EscapeAll(s: string, q: char): string {
    if s == [] then [] else EscapeChar(s[0], q) + EscapeAll(s[1..], q)
  }

  /** `repr(s)` for a string `s`. */
  function ReprStr(s: string): (r: string)
    ensures 2 <= |r| && r[0] == r[|r| - 1] == QuoteFor(s)
  {
    var q := QuoteFor(s);
    [q] + EscapeAll(s, q) + [q]
  }

  /** Reads back the escapes `EscapeChar` writes. */
  function Unescape(t: string, q: char): Option<string>
    decreases |t|
  {
    if t == [] then Some([])
    else if t[0] != '\\' then Prepend(t[0], Unescape(t[1..], q))
    else if |t| < 2 then None
    else if t[1] == '\\' || t[1] == q then Prepend(t[1], Unescape(t[2..], q))
    else if t[1] == 't' then Prepend('\t', Unescape(t[2..], q))
    else if t[1] == 'n' then Prepend('\n', Unescape(t[2..], q))
    else if t[1] == 'r' then Prepend('\r', Unescape(t[2..], q))
    else if t[1] == 'x' && 4 <= |t| && HexValue(t[2]).Some? && HexValue(t[3]).Some? then
      var code := HexValue(t[2]).value * 16 + HexValue(t[3]).value;
      Prepend(code as char, Unescape(t[4..], q))
    else None
  }

  function Prepend(c: char, rest: Option<string>): Option<string> {
    match rest
    case Some(s) => Some([c] + s)
    case None => None
  }

  /** Reads a quoted `repr` of a string back into the string. */
  function Unrepr(r: string): Option<string> {
    if 2 <= |r| && r[0] == r[|r| - 1] && (r[0] == '\'' || r[0] == '"')
    then Unescape(r[1..|r| - 1], r[0])
    else None
  }

  lemma HexDigitValue(d: nat)
    requires d < 16
    ensures HexValue(HexDigit(d)) == Some(d)
  {
  }

  lemma {:induction false} UnescapeChar(c: char, q: char, rest: string)
    requires q == '\'' || q == '"'
    ensures Unescape(EscapeChar(c, q) + rest, q) == Prepend(c, Unescape(rest, q))
  {
    var e := EscapeChar(c, q);
    if c == q || c == '\\' {
      assert (e + rest)[2..] == rest;
    } else if c == '\t' || c == '\n' || c == '\r' {
      assert (e + rest)[2..] == rest;
    } else if IsHexEscaped(c) {
      HexDigitValue(c as int / 16);
      HexDigitValue(c as int % 16);
      assert (e + rest)[4..] == rest;
    } else {
      assert (e + rest)[1..] == rest;
    }
  }

  lemma {:induction false} UnescapeEscapeAll(s: string, q: char)
    requires q == '\'' || q == '"'
    ensures Unescape(EscapeAll(s, q), q) == Some(s)
    decreases |s|
  {
    if s != [] {
      var rest := EscapeAll(s[1..], q);
      assert EscapeAll(s, q) == EscapeChar(s[0], q) + rest;
      UnescapeChar(s[0], q, rest);
      UnescapeEscapeAll(s[1..], q);
      assert [s[0]] + s[1..] == s;
    }
  }

  /** `repr` loses nothing: the text inside an error message can be read
      back exactly. */
  lemma {:induction false} ReprRoundTrip(s: string)
    ensures Unrepr(ReprStr(s)) == Some(s)
  {
    var q := QuoteFor(s);
    var r := ReprStr(s);
    assert r[1..|r| - 1] == EscapeAll(s, q);
    UnescapeEscapeAll(s, q);
  }

  // ---------------------------------------------------------------------
  // str.upper()

  function UpperChar(c: char): char {
    if 'a' <= c <= 'z' then (c as int - 'a' as int + 'A' as int) as char else c
  }

  /** `s.upper()` on ASCII letters; every other character is kept. */
  function Upper(s: string): (u: string)
    ensures |u| == |s|
    ensures forall i :: 0 <= i < |s| ==> u[i] == UpperChar(s[i])
  {
    if s == [] then [] else [UpperChar(s[0])] + Upper(s[1..])
  }

  /** `method.upper() == "POST"`. */
  predicate IsPost(verb: string) {
    Upper(verb) == "POST"
  }

  /** Exactly the four-letter spellings of "post" in any mix of cases take
      the POST branch. */
  lemma PostSpellings(verb: string)
    ensures IsPost(verb) <==>
      && |verb| == 4
      && (verb[0] == 'P' || verb[0] == 'p')
      && (verb[1] == 'O' || verb[1] == 'o')
      && (verb[2] == 'S' || verb[2] == 's')
      && (verb[3] == 'T' || verb[3] == 't')
  {
    if |verb| == 4 {
      var u := Upper(verb);
      if u == "POST" {
        assert u[0] == 'P' && u[1] == 'O' && u[2] == 'S' && u[3] == 'T';
      }
    }
  }
}
