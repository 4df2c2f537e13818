/** Text helpers with Python's own semantics: `sep.join`, `str.strip`,
    `str(int)` and `repr(str)`. */
module Text {

  /** `sep.join(parts)`. */
  function Join(parts: seq<string>, sep: string): (r: string)
    ensures parts == [] ==> r == []
    ensures |parts| == 1 ==> r == parts[0]
  {
    if |parts| == 0 then []
    else if |parts| == 1 then parts[0]
    else parts[0] + sep + Join(parts[1..], sep)
  }

  /** The characters for which Python's `str.isspace()` holds. */
  predicate IsSpace(c: char) {
    || ('\t' <= c <= '\r')
    || ('\U{001C}' <= c <= ' ')
    || c == '\U{0085}' || c == '\U{00A0}' || c == '\U{1680}'
    || ('\U{2000}' <= c <= '\U{200A}')
    || c == '\U{2028}' || c == '\U{2029}' || c == '\U{202F}' || c == '\U{205F}' || c == '\U{3000}'
  }

  predicate IsParen(c: char) {
    c == '(' || c == ')'
  }

  function TrimStart(s: string, drop: char -> bool): (r: string)
    ensures |r| <= |s| && r == s[|s| - |r|..]
    ensures r != [] ==> !drop(r[0])
    ensures forall i | 0 <= i < |s| - |r| :: drop(s[i])
  {
    if s != [] && drop(s[0]) then TrimStart(s[1..], drop) else s
  }

  function TrimEnd(s: string, drop: char -> bool): (r: string)
    ensures |r| <= |s| && r == s[..|r|]
    ensures r != [] ==> !drop(r[|r| - 1])
    ensures forall i | |r| <= i < |s| :: drop(s[i])
  {
    if s != [] && drop(s[|s| - 1]) then TrimEnd(s[..|s| - 1], drop) else s
  }

  /** `s.strip(chars)`: drops every leading and trailing character `drop` holds of. */
  function Strip(s: string, drop: char -> bool): (r: string)
    ensures r != [] ==> !drop(r[0]) && !drop(r[|r| - 1])
    ensures var k := |s| - |TrimStart(s, drop)|;
      && k + |r| <= |s| && r == s[k..k + |r|]
      && (forall i | 0 <= i < k :: drop(s[i]))
      && (forall i | k + |r| <= i < |s| :: drop(s[i]))
  {
    TrimEnd(TrimStart(s, drop), drop)
  }

  /** A non-empty text whose first and last characters are not whitespace. */
  predicate Trimmed(s: string) {
    s != [] && !IsSpace(s[0]) && !IsSpace(s[|s| - 1])
  }

  lemma StripKeepsTrimmed(s: string)
    requires Trimmed(s)
    ensures Strip(s, IsSpace) == s
  {
  }

  function DigitChar(d: nat): (c: char)
    requires d < 10
    ensures '0' <= c <= '9'
  {
    "0123456789"[d]
  }

  /** `str(n)` for a non-negative integer. */
  function NatToString(n: nat): (r: string)
    ensures r != [] && '0' <= r[0] <= '9' && '0' <= r[|r| - 1] <= '9'
  {
    if n < 10 then [DigitChar(n)] else NatToString(n / 10) + [DigitChar(n % 10)]
  }

  /** Appending a digit to a positive number appends its character to the
      decimal text: `str(10 * q + d) == str(q) + str(d)`. */
  lemma NatToStringAppend(q: nat, d: nat)
    requires q > 0 && d < 10
    ensures NatToString(10 * q + d) == NatToString(q) + [DigitChar(d)]
  {
    var n := 10 * q + d;
    assert n >= 10;
    assert n / 10 == q && n % 10 == d;
  }

  /** `str(i)`, and also `repr(i)`, for any integer. */
  function IntToString(i: int): (r: string)
    ensures Trimmed(r) && '0' <= r[|r| - 1] <= '9'
    ensures (r[0] == '-') == (i < 0)
  {
    if i < 0 then "-" + NatToString(-i) else NatToString(i)
  }

  function HexDigit(d: nat): (c: char)
    requires d < 16
  {
    "0123456789abcdef"[d]
  }

  /** The characters below U+00AE that `repr` writes as `\xNN`. */
  predicate HexEscaped(c: char) {
    c < ' ' || ('\U{007F}' <= c <= '\U{00A0}') || c == '\U{00AD}'
  }

  /** How `repr` writes one character of a string quoted with `quote`. */
  function EscapeChar(c: char, quote: char): (r: string)
    ensures r != []
  {
    if c == '\\' then "\\\\"
    else if c == quote then ['\\', quote]
    else if c == '\n' then "\\n"
    else if c == '\r' then "\\r"
    else if c == '\t' then "\\t"
    else if HexEscaped(c) then "\\x" + [HexDigit(c as nat / 16), HexDigit(c as nat % 16)]
    else [c]
  }

  function EscapeAll(s: string, quote: char): string {
    if s == [] then [] else EscapeChar(s[0], quote) + EscapeAll(s[1..], quote)
  }

  /** The quote `repr` chooses: double quotes only when the text holds a
      single quote and no double quote. */
  function QuoteFor(s: string): (q: char)
    ensures q == '\'' || q == '"'
  {
    if '\'' in s && '"' !in s then '"' else '\''
  }

  /** `repr(s)` for a string. */
  function StrRepr(s: string): (r: string)
    ensures |r| >= 2 && r[0] == r[|r| - 1] == QuoteFor(s)
    ensures Trimmed(r)
  {
    [QuoteFor(s)] + EscapeAll(s, QuoteFor(s)) + [QuoteFor(s)]
  }
}
