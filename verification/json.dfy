/**
 * The two JSON shapes the databags carry: integers (section 6 of RFC 8259)
 * and strings (section 7), written as Python's `json.dumps` writes them
 * (with its default `ensure_ascii`) and read as `json.loads` reads them.
 */
module Json {
  import opened Wrappers
  import opened Decimal

  /** Insignificant whitespace around a JSON text (section 2 of RFC 8259). */
  predicate IsJsonSpace(c: char) {
    c == ' ' || c == '\t' || c == '\n' || c == '\r'
  }

  function StripStart(s: string): (r: string)
    ensures |r| <= |s|
  {
    if s != [] && IsJsonSpace(s[0]) then StripStart(s[1..]) else s
  }

  function StripEnd(s: string): (r: string)
    ensures |r| <= |s|
  {
    if s != [] && IsJsonSpace(s[|s| - 1]) then StripEnd(s[..|s| - 1]) else s
  }

  /** An integer of the number grammar: `-? (0 | [1-9] [0-9]*)`, no fraction, no exponent. */
  predicate IsIntLiteral(t: string) {
    var digits := if |t| > 0 && t[0] == '-' then t[1..] else t;
    |digits| > 0 && AllDigits(digits) && (digits[0] == '0' ==> |digits| == 1)
  }

  /** `json.loads(text)` when the document is an integer; None for every other text. */
  function LoadsInt(text: string): Option<int> {
    var t := StripEnd(StripStart(text));
    if IsIntLiteral(t) then
      var digits := if t[0] == '-' then t[1..] else t;
      var n: int := DigitsValue(digits);
      Some(if t[0] == '-' then -n else n)
    else None
  }

  /** `json.loads(json.dumps(n)) == n`. */
  lemma LoadsDecimalText(n: int)
    ensures LoadsInt(DecimalText(n)) == Some(n)
  {
    var text := DecimalText(n);
    var digits := NatDigits(if n < 0 then -n else n);
    assert StripStart(text) == text;
    assert StripEnd(text) == text;
    if n < 0 {
      assert text[1..] == digits;
    }
    NatDigitsNoLeadingZero(if n < 0 then -n else n);
    NatDigitsValue(if n < 0 then -n else n);
  }

  predicate IsHexDigit(c: char) {
    IsDigit(c) || 'a' <= c <= 'f' || 'A' <= c <= 'F'
  }

  /** Lower-case hexadecimal digit, as Python's `'{0:04x}'` writes it. */
  function HexDigit(d: nat): (c: char)
    requires d < 16
    ensures IsHexDigit(c)
  {
    if d < 10 then DigitChar(d) else ('a' as int + d - 10) as char
  }

  function HexValue(c: char): (d: nat)
    requires IsHexDigit(c)
    ensures d < 16
  {
    if IsDigit(c) then DigitValue(c)
    else if 'a' <= c <= 'f' then c as int - 'a' as int + 10
    else c as int - 'A' as int + 10
  }

  /** Four hexadecimal digits of a code unit. */
  function Hex4(n: nat): (r: string)
    requires n < 0x10000
    ensures |r| == 4
  {
    var q1 := n / 16;
    var q2 := q1 / 16;
    var q3 := q2 / 16;
    [HexDigit(q3), HexDigit(q2 % 16), HexDigit(q1 % 16), HexDigit(n % 16)]
  }

  function ParseHex4(s: string): Option<nat>
    requires |s| == 4
  {
    if IsHexDigit(s[0]) && IsHexDigit(s[1]) && IsHexDigit(s[2]) && IsHexDigit(s[3]) then
      Some(((HexValue(s[0]) * 16 + HexValue(s[1])) * 16 + HexValue(s[2])) * 16 + HexValue(s[3]))
    else None
  }

  lemma ParseHex4OfHex4(n: nat)
    requires n < 0x10000
    ensures ParseHex4(Hex4(n)) == Some(n)
  {
    var q1 := n / 16;
    var q2 := q1 / 16;
    var q3 := q2 / 16;
    forall d: nat | d < 16
      ensures HexValue(HexDigit(d)) == d
    {
    }
    assert n == q1 * 16 + n % 16;
    assert q1 == q2 * 16 + q1 % 16;
    assert q2 == q3 * 16 + q2 % 16;
  }

  /** High and low surrogate of a code point beyond the Basic Multilingual Plane. */
  function HighSurrogate(k: int): (h: nat)
    requires 0x10000 <= k < 0x110000
    ensures 0xD800 <= h < 0xDC00
  {
    0xD800 + (k - 0x10000) / 0x400
  }

  function LowSurrogate(k: int): (l: nat)
    requires 0x10000 <= k < 0x110000
    ensures 0xDC00 <= l < 0xE000
  {
    0xDC00 + (k - 0x10000) % 0x400
  }

  /** The code point a surrogate pair stands for. */
  function Combine(hi: nat, lo: nat): (k: int)
    requires 0xD800 <= hi < 0xDC00 && 0xDC00 <= lo < 0xE000
    ensures 0x10000 <= k < 0x110000
  {
    0x10000 + (hi - 0xD800) * 0x400 + (lo - 0xDC00)
  }

  /** How `json.dumps` writes one character of a string under `ensure_ascii`. */
  function EscapeChar(c: char): (r: string)
    ensures |r| > 0
  {
    var k := c as int;
    if c == '"' then "\\\""
    else if c == '\\' then "\\\\"
    else if k == 0x08 then "\\b"
    else if k == 0x0C then "\\f"
    else if c == '\n' then "\\n"
    else if c == '\r' then "\\r"
    else if c == '\t' then "\\t"
    else if 0x20 <= k <= 0x7E then [c]
    else if k < 0x10000 then "\\u" + Hex4(k)
    else "\\u" + Hex4(HighSurrogate(k)) + "\\u" + Hex4(LowSurrogate(k))
  }

  function EscapeBody(s: string): (r: string)
    ensures |r| >= |s|
  {
    if s == [] then [] else EscapeChar(s[0]) + EscapeBody(s[1..])
  }

  /** `json.dumps(s)` for a string `s`. */
  function DumpsString(s: string): string {
    "\"" + EscapeBody(s) + "\""
  }

  function Prepend(c: char, rest: Option<string>): Option<string> {
    if rest.Some? then Some([c] + rest.value) else None
  }

  /**
   * The characters a JSON string body stands for, read strictly (no raw
   * control characters). None for a malformed body, and for an escaped
   * surrogate that is not half of a pair, which no `string` can hold.
   */
  function UnescapeBody(s: string): Option<string>
    decreases |s|
  {
    if s == [] then Some([])
    else if s[0] == '\\' then
      if |s| < 2 then None
      else if s[1] == '"' then Prepend('"', UnescapeBody(s[2..]))
      else if s[1] == '\\' then Prepend('\\', UnescapeBody(s[2..]))
      else if s[1] == '/' then Prepend('/', UnescapeBody(s[2..]))
      else if s[1] == 'b' then Prepend(0x08 as char, UnescapeBody(s[2..]))
      else if s[1] == 'f' then Prepend(0x0C as char, UnescapeBody(s[2..]))
      else if s[1] == 'n' then Prepend('\n', UnescapeBody(s[2..]))
      else if s[1] == 'r' then Prepend('\r', UnescapeBody(s[2..]))
      else if s[1] == 't' then Prepend('\t', UnescapeBody(s[2..]))
      else if s[1] == 'u' && |s| >= 6 && ParseHex4(s[2..6]).Some? then
        var hi := ParseHex4(s[2..6]).value;
        if 0xD800 <= hi < 0xDC00 then
          if |s| >= 12 && s[6] == '\\' && s[7] == 'u' && ParseHex4(s[8..12]).Some?
             && 0xDC00 <= ParseHex4(s[8..12]).value < 0xE000
          then
            Prepend(Combine(hi, ParseHex4(s[8..12]).value) as char, UnescapeBody(s[12..]))
          else None
        else if 0xDC00 <= hi < 0xE000 then None
        else Prepend(hi as char, UnescapeBody(s[6..]))
      else None
    else if s[0] == '"' || (s[0] as int) < 0x20 then None
    else Prepend(s[0], UnescapeBody(s[1..]))
  }

  /** `json.loads(text)` when the document is a string; None for every other text. */
  function LoadsString(text: string): Option<string> {
    var t := StripEnd(StripStart(text));
    if |t| >= 2 && t[0] == '"' && t[|t| - 1] == '"' then UnescapeBody(t[1..|t| - 1]) else None
  }

  /** Decoding an escaped character consumes exactly its escape. */
  lemma UnescapeEscapeChar(c: char, t: string)
    ensures UnescapeBody(EscapeChar(c) + t) == Prepend(c, UnescapeBody(t))
  {
    var k := c as int;
    if c == '"' || c == '\\' || k == 0x08 || k == 0x0C || c == '\n' || c == '\r' || c == '\t' {
      UnescapeShortEscape(c, t);
    } else if 0x20 <= k <= 0x7E {
      assert (EscapeChar(c) + t)[1..] == t;
    } else if k < 0x10000 {
      UnescapeBmpEscape(c, t);
    } else {
      UnescapePairEscape(c, t);
    }
  }

  /** A two-character escape such as `\n` decodes to its character. */
  lemma UnescapeShortEscape(c: char, t: string)
    requires c == '"' || c == '\\' || c as int == 0x08 || c as int == 0x0C || c == '\n' || c == '\r' || c == '\t'
    ensures UnescapeBody(EscapeChar(c) + t) == Prepend(c, UnescapeBody(t))
  {
    var s := EscapeChar(c) + t;
    assert |EscapeChar(c)| == 2;
    assert s[2..] == t;
  }

  /** A `\uXXXX` escape of a character below U+10000 decodes to it. */
  lemma UnescapeBmpEscape(c: char, t: string)
    requires !(c == '"' || c == '\\' || c as int == 0x08 || c as int == 0x0C || c == '\n' || c == '\r' || c == '\t')
    requires !(0x20 <= c as int <= 0x7E) && c as int < 0x10000
    ensures UnescapeBody(EscapeChar(c) + t) == Prepend(c, UnescapeBody(t))
  {
    var k := c as int;
    var s := EscapeChar(c) + t;
    assert EscapeChar(c) == "\\u" + Hex4(k);
    assert s[0] == '\\' && s[1] == 'u' && |s| >= 6;
    assert s[2..6] == Hex4(k);
    ParseHex4OfHex4(k);
    assert !(0xD800 <= k < 0xE000);
    assert s[6..] == t;
    assert UnescapeBody(s) == Prepend(k as char, UnescapeBody(s[6..]));
  }

  /** A surrogate pair of `\uXXXX` escapes decodes to the character above U+FFFF it encodes. */
  lemma UnescapePairEscape(c: char, t: string)
    requires c as int >= 0x10000
    ensures UnescapeBody(EscapeChar(c) + t) == Prepend(c, UnescapeBody(t))
  {
    var k := c as int;
    var hi, lo := HighSurrogate(k), LowSurrogate(k);
    var s := EscapeChar(c) + t;
    assert EscapeChar(c) == "\\u" + Hex4(hi) + "\\u" + Hex4(lo);
    assert s[2..6] == Hex4(hi);
    assert s[8..12] == Hex4(lo);
    ParseHex4OfHex4(hi);
    ParseHex4OfHex4(lo);
    assert Combine(hi, lo) == k;
    assert s[12..] == t;
  }

  lemma {:induction false} UnescapeEscapeBody(s: string)
    ensures UnescapeBody(EscapeBody(s)) == Some(s)
  {
    if s != [] {
      UnescapeEscapeBody(s[1..]);
      UnescapeEscapeChar(s[0], EscapeBody(s[1..]));
      assert [s[0]] + s[1..] == s;
    }
  }

  /** `json.loads(json.dumps(s)) == s` for every string. */
  lemma LoadsDumpsString(s: string)
    ensures LoadsString(DumpsString(s)) == Some(s)
  {
    var text := DumpsString(s);
    assert StripStart(text) == text;
    assert StripEnd(text) == text;
    assert text[1..|text| - 1] == EscapeBody(s);
    UnescapeEscapeBody(s);
  }

  /** The two decoders never both accept a text. */
  lemma LoadsExclusive(text: string)
    ensures LoadsInt(text).None? || LoadsString(text).None?
  {
  }

  /** A dumped string is never taken for an integer. */
  lemma DumpsStringIsNotInt(s: string)
    ensures LoadsInt(DumpsString(s)).None?
  {
    var text := DumpsString(s);
    assert StripStart(text) == text;
    assert StripEnd(text) == text;
  }
}
