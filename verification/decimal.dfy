/**
 * Decimal text of integers: `str(n)` / `json.dumps(n)` on the way out, and
 * Python's `int(text)` (base 10) on the way back in.
 */
module Decimal {
  import opened Wrappers

  predicate IsDigit(c: char) {
    '0' <= c <= '9'
  }

  predicate AllDigits(s: string) {
    forall i :: 0 <= i < |s| ==> IsDigit(s[i])
  }

  function DigitChar(d: nat): (c: char)
    requires d < 10
    ensures IsDigit(c)
  {
    ('0' as int + d) as char
  }

  function DigitValue(c: char): (d: nat)
    requires IsDigit(c)
    ensures d < 10
  {
    c as int - '0' as int
  }

  /** Digits of `n`, most significant first, without leading zeros. */
  function NatDigits(n: nat): (r: string)
    ensures |r| > 0 && AllDigits(r)
  {
    if n < 10 then [DigitChar(n)] else NatDigits(n / 10) + [DigitChar(n % 10)]
  }

  /** `str(n)` for a Python int: an optional minus sign, then the digits of |n|. */
  function DecimalText(n: int): string {
    if n < 0 then "-" + NatDigits(-n) else NatDigits(n)
  }

  /** The number a string of decimal digits denotes. */
  function DigitsValue(s: string): nat
    requires AllDigits(s)
  {
    if s == [] then 0 else DigitsValue(s[..|s| - 1]) * 10 + DigitValue(s[|s| - 1])
  }

  lemma {:induction false} NatDigitsValue(n: nat)
    ensures DigitsValue(NatDigits(n)) == n
  {
    if n >= 10 {
      NatDigitsValue(n / 10);
      var s := NatDigits(n);
      assert s[..|s| - 1] == NatDigits(n / 10);
    }
  }

  /** Only a single `0` starts with the digit zero. */
  lemma {:induction false} NatDigitsNoLeadingZero(n: nat)
    ensures NatDigits(n)[0] == '0' ==> n == 0 && NatDigits(n) == "0"
  {
    if n >= 10 {
      NatDigitsNoLeadingZero(n / 10);
      assert NatDigits(n)[0] == NatDigits(n / 10)[0];
    }
  }

  /**
   * Whitespace `int()` strips around its argument: the ASCII space and
   * `\t \n \v \f \r`, and the non-ASCII characters `str.isspace` accepts,
   * which `int()` first turns into spaces. The ASCII separators U+001C to
   * U+001F are kept as they are, so `int()` rejects them.
   */
  predicate IsPySpace(c: char) {
    var k := c as int;
    k == 0x20 || 0x09 <= k <= 0x0D || k == 0x85 || k == 0xA0
    || k == 0x1680 || 0x2000 <= k <= 0x200A || k == 0x2028 || k == 0x2029
    || k == 0x202F || k == 0x205F || k == 0x3000
  }

  function TrimStart(s: string): (r: string)
    ensures |r| <= |s|
  {
    if s != [] && IsPySpace(s[0]) then TrimStart(s[1..]) else s
  }

  function TrimEnd(s: string): (r: string)
    ensures |r| <= |s|
  {
    if s != [] && IsPySpace(s[|s| - 1]) then TrimEnd(s[..|s| - 1]) else s
  }

  /** Digits with optional single underscores between them, as `int()` accepts them. */
  predicate IsDigitGroup(s: string) {
    && |s| > 0
    && IsDigit(s[0])
    && (forall i :: 0 <= i < |s| ==> IsDigit(s[i]) || s[i] == '_')
    && (forall i :: 0 <= i < |s| && s[i] == '_' ==> i + 1 < |s| && IsDigit(s[i + 1]))
  }

  /** The digits of a digit group, underscores dropped. */
  function DropUnderscores(s: string): (r: string)
    requires forall i :: 0 <= i < |s| ==> IsDigit(s[i]) || s[i] == '_'
    ensures AllDigits(r)
  {
    if s == [] then []
    else if s[0] == '_' then DropUnderscores(s[1..])
    else [s[0]] + DropUnderscores(s[1..])
  }

  /** Python's `int(text)`: None where it raises ValueError. */
  function ParseInt(text: string): Option<int> {
    var t := TrimEnd(TrimStart(text));
    var negative := |t| > 0 && t[0] == '-';
    var body := if |t| > 0 && (t[0] == '-' || t[0] == '+') then t[1..] else t;
    if IsDigitGroup(body) then
      var n: int := DigitsValue(DropUnderscores(body));
      Some(if negative then -n else n)
    else None
  }

  lemma {:induction false} DropUnderscoresOfDigits(s: string)
    requires AllDigits(s)
    ensures DropUnderscores(s) == s
  {
    if s != [] {
      DropUnderscoresOfDigits(s[1..]);
    }
  }

  /** Decimal text has no surrounding whitespace for `int()` to strip. */
  lemma TrimDecimalText(n: int)
    ensures TrimEnd(TrimStart(DecimalText(n))) == DecimalText(n)
  {
    var text := DecimalText(n);
    assert IsDigit(text[|text| - 1]) && (IsDigit(text[0]) || text[0] == '-');
    assert TrimStart(text) == text;
  }

  /** A run of plain digits is a digit group with nothing to drop. */
  lemma DigitGroupOfDigits(s: string)
    requires |s| > 0 && AllDigits(s)
    ensures IsDigitGroup(s) && DropUnderscores(s) == s
  {
    DropUnderscoresOfDigits(s);
  }

  /** Reading back `str(n)` with `int()` gives `n`. */
  lemma ParseDecimalText(n: int)
    ensures ParseInt(DecimalText(n)) == Some(n)
  {
    var m: nat := if n < 0 then -n else n;
    var text := DecimalText(n);
    var digits := NatDigits(m);
    TrimDecimalText(n);
    assert (if text[0] == '-' || text[0] == '+' then text[1..] else text) == digits;
    DigitGroupOfDigits(digits);
    NatDigitsValue(m);
  }
}
