/**
 * The parts of the JavaScript runtime that the components rely on when they
 * handle text: the white space that `String.prototype.trim` removes and that
 * `parseInt` skips, `String(n)` for an integer `n`, and `parseInt(s)` called
 * without a radix, as ECMA-262 defines it in section 19.2.5.
 */
module JsText {

  /** The WhiteSpace and LineTerminator code points of ECMA-262 (sections 12.2 and 12.3). */
  predicate IsWhiteSpace(c: char) {
    || c == '\t' || c == '\U{000B}' || c == '\U{000C}' || c == ' ' || c == '\U{00A0}' || c == '\U{FEFF}'
    || c == '\U{1680}' || ('\U{2000}' <= c <= '\U{200A}') || c == '\U{202F}' || c == '\U{205F}' || c == '\U{3000}'
    || c == '\n' || c == '\r' || c == '\U{2028}' || c == '\U{2029}'
  }

  predicate AllWhiteSpace(s: string) {
    forall i :: 0 <= i < |s| ==> IsWhiteSpace(s[i])
  }

  /** Drops the white space at the start of `s` (ECMA-262 TrimString with `start`). */
  function TrimStart(s: string): (r: string)
    ensures |r| <= |s| && r == s[|s| - |r|..]
    ensures AllWhiteSpace(s[..|s| - |r|])
    ensures r == [] || !IsWhiteSpace(r[0])
  {
    if |s| > 0 && IsWhiteSpace(s[0]) then
      var r := TrimStart(s[1..]);
      assert s[..|s| - |r|] == [s[0]] + s[1..][..|s| - 1 - |r|];
      r
    else
      s
  }

  /** Drops the white space at the end of `s` (ECMA-262 TrimString with `end`). */
  function TrimEnd(s: string): (r: string)
    ensures |r| <= |s| && r == s[..|r|]
    ensures AllWhiteSpace(s[|r|..])
    ensures r == [] || !IsWhiteSpace(r[|r| - 1])
  {
    if |s| > 0 && IsWhiteSpace(s[|s| - 1]) then
      var r := TrimEnd(s[..|s| - 1]);
      assert s[|r|..] == s[..|s| - 1][|r|..] + [s[|s| - 1]];
      r
    else
      s
  }

  /** `s.trim()` */
  function Trim(s: string): string {
    TrimEnd(TrimStart(s))
  }

  /** `!s.trim()` holds exactly when `s` is made of white space only (the empty string included). */
  lemma {:induction false} TrimEmptyIffWhiteSpace(s: string)
    ensures Trim(s) == "" <==> AllWhiteSpace(s)
  {
    var t := TrimStart(s);
    assert s == s[..|s| - |t|] + t;
    if Trim(s) == "" {
      assert t[|TrimEnd(t)|..] == t;
      assert t == [];
      assert s[..|s| - |t|] == s;
    }
  }

  // ---------------------------------------------------------------------------
  // Decimal numerals: String(n)

  predicate IsDecimalDigit(c: char) {
    '0' <= c <= '9'
  }

  predicate AllDecimalDigits(s: string) {
    forall i :: 0 <= i < |s| ==> IsDecimalDigit(s[i])
  }

  function DigitChar(d: nat): (c: char)
    requires d < 10
    ensures IsDecimalDigit(c)
  {
    ('0' as int + d) as char
  }

  /** The decimal numeral of a natural number: no sign and no leading zero. */
  function NatToString(n: nat): (s: string)
    ensures |s| > 0 && AllDecimalDigits(s)
    ensures s[0] == '0' ==> n == 0
  {
    if n < 10 then [DigitChar(n)] else NatToString(n / 10) + [DigitChar(n % 10)]
  }

  /** `String(n)` for an integer `n`: '-' in front of the numeral of `|n|` when `n` is negative. */
  function IntToString(n: int): (s: string)
    ensures |s| > 0
    ensures n < 0 <==> s[0] == '-'
  {
    if n < 0 then "-" + NatToString(-n) else NatToString(n)
  }

  // ---------------------------------------------------------------------------
  // parseInt(s) with no radix (ECMA-262, section 19.2.5)

  /** The radixes `parseInt` can choose when it is called without one. */
  type Radix = r: nat | r == 10 || r == 16 witness 10

  predicate IsDigit(c: char, radix: Radix) {
    IsDecimalDigit(c) || (radix == 16 && ('a' <= c <= 'f' || 'A' <= c <= 'F'))
  }

  predicate AllDigits(s: string, radix: Radix) {
    forall i :: 0 <= i < |s| ==> IsDigit(s[i], radix)
  }

  function DigitValue(c: char, radix: Radix): (d: nat)
    requires IsDigit(c, radix)
    ensures d < radix
  {
    if IsDecimalDigit(c) then c as int - '0' as int
    else if 'a' <= c <= 'f' then c as int - 'a' as int + 10
    else c as int - 'A' as int + 10
  }

  /** The number a string of digits denotes, most significant digit first. */
  function Value(s: string, radix: Radix): nat
    requires AllDigits(s, radix)
  {
    if s == [] then 0 else Value(s[..|s| - 1], radix) * radix + DigitValue(s[|s| - 1], radix)
  }

  /** The length of the longest prefix of `s` made of radix-`radix` digits (step 11). */
  function DigitRun(s: string, radix: Radix): (n: nat)
    ensures n <= |s| && AllDigits(s[..n], radix)
    ensures n == |s| || !IsDigit(s[n], radix)
  {
    if |s| > 0 && IsDigit(s[0], radix) then
      var n := 1 + DigitRun(s[1..], radix);
      assert s[..n] == [s[0]] + s[1..][..n - 1];
      n
    else
      0
  }

  /** A JavaScript number as `parseInt` can return it. `-0` is not told apart
      from `0`: both are falsy and both print as "0". */
  datatype Number = NaN | Int(value: int) {
    /** JavaScript truthiness: NaN and 0 are falsy. */
    predicate Truthy() {
      Int? && value != 0
    }
  }

  /** `-x` on a number; the negation of NaN is NaN. */
  function Negate(x: Number): Number {
    match x
    case NaN => NaN
    case Int(v) => Int(-v)
  }

  /** Steps 10 to 16 of `parseInt` once the sign is gone: switch to base 16
      after a "0x" or "0X" prefix, then read the longest run of digits; NaN
      when that run is empty. */
  function ParseUnsigned(s: string): Number {
    var hex := |s| >= 2 && s[0] == '0' && (s[1] == 'x' || s[1] == 'X');
    var radix: Radix := if hex then 16 else 10;
    var digits := if hex then s[2..] else s;
    var end := DigitRun(digits, radix);
    if end == 0 then NaN else Int(Value(digits[..end], radix))
  }

  /** Steps 4 and 5 of `parseInt`: an optional '-' or '+' in front. */
  function ParseSigned(s: string): Number {
    if |s| > 0 && s[0] == '-' then Negate(ParseUnsigned(s[1..]))
    else if |s| > 0 && s[0] == '+' then ParseUnsigned(s[1..])
    else ParseUnsigned(s)
  }

  /** `parseInt(s)` with no radix: leading white space is skipped first. */
  function ParseInt(input: string): Number {
    ParseSigned(TrimStart(input))
  }

  lemma {:induction false} NatToStringValue(n: nat)
    ensures Value(NatToString(n), 10) == n
  {
    var s := NatToString(n);
    if n >= 10 {
      NatToStringValue(n / 10);
      assert s[..|s| - 1] == NatToString(n / 10);
    }
  }

  lemma {:induction false} DigitRunOfNumeral(numeral: string, rest: string)
    requires AllDecimalDigits(numeral)
    requires rest == [] || !IsDecimalDigit(rest[0])
    ensures DigitRun(numeral + rest, 10) == |numeral|
    ensures (numeral + rest)[..|numeral|] == numeral
  {
    if numeral != [] {
      assert (numeral + rest)[1..] == numeral[1..] + rest;
      DigitRunOfNumeral(numeral[1..], rest);
    }
  }

  /** `parseInt` reads the numeral `NatToString` writes back, whatever
      non-digit text follows it. */
  lemma ParseUnsignedOfNumeral(n: nat, rest: string)
    requires rest == [] || !(IsDecimalDigit(rest[0]) || rest[0] == 'x' || rest[0] == 'X')
    ensures ParseUnsigned(NatToString(n) + rest) == Int(n)
  {
    var numeral := NatToString(n);
    var s := numeral + rest;
    NatToStringValue(n);
    DigitRunOfNumeral(numeral, rest);
    if |s| >= 2 && s[0] == '0' {
      assert numeral == "0";
      assert s[1] == rest[0];
    }
  }

  /** `parseInt` reads back what `String` writes, whatever non-digit text
      follows: `parseInt(String(n) + rest) == n`. */
  lemma ParseIntOfIntToString(n: int, rest: string)
    requires rest == [] || !(IsDecimalDigit(rest[0]) || rest[0] == 'x' || rest[0] == 'X')
    ensures ParseInt(IntToString(n) + rest) == Int(n)
  {
    if n < 0 {
      var m: nat := -n;
      var numeral := "-" + NatToString(m);
      assert IntToString(n) == numeral;
      ParseIntOfNegative(m, rest);
      assert ParseInt(numeral + rest) == Int(n);
    } else {
      assert IntToString(n) == NatToString(n);
      ParseIntOfNatural(n, rest);
    }
  }

  lemma ParseIntOfNegative(m: nat, rest: string)
    requires rest == [] || !(IsDecimalDigit(rest[0]) || rest[0] == 'x' || rest[0] == 'X')
    ensures ParseInt("-" + NatToString(m) + rest) == Int(-(m as int))
  {
    var unsigned := NatToString(m) + rest;
    assert "-" + NatToString(m) + rest == "-" + unsigned;
    ParseIntMinus(unsigned);
    ParseUnsignedOfNumeral(m, rest);
  }

  lemma ParseIntOfNatural(n: nat, rest: string)
    requires rest == [] || !(IsDecimalDigit(rest[0]) || rest[0] == 'x' || rest[0] == 'X')
    ensures ParseInt(NatToString(n) + rest) == Int(n)
  {
    var unsigned := NatToString(n) + rest;
    assert unsigned[0] == NatToString(n)[0];
    ParseIntDigit(unsigned);
    ParseUnsignedOfNumeral(n, rest);
  }

  /** A leading '-' negates what follows it. */
  lemma ParseIntMinus(unsigned: string)
    ensures ParseInt("-" + unsigned) == Negate(ParseUnsigned(unsigned))
  {
    var input := "-" + unsigned;
    assert input[0] == '-' && !IsWhiteSpace(input[0]);
    assert TrimStart(input) == input;
    assert input[1..] == unsigned;
  }

  /** Text that starts with a digit is read without sign or white space. */
  lemma ParseIntDigit(unsigned: string)
    requires |unsigned| > 0 && IsDecimalDigit(unsigned[0])
    ensures ParseInt(unsigned) == ParseUnsigned(unsigned)
  {
    assert !IsWhiteSpace(unsigned[0]);
    assert TrimStart(unsigned) == unsigned;
  }

  /** White space before the numeral does not change what `parseInt` returns. */
  lemma {:induction false} ParseIntSkipsWhiteSpace(w: string, s: string)
    requires AllWhiteSpace(w)
    ensures ParseInt(w + s) == ParseInt(s)
  {
    TrimStartSkips(w, s);
  }

  lemma {:induction false} TrimStartSkips(w: string, s: string)
    requires AllWhiteSpace(w)
    ensures TrimStart(w + s) == TrimStart(s)
  {
    if w != [] {
      var ws := w + s;
      assert ws[0] == w[0];
      assert IsWhiteSpace(ws[0]);
      assert TrimStart(ws) == TrimStart(ws[1..]);
      assert ws[1..] == w[1..] + s;
      assert AllWhiteSpace(w[1..]) by {
        forall i | 0 <= i < |w| - 1 ensures IsWhiteSpace(w[1..][i]) {
          assert w[1..][i] == w[i + 1];
        }
      }
      TrimStartSkips(w[1..], s);
    } else {
      assert w + s == s;
    }
  }
}
