/**
 * Amount validation and sanitisation (src/utils/validation.js) with the
 * bounds of src/utils/constants.js, plus the two JavaScript conversions the
 * rest of the model leans on: `parseFloat` (text to number) and
 * `Number.prototype.toString` (number to text).
 */
module Validation {
  import opened Optional

  /** VALIDATION.MIN_AMOUNT and VALIDATION.MAX_AMOUNT. */
  const MinAmount: real := 0.0
  const MaxAmount: real := 999999999.0

  /** A JavaScript value as handed to the validators. */
  datatype Value = Null | Undefined | NaN | Number(x: real) | Text(s: string)

  // ---------------------------------------------------------------------
  // Whitespace and trimming

  /**
   * What `trim` and `parseFloat` skip: the ECMAScript white space characters
   * (tab, vertical tab, form feed, space, no-break space, the byte order
   * mark and the Unicode space separators) and the line terminators.
   */
  predicate IsWhitespace(c: char) {
    c == '\t' || c == '\n' || c == '\U{B}' || c == '\U{C}' || c == '\r' || c == ' '
    || c == '\U{A0}' || c == '\U{1680}' || ('\U{2000}' <= c <= '\U{200A}')
    || c == '\U{2028}' || c == '\U{2029}' || c == '\U{202F}' || c == '\U{205F}'
    || c == '\U{3000}' || c == '\U{FEFF}'
  }

  predicate AllWhitespace(s: string) {
    forall i :: 0 <= i < |s| ==> IsWhitespace(s[i])
  }

  /** Drops leading whitespace. */
  function TrimStart(s: string): (r: string)
    ensures |r| <= |s| && r == s[|s| - |r|..]
    ensures r != [] ==> !IsWhitespace(r[0])
    ensures AllWhitespace(s[..|s| - |r|])
  {
    if s != [] && IsWhitespace(s[0]) then TrimStart(s[1..]) else s
  }

  /** Drops trailing whitespace. */
  function TrimEnd(s: string): (r: string)
    ensures |r| <= |s| && r == s[..|r|]
    ensures r != [] ==> !IsWhitespace(r[|r| - 1])
    ensures AllWhitespace(s[|r|..])
  {
    if s != [] && IsWhitespace(s[|s| - 1]) then TrimEnd(s[..|s| - 1]) else s
  }

  /** String.prototype.trim. */
  function Trim(s: string): string {
    TrimEnd(TrimStart(s))
  }

  /** A text that starts with a non-blank character is its own TrimStart. */
  lemma TrimStartKeeps(s: string)
    requires s != [] && !IsWhitespace(s[0])
    ensures TrimStart(s) == s
  {
  }

  /** Trimming leaves nothing exactly when the text is all whitespace. */
  lemma TrimEmptyIffBlank(s: string)
    ensures Trim(s) == [] <==> AllWhitespace(s)
  {
    var t := TrimStart(s);
    var k := |s| - |t|;
    if Trim(s) == [] {
      assert t[0..] == t;
      forall i | 0 <= i < |s| ensures IsWhitespace(s[i]) {
        assert s[..k][i] == s[i];
      }
    }
  }

  // ---------------------------------------------------------------------
  // validateRequired (validation.js:10-14)

  /** Present, and not blank once converted to text and trimmed. */
  function ValidateRequired(v: Value): (ok: bool)
    ensures ok <==> !(v.Null? || v.Undefined? || (v.Text? && AllWhitespace(v.s)))
  {
    match v
    case Null => false
    case Undefined => false
    case NaN => true
    case Number(_) => true
    case Text(s) => TrimEmptyIffBlank(s); Trim(s) != []
  }

  /** JavaScript truthiness: 0, NaN, "", null and undefined are falsy. */
  predicate Truthy(v: Value) {
    match v
    case Number(x) => x != 0.0
    case Text(s) => s != []
    case _ => false
  }

  /** `v || 0`. */
  function OrZero(v: Value): (r: Value)
    ensures r.Number? || r.Text?
    ensures Truthy(v) ==> r == v
    ensures !Truthy(v) ==> r == Number(0.0)
  {
    if Truthy(v) then v else Number(0.0)
  }

  /** `v.toString()` on a number or a string. */
  function ValueText(v: Value): string
    requires v.Number? || v.Text?
  {
    if v.Number? then NumberText(v.x) else v.s
  }

  /** `a || b` on strings: the empty string is falsy. */
  function FirstNonEmpty(a: string, b: string): (r: string)
    ensures r == a || r == b
    ensures r == [] <==> a == [] && b == []
  {
    if a != [] then a else b
  }

  // ---------------------------------------------------------------------
  // parseFloat, as a decimal-prefix parser

  predicate IsDigit(c: char) {
    '0' <= c <= '9'
  }

  predicate AllDigits(s: string) {
    forall i :: 0 <= i < |s| ==> IsDigit(s[i])
  }

  function DigitValue(c: char): nat
    requires IsDigit(c)
  {
    c as int - '0' as int
  }

  function DigitChar(d: nat): (c: char)
    requires d < 10
    ensures IsDigit(c) && DigitValue(c) == d
  {
    ('0' as int + d) as char
  }

  function Pow10(k: nat): (p: nat)
    ensures p >= 1
  {
    if k == 0 then 1 else 10 * Pow10(k - 1)
  }

  /** Length of the run of decimal digits that starts s. */
  function DigitRun(s: string): (n: nat)
    ensures n <= |s| && AllDigits(s[..n])
    ensures n < |s| ==> !IsDigit(s[n])
  {
    if s != [] && IsDigit(s[0]) then 1 + DigitRun(s[1..]) else 0
  }

  /** The number written by a string of decimal digits. */
  function DigitsValue(ds: string): nat
    requires AllDigits(ds)
  {
    if ds == [] then 0 else 10 * DigitsValue(ds[..|ds| - 1]) + DigitValue(ds[|ds| - 1])
  }

  /** Digits, optionally a point and more digits, with at least one digit; the rest is ignored. */
  function ParseUnsigned(s: string): (r: Option<real>)
    ensures r.Some? ==> r.value >= 0.0
  {
    var n := DigitRun(s);
    if n < |s| && s[n] == '.' then
      var m := DigitRun(s[n + 1..]);
      if n == 0 && m == 0 then None
      else Some(DigitsValue(s[..n]) as real + DigitsValue(s[n + 1..][..m]) as real / Pow10(m) as real)
    else if n == 0 then None
    else Some(DigitsValue(s[..n]) as real)
  }

  /** parseFloat on text: leading whitespace, an optional sign, then the longest decimal prefix. */
  function ParseFloat(s: string): (r: Option<real>)
    ensures AllWhitespace(s) ==> r.None?
    ensures r.Some? ==> var t := TrimStart(s); t != [] && (IsDigit(t[0]) || t[0] in "+-.")
    ensures r.Some? && r.value < 0.0 ==> TrimStart(s)[0] == '-'
  {
    var t := TrimStart(s);
    if t != [] && (t[0] == '-' || t[0] == '+') then
      match ParseUnsigned(t[1..])
      case None => None
      case Some(x) => Some(if t[0] == '-' then -x else x)
    else ParseUnsigned(t)
  }

  /** parseFloat on any value: a number is itself, a missing value or NaN is NaN (None). */
  function ParseValue(v: Value): (r: Option<real>)
    ensures v.Null? || v.Undefined? || v.NaN? ==> r.None?
    ensures v.Number? ==> r == Some(v.x)
    ensures v.Text? ==> r == ParseFloat(v.s)
  {
    match v
    case Number(x) => Some(x)
    case Text(s) => ParseFloat(s)
    case _ => None
  }

  // ---------------------------------------------------------------------
  // validateNumber and sanitizeNumber (validation.js:3-8, 22-27)

  /** Parses to a number within [MinAmount, MaxAmount]. */
  function ValidateNumber(v: Value): (ok: bool)
    ensures v.Null? || v.Undefined? || v.NaN? ==> !ok
    ensures v.Number? ==> (ok <==> MinAmount <= v.x <= MaxAmount)
    ensures v.Text? ==> (ok <==> ParseFloat(v.s).Some? && MinAmount <= ParseFloat(v.s).value <= MaxAmount)
  {
    ParseValue(v).Some? && MinAmount <= ParseValue(v).value <= MaxAmount
  }

  /** Clamps the parsed number into [MinAmount, MaxAmount]; an unparsable value becomes 0. */
  function SanitizeNumber(v: Value): (r: real)
    ensures MinAmount <= r <= MaxAmount
    ensures ParseValue(v).None? ==> r == 0.0
    ensures ParseValue(v).Some? && ParseValue(v).value < MinAmount ==> r == MinAmount
    ensures ParseValue(v).Some? && ParseValue(v).value > MaxAmount ==> r == MaxAmount
  {
    match ParseValue(v)
    case None => 0.0
    case Some(n) =>
      var capped := if n < MaxAmount then n else MaxAmount;
      if capped > MinAmount then capped else MinAmount
  }

  /** A value is valid exactly when it parses and clamping leaves it as it is. */
  lemma ValidIffSanitizeKeeps(v: Value)
    ensures ValidateNumber(v) <==> ParseValue(v).Some? && SanitizeNumber(v) == ParseValue(v).value
  {
  }

  /** Sanitising an already sanitised number changes nothing. */
  lemma SanitizeIdempotent(v: Value)
    ensures SanitizeNumber(Number(SanitizeNumber(v))) == SanitizeNumber(v)
    ensures ValidateNumber(Number(SanitizeNumber(v)))
  {
  }

  /** The boundary cases of the validation tests (validation.test.js:22-31, 64-88). */
  lemma ValidateNumberBoundaries()
    ensures ValidateNumber(Number(MinAmount)) && ValidateNumber(Number(MaxAmount))
    ensures !ValidateNumber(Number(-1.0)) && !ValidateNumber(Number(MaxAmount + 1.0))
    ensures !ValidateNumber(NaN) && ValidateNumber(Number(1000.5))
    ensures SanitizeNumber(Number(-100.0)) == 0.0 && SanitizeNumber(Number(MaxAmount + 100.0)) == MaxAmount
    ensures SanitizeNumber(Number(500.5)) == 500.5 && SanitizeNumber(NaN) == 0.0
  {
  }

  /** The text "100" parses to 100 and is valid. */
  lemma HundredIsValid()
    ensures ParseFloat("100") == Some(100.0) && ValidateNumber(Text("100"))
  {
    var s := "100";
    TrimStartKeeps(s);
    DigitRunAll(s);
    assert s[..3] == s && s[..2] == "10" && "10"[..1] == "1" && "1"[..0] == [];
    assert DigitsValue("1") == 1;
    assert DigitsValue("10") == 10;
    assert DigitsValue(s) == 100;
  }

  /** The text "not a number" does not parse, so it sanitises to 0. */
  lemma WordsAreNaN()
    ensures ParseFloat("not a number") == None && SanitizeNumber(Text("not a number")) == 0.0
  {
    var s := "not a number";
    TrimStartKeeps(s);
    assert s[0] == 'n' && DigitRun(s) == 0;
  }

  /** The text "-5" parses to -5 and sanitises to the lower bound. */
  lemma NegativeTextClamps()
    ensures ParseFloat("-5") == Some(-5.0) && SanitizeNumber(Text("-5")) == 0.0
  {
    var s := "-5";
    assert TrimStart(s) == s;
    assert s[1..] == "5" && DigitRun("5") == 1;
    assert "5"[..1] == "5";
  }

  // ---------------------------------------------------------------------
  // Number.prototype.toString

  /** Decimal digits of a natural number, most significant first. */
  function NatText(n: nat): (s: string)
    ensures s != [] && AllDigits(s)
  {
    if n < 10 then [DigitChar(n)] else NatText(n / 10) + [DigitChar(n % 10)]
  }

  /** Up to `k` decimal digits of a fraction 0 <= f < 1, stopping once nothing is left. */
  function FractionText(f: real, k: nat): (s: string)
    requires 0.0 <= f < 1.0
    ensures AllDigits(s)
    decreases k
  {
    if k == 0 || f == 0.0 then []
    else
      var d := (f * 10.0).Floor;
      [DigitChar(d)] + FractionText(f * 10.0 - d as real, k - 1)
  }

  /** Text of a non-negative number: the integer part, then the fraction if there is one. */
  function UnsignedText(x: real): (s: string)
    requires x >= 0.0
    ensures s != [] && IsDigit(s[0])
  {
    var n := x.Floor;
    NatText(n) + (if x == n as real then [] else ['.'] + FractionText(x - n as real, 17))
  }

  /**
   * Number.prototype.toString: exact for integral numbers; a fraction is
   * written with at most 17 digits (binary floating point is out of scope).
   */
  function NumberText(x: real): (s: string)
    ensures s != [] && !IsWhitespace(s[0])
  {
    if x < 0.0 then ['-'] + UnsignedText(-x) else UnsignedText(x)
  }

  lemma {:induction false} NatTextValue(n: nat)
    ensures DigitsValue(NatText(n)) == n
  {
    if n >= 10 {
      var s := NatText(n);
      NatTextValue(n / 10);
      assert s[..|s| - 1] == NatText(n / 10);
    }
  }

  lemma DigitRunAll(s: string)
    requires AllDigits(s)
    ensures DigitRun(s) == |s|
  {
  }

  /** The digits of a natural number parse back to it. */
  lemma ParseNatText(n: nat)
    ensures ParseUnsigned(NatText(n)) == Some(n as real)
  {
    var digits := NatText(n);
    DigitRunAll(digits);
    NatTextValue(n);
    assert digits[..|digits|] == digits;
  }

  lemma TrimStartKeepsDigitText(n: nat)
    ensures TrimStart(NatText(n)) == NatText(n)
    ensures TrimStart(['-'] + NatText(n)) == ['-'] + NatText(n)
  {
    var s := NatText(n);
    TrimStartKeeps(s);
    TrimStartKeeps(['-'] + s);
  }

  lemma UnsignedIntegral(x: real)
    requires x >= 0.0 && x == x.Floor as real
    ensures x.Floor >= 0 && UnsignedText(x) == NatText(x.Floor)
  {
    var n := x.Floor;
    assert NatText(n) + [] == NatText(n);
  }

  /** The text of an integral number has no fraction part. */
  lemma IntegralText(x: real)
    requires x == x.Floor as real
    ensures x >= 0.0 ==> NumberText(x) == NatText(x.Floor)
    ensures x < 0.0 ==> (-x).Floor >= 0 && NumberText(x) == ['-'] + NatText((-x).Floor)
  {
    if x < 0.0 {
      var k := -x.Floor;
      assert -x == k as real;
      assert (-x).Floor == k;
      UnsignedIntegral(-x);
    } else {
      UnsignedIntegral(x);
    }
  }

  lemma ParseSigned(n: nat)
    ensures ParseFloat(['-'] + NatText(n)) == Some(-(n as real))
  {
    var s := ['-'] + NatText(n);
    TrimStartKeepsDigitText(n);
    assert s[1..] == NatText(n);
    ParseNatText(n);
  }

  lemma ParseUnsignedText(n: nat)
    ensures ParseFloat(NatText(n)) == Some(n as real)
  {
    TrimStartKeepsDigitText(n);
    ParseNatText(n);
    assert NatText(n)[0] != '-' && NatText(n)[0] != '+';
  }

  /** parseFloat reads back the text of any integral number. */
  lemma ParseNumberText(x: real)
    requires x == x.Floor as real
    ensures ParseFloat(NumberText(x)) == Some(x)
  {
    IntegralText(x);
    if x < 0.0 {
      ParseSigned((-x).Floor);
    } else {
      ParseUnsignedText(x.Floor);
    }
  }

  /**
   * An integral amount within the bounds, written out as text, validates
   * and sanitises back to itself: starting an edit of a stored balance and
   * saving it unchanged stores the same balance.
   */
  lemma EditTextRoundTrip(x: real)
    requires x == x.Floor as real && MinAmount <= x <= MaxAmount
    ensures ValidateNumber(Text(NumberText(x)))
    ensures SanitizeNumber(Text(NumberText(x))) == x
  {
    ParseNumberText(x);
  }
}
