/**
 * The type conversions that the array-length setter performs before it
 * resizes an array: ToNumber (section 9.3 of ECMA-262 5th edition, with the
 * string grammar of its section 9.3.1) and ToUint32 (its section 9.6), plus
 * SameValue (its section 9.12), which the prototype setter uses.
 */
module Conversions {
  import opened Values

  const TwoTo32: nat := 0x1_0000_0000

  // ---------------------------------------------------------------------
  // ToUint32 and numeric equality
  // ---------------------------------------------------------------------

  /** sign(x) * floor(abs(x)): step 3 of section 9.6 of ECMA-262 5th edition. */
  function Truncate(x: real): int
  {
    if x >= 0.0 then x.Floor else -((-x).Floor)
  }

  /** ToUint32 applied to a Number: NaN and the infinities give 0, any finite
      value is truncated toward zero and reduced modulo 2^32. */
  function NumberToUint32(n: Number): (u: nat)
    ensures u < TwoTo32
    ensures n.Finite? && 0.0 <= n.r < TwoTo32 as real ==> u == n.r.Floor
  {
    match n
    case Finite(x) => Truncate(x) % TwoTo32
    case _ => 0
  }

  /** `x` is an integral Number in [0, 2^32): a legal array length. */
  predicate IsUint32(x: real)
  {
    x == x.Floor as real && 0.0 <= x < TwoTo32 as real
  }

  /** The C++ `==` on the doubles behind two Numbers: NaN equals nothing. */
  predicate NumericEquals(a: Number, b: Number)
  {
    match (a, b)
    case (Finite(x), Finite(y)) => x == y
    case (PosInf, PosInf) => true
    case (NegInf, NegInf) => true
    case _ => false
  }

  /** ToUint32(n) compares equal to n exactly when n is an integer in [0, 2^32):
      the test that section 15.4.5.1 of ECMA-262 5th edition applies to a new
      array length. */
  lemma ExactUint32(n: Number)
    ensures NumericEquals(Finite(NumberToUint32(n) as real), n) <==> n.Finite? && IsUint32(n.r)
  {
    if n.Finite? {
      var x := n.r;
      var u := NumberToUint32(n);
      if IsUint32(x) {
        assert Truncate(x) == x.Floor;
      }
      if u as real == x {
        assert x.Floor == u;
      }
    }
  }

  // ---------------------------------------------------------------------
  // ToNumber applied to a String (section 9.3.1 of ECMA-262 5th edition)
  // ---------------------------------------------------------------------

  /** StrWhiteSpaceChar: the white space and line terminators of sections 7.2
      and 7.3 of ECMA-262 5th edition. The space separators (category Zs) are
      those of Unicode before version 6.3, which still counted U+180E. */
  predicate IsStrWhiteSpace(c: char)
  {
    c == ' ' || c == '\t' || c == '\n' || c == '\r' || c == '\U{000B}' || c == '\U{000C}'
    || c == '\U{00A0}' || c == '\U{FEFF}' || c == '\U{2028}' || c == '\U{2029}'
    || IsSpaceSeparator(c)
  }

  /** The other Unicode space separators. */
  predicate IsSpaceSeparator(c: char)
  {
    c == '\U{1680}' || c == '\U{180E}' || '\U{2000}' <= c <= '\U{200A}'
    || c == '\U{202F}' || c == '\U{205F}' || c == '\U{3000}'
  }

  function TrimStart(s: string): (t: string)
    ensures |t| <= |s|
    ensures t == s[|s| - |t|..]
    ensures t != [] ==> !IsStrWhiteSpace(t[0])
  {
    if s != [] && IsStrWhiteSpace(s[0]) then TrimStart(s[1..]) else s
  }

  function TrimEnd(s: string): (t: string)
    ensures |t| <= |s|
    ensures t == s[..|t|]
    ensures t != [] ==> !IsStrWhiteSpace(t[|t| - 1])
  {
    if s != [] && IsStrWhiteSpace(s[|s| - 1]) then TrimEnd(s[..|s| - 1]) else s
  }

  predicate IsDecimalDigit(c: char)
  {
    '0' <= c <= '9'
  }

  predicate AllDecimalDigits(s: string)
  {
    forall i :: 0 <= i < |s| ==> IsDecimalDigit(s[i])
  }

  /** The mathematical value of a string of decimal digits. */
  function DecimalValue(s: string): nat
    requires AllDecimalDigits(s)
  {
    if s == [] then 0
    else DecimalValue(s[..|s| - 1]) * 10 + (s[|s| - 1] as int - '0' as int)
  }

  predicate IsHexDigit(c: char)
  {
    IsDecimalDigit(c) || 'a' <= c <= 'f' || 'A' <= c <= 'F'
  }

  predicate AllHexDigits(s: string)
  {
    forall i :: 0 <= i < |s| ==> IsHexDigit(s[i])
  }

  function HexDigitValue(c: char): nat
    requires IsHexDigit(c)
  {
    if IsDecimalDigit(c) then c as int - '0' as int
    else if 'a' <= c <= 'f' then c as int - 'a' as int + 10
    else c as int - 'A' as int + 10
  }

  /** The mathematical value of a string of hexadecimal digits. */
  function HexValue(s: string): nat
    requires AllHexDigits(s)
  {
    if s == [] then 0 else HexValue(s[..|s| - 1]) * 16 + HexDigitValue(s[|s| - 1])
  }

  /** The value of the digits after a decimal point: 0.d1d2... is
      (d1 + 0.d2...) / 10. */
  function FractionValue(s: string): real
    requires AllDecimalDigits(s)
  {
    if s == [] then 0.0 else ((s[0] as int - '0' as int) as real + FractionValue(s[1..])) / 10.0
  }

  /** m * 10^e for an integer exponent e, one power of ten at a time. */
  function Scale(m: real, e: int): real
    decreases if e >= 0 then e else -e
  {
    if e == 0 then m
    else if e > 0 then Scale(m, e - 1) * 10.0
    else Scale(m, e + 1) / 10.0
  }

  /** The index of the first occurrence of `a` or `b` in `s`, or |s|. */
  function IndexOfEither(s: string, a: char, b: char): (k: nat)
    ensures k <= |s|
    ensures forall i :: 0 <= i < k ==> s[i] != a && s[i] != b
    ensures k < |s| ==> s[k] == a || s[k] == b
  {
    if s == [] then 0
    else if s[0] == a || s[0] == b then 0
    else 1 + IndexOfEither(s[1..], a, b)
  }

  /** SignedInteger: the digits of an exponent, with an optional sign. */
  function ParseSignedInteger(s: string): Option<int>
  {
    if s != [] && (s[0] == '+' || s[0] == '-') then
      var digits := s[1..];
      if digits != [] && AllDecimalDigits(digits) then
        Some(if s[0] == '-' then -(DecimalValue(digits) as int) else DecimalValue(digits))
      else None
    else if s != [] && AllDecimalDigits(s) then Some(DecimalValue(s))
    else None
  }

  /** StrUnsignedDecimalLiteral: `Infinity`, or digits with an optional
      fraction and an optional exponent, with at least one digit. */
  function ParseUnsignedDecimal(u: string): Number
  {
    if u == "Infinity" then PosInf
    else
      var k := IndexOfEither(u, 'e', 'E');
      var mantissa := u[..k];
      var exponent := if k == |u| then Some(0) else ParseSignedInteger(u[k + 1..]);
      var d := IndexOfEither(mantissa, '.', '.');
      var intPart := mantissa[..d];
      var fracPart := if d == |mantissa| then "" else mantissa[d + 1..];
      if exponent.Some? && AllDecimalDigits(intPart) && AllDecimalDigits(fracPart)
         && |intPart| + |fracPart| > 0
      then
        var m := DecimalValue(intPart) as real + FractionValue(fracPart);
        Finite(Scale(m, exponent.value))
      else NaN
  }

  function Negate(n: Number): Number
  {
    match n
    case Finite(x) => Finite(-x)
    case PosInf => NegInf
    case NegInf => PosInf
    case NaN => NaN
  }

  /** ToNumber applied to a String: surrounding white space is ignored, an
      empty string is 0, a hexadecimal literal has no sign, anything that is
      not a StrNumericLiteral is NaN. */
  function StringToNumber(s: string): Number
  {
    TrimmedToNumber(TrimEnd(TrimStart(s)))
  }

  /** White space before the literal, a Unicode space separator included,
      does not change the number. */
  lemma LeadingWhiteSpaceIsIgnored(c: char, s: string)
    requires IsStrWhiteSpace(c)
    ensures StringToNumber([c] + s) == StringToNumber(s)
  {
    assert ([c] + s)[1..] == s;
  }

  /** The conversion once the white space is gone. */
  function TrimmedToNumber(t: string): Number
  {
    if t == [] then Finite(0.0)
    else if |t| > 2 && t[0] == '0' && (t[1] == 'x' || t[1] == 'X') && AllHexDigits(t[2..]) then
      Finite(HexValue(t[2..]) as real)
    else
      var unsigned := if t[0] == '+' || t[0] == '-' then t[1..] else t;
      var n := ParseUnsignedDecimal(unsigned);
      if t[0] == '-' then Negate(n) else n
  }

  /** Digits alone, with no fraction or exponent, spell their integer value. */
  lemma DigitsAreUnsignedDecimal(s: string)
    requires s != [] && AllDecimalDigits(s)
    ensures ParseUnsignedDecimal(s) == Finite(DecimalValue(s) as real)
  {
    assert s != "Infinity" by { assert IsDecimalDigit(s[0]); }
    assert forall i :: 0 <= i < |s| ==> s[i] != 'e' && s[i] != 'E' && s[i] != '.';
    var k := IndexOfEither(s, 'e', 'E');
    assert k == |s| && s[..k] == s;
    var d := IndexOfEither(s, '.', '.');
    assert d == |s| && s[..d] == s;
    assert AllDecimalDigits("") && DecimalValue("") == 0;
    assert FractionValue("") == 0.0;
  }

  /** Digits have no white space around them to trim. */
  lemma DigitsNeedNoTrim(s: string)
    requires s != [] && AllDecimalDigits(s)
    ensures TrimEnd(TrimStart(s)) == s
  {
    assert IsDecimalDigit(s[0]) && IsDecimalDigit(s[|s| - 1]);
    assert TrimStart(s) == s;
  }

  /** Digits are neither signed nor a hexadecimal literal. */
  lemma DigitsAreUnsigned(s: string)
    requires s != [] && AllDecimalDigits(s)
    ensures TrimmedToNumber(s) == ParseUnsignedDecimal(s)
  {
    assert IsDecimalDigit(s[0]);
    assert !(|s| > 2 && s[0] == '0' && (s[1] == 'x' || s[1] == 'X')) by {
      if |s| > 2 { assert IsDecimalDigit(s[1]); }
    }
  }

  /** A string of decimal digits converts to the integer it spells, so that
      `a.length = "3"` sets the length to 3. */
  lemma DigitStringToNumber(s: string)
    requires s != [] && AllDecimalDigits(s)
    ensures StringToNumber(s) == Finite(DecimalValue(s) as real)
  {
    DigitsNeedNoTrim(s);
    DigitsAreUnsigned(s);
    DigitsAreUnsignedDecimal(s);
  }

  // ---------------------------------------------------------------------
  // ToNumber and ToUint32 on any value
  // ---------------------------------------------------------------------

  /** ToNumber (section 9.3 of ECMA-262 5th edition). For an object it runs
      ToPrimitive with hint Number, which may call user code (`valueOf`,
      `toString`) and may throw; that part is the oracle `objectToNumber`. */
  function ToNumber(v: Value, objectToNumber: Ref -> Result<Number>): Result<Number>
  {
    match v
    case Undefined => Ok(NaN)
    case Null => Ok(Finite(0.0))
    case Bool(b) => Ok(Finite(if b then 1.0 else 0.0))
    case Num(n) => Ok(n)
    case Str(s) => Ok(StringToNumber(s))
    case Obj(r) => objectToNumber(r)
  }

  /** ToUint32 (section 9.6 of ECMA-262 5th edition): ToNumber, then
      NumberToUint32. */
  function ToUint32(v: Value, objectToNumber: Ref -> Result<Number>): (r: Result<nat>)
    ensures r.Ok? <==> ToNumber(v, objectToNumber).Ok?
    ensures r.Ok? ==> r.value < TwoTo32
    ensures r.Err? ==> r.error == ToNumber(v, objectToNumber).error
  {
    var n :- ToNumber(v, objectToNumber);
    Ok(NumberToUint32(n))
  }

  /** SameValue (section 9.12 of ECMA-262 5th edition). Without a separate
      negative zero, and with a single NaN, it is equality of values. */
  predicate SameValue(a: Value, b: Value)
  {
    a == b
  }
}
