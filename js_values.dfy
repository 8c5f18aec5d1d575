/** Values held in storage cells and the two coercions the typed accessor
    applies before a write: `'' + val` for string fields and
    `isNumber(val) ? val : parseInt(val)` (NaN becoming 0) for number fields. */
module JsValues {
  import opened Wrappers

  /** A cell payload. JavaScript numbers are modelled as integers. */
  datatype Value = Str(s: string) | Num(n: int)

  predicate IsDigit(c: char) {
    '0' <= c <= '9'
  }

  predicate AllDigits(s: string) {
    forall i | 0 <= i < |s| :: IsDigit(s[i])
  }

  function DigitChar(d: nat): (c: char)
    requires d < 10
    ensures IsDigit(c)
  {
    "0123456789"[d]
  }

  function DigitValue(c: char): (d: nat)
    requires IsDigit(c)
    ensures d < 10
  {
    c as int - '0' as int
  }

  /** Decimal rendering of a natural number, most significant digit first. */
  function NatToString(n: nat): (s: string)
    ensures |s| > 0 && AllDigits(s)
  {
    if n < 10 then [DigitChar(n)] else NatToString(n / 10) + [DigitChar(n % 10)]
  }

  /** `'' + n` for an integer `n`. */
  function IntToString(n: int): (s: string)
    ensures |s| > 0
  {
    if n < 0 then "-" + NatToString(-n) else NatToString(n)
  }

  /** The number a string of decimal digits denotes. */
  function DigitsValue(s: string): nat
    requires AllDigits(s)
  {
    if s == [] then 0 else DigitsValue(s[..|s| - 1]) * 10 + DigitValue(s[|s| - 1])
  }

  /** The longest prefix of `s` made of decimal digits. */
  function DigitPrefix(s: string): (p: string)
    ensures p <= s && AllDigits(p)
    ensures |p| < |s| ==> !IsDigit(s[|p|])
  {
    if s == [] || !IsDigit(s[0]) then [] else [s[0]] + DigitPrefix(s[1..])
  }

  /** `parseInt(s)`: an optional sign followed by the longest run of decimal
      digits; `None` is NaN (no digit after the sign). */
  function ParseInt(s: string): Option<int>
  {
    var negative := |s| > 0 && s[0] == '-';
    var rest := if |s| > 0 && (s[0] == '-' || s[0] == '+') then s[1..] else s;
    var digits := DigitPrefix(rest);
    var magnitude: int := if digits == [] then 0 else DigitsValue(digits);
    if digits == [] then None
    else if negative then Some(-magnitude)
    else Some(magnitude)
  }

  lemma {:induction false} DigitsOfNat(n: nat)
    ensures DigitsValue(NatToString(n)) == n
  {
    var s := NatToString(n);
    if n >= 10 {
      DigitsOfNat(n / 10);
      assert s[..|s| - 1] == NatToString(n / 10);
    }
  }

  lemma {:induction false} DigitPrefixOfDigits(s: string)
    requires AllDigits(s)
    ensures DigitPrefix(s) == s
  {
    if s != [] {
      DigitPrefixOfDigits(s[1..]);
      assert [s[0]] + s[1..] == s;
    }
  }

  /** Rendering an integer and parsing it back gives the integer again. */
  lemma ParseIntRoundTrip(n: int)
    ensures ParseInt(IntToString(n)) == Some(n)
  {
    var m: nat := if n < 0 then -n else n;
    var digits := NatToString(m);
    DigitPrefixOfDigits(digits);
    DigitsOfNat(m);
    if n < 0 {
      assert IntToString(n)[1..] == digits;
    } else {
      assert IntToString(n)[0] != '-' && IntToString(n)[0] != '+' by {
        assert IsDigit(digits[0]);
      }
    }
  }

  /** `'' + val`: the string form of a value; a number renders as text that
      parses back to that same number. */
  function ToJsString(v: Value): (s: string)
    ensures v.Str? ==> s == v.s
    ensures v.Num? ==> ParseInt(s) == Some(v.n)
  {
    match v
    case Str(s) => s
    case Num(n) => ParseIntRoundTrip(n); IntToString(n)
  }

  /** The number coercion of `setNumberUID`: a number is kept, a string is
      parsed, and a string that is not a number becomes 0. */
  function ToJsNumber(v: Value): (n: int)
    ensures v.Num? ==> n == v.n
    ensures v.Str? && ParseInt(v.s).None? ==> n == 0
    ensures v.Str? && ParseInt(v.s).Some? ==> n == ParseInt(v.s).value
  {
    match v
    case Num(n) => n
    case Str(s) =>
      match ParseInt(s)
      case Some(n) => n
      case None => 0
  }

  /** Writing a number to a string field and then to a number field yields
      the original number. */
  lemma CoercionRoundTrip(n: int)
    ensures ToJsNumber(Str(ToJsString(Num(n)))) == n
  {
  }

  /** The coercions applied to the sample inputs "42", "abc" and 42. */
  lemma CoercionExamples()
    ensures ToJsNumber(Str("42")) == 42
    ensures ToJsNumber(Str("abc")) == 0
    ensures ToJsNumber(Str("-7px")) == -7
    ensures ToJsString(Num(42)) == "42"
  {
    assert DigitPrefix("42") == "42";
    assert "42"[..1] == "4" && DigitsValue("4") == 4;
    assert DigitPrefix("abc") == [];
    assert DigitPrefix("7px") == "7";
    assert DigitsValue("7") == 7;
    assert NatToString(42) == "42";
  }
}
