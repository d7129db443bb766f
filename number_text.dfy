/** The text-to-number and number-to-text conversions the forms and labels rely
    on: JavaScript's parseInt and parseFloat on the text a numeric input field
    delivers, and the decimal text of an integer inside a template string. */
module NumberText {
  import opened Finance

  predicate IsDigit(c: char)
  {
    '0' <= c <= '9'
  }

  function DigitValue(c: char): nat
    requires IsDigit(c)
  {
    c as int - '0' as int
  }

  function DigitChar(d: nat): char
    requires d < 10
  {
    ('0' as int + d) as char
  }

  predicate AllDigits(s: string)
  {
    forall i :: 0 <= i < |s| ==> IsDigit(s[i])
  }

  function Pow10(n: nat): (r: nat)
    ensures r >= 1
  {
    if n == 0 then 1 else 10 * Pow10(n - 1)
  }

  /** The value of a run of decimal digits. */
  function DigitsValue(s: string): nat
    requires AllDigits(s)
  {
    if s == [] then 0 else DigitsValue(s[..|s| - 1]) * 10 + DigitValue(s[|s| - 1])
  }

  /** The length of the leading run of digits. */
  function DigitPrefix(s: string): (n: nat)
    ensures n <= |s|
    ensures AllDigits(s[..n])
    ensures n < |s| ==> !IsDigit(s[n])
  {
    if s == [] || !IsDigit(s[0]) then 0
    else
      var n := 1 + DigitPrefix(s[1..]);
      assert s[..n] == [s[0]] + s[1..][..n - 1];
      n
  }

  /** The text after an optional leading minus sign. */
  function Unsigned(s: string): string
  {
    if |s| > 0 && s[0] == '-' then s[1..] else s
  }

  // ---------------------------------------------------------------------------
  // Number to text

  /** The decimal digits of a natural number, without leading zeros. */
  function NatToString(n: nat): (s: string)
    ensures 1 <= |s| && AllDigits(s)
    ensures |s| > 1 ==> s[0] != '0'
  {
    if n < 10 then [DigitChar(n)] else NatToString(n / 10) + [DigitChar(n % 10)]
  }

  /** `${n}` for an integer: a minus sign exactly for negative numbers, then
      at least one digit. */
  function IntToString(n: int): (s: string)
    ensures |s| >= 1
    ensures n < 0 <==> s[0] == '-'
    ensures n >= 0 ==> AllDigits(s)
    ensures n < 0 ==> |s| >= 2 && AllDigits(s[1..])
  {
    if n < 0 then "-" + NatToString(-n) else NatToString(n)
  }

  // ---------------------------------------------------------------------------
  // Text to number

  /** `parseInt(s)`: an optional minus sign and the digits that follow it; the
      rest of the text is ignored. None stands for NaN. */
  function ParseInt(s: string): (r: Option<int>)
    ensures s == "" ==> r.None?
    ensures s != "" && AllDigits(s) ==> r == Some(DigitsValue(s) as int)
    ensures r.Some? && r.value < 0 ==> s[0] == '-'
  {
    var body := Unsigned(s);
    var k := DigitPrefix(body);
    assert s != "" && AllDigits(s) ==> body == s && k == |s| && body[..k] == s by {
      if s != "" && AllDigits(s) { DigitPrefixOfDigits(s); }
    }
    if k == 0 then None
    else
      var v: int := DigitsValue(body[..k]);
      Some(if |s| > 0 && s[0] == '-' then -v else v)
  }

  /** `parseFloat(s)` for text without an exponent: an optional minus sign, the
      whole digits, and the digits after a decimal point. None stands for NaN. */
  function ParseFloat(s: string): (r: Option<real>)
    ensures s == "" ==> r.None?
    ensures s != "" && AllDigits(s) ==> r == Some(DigitsValue(s) as real)
    ensures r.Some? && r.value < 0.0 ==> s[0] == '-'
  {
    var body := Unsigned(s);
    var k := DigitPrefix(body);
    assert s != "" && AllDigits(s) ==> body == s && k == |s| && body[..k] == s by {
      if s != "" && AllDigits(s) { DigitPrefixOfDigits(s); }
    }
    var rest := body[k..];
    var f := if |rest| > 0 && rest[0] == '.' then DigitPrefix(rest[1..]) else 0;
    if k == 0 && f == 0 then None
    else
      var whole := DigitsValue(body[..k]) as real;
      var frac := if f == 0 then 0.0 else DigitsValue(rest[1..][..f]) as real / Pow10(f) as real;
      Some(if |s| > 0 && s[0] == '-' then -(whole + frac) else whole + frac)
  }

  /** `parseFloat(s) || 0`: NaN (and zero) become 0. */
  function ParseFloatOrZero(s: string): (r: real)
    ensures ParseFloat(s).None? ==> r == 0.0
    ensures ParseFloat(s).Some? ==> r == ParseFloat(s).value
  {
    match ParseFloat(s)
    case Some(v) => v
    case None => 0.0
  }

  /** Text without a leading minus sign never parses to a negative number. */
  lemma ParseFloatNonNegative(s: string)
    requires s == "" || s[0] != '-'
    ensures ParseFloatOrZero(s) >= 0.0
  {
  }

  // ---------------------------------------------------------------------------
  // What a numeric input field delivers

  /** Digits, optionally followed by a point and more digits; or a point and
      digits. */
  predicate IsDecimalBody(s: string)
  {
    var k := DigitPrefix(s);
    var rest := s[k..];
    (rest == [] && k > 0) || (|rest| >= 2 && rest[0] == '.' && AllDigits(rest[1..]))
  }

  /** The value of an `<input type="number">`: empty, or a valid floating-point
      number (the exponent form is not modelled). */
  predicate IsNumberText(s: string)
  {
    s == "" || IsDecimalBody(Unsigned(s))
  }

  /** A number text that starts with a digit after its sign, so that parseInt
      reads a number from it. */
  predicate IsIntegralLeadText(s: string)
  {
    IsNumberText(s) && (s == "" || DigitPrefix(Unsigned(s)) > 0)
  }

  // ---------------------------------------------------------------------------
  // Properties

  lemma {:induction false} DigitsValueOfNatToString(n: nat)
    ensures DigitsValue(NatToString(n)) == n
  {
    var s := NatToString(n);
    if n >= 10 {
      DigitsValueOfNatToString(n / 10);
      assert s[..|s| - 1] == NatToString(n / 10);
    }
  }

  lemma DigitPrefixOfDigits(s: string)
    requires AllDigits(s)
    ensures DigitPrefix(s) == |s|
  {
  }

  /** parseInt reads back the text of any integer. */
  lemma ParseIntOfIntToString(n: int)
    ensures ParseInt(IntToString(n)) == Some(n)
  {
    var s := IntToString(n);
    var digits := NatToString(if n < 0 then -n else n);
    assert Unsigned(s) == digits;
    DigitPrefixOfDigits(digits);
    assert digits[..|digits|] == digits;
    DigitsValueOfNatToString(if n < 0 then -n else n);
  }

  /** parseInt stops at the first character that is not a digit, so the text
      of an integer followed by such a character still reads as that integer. */
  lemma ParseIntOfIntToStringThen(n: int, tail: string)
    requires tail == "" || !IsDigit(tail[0])
    ensures ParseInt(IntToString(n) + tail) == Some(n)
  {
    var m: nat := if n < 0 then -n else n;
    var sign := if n < 0 then "-" else "";
    assert IntToString(n) == sign + NatToString(m);
    DigitsValueOfNatToString(m);
    ParseIntOfSignedDigits(n < 0, NatToString(m), tail);
  }

  /** An optional minus sign, digits, then text that does not start with a
      digit reads as the signed value of the digits. */
  lemma ParseIntOfSignedDigits(negative: bool, digits: string, tail: string)
    requires digits != "" && AllDigits(digits)
    requires tail == "" || !IsDigit(tail[0])
    ensures var v := DigitsValue(digits) as int;
      ParseInt((if negative then "-" else "") + digits + tail) == Some(if negative then -v else v)
  {
    var s := (if negative then "-" else "") + digits + tail;
    var body := Unsigned(s);
    assert body == digits + tail by {
      if negative {
        assert s == "-" + (digits + tail);
      } else {
        assert IsDigit(digits[0]);
      }
    }
    DigitPrefixOfDigitsThen(digits, tail);
    assert body[..DigitPrefix(body)] == digits;
  }

  lemma {:induction false} DigitPrefixOfDigitsThen(s: string, tail: string)
    requires AllDigits(s)
    requires tail == "" || !IsDigit(tail[0])
    ensures DigitPrefix(s + tail) == |s|
  {
    if s != [] {
      assert (s + tail)[1..] == s[1..] + tail;
      DigitPrefixOfDigitsThen(s[1..], tail);
    } else {
      assert s + tail == tail;
    }
  }

  /** A text that starts with neither a sign nor a digit reads as NaN. */
  lemma ParseIntOfNonDigitLead(s: string)
    requires s != "" && s[0] != '-' && !IsDigit(s[0])
    ensures ParseInt(s).None?
  {
    assert Unsigned(s) == s;
    assert DigitPrefix(s) == 0;
  }

  /** The text of any integer is a number text that leads with a digit after
      its sign. */
  lemma IntToStringIsIntegralLead(n: int)
    ensures IsIntegralLeadText(IntToString(n))
  {
    var s := IntToString(n);
    var digits := NatToString(if n < 0 then -n else n);
    assert Unsigned(s) == digits;
    DigitPrefixOfDigits(digits);
    assert digits[|digits|..] == [];
  }

  /** parseFloat yields a number for every non-empty number text. */
  lemma ParseFloatOfNumberText(s: string)
    requires IsNumberText(s) && s != ""
    ensures ParseFloat(s).Some?
  {
    var body := Unsigned(s);
    var k := DigitPrefix(body);
    var rest := body[k..];
    if k == 0 {
      assert rest[0] == '.';
      DigitPrefixOfDigits(rest[1..]);
    }
  }

  /** parseInt yields a number for every non-empty text that leads with a digit. */
  lemma ParseIntOfIntegralLead(s: string)
    requires IsIntegralLeadText(s) && s != ""
    ensures ParseInt(s).Some?
  {
  }

  /** On the text of an integer parseFloat and parseInt agree. */
  lemma ParseFloatOfIntToString(n: int)
    ensures ParseFloat(IntToString(n)) == Some(n as real)
  {
    var s := IntToString(n);
    var digits := NatToString(if n < 0 then -n else n);
    assert Unsigned(s) == digits;
    DigitPrefixOfDigits(digits);
    assert digits[..|digits|] == digits;
    assert digits[|digits|..] == [];
    DigitsValueOfNatToString(if n < 0 then -n else n);
  }
}
