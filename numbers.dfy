/** The defensive numeric parsing of the profile builder: `float(x)` and
    `int(x)` inside `try/except`, where a value that does not parse becomes
    zero. Decimal values are exact reals here, not IEEE doubles. */
module Numbers {
  import opened Wrappers
  import opened Text

  predicate IsDigit(c: char) {
    '0' <= c <= '9'
  }

  predicate AllDigits(s: string) {
    forall i :: 0 <= i < |s| ==> IsDigit(s[i])
  }

  /** The value of a string of decimal digits, most significant first. */
  function DigitsValue(ds: string): nat
    requires AllDigits(ds)
  {
    if ds == [] then 0
    else DigitsValue(ds[..|ds| - 1]) * 10 + (ds[|ds| - 1] as int - '0' as int)
  }

  /** The value of the digits after a decimal point: "25" is 0.25. */
  function FractionValue(ds: string): (v: real)
    requires AllDigits(ds)
    ensures 0.0 <= v < 1.0
  {
    if ds == [] then 0.0
    else ((ds[0] as int - '0' as int) as real + FractionValue(ds[1..])) / 10.0
  }

  /** Splits an optional leading sign off: (is it negative, the rest). */
  function SplitSign(t: string): (r: (bool, string))
    ensures r.1 == t || (|t| > 0 && r.1 == t[1..] && (t[0] == '+' || t[0] == '-'))
    ensures r.0 ==> |t| > 0 && t[0] == '-'
  {
    if t != [] && (t[0] == '+' || t[0] == '-') then (t[0] == '-', t[1..]) else (false, t)
  }

  /** The index of the first '.', or the length when there is none. */
  function DotIndex(s: string): (k: nat)
    ensures k <= |s|
    ensures forall i :: 0 <= i < k ==> s[i] != '.'
    ensures k < |s| ==> s[k] == '.'
  {
    if s == [] then 0 else if s[0] == '.' then 0 else 1 + DotIndex(s[1..])
  }

  /** `int(s)`: optional surrounding whitespace, an optional sign and at least
      one decimal digit; anything else is a parse failure. */
  function ParseInteger(s: string): (r: Option<int>)
    ensures r.Some? ==> var body := SplitSign(Strip(s)).1; body != [] && AllDigits(body)
  {
    var (negative, body) := SplitSign(Strip(s));
    if body != [] && AllDigits(body) then
      Some(if negative then -(DigitsValue(body) as int) else DigitsValue(body))
    else None
  }

  /** `float(s)` on plain decimal notation: optional surrounding whitespace, an
      optional sign, digits with at most one '.', at least one digit. */
  function ParseDecimal(s: string): (r: Option<real>)
  {
    var (negative, body) := SplitSign(Strip(s));
    var k := DotIndex(body);
    var whole := body[..k];
    var fraction := if k < |body| then body[k + 1..] else [];
    if AllDigits(whole) && AllDigits(fraction) && |whole| + |fraction| > 0 then
      var v := DigitsValue(whole) as real + FractionValue(fraction);
      Some(if negative then -v else v)
    else None
  }

  /** The `except: value = 0` fallback. */
  function OrZero(r: Option<real>): (v: real)
    ensures r.Some? ==> v == r.value
    ensures r.None? ==> v == 0.0
  {
    r.GetOr(0.0)
  }

  function OrZeroInt(r: Option<int>): (v: int)
    ensures r.Some? ==> v == r.value
    ensures r.None? ==> v == 0
  {
    r.GetOr(0)
  }

  lemma {:induction false} DigitsValueOfNatToString(n: nat)
    ensures AllDigits(NatToString(n)) && DigitsValue(NatToString(n)) == n
  {
    var s := NatToString(n);
    if n >= 10 {
      DigitsValueOfNatToString(n / 10);
      assert s[..|s| - 1] == NatToString(n / 10);
    }
  }

  /** The decimal rendering of a number parses back to that number. */
  lemma ParseIntegerOfNatToString(n: nat)
    ensures ParseInteger(NatToString(n)) == Some(n)
  {
    var s := NatToString(n);
    StripOfStripped(s);
    DigitsValueOfNatToString(n);
    assert SplitSign(s) == (false, s);
  }

  /** Whatever `int(s)` accepts, `float(s)` accepts with the same value. */
  lemma ParseDecimalExtendsParseInteger(s: string)
    requires ParseInteger(s).Some?
    ensures ParseDecimal(s) == Some(ParseInteger(s).value as real)
  {
    var body := SplitSign(Strip(s)).1;
    assert DotIndex(body) == |body|;
    assert body[..|body|] == body;
  }

  /** The decimal rendering of a number also parses as a float of that value. */
  lemma ParseDecimalOfNatToString(n: nat)
    ensures ParseDecimal(NatToString(n)) == Some(n as real)
  {
    ParseIntegerOfNatToString(n);
    ParseDecimalExtendsParseInteger(NatToString(n));
  }
}
