// Python's `int(text)`, `float(text)` and `str(n)` on the decimal forms
// the report tables use.
module PyNum {
  import opened Wrappers
  import opened PyStr

  function DigitValue(c: char): nat
    requires IsAsciiDigit(c)
  {
    c as int - '0' as int
  }

  function DigitChar(d: nat): (c: char)
    requires d < 10
    ensures IsAsciiDigit(c) && DigitValue(c) == d
  {
    ('0' as int + d) as char
  }

  predicate AllDigits(s: string)
  {
    forall i :: 0 <= i < |s| ==> IsAsciiDigit(s[i])
  }

  /** The value of a string of decimal digits (0 for the empty string). */
  function DigitsValue(s: string): nat
    requires AllDigits(s)
  {
    if s == [] then 0 else 10 * DigitsValue(s[..|s| - 1]) + DigitValue(s[|s| - 1])
  }

  /** `str(n)` for a natural number: no leading zeros, "0" for zero. */
  function NatToString(n: nat): (s: string)
    ensures IsDigits(s)
    ensures DigitsValue(s) == n
    ensures s[0] == '0' ==> n == 0
  {
    if n < 10 then [DigitChar(n)]
    else
      var p := NatToString(n / 10);
      var s := p + [DigitChar(n % 10)];
      assert s[..|s| - 1] == p;
      s
  }

  /** `str(i)` for an integer. */
  function IntToString(i: int): (s: string)
    ensures |s| > 0 && NoSpace(s)
    ensures i >= 0 <==> IsDigits(s)
    ensures forall c :: c in s ==> IsAsciiDigit(c) || c == '-'
  {
    if i < 0 then
      var s := "-" + NatToString(-i);
      assert !IsAsciiDigit(s[0]);
      s
    else NatToString(i)
  }

  /** Optional sign followed by the rest of the text. */
  function SplitSign(t: string): (bool, string)
  {
    if |t| > 0 && (t[0] == '+' || t[0] == '-') then (t[0] == '-', t[1..]) else (false, t)
  }

  /** `int(text)` restricted to ASCII: surrounding whitespace, an optional
      sign and at least one ASCII decimal digit. Everything else is None,
      standing for ValueError, including two forms Python's `int()`
      accepts and this model does not: underscores between digits
      ("2_024") and non-ASCII decimal digits. */
  function ParseInt(text: string): (r: Option<int>)
    ensures r.Some? ==> IsDigits(SplitSign(Strip(text)).1)
  {
    var (neg, body) := SplitSign(Strip(text));
    if IsDigits(body) then
      var v: int := DigitsValue(body);
      Some(if neg then -v else v)
    else None
  }

  /** `int(str(i)) == i`. */
  lemma ParseIntString(i: int)
    ensures ParseInt(IntToString(i)) == Some(i)
  {
    var s := IntToString(i);
    StripNoSpace(s);
    if i < 0 {
      assert SplitSign(s).1 == NatToString(-i);
    }
  }

  /** A string of digits is read by `int()` as its decimal value. */
  lemma ParseIntDigits(s: string)
    requires IsDigits(s)
    ensures ParseInt(s) == Some(DigitsValue(s))
  {
    assert NoSpace(s);
    StripNoSpace(s);
  }

  function Pow10(n: nat): (p: nat)
    ensures p >= 1
  {
    if n == 0 then 1 else 10 * Pow10(n - 1)
  }

  /** Digits with at most one '.', and at least one digit in all. */
  function ParseUnsignedDecimal(b: string): (r: Option<real>)
    ensures r.Some? ==> r.value >= 0.0
  {
    if '.' in b then
      var i := IndexOf(b, '.');
      var whole, frac := b[..i], b[i + 1..];
      if AllDigits(whole) && AllDigits(frac) && |whole| + |frac| > 0 then
        Some(DigitsValue(whole) as real + DigitsValue(frac) as real / Pow10(|frac|) as real)
      else None
    else if IsDigits(b) then Some(DigitsValue(b) as real)
    else None
  }

  /** `float(text)` on decimal notation: surrounding whitespace, an optional
      sign, digits with at most one decimal point. Failure is None. */
  function ParseFloat(text: string): (r: Option<real>)
    ensures r.Some? ==> |Strip(text)| > 0
  {
    var (neg, body) := SplitSign(Strip(text));
    match ParseUnsignedDecimal(body)
    case None => None
    case Some(v) => Some(if neg then -v else v)
  }

  /** `float(str(i)) == i` for every integer. */
  lemma ParseFloatIntString(i: int)
    ensures ParseFloat(IntToString(i)) == Some(i as real)
  {
    var s := IntToString(i);
    StripNoSpace(s);
    var body := if i < 0 then NatToString(-i) else NatToString(i);
    assert SplitSign(s).1 == body;
    assert '.' !in body;
  }

  /** Text that `int()` accepts is accepted by `float()` with the same value. */
  lemma ParseIntThenFloat(text: string)
    requires ParseInt(text).Some?
    ensures ParseFloat(text) == Some(ParseInt(text).value as real)
  {
    var body := SplitSign(Strip(text)).1;
    assert '.' !in body;
  }
}
