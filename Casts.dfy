/** The two casts the normalisation applies to numeric columns:
    `quantity` to a 32-bit integer and `amount` to a number, each giving
    null when the text is not a number. Numbers are written in decimal
    notation: an optional sign, digits, an optional decimal point and
    fraction digits, with surrounding spaces ignored. The integer cast
    drops a fraction (truncation toward zero) and gives null outside the
    32-bit range; the number cast is exact (a `real`, not a double). */
module Casts {
  import opened Options
  import Text

  const INT_MIN: int := -0x8000_0000
  const INT_MAX: int := 0x7fff_ffff

  predicate IsDigit(c: char) {
    '0' <= c <= '9'
  }

  predicate AllDigits(s: string) {
    forall i :: 0 <= i < |s| ==> IsDigit(s[i])
  }

  function DigitValue(c: char): (d: nat)
    requires IsDigit(c)
    ensures d < 10
  {
    c as int - '0' as int
  }

  /** The character for a decimal digit; inverse of `DigitValue`. */
  function Digit(d: nat): (c: char)
    requires d < 10
    ensures IsDigit(c) && DigitValue(c) == d
  {
    ('0' as int + d) as char
  }

  function Pow10(k: nat): (p: nat)
    ensures p >= 1
  {
    if k == 0 then 1 else 10 * Pow10(k - 1)
  }

  /** The value of a string of decimal digits; it has fewer digits than
      10 to the power of its length. */
  function DigitsValue(s: string): (n: nat)
    requires AllDigits(s)
    ensures n < Pow10(|s|)
    decreases |s|
  {
    if s == [] then 0 else DigitsValue(s[..|s| - 1]) * 10 + DigitValue(s[|s| - 1])
  }

  /** The shortest decimal numeral of `n`; reading it back gives `n`. */
  function NatToString(n: nat): (s: string)
    ensures |s| >= 1 && AllDigits(s)
    ensures DigitsValue(s) == n
    ensures |s| > 1 ==> s[0] != '0'
  {
    if n < 10 then [Digit(n)]
    else
      var s := NatToString(n / 10) + [Digit(n % 10)];
      assert s[..|s| - 1] == NatToString(n / 10);
      s
  }

  /** How a Python or SQL integer prints: a minus sign for negatives. */
  function IntToString(n: int): string {
    if n < 0 then "-" + NatToString(-n) else NatToString(n)
  }

  /** Splits off one leading sign character; `true` means negative. */
  function SplitSign(s: string): (r: (bool, string))
    ensures r.1 == if |s| > 0 && (s[0] == '-' || s[0] == '+') then s[1..] else s
    ensures r.0 <==> |s| > 0 && s[0] == '-'
  {
    if |s| > 0 && s[0] == '-' then (true, s[1..])
    else if |s| > 0 && s[0] == '+' then (false, s[1..])
    else (false, s)
  }

  /** Position of the first `c` in `s`, or `|s|` when there is none. */
  function IndexOf(s: string, c: char): (i: nat)
    ensures i <= |s|
    ensures forall j :: 0 <= j < i ==> s[j] != c
    ensures i < |s| ==> s[i] == c
  {
    if s == [] then 0 else if s[0] == c then 0 else 1 + IndexOf(s[1..], c)
  }

  /** The lexical shape shared by both casts: sign, digits before the
      decimal point, digits after it. */
  datatype Numeral = Numeral(negative: bool, whole: string, fraction: string)

  /** Splits trimmed text into sign, whole part and fraction part; `None`
      when a part holds anything but digits. */
  function Lex(s: string): (r: Option<Numeral>)
    ensures r.Some? ==> AllDigits(r.value.whole) && AllDigits(r.value.fraction)
  {
    var (negative, body) := SplitSign(Text.Trim(s));
    var dot := IndexOf(body, '.');
    var whole := body[..dot];
    var fraction := if dot < |body| then body[dot + 1..] else "";
    if AllDigits(whole) && AllDigits(fraction) then Some(Numeral(negative, whole, fraction)) else None
  }

  /** `cast(quantity as int)`: a numeral with at least one digit before
      the point, fraction dropped, within the 32-bit range; else null. */
  function ParseQuantity(s: string): (r: Option<int>)
    ensures r.Some? ==> INT_MIN <= r.value <= INT_MAX
    ensures r.Some? ==> Lex(s).Some? && Lex(s).value.whole != ""
  {
    match Lex(s)
    case None => None
    case Some(n) =>
      if n.whole == "" then None
      else
        var v: int := if n.negative then -(DigitsValue(n.whole) as int) else DigitsValue(n.whole);
        if INT_MIN <= v <= INT_MAX then Some(v) else None
  }

  /** `cast(amount as double)`, exactly: a numeral with at least one digit
      on either side of the point; else null. */
  function ParseAmount(s: string): (r: Option<real>)
    ensures r.Some? <==> Lex(s).Some? && (Lex(s).value.whole != "" || Lex(s).value.fraction != "")
  {
    match Lex(s)
    case None => None
    case Some(n) =>
      if n.whole == "" && n.fraction == "" then None
      else
        var magnitude := DigitsValue(n.whole) as real + FractionValue(n.fraction);
        Some(if n.negative then -magnitude else magnitude)
  }

  /** The value of the digits after a decimal point. */
  function FractionValue(s: string): (f: real)
    requires AllDigits(s)
    ensures 0.0 <= f < 1.0
  {
    var d, p := DigitsValue(s) as real, Pow10(|s|) as real;
    var q := d / p;
    assert q * p == d;
    assert q < 1.0 by {
      if q >= 1.0 {
        assert false;
      }
    }
    q
  }

  /** Truncation toward zero, as a cast from a number to an integer does. */
  function TruncateTowardZero(x: real): (n: int)
    ensures x >= 0.0 ==> n as real <= x < n as real + 1.0
    ensures x < 0.0 ==> n as real - 1.0 < x <= n as real
  {
    if x >= 0.0 then x.Floor else -((-x).Floor)
  }

  lemma IndexOfAbsent(s: string, c: char)
    requires !IsDigit(c) && AllDigits(s)
    ensures IndexOf(s, c) == |s|
  {
  }

  lemma LexOfIntToString(n: int)
    ensures Lex(IntToString(n)) == Some(Numeral(n < 0, NatToString(if n < 0 then -n else n), ""))
  {
    var s := IntToString(n);
    var digits := NatToString(if n < 0 then -n else n);
    assert IsDigit(digits[0]) && IsDigit(digits[|digits| - 1]);
    assert s[|s| - 1] == digits[|digits| - 1];
    Text.TrimOfTrimmed(s);
    var split := SplitSign(s);
    assert split == (n < 0, digits);
    IndexOfAbsent(digits, '.');
    assert digits[..|digits|] == digits;
  }

  /** The integer cast reads back every 32-bit integer and refuses every
      integer outside that range. */
  lemma {:induction false} QuantityRoundTrip(n: int)
    ensures ParseQuantity(IntToString(n)) == if INT_MIN <= n <= INT_MAX then Some(n) else None
  {
    LexOfIntToString(n);
  }

  /** The number cast reads back every integer exactly. */
  lemma {:induction false} AmountOfInteger(n: int)
    ensures ParseAmount(IntToString(n)) == Some(n as real)
  {
    LexOfIntToString(n);
  }

  /** Where the integer cast succeeds, the number cast succeeds too, and
      the integer is that number truncated toward zero. */
  lemma {:induction false} QuantityTruncatesAmount(s: string)
    requires ParseQuantity(s).Some?
    ensures ParseAmount(s).Some?
    ensures TruncateTowardZero(ParseAmount(s).value) == ParseQuantity(s).value
  {
    var n := Lex(s).value;
    var w := DigitsValue(n.whole) as real;
    var f := FractionValue(n.fraction);
    var x := ParseAmount(s).value;
    if n.negative {
      assert x == -(w + f);
    } else {
      assert x == w + f;
    }
  }
}
