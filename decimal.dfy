/** Python's `str()` of an `int` and `int()` of a `str`, for decimal text. */
module Decimal {
  import opened Wrappers
  import Text

  predicate IsDigit(c: char) {
    '0' <= c <= '9'
  }

  predicate AllDigits(s: string) {
    forall k :: 0 <= k < |s| ==> IsDigit(s[k])
  }

  function DigitChar(d: nat): (c: char)
    requires d < 10
    ensures IsDigit(c) && c as int - '0' as int == d
  {
    ('0' as int + d) as char
  }

  /** `str(n)` for `n >= 0`: decimal digits without leading zeros. */
  function NatToString(n: nat): (s: string)
    ensures |s| >= 1 && AllDigits(s)
    ensures s[0] == '0' ==> s == "0"
    decreases n
  {
    if n < 10 then [DigitChar(n)] else NatToString(n / 10) + [DigitChar(n % 10)]
  }

  /** `str(i)`: a minus sign in front of the digits of a negative number. */
  function IntToString(i: int): (s: string)
    ensures |s| >= 1 && (s[0] == '-' || IsDigit(s[0]))
    ensures forall k :: 1 <= k < |s| ==> IsDigit(s[k])
  {
    if i < 0 then "-" + NatToString(-i) else NatToString(i)
  }

  /** The number a digit string denotes. */
  function DigitsValue(s: string): nat
    requires AllDigits(s)
  {
    if s == [] then 0 else 10 * DigitsValue(s[..|s| - 1]) + (s[|s| - 1] as int - '0' as int)
  }

  /** `int(s)`: surrounding whitespace, an optional sign, then at least one digit; `None` is Python's `ValueError`. */
  function ParseInt(s: string): (r: Option<int>)
    ensures Text.Strip(s) == [] ==> r == None
    ensures r.Some? && r.value < 0 ==> Text.Strip(s)[0] == '-'
  {
    ParseStripped(Text.Strip(s))
  }

  /** `int` of text that has no surrounding whitespace. */
  function ParseStripped(t: string): Option<int> {
    if |t| > 0 && (t[0] == '+' || t[0] == '-') then
      var body := t[1..];
      if |body| > 0 && AllDigits(body) then
        var n: int := DigitsValue(body);
        Some(if t[0] == '-' then -n else n)
      else None
    else if |t| > 0 && AllDigits(t) then Some(DigitsValue(t))
    else None
  }

  /** Reading back the digits `str` writes gives the number. */
  lemma {:induction false} DigitsValueOfNatToString(n: nat)
    ensures DigitsValue(NatToString(n)) == n
    decreases n
  {
    if n >= 10 {
      DigitsValueOfNatToString(n / 10);
      var s := NatToString(n);
      assert s[..|s| - 1] == NatToString(n / 10);
    }
  }

  lemma SignOrDigitNotSpace(c: char)
    requires c == '-' || IsDigit(c)
    ensures !Text.IsSpace(c)
  {
  }

  /** The text `str` writes has no surrounding whitespace. */
  lemma StripIntToString(i: int)
    ensures Text.Strip(IntToString(i)) == IntToString(i)
  {
    var s := IntToString(i);
    SignOrDigitNotSpace(s[0]);
    SignOrDigitNotSpace(s[|s| - 1]);
    Text.StripNoSpace(s);
  }

  /** `int` of an optionally signed digit string without surrounding whitespace. */
  lemma ParseSigned(t: string, negative: bool, digits: string)
    requires |digits| >= 1 && AllDigits(digits)
    requires t == (if negative then "-" + digits else digits)
    ensures ParseStripped(t) == Some(if negative then 0 - DigitsValue(digits) else DigitsValue(digits))
  {
    if negative {
      assert t[1..] == digits;
    } else {
      assert t[0] != '+' && t[0] != '-';
    }
  }

  /** `int(str(i)) == i` for every integer. */
  lemma ParseIntToString(i: int)
    ensures ParseInt(IntToString(i)) == Some(i)
  {
    var n: nat := if i < 0 then -i else i;
    DigitsValueOfNatToString(n);
    ParseSigned(IntToString(i), i < 0, NatToString(n));
    StripIntToString(i);
  }

  /** `str` is injective: different numbers never print alike. */
  lemma IntToStringInjective(i: int, j: int)
    requires IntToString(i) == IntToString(j)
    ensures i == j
  {
    ParseIntToString(i);
    ParseIntToString(j);
  }
}
