/**
 * Python's conversions between integers and text as the script uses them:
 * `int(s)` on a string, `str(n)` and `'%02d' % n`.
 */
module PyInt {
  import opened Outcome

  predicate IsDigit(c: char) {
    '0' <= c <= '9'
  }

  predicate AllDigits(s: string) {
    forall i :: 0 <= i < |s| ==> IsDigit(s[i])
  }

  /** The characters `str.strip()` removes that lie in the ASCII range. */
  predicate IsSpace(c: char) {
    c == ' ' || (9 <= c as int <= 13) || (28 <= c as int <= 31)
  }

  function DigitChar(d: nat): (c: char)
    requires d < 10
    ensures IsDigit(c)
  {
    ('0' as int + d) as char
  }

  /** The value of a run of decimal digits, most significant first. */
  function DigitsValue(s: string): nat
    requires AllDigits(s)
  {
    if s == [] then 0
    else DigitsValue(s[..|s| - 1]) * 10 + (s[|s| - 1] as int - '0' as int)
  }

  /** `str(n)` for a natural number: decimal digits without leading zeros. */
  function NatToStr(n: nat): (r: string)
    ensures |r| >= 1 && AllDigits(r)
    ensures r[0] == '0' ==> n == 0
  {
    if n < 10 then [DigitChar(n)] else NatToStr(n / 10) + [DigitChar(n % 10)]
  }

  /** `str(i)`. */
  function IntToStr(i: int): string {
    if i < 0 then "-" + NatToStr(-i) else NatToStr(i)
  }

  /** `'%02d' % i`: zero-padded to two characters; a sign counts towards the width. */
  function Pad2(i: int): string {
    if 0 <= i < 10 then "0" + NatToStr(i) else IntToStr(i)
  }

  function StripLeft(s: string): (r: string)
    ensures r == [] || !IsSpace(r[0])
  {
    if s != [] && IsSpace(s[0]) then StripLeft(s[1..]) else s
  }

  function StripRight(s: string): (r: string)
    ensures r == [] || !IsSpace(r[|r| - 1])
  {
    if s != [] && IsSpace(s[|s| - 1]) then StripRight(s[..|s| - 1]) else s
  }

  /** A signed numeral after stripping: an optional '+' or '-' and at least one digit. */
  function ParseNumeral(t: string): Result<int> {
    if t != [] && (t[0] == '+' || t[0] == '-') then
      if |t| > 1 && AllDigits(t[1..]) then
        var v: int := DigitsValue(t[1..]);
        Ok(if t[0] == '-' then -v else v)
      else Err(NotAnInteger)
    else if t != [] && AllDigits(t) then Ok(DigitsValue(t))
    else Err(NotAnInteger)
  }

  /** Python's `int(s)` on a string; a ValueError becomes `Err(NotAnInteger)`. */
  function ParseInt(s: string): Result<int> {
    ParseNumeral(StripRight(StripLeft(s)))
  }

  /** Reading back the digits of `str(n)` gives `n`. */
  lemma {:induction false} DigitsOfNat(n: nat)
    ensures DigitsValue(NatToStr(n)) == n
  {
    var r := NatToStr(n);
    if n >= 10 {
      DigitsOfNat(n / 10);
      assert r[..|r| - 1] == NatToStr(n / 10);
    }
  }

  /** `int(str(i)) == i` for every integer. */
  lemma IntRoundTrip(i: int)
    ensures ParseInt(IntToStr(i)) == Ok(i)
  {
    var s := IntToStr(i);
    var d := NatToStr(if i < 0 then -i else i);
    assert !IsSpace(s[0]) && !IsSpace(s[|s| - 1]);
    assert StripRight(StripLeft(s)) == s;
    DigitsOfNat(if i < 0 then -i else i);
    if i < 0 {
      assert s[1..] == d;
    }
  }

  /** `int('%02d' % i) == i` for every integer. */
  lemma Pad2RoundTrip(i: int)
    ensures ParseInt(Pad2(i)) == Ok(i)
  {
    if 0 <= i < 10 {
      var s := Pad2(i);
      assert s == ['0', DigitChar(i)];
      assert StripRight(StripLeft(s)) == s;
      assert s[..1] == ['0'] && s[..1][..0] == [];
      assert DigitsValue(s[..1]) == 0;
    } else {
      IntRoundTrip(i);
    }
  }

  /** Printed integers hold only digits and a leading '-'. */
  lemma NumberLacks(c: char, i: int)
    requires !IsDigit(c) && c != '-'
    ensures c !in IntToStr(i) && c !in Pad2(i)
  {
    var d := NatToStr(if i < 0 then -i else i);
    assert forall k :: 0 <= k < |d| ==> IsDigit(d[k]);
  }

  /** A four-digit year prints as exactly four digits. */
  lemma YearWidth(y: int)
    requires 1000 <= y <= 9999
    ensures |IntToStr(y)| == 4
  {
    assert |NatToStr(y / 1000)| == 1;
    assert |NatToStr(y / 100)| == 2 by { assert (y / 100) / 10 == y / 1000; }
    assert |NatToStr(y / 10)| == 3 by { assert (y / 10) / 10 == y / 100; }
  }
}
