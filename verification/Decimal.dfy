/** Decimal text of natural numbers, as written by the standard formatter and read back. */
module Decimal {

  predicate IsDigit(c: char) {
    '0' <= c <= '9'
  }

  function Digit(d: nat): (c: char)
    requires d < 10
    ensures IsDigit(c) && DigitValue(c) == d
  {
    (d + '0' as nat) as char
  }

  function DigitValue(c: char): (d: nat) {
    if IsDigit(c) then c as nat - '0' as nat else 0
  }

  ghost predicate AllDigits(s: string) {
    forall i :: 0 <= i < |s| ==> IsDigit(s[i])
  }

  function Show(n: nat): (s: string)
    ensures |s| > 0 && AllDigits(s)
  {
    if n < 10 then [Digit(n)] else Show(n / 10) + [Digit(n % 10)]
  }

  function Value(s: string): (n: nat)
    decreases |s|
  {
    if s == "" then 0 else 10 * Value(s[..|s| - 1]) + DigitValue(s[|s| - 1])
  }

  lemma {:induction false} ValueOfShow(n: nat)
    ensures Value(Show(n)) == n
  {
    if n >= 10 {
      ValueOfShow(n / 10);
      assert Show(n)[..|Show(n)| - 1] == Show(n / 10);
    }
  }

  /** The leading run of digits. */
  function Digits(s: string): (k: nat)
    ensures k <= |s|
    ensures AllDigits(s[..k])
    ensures k < |s| ==> !IsDigit(s[k])
  {
    if s == "" || !IsDigit(s[0]) then 0
    else
      var k := 1 + Digits(s[1..]);
      assert s[..k] == [s[0]] + s[1..][..k - 1];
      k
  }

  /** A run of digits followed by something else, or by nothing, is read in full. */
  lemma {:induction false} DigitsOfRun(d: string, rest: string)
    requires AllDigits(d)
    requires rest == "" || !IsDigit(rest[0])
    ensures Digits(d + rest) == |d|
    ensures (d + rest)[..Digits(d + rest)] == d
    decreases |d|
  {
    if d == "" {
      assert d + rest == rest;
    } else {
      DigitsOfRun(d[1..], rest);
      assert (d + rest)[1..] == d[1..] + rest;
    }
  }

  const Limit: nat := 0x1_0000_0000_0000_0000

  /** Reading a 64-bit counter: the leading digits, and 0 when there is none or it is too big. */
  function ScanUint64(s: string): (n: nat)
    ensures n < Limit
  {
    var v := Value(s[..Digits(s)]);
    if v < Limit then v else 0
  }

  lemma ScanOfShow(n: nat)
    requires n < Limit
    ensures ScanUint64(Show(n)) == n
  {
    DigitsOfRun(Show(n), "");
    assert Show(n) + "" == Show(n);
    ValueOfShow(n);
  }
}
