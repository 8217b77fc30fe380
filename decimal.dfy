/** Decimal rendering of unsigned integers, as Rust's `Display` for `usize`
    and `u32` writes them: the shortest digit string, no sign, no leading
    zeros, and "0" for zero. The reading functions are the partner of the
    renderer: they recover the number from a rendered message. */
module Decimal {
  import opened Wrappers

  predicate IsDigit(c: char) {
    '0' <= c <= '9'
  }

  predicate AllDigits(s: string) {
    forall i :: 0 <= i < |s| ==> IsDigit(s[i])
  }

  function DigitValue(c: char): (d: nat)
    requires IsDigit(c)
    ensures d < 10
  {
    c as int - '0' as int
  }

  /** The ASCII character of a single decimal digit. */
  function DigitChar(d: nat): (c: char)
    requires d < 10
    ensures IsDigit(c) && DigitValue(c) == d
  {
    ('0' as int + d) as char
  }

  /** The decimal text of `n`. */
  function Dec(n: nat): (s: string)
    ensures |s| >= 1 && AllDigits(s)
    ensures s[0] == '0' ==> n == 0 && s == "0"
  {
    if n < 10 then [DigitChar(n)] else Dec(n / 10) + [DigitChar(n % 10)]
  }

  /** The number a digit string denotes, read most significant digit first. */
  function DecValue(s: string): nat
    requires AllDigits(s)
  {
    if s == [] then 0 else DecValue(s[..|s| - 1]) * 10 + DigitValue(s[|s| - 1])
  }

  /** Reading back what `Dec` wrote gives the number that was written. */
  lemma {:induction false} DecValueDec(n: nat)
    ensures DecValue(Dec(n)) == n
  {
    if n >= 10 {
      var s := Dec(n);
      assert s[..|s| - 1] == Dec(n / 10);
      DecValueDec(n / 10);
    }
  }

  /** Distinct numbers render to distinct texts. */
  lemma DecInjective(m: nat, n: nat)
    ensures Dec(m) == Dec(n) <==> m == n
  {
    if Dec(m) == Dec(n) {
      DecValueDec(m);
      DecValueDec(n);
    }
  }

  /** The length of the longest prefix of `s` made of digits. */
  function DigitRun(s: string): (k: nat)
    ensures k <= |s| && AllDigits(s[..k])
    ensures k < |s| ==> !IsDigit(s[k])
  {
    if s == [] || !IsDigit(s[0]) then 0
    else
      var k := DigitRun(s[1..]);
      assert s[..k + 1] == [s[0]] + s[1..][..k];
      k + 1
  }

  /** Reads a decimal number off the front of `s`: the number and the text
      after its last digit, or None when `s` does not start with a digit. */
  function ReadNumber(s: string): (r: Option<(nat, string)>)
    ensures r.Some? <==> s != [] && IsDigit(s[0])
    ensures r.Some? ==> |r.value.1| < |s| && r.value.1 == s[|s| - |r.value.1|..]
  {
    var k := DigitRun(s);
    if k == 0 then None else Some((DecValue(s[..k]), s[k..]))
  }

  lemma {:induction false} DigitRunAfterDigits(d: string, rest: string)
    requires AllDigits(d)
    requires rest == [] || !IsDigit(rest[0])
    ensures DigitRun(d + rest) == |d|
  {
    if d != [] {
      assert (d + rest)[1..] == d[1..] + rest;
      DigitRunAfterDigits(d[1..], rest);
    }
  }

  /** `ReadNumber` inverts `Dec` whenever the rendered number is followed by
      something other than a digit. */
  lemma ReadNumberDec(n: nat, rest: string)
    requires rest == [] || !IsDigit(rest[0])
    ensures ReadNumber(Dec(n) + rest) == Some((n, rest))
  {
    var s := Dec(n) + rest;
    DigitRunAfterDigits(Dec(n), rest);
    assert s[..|Dec(n)|] == Dec(n);
    assert s[|Dec(n)|..] == rest;
    DecValueDec(n);
  }
}
