/** Decimal text of whole numbers: JavaScript's number-to-string conversion
    on integers, `parseInt` on a run of digits, and the regular expression
    `/\d+/` that finds the first run of digits in a text. */
module Numbers {
  import opened Common

  predicate IsDigit(c: char) {
    '0' <= c <= '9'
  }

  predicate AllDigits(s: string) {
    forall i :: 0 <= i < |s| ==> IsDigit(s[i])
  }

  function DigitChar(d: nat): (c: char)
    requires d < 10
    ensures IsDigit(c)
  {
    ['0', '1', '2', '3', '4', '5', '6', '7', '8', '9'][d]
  }

  function DigitValue(c: char): (d: nat)
    requires IsDigit(c)
    ensures d < 10
  {
    c as int - '0' as int
  }

  lemma DigitRoundTrip(d: nat)
    requires d < 10
    ensures DigitValue(DigitChar(d)) == d
  {
  }

  /** The decimal text of a natural number, without leading zeros. */
  function NatToString(n: nat): (r: string)
    ensures |r| >= 1 && AllDigits(r)
    ensures r[0] == '0' ==> n == 0
  {
    if n < 10 then [DigitChar(n)] else NatToString(n / 10) + [DigitChar(n % 10)]
  }

  /** `parseInt` of a non-empty run of decimal digits. */
  function ParseDigits(s: string): nat
    requires AllDigits(s)
  {
    if s == [] then 0 else ParseDigits(s[..|s| - 1]) * 10 + DigitValue(s[|s| - 1])
  }

  /** Reading back the decimal text of `n` gives `n`. */
  lemma {:induction false} ParseNatToString(n: nat)
    ensures ParseDigits(NatToString(n)) == n
  {
    var r := NatToString(n);
    if n < 10 {
      DigitRoundTrip(n);
      assert r[..|r| - 1] == [];
    } else {
      ParseNatToString(n / 10);
      DigitRoundTrip(n % 10);
      assert r[..|r| - 1] == NatToString(n / 10);
    }
  }

  /** Distinct numbers have distinct decimal texts. */
  lemma NatToStringInjective(m: nat, n: nat)
    requires NatToString(m) == NatToString(n)
    ensures m == n
  {
    ParseNatToString(m);
    ParseNatToString(n);
  }

  /** The text of a JavaScript integer value: a minus sign before negative ones. */
  function IntToString(i: int): (r: string)
    ensures |r| >= 1 && ' ' !in r
    ensures i >= 0 <==> AllDigits(r)
    ensures i < 0 ==> r[0] == '-' && AllDigits(r[1..])
  {
    if i < 0 then
      var r := "-" + NatToString(-i);
      assert !IsDigit(r[0]);
      r
    else NatToString(i)
  }

  /** The text starts with a minus sign exactly for negative integers. */
  lemma IntToStringSign(i: int)
    ensures i < 0 <==> IntToString(i)[0] == '-'
  {
    if i >= 0 {
      assert IsDigit(IntToString(i)[0]);
    }
  }

  /** Distinct integers have distinct texts: the text determines the number. */
  lemma IntToStringInjective(i: int, j: int)
    requires IntToString(i) == IntToString(j)
    ensures i == j
  {
    IntToStringSign(i);
    IntToStringSign(j);
    assert (i < 0) == (j < 0);
    if i < 0 {
      assert IntToString(i)[1..] == NatToString(-i);
      assert IntToString(j)[1..] == NatToString(-j);
      NatToStringInjective(-i, -j);
    } else {
      NatToStringInjective(i, j);
    }
  }

  /** The leading digits of `s`. */
  function TakeDigits(s: string): (r: string)
    ensures |r| <= |s| && r == s[..|r|] && AllDigits(r)
    ensures |r| < |s| ==> !IsDigit(s[|r|])
  {
    if s != [] && IsDigit(s[0]) then [s[0]] + TakeDigits(s[1..]) else []
  }

  /** `s.match(/\d+/)`: the leftmost, longest run of digits in `s`, if any. */
  function FirstDigitRun(s: string): (r: Option<string>)
    ensures r.None? <==> AllNonDigits(s)
    ensures r.Some? ==> |r.value| >= 1 && AllDigits(r.value)
  {
    if s == [] then None
    else if IsDigit(s[0]) then Some(TakeDigits(s))
    else FirstDigitRun(s[1..])
  }

  predicate AllNonDigits(s: string) {
    forall i :: 0 <= i < |s| ==> !IsDigit(s[i])
  }

  lemma {:induction false} TakeAllDigits(s: string)
    requires AllDigits(s)
    ensures TakeDigits(s) == s
  {
    if s != [] {
      TakeAllDigits(s[1..]);
    }
  }

  /** The first run of digits of a number's own text is all of it, so
      `parseInt` of it gives the number back. */
  lemma FirstDigitRunOfNumber(n: nat)
    ensures FirstDigitRun(NatToString(n)) == Some(NatToString(n))
    ensures ParseDigits(FirstDigitRun(NatToString(n)).value) == n
  {
    TakeAllDigits(NatToString(n));
    ParseNatToString(n);
  }

  /** `match ? parseInt(match[0]) : 0` for the first run of digits. */
  function FirstNumberOrZero(s: string): (r: nat)
    ensures AllNonDigits(s) ==> r == 0
  {
    match FirstDigitRun(s)
    case None => 0
    case Some(d) => ParseDigits(d)
  }
}
