/** The two regular expressions the forms use: the e-mail pattern
    `^[^\s@]+@[^\s@]+\.[^\s@]+$` and the phone pattern `^\+?[1-9]\d{1,14}$`
    (at most 15 digits, the length limit of an international number in
    section 6 of ITU-T Recommendation E.164). */
module Patterns {
  import opened Common
  import opened Numbers

  /** A character of the class `[^\s@]`. */
  predicate EmailChar(c: char) {
    !IsJsSpace(c) && c != '@'
  }

  predicate AllEmailChars(s: string) {
    forall i :: 0 <= i < |s| ==> EmailChar(s[i])
  }

  /** The e-mail pattern read as the regular expression defines it: the text is
      `a@b.c` with `a`, `b` and `c` non-empty runs of `[^\s@]`, for some choice of
      the `@` at position `i` and the `.` at position `j`. */
  ghost predicate EmailPattern(s: string) {
    exists i, j :: 0 < i && i + 1 < j && j + 1 < |s| && s[i] == '@' && s[j] == '.'
      && AllEmailChars(s[..i]) && AllEmailChars(s[i + 1..j]) && AllEmailChars(s[j + 1..])
  }

  /** The e-mail check as a direct test: no white space, exactly one `@` with text
      before it, and a `.` after the `@` that is neither the first nor the last
      character of the domain. */
  predicate EmailValid(s: string) {
    var local := BeforeFirst(s, '@');
    |local| < |s| && local != [] && AllEmailChars(local)
    && var domain := s[|local| + 1..];
       AllEmailChars(domain) && |domain| >= 3 && '.' in domain[1..|domain| - 1]
  }

  lemma EmailValidMatches(s: string)
    requires EmailValid(s)
    ensures EmailPattern(s)
  {
    var i, j := EmailValidSplit(s);
    EmailPatternAt(s, i, j);
  }

  /** The positions of the `@` and of a `.` after it in a valid address, with
      the three runs around them. */
  lemma EmailValidSplit(s: string) returns (i: nat, j: nat)
    requires EmailValid(s)
    ensures 0 < i && i + 1 < j && j + 1 < |s| && s[i] == '@' && s[j] == '.'
    ensures AllEmailChars(s[..i]) && AllEmailChars(s[i + 1..j]) && AllEmailChars(s[j + 1..])
  {
    var local := BeforeFirst(s, '@');
    i := |local|;
    var domain := s[i + 1..];
    var k :| 0 <= k < |domain[1..|domain| - 1]| && domain[1..|domain| - 1][k] == '.';
    j := i + 2 + k;
    assert s[j] == '.';
    assert s[..i] == local;
    assert s[i + 1..j] == domain[..k + 1];
    assert s[j + 1..] == domain[k + 2..];
    EmailCharsSlice(domain, 0, k + 1);
    EmailCharsSlice(domain, k + 2, |domain|);
  }

  lemma EmailPatternAt(s: string, i: nat, j: nat)
    requires 0 < i && i + 1 < j && j + 1 < |s| && s[i] == '@' && s[j] == '.'
    requires AllEmailChars(s[..i]) && AllEmailChars(s[i + 1..j]) && AllEmailChars(s[j + 1..])
    ensures EmailPattern(s)
  {
  }

  lemma EmailCharsSlice(t: string, lo: nat, hi: nat)
    requires AllEmailChars(t) && lo <= hi <= |t|
    ensures AllEmailChars(t[lo..hi])
  {
    forall m | 0 <= m < hi - lo ensures EmailChar(t[lo..hi][m]) {
      assert t[lo..hi][m] == t[lo + m];
    }
  }

  lemma EmailCharsConcat(a: string, b: string)
    requires AllEmailChars(a) && AllEmailChars(b)
    ensures AllEmailChars(a + b)
  {
    forall m | 0 <= m < |a + b| ensures EmailChar((a + b)[m]) {
      if m >= |a| {
        assert (a + b)[m] == b[m - |a|];
      }
    }
  }

  lemma EmailMatchesValid(s: string)
    requires EmailPattern(s)
    ensures EmailValid(s)
  {
    var i, j :| 0 < i && i + 1 < j && j + 1 < |s| && s[i] == '@' && s[j] == '.'
      && AllEmailChars(s[..i]) && AllEmailChars(s[i + 1..j]) && AllEmailChars(s[j + 1..]);
    EmailMatchesValidAt(s, i, j);
  }

  lemma EmailMatchesValidAt(s: string, i: nat, j: nat)
    requires 0 < i && i + 1 < j && j + 1 < |s| && s[i] == '@' && s[j] == '.'
    requires AllEmailChars(s[..i]) && AllEmailChars(s[i + 1..j]) && AllEmailChars(s[j + 1..])
    ensures EmailValid(s)
  {
    assert '@' !in s[..i] by {
      forall m | 0 <= m < i ensures s[..i][m] != '@' {
        assert EmailChar(s[..i][m]);
      }
    }
    BeforeFirstAt(s, '@', i);
    var domain := s[i + 1..];
    SliceAround(s, i + 1, j);
    EmailCharsConcat(s[i + 1..j], ['.']);
    EmailCharsConcat(s[i + 1..j] + ['.'], s[j + 1..]);
    assert domain[1..|domain| - 1][j - i - 2] == '.';
  }

  lemma SliceAround(s: string, lo: nat, j: nat)
    requires lo <= j < |s|
    ensures s[lo..] == s[lo..j] + [s[j]] + s[j + 1..]
  {
  }

  /** The direct test accepts exactly the texts the regular expression matches. */
  lemma EmailValidIff(s: string)
    ensures EmailValid(s) <==> EmailPattern(s)
  {
    if EmailValid(s) {
      EmailValidMatches(s);
    }
    if EmailPattern(s) {
      EmailMatchesValid(s);
    }
  }

  /** The phone pattern: an optional `+`, a digit 1-9, then 1 to 14 more digits. */
  function PhoneValid(s: string): (ok: bool)
    ensures ok ==> 2 <= |s| <= 16
    ensures ok ==> forall i :: 0 <= i < |s| ==> IsDigit(s[i]) || (i == 0 && s[i] == '+')
    ensures ok ==> exists i :: 0 <= i < |s| && '1' <= s[i] <= '9'
  {
    var digits := if s != [] && s[0] == '+' then s[1..] else s;
    2 <= |digits| <= 15 && AllDigits(digits) && digits[0] != '0'
  }

  /** Every number of 2 to 15 digits that does not start with 0 is accepted,
      with or without a leading `+`. */
  lemma PhoneAcceptsDigits(d: string)
    requires 2 <= |d| <= 15 && AllDigits(d) && d[0] != '0'
    ensures PhoneValid(d) && PhoneValid("+" + d)
  {
    assert ("+" + d)[1..] == d;
  }

  /** Sixteen digits are too many. */
  lemma PhoneRejectsLong(d: string)
    requires |d| > 15 && AllDigits(d)
    ensures !PhoneValid(d) && !PhoneValid("+" + d)
  {
    assert ("+" + d)[1..] == d;
  }

  /** `^\+?[1-9]\d{1,14}$` read as a set of texts: a number of 2 to 15 digits
      not starting with 0, alone or after one `+`. */
  ghost predicate PhonePattern(s: string) {
    exists d: string :: (s == d || s == "+" + d) && 2 <= |d| <= 15 && AllDigits(d) && d[0] != '0'
  }

  /** The direct test accepts exactly the texts the regular expression matches. */
  lemma PhoneValidIff(s: string)
    ensures PhoneValid(s) <==> PhonePattern(s)
  {
    var digits := if s != [] && s[0] == '+' then s[1..] else s;
    if PhoneValid(s) {
      if s != [] && s[0] == '+' {
        assert s == "+" + digits;
      }
      assert (s == digits || s == "+" + digits) && 2 <= |digits| <= 15 && AllDigits(digits) && digits[0] != '0';
    }
    if PhonePattern(s) {
      var d: string :| (s == d || s == "+" + d) && 2 <= |d| <= 15 && AllDigits(d) && d[0] != '0';
      if s == d {
        assert IsDigit(d[0]);
        assert digits == d;
      } else {
        assert digits == d;
      }
    }
  }
}
