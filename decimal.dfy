/** Decimal rendering of whole numbers, as Java's `Long.toString` and `String.format("%s", n)` give it. */
module Decimal {

  predicate IsDigit(c: char) { '0' <= c <= '9' }

  function DigitChar(d: nat): (c: char)
    requires d < 10
    ensures IsDigit(c) && c as int - '0' as int == d
  {
    ['0', '1', '2', '3', '4', '5', '6', '7', '8', '9'][d]
  }

  /** The shortest decimal digit string of `n`. */
  function NatText(n: nat): (s: string)
    ensures |s| > 0
    ensures forall i :: 0 <= i < |s| ==> IsDigit(s[i])
    ensures |s| > 1 ==> s[0] != '0'
  {
    if n < 10 then [DigitChar(n)] else NatText(n / 10) + [DigitChar(n % 10)]
  }

  /** The value of a digit string, read from the left. */
  function DigitsValue(s: string): nat
    requires forall i :: 0 <= i < |s| ==> IsDigit(s[i])
  {
    if s == [] then 0
    else
      assert IsDigit(s[|s| - 1]);
      DigitsValue(s[..|s| - 1]) * 10 + (s[|s| - 1] as int - '0' as int)
  }

  /** Reading the rendered text back gives the number: the rendering loses nothing. */
  lemma {:induction false} NatTextRoundTrip(n: nat)
    ensures DigitsValue(NatText(n)) == n
  {
    if n >= 10 {
      NatTextRoundTrip(n / 10);
      var s := NatText(n);
      assert s[..|s| - 1] == NatText(n / 10);
    }
  }

  /** Different numbers are rendered as different texts. */
  lemma NatTextInjective(m: nat, n: nat)
    requires m != n
    ensures NatText(m) != NatText(n)
  {
    NatTextRoundTrip(m);
    NatTextRoundTrip(n);
  }

  /** `Long.toString` of any long: a minus sign before the digits of a negative number. */
  function IntText(n: int): string {
    if n >= 0 then NatText(n) else "-" + NatText(-n)
  }

  /** Different numbers, negative or not, are rendered as different texts. */
  lemma IntTextInjective(m: int, n: int)
    requires m != n
    ensures IntText(m) != IntText(n)
  {
    if m >= 0 && n >= 0 {
      NatTextInjective(m, n);
      assert IntText(m) == NatText(m) && IntText(n) == NatText(n);
    } else if m < 0 && n < 0 {
      NegativeTextInjective(m, n);
    } else if m < 0 {
      SignsDiffer(n, m);
    } else {
      SignsDiffer(m, n);
    }
  }

  lemma NegativeTextInjective(m: int, n: int)
    requires m < 0 && n < 0 && m != n
    ensures IntText(m) != IntText(n)
  {
    NatTextInjective(-m, -n);
    PrefixCancels("-", NatText(-m), NatText(-n));
  }

  /** Texts that differ still differ behind a common prefix. */
  lemma PrefixCancels(p: string, a: string, b: string)
    requires a != b
    ensures p + a != p + b
  {
    assert (p + a)[|p|..] == a;
    assert (p + b)[|p|..] == b;
  }

  /** A number that is not negative and one that is never share a text: only the latter starts with a minus sign. */
  lemma SignsDiffer(m: int, n: int)
    requires m >= 0 && n < 0
    ensures IntText(m) != IntText(n)
  {
    NegativeText(n);
    assert IntText(m) == NatText(m) && IsDigit(NatText(m)[0]);
    assert IntText(m)[0] != IntText(n)[0];
  }

  /** A negative number's text is a minus sign followed by the digits of its absolute value. */
  lemma NegativeText(n: int)
    requires n < 0
    ensures IntText(n)[0] == '-' && IntText(n)[1..] == NatText(-n)
  {
    assert IntText(n) == "-" + NatText(-n);
  }

  /** A rendered number holds digits and at most a leading minus sign. */
  lemma IntTextCharacters(n: int)
    ensures |IntText(n)| > 0
    ensures forall i :: 0 <= i < |IntText(n)| ==> IsDigit(IntText(n)[i]) || (i == 0 && n < 0 && IntText(n)[i] == '-')
  {
  }
}
