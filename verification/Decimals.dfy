/** Decimal text of natural numbers, as PostgreSQL and Python both print and read it. */
module Decimals {

  predicate IsDigit(c: char) { '0' <= c <= '9' }

  predicate AllDigits(s: string) { forall i :: 0 <= i < |s| ==> IsDigit(s[i]) }

  function Digit(n: nat): (c: char)
    requires n < 10
    ensures IsDigit(c) && c as int - '0' as int == n
  {
    '0' + n as char
  }

  function Text(n: nat): (s: string)
    ensures s != "" && AllDigits(s)
  {
    if n < 10 then [Digit(n)] else Text(n / 10) + [Digit(n % 10)]
  }

  function Value(s: string): nat
    requires AllDigits(s)
  {
    if s == "" then 0
    else Value(s[..|s| - 1]) * 10 + (s[|s| - 1] as int - '0' as int)
  }

  /** No leading zero, except in "0" itself. */
  predicate Canonical(s: string) {
    s != "" && AllDigits(s) && (s[0] == '0' ==> |s| == 1)
  }

  function Pow10(k: nat): (p: nat)
    ensures p >= 1
  {
    if k == 0 then 1 else 10 * Pow10(k - 1)
  }

  lemma {:induction false} ValueOfText(n: nat)
    ensures Canonical(Text(n)) && Value(Text(n)) == n
    ensures Text(n)[0] == '0' <==> n == 0
  {
    if n < 10 {
      assert Value([Digit(n)]) == Value([Digit(n)][..0]) * 10 + n;
    } else {
      ValueOfText(n / 10);
      assert Text(n)[..|Text(n)| - 1] == Text(n / 10);
    }
  }

  lemma {:induction false} TextOfValue(s: string)
    requires Canonical(s)
    ensures Text(Value(s)) == s
  {
    var last := s[|s| - 1] as int - '0' as int;
    assert s[|s| - 1] == Digit(last);
    if |s| == 1 {
      assert Value(s) == Value("") * 10 + last;
      assert s == [s[0]];
    } else {
      var front := s[..|s| - 1];
      TextOfValue(front);
      ValueOfText(Value(front));
      assert Value(s) / 10 == Value(front) && Value(s) % 10 == last;
      assert Value(front) != 0;
      assert s == front + [s[|s| - 1]];
    }
  }

  lemma TextInjective(m: nat, n: nat)
    requires Text(m) == Text(n)
    ensures m == n
  {
    ValueOfText(m);
    ValueOfText(n);
  }

  /** The number of digits is the number of powers of ten reached. */
  lemma {:induction false} TextLength(n: nat, k: nat)
    requires k > 0
    ensures |Text(n)| <= k <==> n < Pow10(k)
  {
    if n < 10 {
      assert Pow10(k) == 10 * Pow10(k - 1);
    } else if k == 1 {
      assert Pow10(1) == 10 * Pow10(0);
    } else {
      TextLength(n / 10, k - 1);
      assert n / 10 < Pow10(k - 1) <==> n < 10 * Pow10(k - 1);
    }
  }

  // ---- fixed width, as in timestamps ----

  function Padded(n: nat, width: nat): (s: string)
    ensures |s| == width && AllDigits(s)
  {
    if width == 0 then "" else Padded(n / 10, width - 1) + [Digit(n % 10)]
  }

  lemma {:induction false} ValueOfPadded(n: nat, width: nat)
    requires n < Pow10(width)
    ensures Value(Padded(n, width)) == n
  {
    if width > 0 {
      ValueOfPadded(n / 10, width - 1);
      assert Padded(n, width)[..width - 1] == Padded(n / 10, width - 1);
    }
  }
}
