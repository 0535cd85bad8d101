/** The card-number check of the review-comment policy, on strings of ASCII digits of any length. */
module Luhn {

  predicate Digits(s: string) { forall i :: 0 <= i < |s| ==> '0' <= s[i] <= '9' }

  function Value(c: char): int { c as int - 48 }

  /** Contribution of a digit: every second one from the right is doubled and reduced by casting out nine. */
  function Weight(v: int, doubled: bool): int {
    if !doubled then v else if 2 * v > 9 then 2 * v - 9 else 2 * v
  }

  /** The sum as Annex B of ISO/IEC 7812-1 defines it, from the right end; doubled tells about the last digit. */
  function Sum(s: string, doubled: bool): int {
    if s == "" then 0 else Weight(Value(s[|s| - 1]), doubled) + Sum(s[..|s| - 1], !doubled)
  }

  ghost predicate Valid(s: string) { Sum(s, false) % 10 == 0 }

  /** _luhn_valid */
  method LuhnValid(digits: string) returns (ok: bool)
    ensures ok <==> Valid(digits)
  {
    var total := 0;
    var index := 0;
    assert digits[..|digits|] == digits;
    while index < |digits|
      invariant 0 <= index <= |digits|
      invariant total + Sum(digits[..|digits| - index], index % 2 == 1) == Sum(digits, false)
    {
      var rest := digits[..|digits| - index];
      assert rest[|rest| - 1] == digits[|digits| - 1 - index];
      assert rest[..|rest| - 1] == digits[..|digits| - (index + 1)];
      var value := digits[|digits| - 1 - index] as int - 48;
      if index % 2 == 1 {
        value := value * 2;
        if value > 9 { value := value - 9; }
      }
      total := total + value;
      index := index + 1;
    }
    assert digits[..0] == "";
    ok := total % 10 == 0;
  }

  /** Doubling is decided by the distance from the right end. */
  predicate Flip(b: bool, k: nat) { if k % 2 == 0 then b else !b }

  /** The sum splits at any point; the left part sees the parity of the right part's length. */
  lemma {:induction false} SumSplits(a: string, b: string, doubled: bool)
    ensures Sum(a + b, doubled) == Sum(b, doubled) + Sum(a, Flip(doubled, |b|))
  {
    if b == "" {
      assert a + b == a;
    } else {
      var s := a + b;
      assert s[..|s| - 1] == a + b[..|b| - 1] && s[|s| - 1] == b[|b| - 1];
      SumSplits(a, b[..|b| - 1], !doubled);
    }
  }

  lemma SumOne(c: char, doubled: bool)
    ensures Sum([c], doubled) == Weight(Value(c), doubled)
  {
    assert [c][..0] == "";
  }

  /** Replacing one digit changes the sum by the difference of the two contributions. */
  lemma SumReplaced(a: string, x: char, y: char, b: string)
    ensures Sum(a + [y] + b, false) - Sum(a + [x] + b, false)
      == Weight(Value(y), Flip(false, |b|)) - Weight(Value(x), Flip(false, |b|))
  {
    forall c | c == x || c == y
      ensures Sum(a + [c] + b, false) == Sum(b, false) + Weight(Value(c), Flip(false, |b|)) + Sum(a, !Flip(false, |b|))
    {
      SumSplits(a + [c], b, false);
      SumSplits(a, [c], Flip(false, |b|));
      SumOne(c, Flip(false, |b|));
    }
  }

  /** Different digits contribute differently, and by less than ten. */
  lemma WeightsDiffer(v: int, w: int, doubled: bool)
    requires 0 <= v <= 9 && 0 <= w <= 9 && v != w
    ensures Weight(v, doubled) != Weight(w, doubled)
    ensures -10 < Weight(v, doubled) - Weight(w, doubled) < 10
  {
  }

  /** Every single-digit change of a valid string is rejected. */
  lemma SingleChangeRejected(s: string, i: nat, c: char)
    requires Digits(s) && Valid(s) && i < |s| && '0' <= c <= '9' && c != s[i]
    ensures !Valid(s[i := c])
  {
    var a, b := s[..i], s[i + 1..];
    assert s == a + [s[i]] + b && s[i := c] == a + [c] + b;
    SumReplaced(a, s[i], c, b);
    WeightsDiffer(Value(c), Value(s[i]), Flip(false, |b|));
  }

  lemma SumPair(a: string, x: char, y: char, b: string)
    ensures Sum(a + [x, y] + b, false)
      == Sum(b, false) + Weight(Value(y), Flip(false, |b|)) + Weight(Value(x), !Flip(false, |b|))
         + Sum(a, Flip(false, |b|))
  {
    hide Sum, Weight, Value;
    var d := Flip(false, |b|);
    SumSplits(a + [x, y], b, false);
    SumSplits(a, [x, y], d);
    assert [x] + [y] == [x, y];
    SumSplits([x], [y], d);
    SumOne(x, !d);
    SumOne(y, d);
    assert Flip(d, 2) == d && Flip(d, 1) == !d;
  }

  /** How the contributions of v before w differ from those of w before v. */
  function Difference(v: int, w: int): int {
    Weight(v, true) + Weight(w, false) - Weight(w, true) - Weight(v, false)
  }

  lemma SwapSums(a: string, x: char, y: char, b: string)
    ensures var e := Sum(a + [y, x] + b, false) - Sum(a + [x, y] + b, false);
      e == Difference(Value(x), Value(y)) || e == -Difference(Value(x), Value(y))
  {
    SumPair(a, x, y, b);
    SumPair(a, y, x, b);
    hide Sum, Weight, Value;
  }

  lemma SwapParts(s: string, i: nat)
    requires i + 1 < |s|
    ensures s == s[..i] + [s[i], s[i + 1]] + s[i + 2..]
    ensures s[i := s[i + 1]][i + 1 := s[i]] == s[..i] + [s[i + 1], s[i]] + s[i + 2..]
  {
  }

  lemma MultiplesOfTen(before: int, after: int, e: int)
    requires before % 10 == 0 && (after - before == e || after - before == -e)
    ensures after % 10 == 0 <==> e % 10 == 0
  {
  }

  /** A swap of neighbours in a valid string goes unnoticed exactly if they are equal, or 0 and 9. */
  lemma SwapNoticedExactly(s: string, i: nat)
    requires Digits(s) && Valid(s) && i + 1 < |s|
    ensures Valid(s[i := s[i + 1]][i + 1 := s[i]]) <==>
      s[i] == s[i + 1] || (s[i] == '0' && s[i + 1] == '9') || (s[i] == '9' && s[i + 1] == '0')
  {
    hide Sum, Difference;
    var swapped := s[i := s[i + 1]][i + 1 := s[i]];
    SwapParts(s, i);
    SwapSums(s[..i], s[i], s[i + 1], s[i + 2..]);
    MultiplesOfTen(Sum(s, false), Sum(swapped, false), Difference(Value(s[i]), Value(s[i + 1])));
    SwapDifference(Value(s[i]), Value(s[i + 1]));
  }

  /** A digit contributes itself less than doubled by v, or by v - 9 when doubling carries. */
  lemma SwapDifference(v: int, w: int)
    requires 0 <= v <= 9 && 0 <= w <= 9
    ensures Difference(v, w) % 10 == 0 <==> v == w || (v == 0 && w == 9) || (v == 9 && w == 0)
  {
  }

  /** The check digit is determined: exactly one of the ten digits completes a string. */
  lemma CheckDigitUnique(s: string, c: char, d: char)
    requires Digits(s) && '0' <= c <= '9' && '0' <= d <= '9' && Valid(s + [c]) && Valid(s + [d])
    ensures c == d
  {
    if c != d {
      assert (s + [c])[|s| := d] == s + [d];
      SingleChangeRejected(s + [c], |s|, d);
      assert false;
    }
  }

  lemma CheckDigitExists(s: string) returns (c: char)
    requires Digits(s)
    ensures '0' <= c <= '9' && Valid(s + [c])
  {
    var v := (-Sum(s, true)) % 10;
    c := (48 + v) as char;
    SumSplits(s, [c], false);
    SumOne(c, false);
  }

  // ---- the sum by positions from the left ----

  /** The digits of twice v, added up. */
  function DoubledDigits(v: int): int { 2 * v / 10 + 2 * v % 10 }

  /** The i-th digit of a number with n digits: doubled if an odd number of digits follows. */
  function Contribution(s: string, i: nat): int
    requires i < |s|
  {
    if (|s| - 1 - i) % 2 == 1 then DoubledDigits(Value(s[i])) else Value(s[i])
  }

  function Total(s: string, i: nat): int
    requires i <= |s|
    decreases |s| - i
  {
    if i == |s| then 0 else Contribution(s, i) + Total(s, i + 1)
  }

  lemma ContributionIsWeight(s: string, i: nat)
    requires Digits(s) && i < |s|
    ensures Contribution(s, i) == Weight(Value(s[i]), Flip(false, |s| - 1 - i))
  {
  }

  lemma {:induction false} TotalOfRest(s: string, i: nat)
    requires Digits(s) && i <= |s|
    ensures Total(s, i) == Sum(s[i..], false)
    decreases |s| - i
  {
    if i == |s| {
      assert s[i..] == "";
    } else {
      TotalOfRest(s, i + 1);
      ContributionIsWeight(s, i);
      assert s[i..] == [s[i]] + s[i + 1..];
      hide Contribution, Weight, Value, Flip, Sum;
      SumSplits([s[i]], s[i + 1..], false);
      SumOne(s[i], Flip(false, |s[i + 1..]|));
    }
  }

  /** The last digit counts as it is, the one before it doubled, and so on alternately. */
  lemma ValidByPositions(s: string)
    requires Digits(s)
    ensures Valid(s) <==> Total(s, 0) % 10 == 0
  {
    TotalOfRest(s, 0);
    assert s[0..] == s;
  }
}
