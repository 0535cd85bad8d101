/** UUID values, their canonical text, and the text that PostgreSQL's uuid input accepts. */
module Uuids {
  import opened Basics

  type Nibble = n: nat | n < 16

  type Uuid = u: seq<Nibble> | |u| == 32 witness seq(32, i => 0)

  function HexChar(n: Nibble): char {
    if n < 10 then '0' + n as char else 'a' + (n - 10) as char
  }

  function HexValue(c: char): (n: Option<Nibble>) {
    if '0' <= c <= '9' then Some(c as int - '0' as int)
    else if 'a' <= c <= 'f' then Some(c as int - 'a' as int + 10)
    else if 'A' <= c <= 'F' then Some(c as int - 'A' as int + 10)
    else None
  }

  lemma HexOfChar(n: Nibble)
    ensures HexValue(HexChar(n)) == Some(n) && HexChar(n) != '-' && HexChar(n) != '{' && HexChar(n) != '|'
  {
  }

  predicate HyphenAfter(i: nat) { i == 3 || i == 5 || i == 7 || i == 9 }

  function ByteText(a: Nibble, b: Nibble, i: nat): string {
    [HexChar(a), HexChar(b)] + if HyphenAfter(i) then "-" else ""
  }

  /** The text of bytes i to 15: lower-case digits, a hyphen after bytes 3, 5, 7 and 9. */
  function TextFrom(u: Uuid, i: nat): string
    requires i <= 16
    decreases 16 - i
  {
    if i == 16 then ""
    else ByteText(u[2 * i], u[2 * i + 1], i) + TextFrom(u, i + 1)
  }

  /** The canonical text, printed by PostgreSQL and by Python alike. */
  function Text(u: Uuid): string { TextFrom(u, 0) }

  /**
   The loop of uuid_in from byte i on: two digits of either case, then an optional hyphen
   after every second byte but the last. Also returns what is left of the text.
   */
  function ReadFrom(s: string, i: nat): (r: Option<(seq<Nibble>, string)>)
    requires i <= 16
    ensures r.Some? ==> |r.value.0| == 32 - 2 * i
    decreases 16 - i
  {
    if i == 16 then Some(([], s))
    else if |s| < 2 || HexValue(s[0]).None? || HexValue(s[1]).None? then None
    else
      var hyphen := |s| > 2 && s[2] == '-' && i % 2 == 1 && i < 15;
      match ReadFrom(if hyphen then s[3..] else s[2..], i + 1)
      case None => None
      case Some((rest, left)) => Some(([HexValue(s[0]).value, HexValue(s[1]).value] + rest, left))
  }

  /** text::uuid; None is invalid_text_representation. */
  function Read(s: string): (r: Option<Uuid>) {
    var braces := s != "" && s[0] == '{';
    match ReadFrom(if braces then s[1..] else s, 0)
    case None => None
    case Some((u, left)) => if left == (if braces then "}" else "") then Some(u) else None
  }

  /** One turn of the loop over two digits and, after them, a hyphen or a digit. */
  lemma ReadStep(s: string, i: nat, a: Nibble, b: Nibble, next: string)
    requires i < 16
    requires s == ByteText(a, b, i) + next
    requires i < 15 ==> next != "" && next[0] != '-'
    ensures ReadFrom(s, i) ==
      match ReadFrom(next, i + 1)
      case None => None
      case Some((rest, left)) => Some(([a, b] + rest, left))
  {
    HexOfChar(a);
    HexOfChar(b);
    assert s[0] == HexChar(a) && s[1] == HexChar(b);
    if HyphenAfter(i) {
      assert s[2] == '-' && s[3..] == next;
    } else {
      assert s[2..] == next;
    }
  }

  lemma {:induction false} ReadOfTextFrom(u: Uuid, i: nat, left: string)
    requires i <= 16
    ensures ReadFrom(TextFrom(u, i) + left, i) == Some((u[2 * i..], left))
    decreases 16 - i
  {
    if i == 16 {
      assert TextFrom(u, i) + left == left && u[32..] == [];
    } else {
      hide *;
      ReadOfTextFrom(u, i + 1, left);
      NoHyphenAfterByte(u, i);
      ReadOneByte(u, i, TextFrom(u, i + 1), left);
    }
  }

  lemma NoHyphenAfterByte(u: Uuid, i: nat)
    requires i < 16
    ensures TextFrom(u, i) == ByteText(u[2 * i], u[2 * i + 1], i) + TextFrom(u, i + 1)
    ensures i < 15 ==> TextFrom(u, i + 1) != "" && TextFrom(u, i + 1)[0] != '-'
  {
    if i < 15 { NoHyphenFirst(u, i + 1); }
  }

  lemma ReadOneByte(u: Uuid, i: nat, tail: string, left: string)
    requires i < 16
    requires TextFrom(u, i) == ByteText(u[2 * i], u[2 * i + 1], i) + tail
    requires ReadFrom(tail + left, i + 1) == Some((u[2 * (i + 1)..], left))
    requires i < 15 ==> tail != "" && tail[0] != '-'
    ensures ReadFrom(TextFrom(u, i) + left, i) == Some((u[2 * i..], left))
  {
    hide *;
    var a, b := u[2 * i], u[2 * i + 1];
    assert (ByteText(a, b, i) + tail) + left == ByteText(a, b, i) + (tail + left);
    ReadStep(TextFrom(u, i) + left, i, a, b, tail + left);
    FirstTwo(u, 2 * i);
  }

  lemma FirstTwo(u: seq<Nibble>, k: nat)
    requires k + 2 <= |u|
    ensures u[k..] == [u[k], u[k + 1]] + u[k + 2..]
  {
  }

  lemma NoHyphenFirst(u: Uuid, i: nat)
    requires i < 16
    ensures TextFrom(u, i) != "" && TextFrom(u, i)[0] == HexChar(u[2 * i]) != '-'
  {
    HexOfChar(u[2 * i]);
  }

  /** Printing and reading back is the identity, so the canonical text is injective. */
  lemma ReadOfText(u: Uuid)
    ensures Read(Text(u)) == Some(u)
  {
    hide TextFrom, ReadFrom, HexChar;
    ReadOfTextFrom(u, 0, "");
    NoHyphenFirst(u, 0);
    HexOfChar(u[0]);
    assert Text(u) + "" == Text(u) && u[0..] == u;
  }

  lemma ReadBraced(t: string, u: Uuid)
    requires ReadFrom(t + "}", 0) == Some((u, "}"))
    ensures Read("{" + t + "}") == Some(u)
  {
    hide ReadFrom;
    assert ("{" + t + "}")[1..] == t + "}";
  }

  /** Braces around the canonical text change nothing. */
  lemma ReadOfBraced(u: Uuid)
    ensures Read("{" + Text(u) + "}") == Some(u)
  {
    hide ReadFrom, TextFrom, Read;
    ReadOfTextFrom(u, 0, "}");
    assert u[0..] == u;
    ReadBraced(Text(u), u);
  }

  /** The canonical text holds lower-case digits and hyphens only. */
  lemma {:induction false} TextCharacters(u: Uuid, i: nat)
    requires i <= 16
    ensures forall c :: c in TextFrom(u, i) ==> c == '-' || '0' <= c <= '9' || 'a' <= c <= 'f'
    decreases 16 - i
  {
    if i < 16 { TextCharacters(u, i + 1); }
  }

  // ---- Python's UUID(text) on hexadecimal digits and hyphens ----

  /** The digits of a text in which hyphens are ignored wherever they stand. */
  function Digits(s: string): Option<seq<Nibble>> {
    if s == "" then Some([])
    else if s[0] == '-' then Digits(s[1..])
    else if HexValue(s[0]).None? then None
    else
      match Digits(s[1..])
      case None => None
      case Some(rest) => Some([HexValue(s[0]).value] + rest)
  }

  function ReadLoosely(s: string): Option<Uuid> {
    match Digits(s)
    case None => None
    case Some(d) => if |d| == 32 then Some(d) else None
  }

  lemma DigitsStep(a: Nibble, b: Nibble, i: nat, tail: string, rest: seq<Nibble>)
    requires Digits(tail) == Some(rest)
    ensures Digits(ByteText(a, b, i) + tail) == Some([a, b] + rest)
  {
    HexOfChar(a);
    HexOfChar(b);
    var after := (if HyphenAfter(i) then "-" else "") + tail;
    var second := [HexChar(b)] + after;
    assert ByteText(a, b, i) + tail == [HexChar(a)] + second;
    hide HexChar, HexValue, ByteText;
    assert Digits(after) == Some(rest) by {
      if HyphenAfter(i) { assert after[1..] == tail; } else { assert after == tail; }
    }
    assert Digits(second) == Some([b] + rest) by { assert second[1..] == after; }
    assert ([HexChar(a)] + second)[1..] == second;
    assert [a] + ([b] + rest) == [a, b] + rest;
  }

  lemma {:induction false} DigitsOfText(u: Uuid, i: nat)
    requires i <= 16
    ensures Digits(TextFrom(u, i)) == Some(u[2 * i..])
    decreases 16 - i
  {
    if i == 16 {
      assert u[32..] == [];
    } else {
      DigitsOfText(u, i + 1);
      NoHyphenAfterByte(u, i);
      hide *;
      DigitsStep(u[2 * i], u[2 * i + 1], i, TextFrom(u, i + 1), u[2 * (i + 1)..]);
      FirstTwo(u, 2 * i);
    }
  }

  lemma ReadLooselyOfText(u: Uuid)
    ensures ReadLoosely(Text(u)) == Some(u)
  {
    DigitsOfText(u, 0);
    assert u[0..] == u;
  }
}
