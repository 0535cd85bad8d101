/** Exactly the texts that PostgreSQL reads as a given UUID. */
module UuidTexts {
  import opened Basics
  import opened Uuids

  /** How one byte is written: each digit in upper or lower case, and whether a hyphen follows where one may. */
  datatype Style = Style(firstUpper: bool, secondUpper: bool, hyphen: bool)

  function Cased(n: Nibble, upper: bool): char {
    if n < 10 then '0' + n as char else (if upper then 'A' else 'a') + (n - 10) as char
  }

  /** The text of bytes i to 15. A hyphen may follow the bytes 1, 3, 5, ..., 13, that is every group of four digits. */
  function Written(d: seq<Nibble>, styles: seq<Style>, i: nat): string
    requires i <= 16 && |d| == 32 - 2 * i && |styles| == 16 - i
    decreases 16 - i
  {
    if i == 16 then ""
    else
      [Cased(d[0], styles[0].firstUpper), Cased(d[1], styles[0].secondUpper)]
      + (if styles[0].hyphen && i % 2 == 1 && i < 15 then "-" else "")
      + Written(d[2..], styles[1..], i + 1)
  }

  function Braced(s: string, braces: bool): string { if braces then "{" + s + "}" else s }

  /** The whole text, with or without braces. */
  function Form(u: Uuid, styles: seq<Style>, braces: bool): string
    requires |styles| == 16
  {
    Braced(Written(u, styles, 0), braces)
  }

  lemma CasedDigit(n: Nibble, upper: bool)
    ensures HexValue(Cased(n, upper)) == Some(n) && Cased(n, upper) != '-' && Cased(n, upper) != '{'
  {
  }

  lemma DigitCased(c: char) returns (upper: bool)
    requires HexValue(c).Some?
    ensures Cased(HexValue(c).value, upper) == c
  {
    upper := 'A' <= c <= 'F';
  }

  lemma WrittenStarts(d: seq<Nibble>, styles: seq<Style>, i: nat)
    requires i < 16 && |d| == 32 - 2 * i && |styles| == 16 - i
    ensures var s := Written(d, styles, i); |s| >= 2 && s[0] != '-' && s[0] != '{'
  {
    CasedDigit(d[0], styles[0].firstUpper);
  }

  /** What is written is read. */
  lemma {:induction false} WrittenIsRead(d: seq<Nibble>, styles: seq<Style>, i: nat, left: string)
    requires i <= 16 && |d| == 32 - 2 * i && |styles| == 16 - i
    ensures ReadFrom(Written(d, styles, i) + left, i) == Some((d, left))
    decreases 16 - i
  {
    if i == 16 {
      assert Written(d, styles, i) + left == left && d == [];
    } else {
      var rest := Written(d[2..], styles[1..], i + 1);
      WrittenIsRead(d[2..], styles[1..], i + 1, left);
      if i < 15 { WrittenStarts(d[2..], styles[1..], i + 1); }
      CasedDigit(d[0], styles[0].firstUpper);
      CasedDigit(d[1], styles[0].secondUpper);
      OneByte(d, styles, i, rest, left);
    }
  }

  lemma OneByte(d: seq<Nibble>, styles: seq<Style>, i: nat, rest: string, left: string)
    requires i < 16 && |d| == 32 - 2 * i && |styles| == 16 - i
    requires rest == Written(d[2..], styles[1..], i + 1) && (i < 15 ==> rest != "" && rest[0] != '-')
    requires HexValue(Cased(d[0], styles[0].firstUpper)) == Some(d[0])
    requires HexValue(Cased(d[1], styles[0].secondUpper)) == Some(d[1])
    requires ReadFrom(rest + left, i + 1) == Some((d[2..], left))
    ensures ReadFrom(Written(d, styles, i) + left, i) == Some((d, left))
  {
    var s := Written(d, styles, i) + left;
    var hyphen := styles[0].hyphen && i % 2 == 1 && i < 15;
    assert s[0] == Cased(d[0], styles[0].firstUpper) && s[1] == Cased(d[1], styles[0].secondUpper);
    assert hyphen ==> s[2] == '-' && s[3..] == rest + left;
    assert !hyphen ==> s[2..] == rest + left && (i < 15 ==> s[2] == rest[0]);
    hide Written, Cased, HexValue;
    assert d == [d[0], d[1]] + d[2..];
  }

  /** Where the loop goes on after byte i. */
  function Next(s: string, i: nat): string
    requires |s| >= 2
  {
    if |s| > 2 && s[2] == '-' && i % 2 == 1 && i < 15 then s[3..] else s[2..]
  }

  lemma ReadByte(s: string, i: nat)
    requires i < 16 && ReadFrom(s, i).Some?
    ensures |s| >= 2 && HexValue(s[0]).Some? && HexValue(s[1]).Some? && ReadFrom(Next(s, i), i + 1).Some?
    ensures var (rest, left) := ReadFrom(Next(s, i), i + 1).value;
      ReadFrom(s, i).value == ([HexValue(s[0]).value, HexValue(s[1]).value] + rest, left)
  {
    hide HexValue;
  }

  lemma Steps(s: string, i: nat)
    requires i < 16 && |s| >= 2
    ensures s == [s[0], s[1]] + ((if Next(s, i) != s[2..] then "-" else "") + Next(s, i))
    ensures Next(s, i) != s[2..] ==> i % 2 == 1 && i < 15
  {
    assert s == [s[0], s[1]] + s[2..];
    if Next(s, i) != s[2..] { assert s[2..] == ['-'] + s[3..]; }
  }

  lemma WrittenByte(d: seq<Nibble>, styles: seq<Style>, i: nat)
    requires i < 16 && |d| == 32 - 2 * i && |styles| == 16 - i && (styles[0].hyphen ==> i % 2 == 1 && i < 15)
    ensures Written(d, styles, i)
      == [Cased(d[0], styles[0].firstUpper), Cased(d[1], styles[0].secondUpper)]
         + ((if styles[0].hyphen then "-" else "") + Written(d[2..], styles[1..], i + 1))
  {
    hide Cased;
  }

  lemma Reassociate(a: string, b: string, c: string, left: string)
    ensures a + (b + (c + left)) == a + (b + c) + left
  {
  }

  lemma WriteByte(s: string, i: nat, d: seq<Nibble>, styles: seq<Style>, rest: seq<Style>, left: string)
    requires i < 16 && |s| >= 2 && |d| == 32 - 2 * i && |rest| == 15 - i
    requires |styles| == 16 - i && styles[1..] == rest && styles[0].hyphen == (Next(s, i) != s[2..])
    requires s[0] == Cased(d[0], styles[0].firstUpper) && s[1] == Cased(d[1], styles[0].secondUpper)
    requires Next(s, i) == Written(d[2..], rest, i + 1) + left
    ensures s == Written(d, styles, i) + left
  {
    hide *;
    Steps(s, i);
    WrittenByte(d, styles, i);
    Reassociate([s[0], s[1]], if styles[0].hyphen then "-" else "", Written(d[2..], rest, i + 1), left);
  }

  /** What is read was written in some style. */
  lemma {:induction false} ReadIsWritten(s: string, i: nat) returns (styles: seq<Style>)
    requires i <= 16 && ReadFrom(s, i).Some?
    ensures |styles| == 16 - i && s == Written(ReadFrom(s, i).value.0, styles, i) + ReadFrom(s, i).value.1
    decreases 16 - i
  {
    if i == 16 {
      styles := [];
    } else {
      hide *;
      ReadByte(s, i);
      var rest := ReadIsWritten(Next(s, i), i + 1);
      var first := DigitCased(s[0]);
      var second := DigitCased(s[1]);
      styles := [Style(first, second, Next(s, i) != s[2..])] + rest;
      var d := ReadFrom(s, i).value.0;
      assert d[2..] == ReadFrom(Next(s, i), i + 1).value.0;
      WriteByte(s, i, d, styles, rest, ReadFrom(s, i).value.1);
    }
  }

  ghost predicate IsForm(s: string, u: Uuid) {
    exists styles: seq<Style>, braces: bool :: |styles| == 16 && s == Form(u, styles, braces)
  }

  lemma ReadMeans(s: string, u: Uuid) returns (inner: string, braces: bool)
    requires Read(s) == Some(u)
    ensures s == (if braces then "{" + inner else inner)
    ensures ReadFrom(inner, 0) == Some((u, if braces then "}" else ""))
  {
    hide ReadFrom;
    braces := s != "" && s[0] == '{';
    inner := if braces then s[1..] else s;
    if braces { assert s == "{" + s[1..]; }
  }

  lemma FormMeans(u: Uuid, styles: seq<Style>, braces: bool)
    requires |styles| == 16
    ensures Form(u, styles, braces) == Braced(Written(u, styles, 0), braces)
  {
    hide Written, Braced;
  }

  lemma BracedMeans(w: string)
    ensures Braced(w, true) == "{" + (w + "}") && Braced(w, false) == w + ""
  {
  }

  lemma ReadHasForm(s: string, u: Uuid)
    requires Read(s) == Some(u)
    ensures IsForm(s, u)
  {
    hide *;
    var inner, braces := ReadMeans(s, u);
    var styles := ReadIsWritten(inner, 0);
    var w := Written(u, styles, 0);
    BracedMeans(w);
    FormMeans(u, styles, braces);
    HasForm(s, u, styles, braces);
  }

  lemma HasForm(s: string, u: Uuid, styles: seq<Style>, braces: bool)
    requires |styles| == 16 && s == Form(u, styles, braces)
    ensures IsForm(s, u)
  {
    hide Form;
  }

  lemma ReadOfInner(s: string, inner: string, u: Uuid, braces: bool)
    requires s == (if braces then "{" + inner else inner) && inner != "" && inner[0] != '{'
    requires ReadFrom(inner, 0) == Some((u, if braces then "}" else ""))
    ensures Read(s) == Some(u)
  {
    hide ReadFrom;
    if braces { assert s[1..] == inner; }
  }

  lemma FormIsRead(u: Uuid, styles: seq<Style>, braces: bool)
    requires |styles| == 16
    ensures Read(Form(u, styles, braces)) == Some(u)
  {
    hide *;
    var w := Written(u, styles, 0);
    var inner := w + if braces then "}" else "";
    WrittenStarts(u, styles, 0);
    WrittenIsRead(u, styles, 0, if braces then "}" else "");
    FormMeans(u, styles, braces);
    BracedMeans(w);
    ReadOfInner(Form(u, styles, braces), inner, u, braces);
  }

  /**
   A text is read as u if and only if it is the 32 digits of u, each in either case, with an
   optional hyphen after every group of four and optional braces around the whole.
   */
  lemma ReadExactly(s: string, u: Uuid)
    ensures Read(s) == Some(u) <==> IsForm(s, u)
  {
    hide Read, Form;
    if Read(s) == Some(u) { ReadHasForm(s, u); }
    forall styles: seq<Style>, braces: bool | |styles| == 16 && s == Form(u, styles, braces)
      ensures Read(s) == Some(u)
    {
      FormIsRead(u, styles, braces);
    }
  }
}
