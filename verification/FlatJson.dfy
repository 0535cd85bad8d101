/** Flat JSON objects of strings and integers, as json.dumps prints them compactly, and their reading back. */
module FlatJson {
  import opened Basics
  import Decimals

  datatype Field = Str(text: string) | Num(value: nat)

  type Entries = seq<(string, Field)>

  /** Printed without escapes, and ASCII. */
  predicate PlainChar(c: char) { ' ' <= c < '\U{7f}' && c != '"' && c != '\\' }

  predicate Plain(s: string) { forall i :: 0 <= i < |s| ==> PlainChar(s[i]) }

  predicate PlainEntries(e: Entries) {
    forall i :: 0 <= i < |e| ==> Plain(e[i].0) && (e[i].1.Str? ==> Plain(e[i].1.text))
  }

  function Quoted(s: string): string { "\"" + (s + "\"") }

  function FieldText(f: Field): string {
    match f
    case Str(s) => Quoted(s)
    case Num(n) => Decimals.Text(n)
  }

  function EntryText(entry: (string, Field)): string { Quoted(entry.0) + (":" + FieldText(entry.1)) }

  function BodyText(e: Entries): string
    requires e != []
  {
    EntryText(e[0]) + if |e| == 1 then "}" else "," + BodyText(e[1..])
  }

  /** json.dumps with separators "," and ":"; the entries come in key order. */
  function Print(e: Entries): string
    requires e != []
  {
    "{" + BodyText(e)
  }

  // ---- reading ----

  /** The length of the longest plain prefix. */
  function PlainPrefix(s: string): (k: nat)
    ensures k <= |s|
  {
    if s == "" || !PlainChar(s[0]) then 0 else 1 + PlainPrefix(s[1..])
  }

  function DigitPrefix(s: string): (k: nat)
    ensures k <= |s| && Decimals.AllDigits(s[..k])
  {
    if s == "" || !Decimals.IsDigit(s[0]) then 0
    else
      var k := DigitPrefix(s[1..]);
      assert s[..1 + k] == [s[0]] + s[1..][..k];
      1 + k
  }

  function ReadQuoted(s: string): Option<(string, string)> {
    if s == "" || s[0] != '"' then None
    else
      var k := PlainPrefix(s[1..]);
      if 1 + k < |s| && s[1 + k] == '"' then Some((s[1..1 + k], s[2 + k..])) else None
  }

  function ReadField(s: string): Option<(Field, string)> {
    if s != "" && s[0] == '"' then
      match ReadQuoted(s)
      case None => None
      case Some((text, rest)) => Some((Str(text), rest))
    else
      var k := DigitPrefix(s);
      if Decimals.Canonical(s[..k]) then Some((Num(Decimals.Value(s[..k])), s[k..])) else None
  }

  function ReadEntry(s: string): (r: Option<((string, Field), string)>)
  {
    match ReadQuoted(s)
    case None => None
    case Some((key, rest)) =>
      if rest == "" || rest[0] != ':' then None
      else
        match ReadField(rest[1..])
        case None => None
        case Some((field, left)) => Some(((key, field), left))
  }

  /** The entries up to the closing brace, which must end the text. */
  function ReadBody(s: string): Option<Entries>
    decreases |s|
  {
    match ReadEntry(s)
    case None => None
    case Some((entry, left)) =>
      if left == "}" then Some([entry])
      else if left == "" || left[0] != ',' || |left| > |s| then None
      else
        match ReadBody(left[1..])
        case None => None
        case Some(rest) => Some([entry] + rest)
  }

  function Read(s: string): Option<Entries> {
    if s == "" || s[0] != '{' then None else ReadBody(s[1..])
  }

  // ---- reading what was printed ----

  lemma {:induction false} PlainPrefixOf(s: string, t: string)
    requires Plain(s) && t != "" && !PlainChar(t[0])
    ensures PlainPrefix(s + t) == |s|
  {
    if s == "" {
      assert s + t == t;
    } else {
      PlainPrefixOf(s[1..], t);
      assert (s + t)[1..] == s[1..] + t && (s + t)[0] == s[0];
    }
  }

  lemma {:induction false} DigitPrefixOf(s: string, t: string)
    requires Decimals.AllDigits(s) && t != "" && !Decimals.IsDigit(t[0])
    ensures DigitPrefix(s + t) == |s|
  {
    if s == "" {
      assert s + t == t;
    } else {
      DigitPrefixOf(s[1..], t);
      assert (s + t)[1..] == s[1..] + t && (s + t)[0] == s[0];
    }
  }

  lemma ReadOfQuoted(s: string, t: string)
    requires Plain(s)
    ensures ReadQuoted(Quoted(s) + t) == Some((s, t))
  {
    var q := Quoted(s) + t;
    PlainPrefixOf(s, "\"" + t);
    assert q[1..] == s + ("\"" + t);
    hide PlainPrefix, PlainChar, Plain;
    assert q[0] == '"' && q[1 + |s|] == '"' && q[1..1 + |s|] == s && q[2 + |s|..] == t;
  }

  lemma ReadOfField(f: Field, t: string)
    requires (f.Str? ==> Plain(f.text)) && t != "" && !Decimals.IsDigit(t[0])
    ensures ReadField(FieldText(f) + t) == Some((f, t))
  {
    var s := FieldText(f) + t;
    match f
    case Str(text) =>
      ReadOfQuoted(text, t);
      assert s[0] == '"';
      hide ReadQuoted, Plain;
    case Num(n) =>
      var digits := Decimals.Text(n);
      Decimals.ValueOfText(n);
      DigitPrefixOf(digits, t);
      hide DigitPrefix, Decimals.Value, Decimals.Text;
      assert s[0] == digits[0] && Decimals.IsDigit(digits[0]);
      assert s[..|digits|] == digits && s[|digits|..] == t;
  }

  lemma ReadOfEntry(entry: (string, Field), t: string)
    requires Plain(entry.0) && (entry.1.Str? ==> Plain(entry.1.text)) && t != "" && !Decimals.IsDigit(t[0])
    ensures ReadEntry(EntryText(entry) + t) == Some((entry, t))
  {
    var after := ":" + (FieldText(entry.1) + t);
    assert EntryText(entry) + t == Quoted(entry.0) + after;
    ReadOfQuoted(entry.0, after);
    ReadOfField(entry.1, t);
    assert after[0] == ':' && after[1..] == FieldText(entry.1) + t;
    hide ReadQuoted, ReadField, FieldText, EntryText, Quoted, Plain;
  }

  lemma ReadLast(s: string, entry: (string, Field))
    requires ReadEntry(s) == Some((entry, "}"))
    ensures ReadBody(s) == Some([entry])
  {
    hide ReadEntry;
  }

  lemma ReadMore(s: string, entry: (string, Field), after: string, rest: Entries)
    requires ReadEntry(s) == Some((entry, "," + after)) && |after| < |s| && ReadBody(after) == Some(rest)
    ensures ReadBody(s) == Some([entry] + rest)
  {
    hide ReadEntry;
    assert ("," + after)[0] == ',' && ("," + after)[1..] == after;
    assert "," + after != "}";
  }

  lemma BodyStep(e: Entries)
    requires e != []
    ensures BodyText(e) == EntryText(e[0]) + if |e| == 1 then "}" else "," + BodyText(e[1..])
  {
    hide EntryText;
  }

  lemma {:induction false} ReadOfBody(e: Entries)
    requires e != [] && PlainEntries(e)
    ensures ReadBody(BodyText(e)) == Some(e)
  {
    hide ReadEntry, ReadBody, BodyText, EntryText, Plain, PlainEntries;
    BodyStep(e);
    PlainParts(e);
    if |e| == 1 {
      ReadOfEntry(e[0], "}");
      ReadLast(BodyText(e), e[0]);
      assert e == [e[0]];
    } else {
      ReadOfBody(e[1..]);
      ReadOfTail(e, BodyText(e[1..]));
    }
  }

  lemma PlainParts(e: Entries)
    requires e != [] && PlainEntries(e)
    ensures Plain(e[0].0) && (e[0].1.Str? ==> Plain(e[0].1.text)) && PlainEntries(e[1..])
  {
    hide Plain;
  }

  lemma ReadOfTail(e: Entries, after: string)
    requires |e| > 1 && Plain(e[0].0) && (e[0].1.Str? ==> Plain(e[0].1.text))
    requires BodyText(e) == EntryText(e[0]) + ("," + after) && ReadBody(after) == Some(e[1..])
    ensures ReadBody(BodyText(e)) == Some(e)
  {
    hide ReadEntry, ReadBody, BodyText, EntryText, Plain, PlainEntries;
    ReadOfEntry(e[0], "," + after);
    ReadMore(BodyText(e), e[0], after, e[1..]);
    assert e == [e[0]] + e[1..];
  }

  /** Reading a printed object gives its entries back. */
  lemma ReadOfPrint(e: Entries)
    requires e != [] && PlainEntries(e)
    ensures Read(Print(e)) == Some(e)
  {
    ReadOfBody(e);
    assert Print(e)[1..] == BodyText(e);
    hide ReadBody, BodyText;
  }

  // ---- only what was printed is read ----

  lemma {:induction false} PrefixIsPlain(s: string)
    ensures Plain(s[..PlainPrefix(s)])
  {
    if s != "" && PlainChar(s[0]) {
      PrefixIsPlain(s[1..]);
      var k := PlainPrefix(s[1..]);
      assert s[..1 + k] == [s[0]] + s[1..][..k];
      hide PlainChar;
    }
  }

  lemma Slices(s: string, k: nat)
    requires 1 + k < |s|
    ensures s[1..1 + k] == s[1..][..k] && s == [s[0]] + (s[1..1 + k] + ([s[1 + k]] + s[2 + k..]))
  {
  }

  lemma QuotedMeans(s: string)
    requires ReadQuoted(s).Some?
    ensures var k := PlainPrefix(s[1..]);
      && 1 + k < |s| && s[0] == '"' && s[1 + k] == '"'
      && ReadQuoted(s) == Some((s[1..1 + k], s[2 + k..]))
  {
    hide PlainPrefix;
  }

  lemma QuotedJoins(text: string, rest: string)
    ensures Quoted(text) + rest == ['"'] + (text + (['"'] + rest))
  {
  }

  lemma QuotedWasRead(s: string)
    requires ReadQuoted(s).Some?
    ensures var (text, rest) := ReadQuoted(s).value; Plain(text) && s == Quoted(text) + rest && |rest| < |s|
  {
    hide *;
    QuotedMeans(s);
    var k := PlainPrefix(s[1..]);
    PrefixIsPlain(s[1..]);
    Slices(s, k);
    QuotedJoins(s[1..1 + k], s[2 + k..]);
  }

  lemma FieldWasRead(s: string)
    requires ReadField(s).Some?
    ensures var (field, rest) := ReadField(s).value;
      (field.Str? ==> Plain(field.text)) && s == FieldText(field) + rest && |rest| <= |s|
  {
    if s != "" && s[0] == '"' {
      QuotedWasRead(s);
      hide ReadQuoted, Plain, Quoted;
    } else {
      var k := DigitPrefix(s);
      Decimals.TextOfValue(s[..k]);
      hide DigitPrefix, Decimals.Text, Decimals.Value;
      assert s == s[..k] + s[k..];
    }
  }

  lemma EntryParts(s: string)
    requires ReadEntry(s).Some?
    ensures ReadQuoted(s).Some?
    ensures var (key, rest) := ReadQuoted(s).value;
      && rest != "" && rest[0] == ':' && ReadField(rest[1..]).Some?
      && ReadEntry(s).value == ((key, ReadField(rest[1..]).value.0), ReadField(rest[1..]).value.1)
  {
    hide ReadQuoted, ReadField;
  }

  lemma EntryJoins(key: string, field: Field, left: string)
    ensures Quoted(key) + (":" + (FieldText(field) + left)) == EntryText((key, field)) + left
  {
    hide Quoted, FieldText;
  }

  lemma EntryWasRead(s: string)
    requires ReadEntry(s).Some?
    ensures var (entry, left) := ReadEntry(s).value;
      Plain(entry.0) && (entry.1.Str? ==> Plain(entry.1.text)) && s == EntryText(entry) + left && |left| < |s|
  {
    hide *;
    EntryParts(s);
    QuotedWasRead(s);
    var (key, rest) := ReadQuoted(s).value;
    FieldWasRead(rest[1..]);
    var (field, left) := ReadField(rest[1..]).value;
    assert rest == ":" + rest[1..];
    EntryJoins(key, field, left);
  }

  lemma BodyParts(s: string)
    requires ReadBody(s).Some?
    ensures ReadEntry(s).Some?
    ensures var (entry, left) := ReadEntry(s).value;
      if left == "}" then ReadBody(s).value == [entry]
      else
        && left != "" && left[0] == ',' && |left| <= |s| && ReadBody(left[1..]).Some?
        && ReadBody(s).value == [entry] + ReadBody(left[1..]).value
  {
    hide ReadEntry;
  }

  lemma OneEntry(entry: (string, Field))
    requires Plain(entry.0) && (entry.1.Str? ==> Plain(entry.1.text))
    ensures PlainEntries([entry]) && BodyText([entry]) == EntryText(entry) + "}"
  {
    hide Plain, EntryText;
  }

  lemma MoreEntries(entry: (string, Field), rest: Entries)
    requires Plain(entry.0) && (entry.1.Str? ==> Plain(entry.1.text)) && rest != [] && PlainEntries(rest)
    ensures PlainEntries([entry] + rest) && BodyText([entry] + rest) == EntryText(entry) + ("," + BodyText(rest))
  {
    var e := [entry] + rest;
    assert e[1..] == rest && e[0] == entry;
    BodyStep(e);
    hide Plain, EntryText, BodyText;
  }

  lemma {:induction false} BodyWasRead(s: string)
    requires ReadBody(s).Some?
    ensures ReadBody(s).value != [] && PlainEntries(ReadBody(s).value) && s == BodyText(ReadBody(s).value)
    decreases |s|
  {
    hide *;
    BodyParts(s);
    EntryWasRead(s);
    var (entry, left) := ReadEntry(s).value;
    if left == "}" {
      OneEntry(entry);
    } else {
      BodyWasRead(left[1..]);
      MoreEntries(entry, ReadBody(left[1..]).value);
      assert left == "," + left[1..];
    }
  }

  lemma PrintedWasRead(s: string)
    requires Read(s).Some?
    ensures Read(s).value != [] && PlainEntries(Read(s).value) && s == Print(Read(s).value)
  {
    assert ReadBody(s[1..]) == Read(s) && s == "{" + s[1..];
    BodyWasRead(s[1..]);
    hide ReadBody, BodyText, PlainEntries;
  }

  /** The reader takes exactly the printed texts of nonempty objects with plain texts. */
  lemma ReadExactly(s: string, e: Entries)
    ensures Read(s) == Some(e) <==> e != [] && PlainEntries(e) && s == Print(e)
  {
    hide Read, PlainEntries, Print;
    if Read(s) == Some(e) { PrintedWasRead(s); }
    if e != [] && PlainEntries(e) && s == Print(e) { ReadOfPrint(e); }
  }

  /** A printed object is ASCII. */
  lemma {:induction false} PrintIsAscii(e: Entries)
    requires e != [] && PlainEntries(e)
    ensures forall i :: 0 <= i < |BodyText(e)| ==> BodyText(e)[i] < '\U{80}'
  {
    EntryIsAscii(e[0]);
    if |e| > 1 { PrintIsAscii(e[1..]); }
  }

  lemma EntryIsAscii(entry: (string, Field))
    requires Plain(entry.0) && (entry.1.Str? ==> Plain(entry.1.text))
    ensures forall i :: 0 <= i < |EntryText(entry)| ==> EntryText(entry)[i] < '\U{80}'
  {
    assert forall i :: 0 <= i < |entry.0| ==> PlainChar(entry.0[i]);
    if entry.1.Str? { assert forall i :: 0 <= i < |entry.1.text| ==> PlainChar(entry.1.text[i]); }
  }

  // ---- the dict ----

  /** The dict that the entries build; a repeated key keeps its last value. */
  function ToMap(e: Entries): map<string, Field> {
    if e == [] then map[] else ToMap(e[..|e| - 1])[e[|e| - 1].0 := e[|e| - 1].1]
  }

  lemma {:induction false} LookupInMap(e: Entries, k: string)
    ensures k in ToMap(e) <==> exists i :: 0 <= i < |e| && e[i].0 == k
    ensures forall i :: 0 <= i < |e| && e[i].0 == k && (forall j :: i < j < |e| ==> e[j].0 != k) ==>
      ToMap(e)[k] == e[i].1
  {
    if e != [] {
      var n := |e| - 1;
      var front := e[..n];
      LookupInMap(front, k);
      hide ToMap;
      assert ToMap(e) == ToMap(front)[e[n].0 := e[n].1] by { ToMapStep(e); }
      if exists i :: 0 <= i < |e| && e[i].0 == k {
        var i :| 0 <= i < |e| && e[i].0 == k;
        assert i < n ==> front[i].0 == k;
      }
      forall i | 0 <= i < |e| && e[i].0 == k && (forall j :: i < j < |e| ==> e[j].0 != k)
        ensures ToMap(e)[k] == e[i].1
      {
        if i < n {
          assert e[n].0 != k && front[i] == e[i];
          assert forall j :: i < j < n ==> front[j] == e[j];
        }
      }
    }
  }

  lemma ToMapStep(e: Entries)
    requires e != []
    ensures ToMap(e) == ToMap(e[..|e| - 1])[e[|e| - 1].0 := e[|e| - 1].1]
  {
  }
}
