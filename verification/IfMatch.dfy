/** The revision ETag (section 8.8.3 of RFC 9110) and the If-Match header that carries it back. */
module IfMatch {
  import opened Basics
  import Decimals

  /** Python converts no more digits than this between text and integers. */
  const MAX_DIGITS: nat := 4300

  datatype Failure = PreconditionRequired | InvalidIfMatch | TooManyDigits

  /** f"{n}" */
  function IntegerText(n: int): Result<string, Failure> {
    var digits := Decimals.Text(if n < 0 then -n else n);
    if |digits| > MAX_DIGITS then Err(TooManyDigits)
    else Ok(if n < 0 then "-" + digits else digits)
  }

  /** encode_revision_etag */
  function Encode(n: int): Result<string, Failure> {
    match IntegerText(n)
    case Err(e) => Err(e)
    case Ok(digits) => Ok("\"r" + digits + "\"")
  }

  /** The number between the quotes, if the whole text has the form "r0" or "r" and digits without leading zero. */
  function Quoted(s: string): Option<string> {
    if |s| >= 4 && s[..2] == "\"r" && s[|s| - 1] == '"' && Decimals.Canonical(s[2..|s| - 1]) then Some(s[2..|s| - 1])
    else None
  }

  /** parse_if_match */
  function Parse(raw: Option<string>): Result<nat, Failure> {
    if raw.None? || Stripped(raw.value) == "" then Err(PreconditionRequired)
    else
      var value := Stripped(raw.value);
      if value == "*" || (|value| >= 2 && value[..2] == "W/") || ',' in value then Err(InvalidIfMatch)
      else
        match Quoted(value)
        case None => Err(InvalidIfMatch)
        case Some(digits) =>
          if |digits| > MAX_DIGITS then Err(TooManyDigits) else Ok(Decimals.Value(digits))
  }

  lemma StrippedWhenTrimmed(s: string)
    requires Trimmed(s)
    ensures Stripped(s) == s
  {
  }

  lemma {:induction false} BlankStripsToNothing(s: string)
    ensures LeftStripped(s) == "" <==> Blank(s)
  {
    if s != "" && IsSpace(s[0]) {
      BlankStripsToNothing(s[1..]);
      assert forall i :: 0 < i < |s| ==> s[i] == s[1..][i - 1];
      assert Blank(s[1..]) ==> Blank(s);
    }
  }

  lemma QuotedOfText(n: nat, s: string)
    requires s == "\"r" + Decimals.Text(n) + "\""
    ensures Quoted(s) == Some(Decimals.Text(n)) && Trimmed(s) && s[0] == '"' && ',' !in s
  {
    Decimals.ValueOfText(n);
    assert s[..2] == "\"r" && s[2..|s| - 1] == Decimals.Text(n);
  }

  /** Up to 4300 digits can be printed. */
  lemma PrintedExactly(n: int)
    ensures Encode(n).Ok? <==> |Decimals.Text(if n < 0 then -n else n)| <= 4300
  {
    hide Decimals.Text;
  }

  /** Parsing the printed tag of a revision gives the revision back, for every revision that can be printed. */
  lemma ParseOfEncode(n: nat)
    ensures Encode(n).Ok? <==> n < Decimals.Pow10(MAX_DIGITS)
    ensures Encode(n).Ok? ==> Parse(Some(Encode(n).value)) == Ok(n)
  {
    Decimals.TextLength(n, MAX_DIGITS);
    Decimals.ValueOfText(n);
    if Encode(n).Ok? {
      var s := Encode(n).value;
      QuotedOfText(n, s);
      StrippedWhenTrimmed(s);
      assert s[..2] == "\"r";
    }
  }

  /** A header is accepted exactly if, stripped, it is the printed tag of the number it parses to. */
  lemma AcceptedExactly(raw: string, n: nat)
    ensures Parse(Some(raw)) == Ok(n) <==> Encode(n) == Ok(Stripped(raw))
  {
    var value := Stripped(raw);
    if Encode(n) == Ok(value) {
      ParseOfEncode(n);
      QuotedOfText(n, value);
      StrippedWhenTrimmed(value);
      assert Parse(Some(value)) == Ok(n);
    }
    if Parse(Some(raw)) == Ok(n) {
      var digits := Quoted(value).value;
      Decimals.TextOfValue(digits);
      assert value == "\"r" + digits + "\"";
    }
  }

  /** Distinct revisions have distinct tags, so an accepted If-Match names one revision only. */
  lemma TagsAreStrong(m: int, n: int)
    requires Encode(m).Ok? && Encode(m) == Encode(n)
    ensures m == n
  {
    var s := Encode(m).value;
    assert IntegerText(m).value == s[2..|s| - 1] == IntegerText(n).value;
    var dm, dn := Decimals.Text(if m < 0 then -m else m), Decimals.Text(if n < 0 then -n else n);
    assert Decimals.IsDigit(dm[0]) && Decimals.IsDigit(dn[0]);
    if m < 0 { assert IntegerText(m).value[0] == '-' && IntegerText(m).value[1..] == dm; }
    if n < 0 { assert IntegerText(n).value[0] == '-' && IntegerText(n).value[1..] == dn; }
    Decimals.TextInjective(if m < 0 then -m else m, if n < 0 then -n else n);
  }

  /** A missing or blank header asks for a precondition; a negative revision's tag is never accepted. */
  lemma WhatIsRefused(raw: string, n: int)
    ensures Parse(None) == Err(PreconditionRequired)
    ensures Parse(Some(raw)) == Err(PreconditionRequired) <==> Blank(raw)
    ensures n < 0 && Encode(n) == Ok(raw) ==> Parse(Some(raw)) == Err(InvalidIfMatch)
  {
    var left := LeftStripped(raw);
    BlankStripsToNothing(raw);
    if left != "" { RightKeepsFirst(left); }
    if n < 0 && Encode(n) == Ok(raw) {
      assert raw[0] == '"' && raw[|raw| - 1] == '"' && raw[2] == '-';
      StrippedWhenTrimmed(raw);
      assert !Decimals.IsDigit(raw[2..|raw| - 1][0]);
    }
  }

  lemma {:induction false} RightKeepsFirst(s: string)
    requires s != "" && !IsSpace(s[0])
    ensures RightStripped(s) != ""
  {
    if IsSpace(s[|s| - 1]) { RightKeepsFirst(s[..|s| - 1]); }
  }
}
