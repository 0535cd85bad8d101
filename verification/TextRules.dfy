/**
 The short text tests against what they stand for: bracket expressions with bounds, trimmed
 texts, control characters and the bytes of UTF-8.
 */
module TextRules {
  import opened Basics
  import opened PgText
  import opened Json
  import opened Provenance

  // ---- anchored patterns of bracket expressions ----

  /** A bracket expression, and how often it may be repeated; None is no upper bound. */
  datatype Piece = Piece(ranges: seq<(char, char)>, least: nat, most: Option<nat>)

  ghost predicate InRanges(c: char, ranges: seq<(char, char)>) {
    exists r :: r in ranges && r.0 <= c <= r.1
  }

  /** s begins with k characters of the bracket expression. */
  ghost predicate Taken(p: Piece, s: string, k: nat) {
    && p.least <= k && (p.most.Some? ==> k <= p.most.value)
    && k <= |s| && forall i :: 0 <= i < k ==> InRanges(s[i], p.ranges)
  }

  /** ^...$ */
  ghost predicate Matches(pattern: seq<Piece>, s: string)
    decreases |pattern|
  {
    if pattern == [] then s == ""
    else exists k: nat :: Taken(pattern[0], s, k) && Matches(pattern[1..], s[k..])
  }

  const LOWER: Piece := Piece([('a', 'z')], 1, Some(1))

  const REST: seq<(char, char)> := [('a', 'z'), ('0', '9'), ('.', '.'), ('_', '_'), ('-', '-')]

  /** ^[a-z][a-z0-9._-]{0,63}$ */
  const IDENTIFIER: seq<Piece> := [LOWER, Piece(REST, 0, Some(63))]

  /** ^[a-z][a-z0-9._-]*$ */
  const CODE: seq<Piece> := [LOWER, Piece(REST, 0, None)]

  /** ^[0-9a-f]{64}$ */
  const SHA256: seq<Piece> := [Piece([('0', '9'), ('a', 'f')], 64, Some(64))]

  lemma NoPiece(s: string)
    ensures Matches([], s) <==> s == ""
  {
  }

  lemma OnePiece(p: Piece, s: string)
    ensures Matches([p], s) <==> Taken(p, s, |s|)
  {
    assert [p][1..] == [];
    if Taken(p, s, |s|) { NoPiece(s[|s|..]); }
    if Matches([p], s) {
      var k: nat :| Taken(p, s, k) && Matches([], s[k..]);
      NoPiece(s[k..]);
      assert k == |s|;
    }
  }

  lemma TwoPieces(p: Piece, q: Piece, s: string)
    ensures Matches([p, q], s) <==> exists k: nat :: Taken(p, s, k) && Taken(q, s[k..], |s[k..]|)
  {
    assert [p, q][1..] == [q];
    forall k: nat | k <= |s| ensures Matches([q], s[k..]) <==> Taken(q, s[k..], |s[k..]|) { OnePiece(q, s[k..]); }
  }

  lemma RestMeans(c: char)
    ensures InRanges(c, REST) <==> IdentifierChar(c)
    ensures InRanges(c, [('a', 'z')]) <==> 'a' <= c <= 'z'
    ensures InRanges(c, [('0', '9'), ('a', 'f')]) <==> '0' <= c <= '9' || 'a' <= c <= 'f'
  {
    var r := REST;
    assert r[0] == ('a', 'z') && r[1] == ('0', '9') && r[2] == ('.', '.') && r[3] == ('_', '_') && r[4] == ('-', '-');
    assert [('a', 'z')][0] == ('a', 'z');
    assert [('0', '9'), ('a', 'f')][0] == ('0', '9') && [('0', '9'), ('a', 'f')][1] == ('a', 'f');
  }

  lemma FirstThenRest(s: string, most: Option<nat>)
    ensures Matches([LOWER, Piece(REST, 0, most)], s) <==>
      && s != "" && (most.Some? ==> |s| <= most.value + 1)
      && 'a' <= s[0] <= 'z' && forall i :: 0 <= i < |s| ==> IdentifierChar(s[i])
  {
    forall c ensures InRanges(c, REST) <==> IdentifierChar(c) { RestMeans(c); }
    forall c ensures InRanges(c, [('a', 'z')]) <==> 'a' <= c <= 'z' { RestMeans(c); }
    var q := Piece(REST, 0, most);
    TwoPieces(LOWER, q, s);
    hide InRanges, Matches;
    if s != "" {
      var rest := s[1..];
      assert |rest| == |s| - 1 && forall i :: 0 < i < |s| ==> s[i] == rest[i - 1];
      assert Taken(q, rest, |rest|) <==>
        (most.Some? ==> |s| <= most.value + 1) && forall i :: 0 < i < |s| ==> IdentifierChar(s[i]);
      assert Taken(LOWER, s, 1) <==> 'a' <= s[0] <= 'z';
    }
  }

  lemma IdentifierIsPattern(s: string)
    ensures IsIdentifier(s) <==> Matches(IDENTIFIER, s)
  {
    FirstThenRest(s, Some(63));
    hide Matches, IdentifierChar;
  }

  lemma Sha256IsPattern(s: string)
    ensures IsSha256Hex(s) <==> Matches(SHA256, s)
  {
    var p := Piece([('0', '9'), ('a', 'f')], 64, Some(64));
    forall c ensures InRanges(c, p.ranges) <==> '0' <= c <= '9' || 'a' <= c <= 'f' { RestMeans(c); }
    OnePiece(p, s);
    hide InRanges, Matches;
  }

  // ---- trimming ----

  /** btrim(s) */
  function Btrim(s: string): string {
    if s == "" then ""
    else if s[0] == ' ' then Btrim(s[1..])
    else if s[|s| - 1] == ' ' then Btrim(s[..|s| - 1])
    else s
  }

  lemma {:induction false} BtrimShorter(s: string)
    ensures |Btrim(s)| <= |s|
  {
    if s == "" {
    } else if s[0] == ' ' {
      BtrimShorter(s[1..]);
    } else if s[|s| - 1] == ' ' {
      BtrimShorter(s[..|s| - 1]);
    }
  }

  /** Trimmed at both ends, the text is empty, or it is unchanged. */
  lemma {:induction false} BtrimExactly(s: string)
    ensures BtrimEmpty(s) <==> Btrim(s) == ""
    ensures BtrimStable(s) <==> Btrim(s) == s
  {
    if s == "" {
    } else if s[0] == ' ' {
      BtrimExactly(s[1..]);
      BtrimShorter(s[1..]);
      assert forall i :: 0 < i < |s| ==> s[i] == s[1..][i - 1];
    } else if s[|s| - 1] == ' ' {
      BtrimShorter(s[..|s| - 1]);
      BtrimNotEmpty(s);
    }
  }

  lemma {:induction false} BtrimNotEmpty(s: string)
    requires s != "" && s[0] != ' '
    ensures Btrim(s) != ""
  {
    if s[|s| - 1] == ' ' { BtrimNotEmpty(s[..|s| - 1]); }
  }

  /** Some character is not a space. */
  ghost predicate HasText(s: string) { exists i :: 0 <= i < |s| && s[i] != ' ' }

  lemma TextMeans(s: string)
    ensures HasText(s) <==> !BtrimEmpty(s)
  {
  }

  lemma {:induction false} LeftExactly(s: string)
    ensures LeftStripped(s) == "" <==> Blank(s)
    ensures LeftStripped(s) == s <==> s == "" || !IsSpace(s[0])
    ensures |LeftStripped(s)| <= |s|
  {
    hide IsSpace;
    if s != "" && IsSpace(s[0]) {
      LeftExactly(s[1..]);
      assert forall i :: 0 < i < |s| ==> s[i] == s[1..][i - 1];
    }
  }

  lemma {:induction false} RightExactly(s: string)
    ensures s != "" && !IsSpace(s[0]) ==> RightStripped(s) != ""
    ensures RightStripped(s) == s <==> s == "" || !IsSpace(s[|s| - 1])
  {
    hide IsSpace;
    if s != "" && IsSpace(s[|s| - 1]) { RightExactly(s[..|s| - 1]); }
  }

  /** A text is blank if stripping leaves nothing, and trimmed if stripping changes nothing. */
  lemma StripExactly(s: string)
    ensures Blank(s) <==> Stripped(s) == ""
    ensures Trimmed(s) <==> Stripped(s) == s
  {
    LeftExactly(s);
    RightExactly(LeftStripped(s));
    hide IsSpace;
    if Stripped(s) == s { assert |LeftStripped(s)| == |s| && LeftStripped(s) == s; }
  }

  // ---- single characters ----

  /** The 29 characters of str.isspace, by their numbers. */
  const SPACES: set<int> := {
    9, 10, 11, 12, 13, 28, 29, 30, 31, 32, 133, 160, 5760, 8192, 8193, 8194, 8195, 8196, 8197, 8198, 8199, 8200,
    8201, 8202, 8232, 8233, 8239, 8287, 12288}

  lemma SpacesExactly(c: char)
    ensures IsSpace(c) <==> c as int in SPACES
  {
  }

  /** The general category Cc: 0 to 31 and 127 to 159. */
  lemma ControlsExactly(s: string)
    ensures HasControl(s) <==> exists c :: c in s && (c as int < 32 || 127 <= c as int < 160)
  {
    if HasControl(s) {
      var i :| 0 <= i < |s| && (s[i] < ' ' || '\U{7f}' <= s[i] <= '\U{9f}');
      assert s[i] in s;
    }
  }

  // ---- octet_length ----

  type Octet = n: nat | n < 256

  /** Section 3 of RFC 3629 */
  function Utf8(c: char): (b: seq<Octet>)
    ensures b != []
  {
    var n := c as int;
    if n < 0x80 then [n]
    else if n < 0x800 then [0xc0 + n / 0x40, Six(n)]
    else if n < 0x10000 then [0xe0 + n / 0x40 / 0x40, Six(n / 0x40), Six(n)]
    else [0xf0 + n / 0x40 / 0x40 / 0x40, Six(n / 0x40 / 0x40), Six(n / 0x40), Six(n)]
  }

  /** A later byte: the six lowest bits. */
  function Six(n: nat): (b: Octet)
    ensures 0x80 <= b < 0xc0 && b - 0x80 == n % 0x40
  {
    0x80 + n % 0x40
  }

  function Octets(s: string): seq<Octet> {
    if s == "" then [] else Octets(s[..|s| - 1]) + Utf8(s[|s| - 1])
  }

  /** The length and the value that the first byte and the others tell. */
  function Decoded(b: seq<Octet>): (int, int)
    requires 1 <= |b| <= 4
  {
    if b[0] < 0x80 then (1, b[0])
    else if b[0] < 0xe0 then (2, (b[0] - 0xc0) * 0x40 + Low(b, 1))
    else if b[0] < 0xf0 then (3, ((b[0] - 0xe0) * 0x40 + Low(b, 1)) * 0x40 + Low(b, 2))
    else (4, (((b[0] - 0xf0) * 0x40 + Low(b, 1)) * 0x40 + Low(b, 2)) * 0x40 + Low(b, 3))
  }

  function Low(b: seq<Octet>, i: nat): int { if i < |b| then b[i] as int - 0x80 else 0 }

  /** The bytes of a character tell its number and how many they are, and later bytes carry six bits each. */
  lemma Utf8Decodes(c: char)
    ensures 1 <= |Utf8(c)| <= 4 && Decoded(Utf8(c)) == (|Utf8(c)|, c as int)
    ensures forall i :: 0 < i < |Utf8(c)| ==> 0x80 <= Utf8(c)[i] < 0xc0
  {
    var n := c as int;
    var m := n / 0x40;
    var k := m / 0x40;
    assert n == m * 0x40 + n % 0x40 && m == k * 0x40 + m % 0x40 && k == k / 0x40 * 0x40 + k % 0x40;
    assert n < 0x110000 && m < 0x4400 && k < 0x110 && k / 0x40 < 8;
    hide Six;
  }

  /** The test on model identifiers bounds the bytes of the text. */
  lemma {:induction false} LengthInOctets(s: string)
    ensures Utf8Length(s) == |Octets(s)|
  {
    if s != "" { LengthInOctets(s[..|s| - 1]); }
  }

  /** model_id: 1 to 255 bytes in UTF-8 and no control character. */
  lemma ModelTextExactly(s: string)
    ensures ModelString(Some(String(s))) <==>
      1 <= |Octets(s)| <= 255 && forall c :: c in s ==> c as int >= 32 && !(127 <= c as int < 160)
  {
    LengthInOctets(s);
    ControlsExactly(s);
    hide HasControl, Octets, Utf8Length;
    assert s == "" <==> |Octets(s)| == 0 by { EmptyOctets(s); }
  }

  lemma EmptyOctets(s: string)
    ensures s == "" <==> |Octets(s)| == 0
  {
    if s != "" { assert Octets(s) == Octets(s[..|s| - 1]) + Utf8(s[|s| - 1]); }
    hide Utf8;
  }

  /** provider_id, capability_id and artifact_kind */
  lemma IdentifierTextExactly(s: string)
    ensures IdentifierString(Some(String(s))) <==> Matches(IDENTIFIER, s)
  {
    IdentifierIsPattern(s);
    hide IsIdentifier, Matches;
  }
}
