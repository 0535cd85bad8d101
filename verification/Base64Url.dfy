/** base64url without padding (section 5 of RFC 4648), with the lenient decoder that Python uses. */
module Base64Url {
  import opened Basics

  type Byte = n: nat | n < 256

  type Sextet = n: nat | n < 64

  /** The URL-safe alphabet. */
  function CharOf(n: Sextet): char {
    if n < 26 then 'A' + n as char
    else if n < 52 then 'a' + (n - 26) as char
    else if n < 62 then '0' + (n - 52) as char
    else if n == 62 then '-' else '_'
  }

  /** The characters that need no escape in a URL. */
  predicate UrlSafe(c: char) { 'A' <= c <= 'Z' || 'a' <= c <= 'z' || '0' <= c <= '9' || c == '-' || c == '_' }

  /** After '-' and '_' are translated, the decoder takes '+' and '/' as well. */
  function ValueOf(c: char): Option<Sextet> {
    if 'A' <= c <= 'Z' then Some(c as int - 'A' as int)
    else if 'a' <= c <= 'z' then Some(c as int - 'a' as int + 26)
    else if '0' <= c <= '9' then Some(c as int - '0' as int + 52)
    else if c == '-' || c == '+' then Some(62)
    else if c == '_' || c == '/' then Some(63)
    else None
  }

  lemma ValueOfChar(n: Sextet)
    ensures ValueOf(CharOf(n)) == Some(n) && UrlSafe(CharOf(n))
  {
  }

  function Quad(a: Byte, b: Byte, c: Byte): string {
    [CharOf(a / 4), CharOf(a % 4 * 16 + b / 16), CharOf(b % 16 * 4 + c / 64), CharOf(c % 64)]
  }

  /** base64.urlsafe_b64encode */
  function Padded(raw: seq<Byte>): string {
    if |raw| == 0 then ""
    else if |raw| == 1 then Quad(raw[0], 0, 0)[..2] + "=="
    else if |raw| == 2 then Quad(raw[0], raw[1], 0)[..3] + "="
    else Quad(raw[0], raw[1], raw[2]) + Padded(raw[3..])
  }

  /** s.rstrip("=") */
  function Unpadded(s: string): string {
    if s != "" && s[|s| - 1] == '=' then Unpadded(s[..|s| - 1]) else s
  }

  /** _b64url_encode */
  function Encode(raw: seq<Byte>): string { Unpadded(Padded(raw)) }

  /**
   The state of binascii.a2b_base64: position in the group of four, bits left over, pads seen
   since the last digit.
   */
  datatype Scan = Scan(position: nat, left: nat, pads: nat)

  predicate ScanOk(s: Scan) {
    && s.position < 4
    && (s.position == 0 ==> s.left == 0) && (s.position == 1 ==> s.left < 64)
    && (s.position == 2 ==> s.left < 16) && (s.position == 3 ==> s.left < 4)
  }

  const START := Scan(0, 0, 0)

  /** One digit: the byte that it completes, if any, and the next state. */
  function Digit(s: Scan, v: Sextet): (r: (seq<Byte>, Scan))
    requires ScanOk(s)
    ensures ScanOk(r.1)
  {
    if s.position == 0 then ([], Scan(1, v, 0))
    else if s.position == 1 then ([s.left * 4 + v / 16], Scan(2, v % 16, 0))
    else if s.position == 2 then ([s.left * 16 + v / 4], Scan(3, v % 4, 0))
    else ([s.left * 64 + v], Scan(0, 0, 0))
  }

  /** binascii.a2b_base64, not strict: unknown characters are skipped, a completed padding ends the input. */
  function Run(t: string, s: Scan): Option<seq<Byte>>
    requires ScanOk(s)
    decreases |t|
  {
    if t == "" then if s.position == 0 then Some([]) else None
    else if t[0] == '=' then
      if s.position >= 2 && s.position + s.pads + 1 >= 4 then Some([])
      else Run(t[1..], if s.position >= 2 then s.(pads := s.pads + 1) else s)
    else if ValueOf(t[0]).None? then Run(t[1..], s)
    else
      var step := Digit(s, ValueOf(t[0]).value);
      match Run(t[1..], step.1)
      case None => None
      case Some(rest) => Some(step.0 + rest)
  }

  function Pads(n: nat): string { seq(n, i => '=') }

  /** -len(token) % 4 */
  function Missing(n: nat): nat { (4 - n % 4) % 4 }

  /** _b64url_decode; None is a raised ValueError, which a non-ASCII text also gives. */
  function Decode(token: string): Option<seq<Byte>> {
    if exists i :: 0 <= i < |token| && token[i] >= '\U{80}' then None
    else Run(token + Pads(Missing(|token|)), START)
  }

  // ---- decoding what was encoded ----

  lemma RunDigit(n: Sextet, t: string, s: Scan, emitted: seq<Byte>, next: Scan, out: seq<Byte>)
    requires ScanOk(s) && Digit(s, n) == (emitted, next) && Run(t, next) == Some(out)
    ensures Run([CharOf(n)] + t, s) == Some(emitted + out)
  {
    ValueOfChar(n);
    hide CharOf, ValueOf, Digit;
    assert ([CharOf(n)] + t)[0] == CharOf(n) && ([CharOf(n)] + t)[1..] == t;
  }

  /** The states that the digits of three bytes lead through. */
  lemma DigitsOfBytes(a: Byte, b: Byte, c: Byte)
    ensures var w, x, y, z := a / 4, a % 4 * 16 + b / 16, b % 16 * 4 + c / 64, c % 64;
      && Digit(START, w) == ([], Scan(1, w, 0)) && Digit(Scan(1, w, 0), x) == ([a], Scan(2, x % 16, 0))
      && Digit(Scan(2, x % 16, 0), y) == ([b], Scan(3, y % 4, 0)) && Digit(Scan(3, y % 4, 0), z) == ([c], START)
  {
    var x, y := a % 4 * 16 + b / 16, b % 16 * 4 + c / 64;
    assert x / 16 == a % 4 && x % 16 == b / 16;
    assert y / 4 == b % 16 && y % 4 == c / 64;
  }

  lemma QuadDigits(a: Byte, b: Byte, c: Byte, t: string)
    ensures Quad(a, b, c) + t ==
      [CharOf(a / 4)] + ([CharOf(a % 4 * 16 + b / 16)] + ([CharOf(b % 16 * 4 + c / 64)] + ([CharOf(c % 64)] + t)))
  {
    hide CharOf;
  }

  lemma RunQuad(a: Byte, b: Byte, c: Byte, t: string, out: seq<Byte>)
    requires Run(t, START) == Some(out)
    ensures Run(Quad(a, b, c) + t, START) == Some([a, b, c] + out)
  {
    var w, x, y, z := a / 4, a % 4 * 16 + b / 16, b % 16 * 4 + c / 64, c % 64;
    var t3 := [CharOf(z)] + t;
    var t2 := [CharOf(y)] + t3;
    var t1 := [CharOf(x)] + t2;
    hide Run, CharOf, Digit, Quad;
    QuadDigits(a, b, c, t);
    DigitsOfBytes(a, b, c);
    RunDigit(z, t, Scan(3, y % 4, 0), [c], START, out);
    RunDigit(y, t3, Scan(2, x % 16, 0), [b], Scan(3, y % 4, 0), [c] + out);
    RunDigit(x, t2, Scan(1, w, 0), [a], Scan(2, x % 16, 0), [b] + ([c] + out));
    RunDigit(w, t1, START, [], Scan(1, w, 0), [a] + ([b] + ([c] + out)));
    assert [] + ([a] + ([b] + ([c] + out))) == [a, b, c] + out;
  }

  lemma RunPads()
    ensures Run("==", Scan(2, 0, 0)) == Some([]) && Run("=", Scan(3, 0, 0)) == Some([])
  {
    assert "=="[1..] == "=";
    assert Run("=", Scan(2, 0, 1)) == Some([]);
  }

  lemma RunOne(a: Byte)
    ensures Run(Quad(a, 0, 0)[..2] + "==", START) == Some([a])
  {
    var w, x := a / 4, a % 4 * 16;
    assert Quad(a, 0, 0)[..2] + "==" == [CharOf(w)] + ([CharOf(x)] + "==");
    DigitsOfBytes(a, 0, 0);
    hide Run, CharOf, Digit, Quad;
    RunPads();
    var none: seq<Byte> := [];
    assert [a] + none == [a] && none + [a] == [a];
    RunDigit(x, "==", Scan(1, w, 0), [a], Scan(2, 0, 0), none);
    RunDigit(w, [CharOf(x)] + "==", START, none, Scan(1, w, 0), [a]);
  }

  lemma RunTwo(a: Byte, b: Byte)
    ensures Run(Quad(a, b, 0)[..3] + "=", START) == Some([a, b])
  {
    var w, x, y := a / 4, a % 4 * 16 + b / 16, b % 16 * 4;
    assert Quad(a, b, 0)[..3] + "=" == [CharOf(w)] + ([CharOf(x)] + ([CharOf(y)] + "="));
    DigitsOfBytes(a, b, 0);
    hide Run, CharOf, Digit, Quad;
    RunPads();
    var none: seq<Byte> := [];
    assert [b] + none == [b] && [a] + [b] == [a, b] && none + [a, b] == [a, b];
    RunDigit(y, "=", Scan(2, x % 16, 0), [b], Scan(3, 0, 0), none);
    RunDigit(x, [CharOf(y)] + "=", Scan(1, w, 0), [a], Scan(2, x % 16, 0), [b]);
    RunDigit(w, [CharOf(x)] + ([CharOf(y)] + "="), START, none, Scan(1, w, 0), [a, b]);
  }

  lemma {:induction false} RunOfPadded(raw: seq<Byte>)
    ensures Run(Padded(raw), START) == Some(raw)
  {
    if |raw| == 0 {
    } else if |raw| == 1 {
      RunOne(raw[0]);
      assert raw == [raw[0]];
    } else if |raw| == 2 {
      RunTwo(raw[0], raw[1]);
      assert raw == [raw[0], raw[1]];
    } else {
      RunOfPadded(raw[3..]);
      RunQuad(raw[0], raw[1], raw[2], Padded(raw[3..]), raw[3..]);
      assert raw == [raw[0], raw[1], raw[2]] + raw[3..];
    }
  }

  /** Digits only, no pad: rstrip keeps all of it. */
  predicate Plain(s: string) { forall i :: 0 <= i < |s| ==> UrlSafe(s[i]) }

  lemma {:induction false} UnpaddedOfPads(s: string, n: nat)
    requires Plain(s)
    ensures Unpadded(s + Pads(n)) == s
  {
    var t := s + Pads(n);
    if n == 0 {
      assert t == s;
    } else {
      UnpaddedOfPads(s, n - 1);
      assert t[|t| - 1] == '=' && t[..|t| - 1] == s + Pads(n - 1);
    }
  }

  lemma QuadPlain(a: Byte, b: Byte, c: Byte)
    ensures Plain(Quad(a, b, c))
  {
    ValueOfChar(a / 4);
    ValueOfChar(a % 4 * 16 + b / 16);
    ValueOfChar(b % 16 * 4 + c / 64);
    ValueOfChar(c % 64);
  }

  /** The padding that is stripped is the padding that the decoder's caller puts back. */
  lemma {:induction false} PaddingComesBack(raw: seq<Byte>)
    ensures Plain(Encode(raw)) && Padded(raw) == Encode(raw) + Pads(Missing(|Encode(raw)|))
  {
    var body := PaddedBody(raw);
    hide Unpadded;
    UnpaddedOfPads(body, Missing(|body|));
  }

  lemma PlainQuad(a: Byte, b: Byte, c: Byte, rest: string)
    requires Plain(rest)
    ensures Plain(Quad(a, b, c) + rest) && Missing(|Quad(a, b, c) + rest|) == Missing(|rest|)
  {
    QuadPlain(a, b, c);
    hide Quad;
    assert |Quad(a, b, c)| == 4 by { QuadLength(a, b, c); }
  }

  lemma QuadLength(a: Byte, b: Byte, c: Byte)
    ensures |Quad(a, b, c)| == 4
  {
  }

  lemma {:induction false} PaddedBody(raw: seq<Byte>) returns (body: string)
    ensures Plain(body) && Padded(raw) == body + Pads(Missing(|body|))
  {
    if |raw| == 0 {
      body := "";
    } else if |raw| == 1 {
      QuadPlain(raw[0], 0, 0);
      body := Quad(raw[0], 0, 0)[..2];
      assert Pads(2) == "==";
    } else if |raw| == 2 {
      QuadPlain(raw[0], raw[1], 0);
      body := Quad(raw[0], raw[1], 0)[..3];
      assert Pads(1) == "=";
    } else {
      var quad := Quad(raw[0], raw[1], raw[2]);
      var rest := PaddedBody(raw[3..]);
      assert Padded(raw) == quad + Padded(raw[3..]);
      hide *;
      PlainQuad(raw[0], raw[1], raw[2], rest);
      body := quad + rest;
      assert quad + (rest + Pads(Missing(|rest|))) == body + Pads(Missing(|rest|));
    }
  }

  /** Encoding and decoding is the identity on every byte string; the encoded text is URL-safe throughout. */
  lemma DecodeOfEncode(raw: seq<Byte>)
    ensures Decode(Encode(raw)) == Some(raw) && Plain(Encode(raw))
  {
    PaddingComesBack(raw);
    RunOfPadded(raw);
    hide Run, Padded, Unpadded;
  }

  /** Distinct byte strings have distinct encodings. */
  lemma EncodeInjective(a: seq<Byte>, b: seq<Byte>)
    requires Encode(a) == Encode(b)
    ensures a == b
  {
    DecodeOfEncode(a);
    DecodeOfEncode(b);
  }

  lemma PaddedQuad(a: Byte, b: Byte, c: Byte, rest: seq<Byte>)
    ensures Padded([a, b, c] + rest) == Quad(a, b, c) + Padded(rest)
  {
    var raw := [a, b, c] + rest;
    assert raw[3..] == rest;
    hide Quad;
  }

  lemma PaddedNothing()
    ensures Padded([]) == ""
  {
  }

  /** A test vector of section 10 of RFC 4648, and the last two digits of the URL-safe alphabet. */
  lemma KnownTexts()
    ensures Padded([102, 111, 111] + ([98, 97, 114] + [])) == "Zm9v" + ("YmFy" + "")
    ensures Padded([251, 239, 190] + ([255, 255, 255] + [])) == "----" + ("____" + "")
  {
    assert Quad(102, 111, 111) == "Zm9v" && Quad(98, 97, 114) == "YmFy";
    assert Quad(251, 239, 190) == "----" && Quad(255, 255, 255) == "____";
    hide *;
    PaddedNothing();
    PaddedQuad(98, 97, 114, []);
    PaddedQuad(102, 111, 111, [98, 97, 114] + []);
    PaddedQuad(255, 255, 255, []);
    PaddedQuad(251, 239, 190, [255, 255, 255] + []);
  }

  // ---- what else the decoder takes ----

  /** The text in the alphabet of Table 1 of RFC 4648. */
  function Standard(t: string): string {
    seq(|t|, i requires 0 <= i < |t| => if t[i] == '-' then '+' else if t[i] == '_' then '/' else t[i])
  }

  /** The standard alphabet decodes alike. */
  lemma {:induction false} StandardDecodesAlike(t: string, s: Scan)
    requires ScanOk(s)
    ensures Run(Standard(t), s) == Run(t, s)
    decreases |t|
  {
    var u := Standard(t);
    if t != "" {
      assert u[1..] == Standard(t[1..]);
      assert ValueOf(u[0]) == ValueOf(t[0]) && (u[0] == '=' <==> t[0] == '=');
      hide ValueOf, Digit;
      if t[0] == '=' {
        StandardDecodesAlike(t[1..], if s.position >= 2 then s.(pads := s.pads + 1) else s);
      } else if ValueOf(t[0]).None? {
        StandardDecodesAlike(t[1..], s);
      } else {
        StandardDecodesAlike(t[1..], Digit(s, ValueOf(t[0]).value).1);
      }
    }
  }

  /** Characters outside both alphabets are skipped, and no others. */
  lemma SkippedExactly(c: char)
    ensures ValueOf(c).None? <==> !UrlSafe(c) && c != '+' && c != '/'
  {
  }

  /** One pad where two belong is an error, and anything after a complete padding is ignored. */
  lemma PadsAreCounted(left: nat, rest: string)
    requires left < 16
    ensures Run("=", Scan(2, left, 0)).None? && Run("==" + rest, Scan(2, left, 0)) == Some([])
    ensures left < 4 ==> Run("=" + rest, Scan(3, left, 0)) == Some([])
  {
    assert ("==" + rest)[1..] == "=" + rest && "="[1..] == "";
    assert Run("=" + rest, Scan(2, left, 1)) == Some([]);
    assert Run("", Scan(2, left, 1)).None?;
  }
}
