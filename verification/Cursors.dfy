/** The four signed list cursors. The signature is any function of the payload bytes. */
module Cursors {
  import opened Basics
  import B = Base64Url
  import Decimals
  import J = FlatJson
  import T = Timestamps
  import Uuids

  datatype Kind = Contents | ReviewQueue | Library | StudentAssignments

  /** A keyset position; marker is the queue or cursor type that three of the kinds carry, and empty for the fourth. */
  datatype Cursor = Cursor(tenant: Uuids.Uuid, at: T.Moment, item: Uuids.Uuid, marker: string)

  datatype Key = AssignmentId | ContentId | CreatedAt | CursorType | QueueType | SubmittedAt | TenantId | UpdatedAt | V

  function Name(k: Key): string {
    match k
    case AssignmentId => "assignment_id"
    case ContentId => "content_id"
    case CreatedAt => "created_at"
    case CursorType => "cursor_type"
    case QueueType => "queue_type"
    case SubmittedAt => "submitted_at"
    case TenantId => "tenant_id"
    case UpdatedAt => "updated_at"
    case V => "v"
  }

  function TimeKey(kind: Kind): Key {
    match kind
    case Contents => CreatedAt
    case ReviewQueue => SubmittedAt
    case Library => UpdatedAt
    case StudentAssignments => UpdatedAt
  }

  function ItemKey(kind: Kind): Key { if kind.StudentAssignments? then AssignmentId else ContentId }

  /** The key under which a kind states its type; plain content cursors have none. */
  function MarkerKey(kind: Kind): Option<Key> {
    match kind
    case Contents => None
    case ReviewQueue => Some(QueueType)
    case _ => Some(CursorType)
  }

  function Marker(kind: Kind): string {
    match kind
    case Contents => ""
    case ReviewQueue => "teacher_os_review_queue"
    case Library => "teacher_os_library"
    case StudentAssignments => "student_os_assignments"
  }

  const VERSION: nat := 1

  // ---- encoding ----

  /** The payload in the order of its sorted keys. */
  function Payload(kind: Kind, c: Cursor, padded: bool): seq<(Key, J.Field)> {
    var at, item, tenant := J.Str(T.Canonical(c.at, padded)), J.Str(Uuids.Text(c.item)), J.Str(Uuids.Text(c.tenant));
    match kind
    case Contents => [(ContentId, item), (CreatedAt, at), (TenantId, tenant), (V, J.Num(VERSION))]
    case ReviewQueue => [(ContentId, item), (QueueType, J.Str(Marker(kind))), (SubmittedAt, at), (TenantId, tenant),
      (V, J.Num(VERSION))]
    case Library => [(ContentId, item), (CursorType, J.Str(Marker(kind))), (TenantId, tenant), (UpdatedAt, at),
      (V, J.Num(VERSION))]
    case StudentAssignments =>
      [(AssignmentId, item), (CursorType, J.Str(Marker(kind))), (TenantId, tenant), (UpdatedAt, at),
        (V, J.Num(VERSION))]
  }

  function Named(p: seq<(Key, J.Field)>): (e: J.Entries)
    ensures |e| == |p| && forall i :: 0 <= i < |p| ==> e[i] == (Name(p[i].0), p[i].1)
  {
    seq(|p|, i requires 0 <= i < |p| => (Name(p[i].0), p[i].1))
  }

  predicate Ascii(s: string) { forall i :: 0 <= i < |s| ==> s[i] < '\U{80}' }

  function Bytes(s: string): (b: seq<B.Byte>)
    requires Ascii(s)
  {
    seq(|s|, i requires 0 <= i < |s| => s[i] as int)
  }

  function Sign(payload: seq<B.Byte>, mac: seq<B.Byte> -> seq<B.Byte>): string {
    B.Encode(payload) + ("." + B.Encode(mac(payload)))
  }

  lemma NamePlain(k: Key)
    ensures J.Plain(Name(k))
  {
  }

  lemma MarkerPlain(kind: Kind)
    ensures J.Plain(Marker(kind))
  {
  }

  lemma UuidPlain(u: Uuids.Uuid)
    ensures J.Plain(Uuids.Text(u))
  {
    hide Uuids.TextFrom;
    Uuids.TextCharacters(u, 0);
    var t := Uuids.Text(u);
    assert t == Uuids.TextFrom(u, 0);
    forall i | 0 <= i < |t| ensures J.PlainChar(t[i]) { assert t[i] in t; }
  }

  lemma TimePlain(m: T.Moment, padded: bool)
    ensures J.Plain(T.Canonical(m, padded))
  {
    hide T.TextFrom;
    TimestampPlain(m, 0, padded);
  }

  lemma PayloadPlain(kind: Kind, c: Cursor, padded: bool, i: nat)
    requires i < |Payload(kind, c, padded)|
    ensures var f := Payload(kind, c, padded)[i].1; f.Str? ==> J.Plain(f.text)
  {
    UuidPlain(c.tenant);
    UuidPlain(c.item);
    TimePlain(c.at, padded);
    MarkerPlain(kind);
    hide Marker, Uuids.Text, T.Canonical, J.Plain;
  }

  lemma PayloadPrints(kind: Kind, c: Cursor, padded: bool)
    ensures J.PlainEntries(Named(Payload(kind, c, padded))) && Ascii(J.Print(Named(Payload(kind, c, padded))))
  {
    var p := Payload(kind, c, padded);
    var e := Named(p);
    hide Payload, Name, J.Plain, J.BodyText;
    PayloadNonempty(kind, c, padded);
    forall i | 0 <= i < |e| ensures J.Plain(e[i].0) && (e[i].1.Str? ==> J.Plain(e[i].1.text)) {
      NamePlain(p[i].0);
      PayloadPlain(kind, c, padded, i);
    }
    assert J.PlainEntries(e);
    hide Named, J.PlainEntries;
    J.PrintIsAscii(e);
    BodyAscii(e);
  }

  lemma BodyAscii(e: J.Entries)
    requires e != [] && forall i :: 0 <= i < |J.BodyText(e)| ==> J.BodyText(e)[i] < '\U{80}'
    ensures Ascii(J.Print(e))
  {
    hide J.BodyText;
  }

  lemma SeparatorPlain(i: nat)
    ensures J.Plain(T.Separator(i, "Z"))
  {
  }

  lemma {:induction false} TimestampPlain(m: T.Moment, i: nat, padded: bool)
    requires i <= 7
    ensures J.Plain(T.TextFrom(m, i, padded, "Z"))
    decreases 7 - i
  {
    if i < 7 {
      TimestampPlain(m, i + 1, padded);
      assert Decimals.AllDigits(T.PartText(m, i, padded));
      hide T.PartText, T.TextFrom, T.Separator;
      T.TextStep(m, i, padded, "Z");
      SeparatorPlain(i);
    }
  }

  /** encode, encode_review_queue, encode_library, encode_student_assignments; None is InvalidCursorError. */
  function Encode(kind: Kind, c: Cursor, mac: seq<B.Byte> -> seq<B.Byte>, padded: bool): Option<string>
  {
    if c.marker != Marker(kind) then None
    else
      PayloadPrints(kind, c, padded);
      Some(Sign(Bytes(J.Print(Named(Payload(kind, c, padded)))), mac))
  }

  /** The signed dictionary of each kind. */
  lemma PayloadDict(kind: Kind, c: Cursor, padded: bool)
    ensures var d := J.ToMap(Named(Payload(kind, c, padded)));
      var at, item, tenant := J.Str(T.Canonical(c.at, padded)), J.Str(Uuids.Text(c.item)), J.Str(Uuids.Text(c.tenant));
      match kind
      case Contents => d == map["content_id" := item, "created_at" := at, "tenant_id" := tenant, "v" := J.Num(1)]
      case ReviewQueue =>
        d == map["content_id" := item, "queue_type" := J.Str("teacher_os_review_queue"), "submitted_at" := at,
                 "tenant_id" := tenant, "v" := J.Num(1)]
      case Library =>
        d == map["content_id" := item, "cursor_type" := J.Str("teacher_os_library"), "tenant_id" := tenant,
                 "updated_at" := at, "v" := J.Num(1)]
      case StudentAssignments =>
        d == map["assignment_id" := item, "cursor_type" := J.Str("student_os_assignments"), "tenant_id" := tenant,
                 "updated_at" := at, "v" := J.Num(1)]
  {
    var p := Payload(kind, c, padded);
    var e := Named(p);
    hide T.Canonical, Uuids.Text, Named;
    if kind.Contents? {
      DictOfFour(e);
    } else {
      DictOfFive(e);
    }
  }

  lemma DictOfFour(e: J.Entries)
    requires |e| == 4
    ensures J.ToMap(e) == map[e[0].0 := e[0].1][e[1].0 := e[1].1][e[2].0 := e[2].1][e[3].0 := e[3].1]
  {
    var m: map<string, J.Field> := map[];
    assert e[..3][..2] == e[..2] && e[..2][..1] == e[..1] && e[..1][..0] == [];
    assert J.ToMap(e[..1]) == m[e[0].0 := e[0].1];
    assert J.ToMap(e[..2]) == J.ToMap(e[..1])[e[1].0 := e[1].1];
    assert J.ToMap(e[..3]) == J.ToMap(e[..2])[e[2].0 := e[2].1];
  }

  lemma DictOfFive(e: J.Entries)
    requires |e| == 5
    ensures J.ToMap(e)
      == map[e[0].0 := e[0].1][e[1].0 := e[1].1][e[2].0 := e[2].1][e[3].0 := e[3].1][e[4].0 := e[4].1]
  {
    assert forall i :: 0 <= i < 4 ==> e[..4][i] == e[i];
    DictOfFour(e[..4]);
  }

  // ---- decoding ----

  function DotPosition(s: string): (k: nat)
    ensures k <= |s|
  {
    if s == "" || s[0] == '.' then 0 else 1 + DotPosition(s[1..])
  }

  /** The text of ASCII bytes; other bytes cannot occur in a payload that the encoders print. */
  function TextOf(b: seq<B.Byte>): Option<string> {
    if exists i :: 0 <= i < |b| && b[i] >= 128 then None
    else Some(seq(|b|, i requires 0 <= i < |b| => if b[i] < 128 then b[i] as char else ' '))
  }

  /** Everything before the fields are looked at: split, decode, compare the signatures, parse. */
  function Opened(token: string, mac: seq<B.Byte> -> seq<B.Byte>): Option<map<string, J.Field>> {
    var k := DotPosition(token);
    if k == |token| then None
    else
      var payload, signature := B.Decode(token[..k]), B.Decode(token[k + 1..]);
      if payload.None? || signature.None? || signature.value != mac(payload.value) then None
      else
        var text := TextOf(payload.value);
        if text.None? then None
        else
          match J.Read(text.value)
          case None => None
          case Some(entries) => Some(J.ToMap(entries))
  }

  /** str(data[key]) */
  function FieldText(data: map<string, J.Field>, key: Key): Option<string> {
    if Name(key) !in data then None
    else
      match data[Name(key)]
      case Str(s) => Some(s)
      case Num(n) => Some(Decimals.Text(n))
  }

  function UuidField(data: map<string, J.Field>, key: Key): Option<Uuids.Uuid> {
    match FieldText(data, key)
    case None => None
    case Some(s) => Uuids.ReadLoosely(s)
  }

  function TimeField(data: map<string, J.Field>, key: Key): Option<T.Moment> {
    match FieldText(data, key)
    case None => None
    case Some(s) => T.ReadMoment(T.ZoneReplaced(s))
  }

  predicate Has(data: map<string, J.Field>, key: Key, value: J.Field) { Name(key) in data && data[Name(key)] == value }

  function FromData(kind: Kind, data: map<string, J.Field>, expected: Uuids.Uuid): Option<Cursor> {
    if !Has(data, V, J.Num(VERSION)) then None
    else if MarkerKey(kind).Some? && !Has(data, MarkerKey(kind).value, J.Str(Marker(kind))) then None
    else
      var tenant, item, at := UuidField(data, TenantId), UuidField(data, ItemKey(kind)), TimeField(data, TimeKey(kind));
      if tenant.None? || item.None? || at.None? then None
      else if tenant.value != expected then None
      else Some(Cursor(tenant.value, at.value, item.value, Marker(kind)))
  }

  /** decode and its three variants; None is InvalidCursorError. */
  function Decode(kind: Kind, token: string, expected: Uuids.Uuid, mac: seq<B.Byte> -> seq<B.Byte>): Option<Cursor> {
    match Opened(token, mac)
    case None => None
    case Some(data) => FromData(kind, data, expected)
  }

  // ---- opening what was signed ----

  lemma PlainHasNoDot(s: string)
    requires B.Plain(s)
    ensures '.' !in s
  {
  }

  lemma {:induction false} DotOf(s: string, t: string)
    requires '.' !in s
    ensures DotPosition(s + ("." + t)) == |s|
  {
    var w := s + ("." + t);
    if s == "" {
      assert w == "." + t;
    } else {
      DotOf(s[1..], t);
      assert w[1..] == s[1..] + ("." + t) && w[0] == s[0];
    }
  }

  lemma TextOfBytes(s: string)
    requires Ascii(s)
    ensures TextOf(Bytes(s)) == Some(s)
  {
    var b := Bytes(s);
    assert forall i :: 0 <= i < |b| ==> b[i] == s[i] as int && b[i] < 128;
    assert TextOf(b).value == s;
  }

  lemma OpenedMeans(blob: string, signature: string, payload: seq<B.Byte>, text: string, e: J.Entries,
    mac: seq<B.Byte> -> seq<B.Byte>)
    requires DotPosition(blob + ("." + signature)) == |blob|
    requires B.Decode(blob) == Some(payload) && B.Decode(signature) == Some(mac(payload))
    requires TextOf(payload) == Some(text) && J.Read(text) == Some(e)
    ensures Opened(blob + ("." + signature), mac) == Some(J.ToMap(e))
  {
    hide B.Decode, DotPosition, TextOf, J.Read, J.ToMap;
    var token := blob + ("." + signature);
    assert token[..|blob|] == blob && token[|blob| + 1..] == signature;
  }

  /** A signed object opens to its own dict. */
  lemma OpenedOfSign(e: J.Entries, mac: seq<B.Byte> -> seq<B.Byte>)
    requires e != [] && J.PlainEntries(e) && Ascii(J.Print(e))
    ensures Opened(Sign(Bytes(J.Print(e)), mac), mac) == Some(J.ToMap(e))
  {
    hide B.Encode, B.Decode, B.Plain, DotPosition, TextOf, Bytes, J.Read, J.Print, J.ToMap, J.PlainEntries;
    hide Ascii, Opened;
    var payload := Bytes(J.Print(e));
    B.DecodeOfEncode(payload);
    B.DecodeOfEncode(mac(payload));
    PlainHasNoDot(B.Encode(payload));
    DotOf(B.Encode(payload), B.Encode(mac(payload)));
    TextOfBytes(J.Print(e));
    J.ReadOfPrint(e);
    OpenedMeans(B.Encode(payload), B.Encode(mac(payload)), payload, J.Print(e), e, mac);
  }

  lemma OpenedParts(blob: string, signature: string, mac: seq<B.Byte> -> seq<B.Byte>)
    requires '.' !in blob && Opened(blob + ("." + signature), mac).Some?
    ensures B.Decode(blob).Some? && B.Decode(signature) == Some(mac(B.Decode(blob).value))
  {
    var token := blob + ("." + signature);
    DotOf(blob, signature);
    assert token[..|blob|] == blob && token[|blob| + 1..] == signature;
    hide B.Decode, DotPosition, J.Read, J.ToMap, TextOf;
  }

  lemma OpenedAlike(a: string, b: string, signature: string, mac: seq<B.Byte> -> seq<B.Byte>)
    requires '.' !in a && '.' !in b && B.Decode(a) == B.Decode(b)
    ensures Opened(a + ("." + signature), mac) == Opened(b + ("." + signature), mac)
  {
    var s, t := a + ("." + signature), b + ("." + signature);
    DotOf(a, signature);
    DotOf(b, signature);
    assert s[..|a|] == a && s[|a| + 1..] == signature && t[..|b|] == b && t[|b| + 1..] == signature;
    hide B.Decode, DotPosition, J.Read, J.ToMap, TextOf;
  }

  /**
   A signature cannot be carried over to another payload: two tokens with the same second part
   that are both opened give the same dict, or the signature function maps their two different
   payloads to the same bytes.
   */
  lemma SignatureFixesDict(a: string, b: string, signature: string, mac: seq<B.Byte> -> seq<B.Byte>)
    requires '.' !in a && '.' !in b
    requires Opened(a + ("." + signature), mac).Some? && Opened(b + ("." + signature), mac).Some?
    ensures B.Decode(a).Some? && B.Decode(b).Some?
    ensures Opened(a + ("." + signature), mac) == Opened(b + ("." + signature), mac)
      || (B.Decode(a).value != B.Decode(b).value && mac(B.Decode(a).value) == mac(B.Decode(b).value))
  {
    hide B.Decode, Opened;
    OpenedParts(a, signature, mac);
    OpenedParts(b, signature, mac);
    if B.Decode(a) == B.Decode(b) { OpenedAlike(a, b, signature, mac); }
  }

  // ---- the dict of a payload ----

  lemma NamesDiffer(j: Key, k: Key)
    requires Name(j) == Name(k)
    ensures j == k
  {
    NameShape(j);
    NameShape(k);
    hide Name;
  }

  function Shape(k: Key): (nat, char) {
    match k
    case AssignmentId => (13, 's')
    case ContentId => (10, 'o')
    case CreatedAt => (10, 'r')
    case CursorType => (11, 'u')
    case QueueType => (10, 'u')
    case SubmittedAt => (12, 'u')
    case TenantId => (9, 'e')
    case UpdatedAt => (10, 'p')
    case V => (1, 'v')
  }

  lemma NameShape(k: Key)
    ensures (|Name(k)|, if |Name(k)| > 1 then Name(k)[1] else 'v') == Shape(k)
  {
  }

  ghost predicate KeysDistinct(p: seq<(Key, J.Field)>) { forall i, j :: 0 <= i < j < |p| ==> p[i].0 != p[j].0 }

  lemma PayloadLookup(p: seq<(Key, J.Field)>, k: Key)
    requires KeysDistinct(p)
    ensures Name(k) in J.ToMap(Named(p)) <==> exists i :: 0 <= i < |p| && p[i].0 == k
    ensures forall i :: 0 <= i < |p| && p[i].0 == k ==> J.ToMap(Named(p))[Name(k)] == p[i].1
  {
    var e := Named(p);
    J.LookupInMap(e, Name(k));
    forall i | 0 <= i < |p| ensures e[i].0 == Name(k) <==> p[i].0 == k {
      if e[i].0 == Name(k) { NamesDiffer(p[i].0, k); }
    }
    hide Name, J.ToMap;
    forall i | 0 <= i < |p| && p[i].0 == k ensures J.ToMap(e)[Name(k)] == p[i].1 {
      assert e[i].0 == Name(k) && forall j :: i < j < |e| ==> e[j].0 != Name(k);
    }
  }

  /** What each key of a payload is bound to; None where it is absent. */
  function Bound(kind: Kind, c: Cursor, padded: bool, k: Key): Option<J.Field> {
    if k == V then Some(J.Num(VERSION))
    else if k == TenantId then Some(J.Str(Uuids.Text(c.tenant)))
    else if k == ItemKey(kind) then Some(J.Str(Uuids.Text(c.item)))
    else if k == TimeKey(kind) then Some(J.Str(T.Canonical(c.at, padded)))
    else if Some(k) == MarkerKey(kind) then Some(J.Str(Marker(kind)))
    else None
  }

  lemma PayloadBinds(kind: Kind, c: Cursor, padded: bool, k: Key)
    ensures var data := J.ToMap(Named(Payload(kind, c, padded)));
      match Bound(kind, c, padded, k)
      case None => Name(k) !in data
      case Some(f) => Has(data, k, f)
  {
    hide Name, J.ToMap, Uuids.Text, T.Canonical, Marker, Payload;
    PayloadKeys(kind, c, padded, k);
    PayloadLookup(Payload(kind, c, padded), k);
  }

  /** A payload has each key once, and the bound ones with their fields. */
  lemma PayloadKeys(kind: Kind, c: Cursor, padded: bool, k: Key)
    ensures var p := Payload(kind, c, padded);
      && KeysDistinct(p)
      && match Bound(kind, c, padded, k)
         case None => !exists i :: 0 <= i < |p| && p[i].0 == k
         case Some(f) => exists i :: 0 <= i < |p| && p[i].0 == k && p[i].1 == f
  {
    var p := Payload(kind, c, padded);
    hide Uuids.Text, T.Canonical, Marker;
    match kind
    case Contents => assert p[0].0 == ContentId && p[1].0 == CreatedAt && p[2].0 == TenantId && p[3].0 == V;
    case ReviewQueue =>
      assert p[0].0 == ContentId && p[1].0 == QueueType && p[2].0 == SubmittedAt && p[3].0 == TenantId && p[4].0 == V;
    case Library =>
      assert p[0].0 == ContentId && p[1].0 == CursorType && p[2].0 == TenantId && p[3].0 == UpdatedAt && p[4].0 == V;
    case StudentAssignments =>
      assert p[0].0 == AssignmentId && p[1].0 == CursorType && p[2].0 == TenantId && p[3].0 == UpdatedAt && p[4].0 == V;
  }

  lemma MarkersDiffer(j: Kind, k: Kind)
    requires Marker(j) == Marker(k)
    ensures j == k
  {
    assert |Marker(Contents)| == 0 && |Marker(ReviewQueue)| == 23 && |Marker(Library)| == 18
      && |Marker(StudentAssignments)| == 22;
  }

  lemma EncodeOpens(kind: Kind, c: Cursor, mac: seq<B.Byte> -> seq<B.Byte>, padded: bool)
    requires c.marker == Marker(kind)
    ensures Opened(Encode(kind, c, mac, padded).value, mac) == Some(J.ToMap(Named(Payload(kind, c, padded))))
  {
    PayloadPrints(kind, c, padded);
    hide Opened, Payload, J.Print, J.ToMap, J.PlainEntries, Ascii, Sign, Bytes, Marker;
    assert Named(Payload(kind, c, padded)) != [] by { PayloadNonempty(kind, c, padded); }
    OpenedOfSign(Named(Payload(kind, c, padded)), mac);
  }

  lemma PayloadNonempty(kind: Kind, c: Cursor, padded: bool)
    ensures Payload(kind, c, padded) != []
  {
  }

  lemma UuidFieldOf(data: map<string, J.Field>, key: Key, u: Uuids.Uuid)
    requires Has(data, key, J.Str(Uuids.Text(u)))
    ensures UuidField(data, key) == Some(u)
  {
    Uuids.ReadLooselyOfText(u);
    hide Name, Uuids.Text, Uuids.ReadLoosely;
  }

  lemma TimeFieldOf(data: map<string, J.Field>, key: Key, m: T.Moment, padded: bool)
    requires T.InRange(m) && Has(data, key, J.Str(T.Canonical(m, padded)))
    ensures TimeField(data, key) == if padded || m.year >= 1000 then Some(m) else None
  {
    T.MomentRoundTrip(m, padded);
    hide Name, T.Canonical, T.ReadMoment, T.ZoneReplaced, T.InRange;
  }

  lemma PayloadHas(kind: Kind, c: Cursor, padded: bool, k: Key)
    requires Bound(kind, c, padded, k).Some?
    ensures Has(J.ToMap(Named(Payload(kind, c, padded))), k, Bound(kind, c, padded, k).value)
  {
    PayloadBinds(kind, c, padded, k);
    hide *;
  }

  lemma AllBound(kind: Kind, c: Cursor, padded: bool)
    ensures Bound(kind, c, padded, V) == Some(J.Num(VERSION))
    ensures Bound(kind, c, padded, TenantId) == Some(J.Str(Uuids.Text(c.tenant)))
    ensures Bound(kind, c, padded, ItemKey(kind)) == Some(J.Str(Uuids.Text(c.item)))
    ensures Bound(kind, c, padded, TimeKey(kind)) == Some(J.Str(T.Canonical(c.at, padded)))
    ensures MarkerKey(kind).Some? ==> Bound(kind, c, padded, MarkerKey(kind).value) == Some(J.Str(Marker(kind)))
  {
    hide Uuids.Text, T.Canonical, Marker;
  }

  lemma FromPayload(kind: Kind, c: Cursor, tenant: Uuids.Uuid, padded: bool)
    requires T.InRange(c.at) && c.marker == Marker(kind)
    ensures FromData(kind, J.ToMap(Named(Payload(kind, c, padded))), tenant) ==
      if tenant == c.tenant && (padded || c.at.year >= 1000) then Some(c) else None
  {
    hide *;
    var data := J.ToMap(Named(Payload(kind, c, padded)));
    AllBound(kind, c, padded);
    PayloadHas(kind, c, padded, V);
    PayloadHas(kind, c, padded, TenantId);
    PayloadHas(kind, c, padded, ItemKey(kind));
    PayloadHas(kind, c, padded, TimeKey(kind));
    if MarkerKey(kind).Some? { PayloadHas(kind, c, padded, MarkerKey(kind).value); }
    UuidFieldOf(data, TenantId, c.tenant);
    UuidFieldOf(data, ItemKey(kind), c.item);
    TimeFieldOf(data, TimeKey(kind), c.at, padded);
    FromDataMeans(kind, data, tenant);
  }

  lemma FromDataMeans(kind: Kind, data: map<string, J.Field>, expected: Uuids.Uuid)
    requires Has(data, V, J.Num(VERSION))
    requires MarkerKey(kind).Some? ==> Has(data, MarkerKey(kind).value, J.Str(Marker(kind)))
    ensures FromData(kind, data, expected) ==
      var tenant, item, at := UuidField(data, TenantId), UuidField(data, ItemKey(kind)), TimeField(data, TimeKey(kind));
      if tenant.Some? && item.Some? && at.Some? && tenant.value == expected
      then Some(Cursor(tenant.value, at.value, item.value, Marker(kind))) else None
  {
    hide Has, MarkerKey, Marker, UuidField, TimeField, ItemKey, TimeKey;
  }

  /** What a dictionary that decodes must state: version 1, the type of its kind, and the caller's tenant. */
  lemma DecodedStates(kind: Kind, data: map<string, J.Field>, expected: Uuids.Uuid)
    requires FromData(kind, data, expected).Some?
    ensures "v" in data && data["v"] == J.Num(1)
    ensures kind.ReviewQueue? ==> "queue_type" in data && data["queue_type"] == J.Str("teacher_os_review_queue")
    ensures kind.Library? ==> "cursor_type" in data && data["cursor_type"] == J.Str("teacher_os_library")
    ensures kind.StudentAssignments? ==> "cursor_type" in data && data["cursor_type"] == J.Str("student_os_assignments")
    ensures FromData(kind, data, expected).value.tenant == expected && UuidField(data, TenantId) == Some(expected)
    ensures FromData(kind, data, expected).value.marker == Marker(kind)
  {
    hide UuidField, TimeField;
  }

  /**
   A cursor that a codec accepts comes back from its own decoder with the right tenant: always when
   years are padded, and otherwise exactly from the year 1000 on. No other tenant gets anything.
   */
  lemma CursorRoundTrip(kind: Kind, c: Cursor, tenant: Uuids.Uuid, mac: seq<B.Byte> -> seq<B.Byte>, padded: bool)
    requires T.InRange(c.at)
    ensures Encode(kind, c, mac, padded).Some? <==> c.marker == Marker(kind)
    ensures var token := Encode(kind, c, mac, padded);
      var expected := if tenant == c.tenant && (padded || c.at.year >= 1000) then Some(c) else None;
      token.Some? ==> Decode(kind, token.value, tenant, mac) == expected
  {
    if c.marker == Marker(kind) {
      EncodeOpens(kind, c, mac, padded);
      FromPayload(kind, c, tenant, padded);
    }
    hide Marker, J.ToMap, Named, Payload, FromData, Opened, T.InRange, Sign, Bytes, J.Print;
  }

  lemma PayloadLacks(kind: Kind, c: Cursor, padded: bool, k: Key)
    requires Bound(kind, c, padded, k).None?
    ensures Name(k) !in J.ToMap(Named(Payload(kind, c, padded)))
  {
    PayloadBinds(kind, c, padded, k);
    hide *;
  }

  /** A dict of one kind lacks what another decoder looks for, or binds it to another type. */
  lemma OtherKindMisses(kind: Kind, other: Kind, c: Cursor, tenant: Uuids.Uuid, padded: bool)
    requires other != kind
    ensures FromData(other, J.ToMap(Named(Payload(kind, c, padded))), tenant).None?
  {
    hide J.ToMap, Named, Payload, Name, Uuids.Text, T.Canonical, UuidField, Marker;
    var data := J.ToMap(Named(Payload(kind, c, padded)));
    if other.Contents? {
      PayloadLacks(kind, c, padded, CreatedAt);
      assert TimeField(data, CreatedAt).None?;
    } else {
      var key := MarkerKey(other).value;
      assert !Has(data, key, J.Str(Marker(other))) by {
        if Bound(kind, c, padded, key).None? {
          PayloadLacks(kind, c, padded, key);
        } else {
          PayloadHas(kind, c, padded, key);
          if Marker(kind) == Marker(other) { MarkersDiffer(kind, other); }
        }
      }
      hide TimeField, Has;
    }
  }

  /** No decoder accepts a token of another kind, whatever the tenant. */
  lemma KindsAreSeparate(kind: Kind, other: Kind, c: Cursor, tenant: Uuids.Uuid, mac: seq<B.Byte> -> seq<B.Byte>,
    padded: bool)
    requires other != kind
    ensures var token := Encode(kind, c, mac, padded);
      token.Some? ==> Decode(other, token.value, tenant, mac).None?
  {
    if c.marker == Marker(kind) {
      EncodeOpens(kind, c, mac, padded);
      OtherKindMisses(kind, other, c, tenant, padded);
    }
    hide Marker, J.ToMap, Named, Payload, FromData, Opened, Sign, Bytes, J.Print;
  }
}
