/** The related-resource check of the security audit ledger. */
module RelatedRefs {
  import opened Basics
  import opened Json
  import opened PgText
  import opened Provenance
  import Decimals
  import Uuids

  /** The resource that a reference names. */
  datatype Resource = Resource(kind: string, id: Uuids.Uuid, revision: Option<nat>)

  /** The audited resource; a NULL argument equals nothing, except that a NULL revision matches no revision. */
  datatype Primary = Primary(kind: Option<string>, id: Option<Uuids.Uuid>, revision: Option<int>)

  /** The revision branch: null, or a number whose text is digits only and fits bigint. */
  function ReadRevision(j: Json): Option<Option<nat>> {
    if j.Null? then Some(None)
    else if !j.Number? then None
    else
      var text := NumberText(j.mantissa, j.scale);
      if text == "" || !Decimals.AllDigits(text) then None
      else if Decimals.Value(text) > BIGINT_MAX then None
      else Some(Some(Decimals.Value(text)))
  }

  /** The tests on one element, in order, up to the comparison with the primary resource. */
  function ReadRef(item: Json): (r: Option<Resource>)
    ensures r.Some? ==> IsIdentifier(r.value.kind)
  {
    if !item.Object? then None
    else if item.fields.Keys != REF_KEYS then None
    else if !item.fields["resource_type"].String? then None
    else if !IsIdentifier(item.fields["resource_type"].text) then None
    else if !item.fields["resource_id"].String? then None
    else
      var id := Uuids.Read(item.fields["resource_id"].text);
      if id.None? then None
      else
        var revision := ReadRevision(item.fields["resource_revision"]);
        if revision.None? then None
        else Some(Resource(item.fields["resource_type"].text, id.value, revision.value))
  }

  predicate IsPrimary(r: Resource, p: Primary) {
    && p.kind == Some(r.kind) && p.id == Some(r.id)
    && match (r.revision, p.revision)
       case (None, None) => true
       case (Some(a), Some(b)) => a == b
       case _ => false
  }

  function Fingerprint(r: Resource): string {
    r.kind + "|" + (Uuids.Text(r.id) + "|" + (if r.revision.Some? then Decimals.Text(r.revision.value) else "null"))
  }

  lemma SplitAtBar(a: string, b: string, c: string, d: string)
    requires a + "|" + b == c + "|" + d && '|' !in a && '|' !in c
    ensures a == c && b == d
  {
    var s, t := a + "|" + b, c + "|" + d;
    assert s[|a|] == '|' && t[|c|] == '|';
    assert forall i :: 0 <= i < |c| ==> t[i] == c[i];
    assert forall i :: 0 <= i < |a| ==> s[i] == a[i];
    assert |a| == |c|;
    assert a == s[..|a|] == t[..|c|] == c;
    assert b == s[|a| + 1..] == t[|c| + 1..] == d;
  }

  lemma NoBarInIdentifier(s: string)
    requires IsIdentifier(s)
    ensures '|' !in s
  {
    assert forall i :: 0 <= i < |s| ==> IdentifierChar(s[i]);
  }

  lemma NoBarInUuid(u: Uuids.Uuid)
    ensures '|' !in Uuids.Text(u)
  {
    hide Uuids.TextFrom;
    Uuids.TextCharacters(u, 0);
  }

  /** Equal fingerprints are equal resources, so searching the joined texts loses nothing. */
  lemma FingerprintInjective(q: Resource, r: Resource)
    requires IsIdentifier(q.kind) && IsIdentifier(r.kind)
    ensures Fingerprint(q) == Fingerprint(r) <==> q == r
  {
    hide Uuids.TextFrom, Uuids.Read, IsIdentifier;
    assert '|' !in q.kind && '|' !in r.kind by { NoBarInIdentifier(q.kind); NoBarInIdentifier(r.kind); }
    if Fingerprint(q) == Fingerprint(r) {
      var s, t := if q.revision.Some? then Decimals.Text(q.revision.value) else "null",
        if r.revision.Some? then Decimals.Text(r.revision.value) else "null";
      NoBarInUuid(q.id);
      NoBarInUuid(r.id);
      Uuids.ReadOfText(q.id);
      Uuids.ReadOfText(r.id);
      hide Uuids.Text, Decimals.Text;
      SplitAtBar(q.kind, Uuids.Text(q.id) + "|" + s, r.kind, Uuids.Text(r.id) + "|" + t);
      SplitAtBar(Uuids.Text(q.id), s, Uuids.Text(r.id), t);
      assert "null"[0] == 'n' && !Decimals.IsDigit('n');
      if q.revision.Some? && r.revision.Some? { Decimals.TextInjective(q.revision.value, r.revision.value); }
      if q.revision.Some? { assert Decimals.IsDigit(s[0]); }
      if r.revision.Some? { assert Decimals.IsDigit(t[0]); }
    }
  }

  /** The first n elements name resources other than the primary one. */
  ghost predicate Related(items: seq<Json>, n: nat, p: Primary)
    requires n <= |items|
  {
    forall i :: 0 <= i < n ==> NamesOther(items[i], p)
  }

  ghost predicate NamesOther(item: Json, p: Primary) { ReadRef(item).Some? && !IsPrimary(ReadRef(item).value, p) }

  ghost predicate NamesDistinct(items: seq<Json>, n: nat)
    requires n <= |items|
  {
    forall i, j :: 0 <= i < j < n ==> ReadRef(items[i]) != ReadRef(items[j])
  }

  ghost predicate Prints(seen: seq<string>, items: seq<Json>) {
    |seen| <= |items| &&
    forall i :: 0 <= i < |seen| ==> ReadRef(items[i]).Some? && seen[i] == Fingerprint(ReadRef(items[i]).value)
  }

  /** Membership of the fingerprint among those seen is membership of the resource among those named. */
  lemma SeenMeansNamed(seen: seq<string>, items: seq<Json>, r: Resource)
    requires Prints(seen, items) && IsIdentifier(r.kind)
    ensures Fingerprint(r) in seen <==> exists i :: 0 <= i < |seen| && ReadRef(items[i]) == Some(r)
  {
    forall i | 0 <= i < |seen| ensures seen[i] == Fingerprint(r) <==> ReadRef(items[i]) == Some(r) {
      assert ReadRef(items[i]).Some?;
      FingerprintInjective(ReadRef(items[i]).value, r);
      hide Fingerprint, ReadRef;
    }
    hide Fingerprint, ReadRef;
  }

  lemma PrintsMore(seen: seq<string>, items: seq<Json>)
    requires |seen| < |items| && Prints(seen, items) && ReadRef(items[|seen|]).Some?
    ensures Prints(seen + [Fingerprint(ReadRef(items[|seen|]).value)], items)
  {
    hide ReadRef, Fingerprint;
  }

  lemma DistinctMore(items: seq<Json>, k: nat)
    requires k < |items| && NamesDistinct(items, k)
    ensures (exists i :: 0 <= i < k && ReadRef(items[i]) == ReadRef(items[k])) ==> !NamesDistinct(items, |items|)
    ensures !(exists i :: 0 <= i < k && ReadRef(items[i]) == ReadRef(items[k])) ==> NamesDistinct(items, k + 1)
  {
    hide ReadRef;
  }

  lemma RelatedMore(items: seq<Json>, k: nat, p: Primary)
    requires k < |items| && Related(items, k, p) && NamesOther(items[k], p)
    ensures Related(items, k + 1, p)
  {
    hide NamesOther;
  }

  /** One turn of the loop: a new fingerprint extends the checked prefix, a known one repeats a resource. */
  lemma NextElement(seen: seq<string>, items: seq<Json>, p: Primary)
    requires |seen| < |items| && Prints(seen, items) && NamesOther(items[|seen|], p)
    requires Related(items, |seen|, p) && NamesDistinct(items, |seen|)
    ensures ReadRef(items[|seen|]).Some?
    ensures var f := Fingerprint(ReadRef(items[|seen|]).value);
      if f in seen then !NamesDistinct(items, |items|)
      else Prints(seen + [f], items) && Related(items, |seen| + 1, p) && NamesDistinct(items, |seen| + 1)
  {
    hide *;
    Unfold(items[|seen|], p);
    SeenMeansNamed(seen, items, ReadRef(items[|seen|]).value);
    PrintsMore(seen, items);
    DistinctMore(items, |seen|);
    RelatedMore(items, |seen|, p);
  }

  lemma NothingYet(items: seq<Json>, p: Primary)
    ensures Related(items, 0, p) && NamesDistinct(items, 0) && Prints([], items)
  {
  }

  lemma Unfold(item: Json, p: Primary)
    ensures NamesOther(item, p) <==> ReadRef(item).Some? && !IsPrimary(ReadRef(item).value, p)
  {
    hide ReadRef, IsPrimary;
  }

  lemma NotRelated(items: seq<Json>, k: nat, p: Primary)
    requires k < |items| && !NamesOther(items[k], p)
    ensures !Related(items, |items|, p)
  {
  }

  /**
   related_resource_refs_are_valid: true exactly for an array of at most 16 well-formed references
   to pairwise distinct resources, none of them the primary one.
   */
  method AreValid(value: Option<Json>, primary: Primary) returns (r: bool)
    ensures r <==>
      && value.Some? && value.value.Array? && |value.value.items| <= 16
      && Related(value.value.items, |value.value.items|, primary)
      && NamesDistinct(value.value.items, |value.value.items|)
  {
    if value.None? || !value.value.Array? { return false; }
    var items := value.value.items;
    if |items| > 16 { return false; }
    hide *;
    var seen: seq<string> := [];
    assert Related(items, 0, primary) && NamesDistinct(items, 0) && Prints(seen, items) by {
      NothingYet(items, primary);
    }
    for k := 0 to |items|
      invariant |seen| == k && Related(items, k, primary) && NamesDistinct(items, k) && Prints(seen, items)
    {
      var resource := ReadRef(items[k]);
      assert NamesOther(items[k], primary) <==> resource.Some? && !IsPrimary(resource.value, primary) by {
        Unfold(items[k], primary);
      }
      if resource.None? || IsPrimary(resource.value, primary) {
        NotRelated(items, k, primary);
        return false;
      }
      NextElement(seen, items, primary);
      var fingerprint := Fingerprint(resource.value);
      if fingerprint in seen { return false; }
      seen := seen + [fingerprint];
    }
    r := true;
  }

  /** A revision is read exactly if it is null or a whole number within bigint that is written without decimals. */
  lemma RevisionReadExactly(j: Json)
    ensures ReadRevision(j) ==
      if j.Null? then Some(None)
      else if j.Number? && j.scale == 0 && 0 <= j.mantissa < 9223372036854775808 then Some(Some(j.mantissa))
      else None
  {
    if j.Number? {
      var text := NumberText(j.mantissa, j.scale);
      if j.mantissa < 0 {
        assert text[0] == '-' && !Decimals.IsDigit('-');
      } else if j.scale > 0 {
        var whole := WholeText(j.mantissa, j.scale);
        assert text[|whole|] == '.' && !Decimals.IsDigit('.');
      } else {
        assert text == Decimals.Text(j.mantissa);
        Decimals.ValueOfText(j.mantissa);
      }
    }
  }

  /**
   The audit ledger and the provenance validator agree on references but for one point: the
   ledger refuses a whole revision written with decimals, such as 1.0.
   */
  lemma StricterThanProvenance(j: Json)
    ensures ReadRef(j).Some? <==>
      && RefVerdict(Some(j)).Accepts?
      && (j.fields["resource_revision"].Number? ==> j.fields["resource_revision"].scale == 0)
  {
    RefAcceptedExactly(j);
    if j.Object? && j.fields.Keys == REF_KEYS {
      assert "resource_revision" in j.fields && "resource_id" in j.fields && "resource_type" in j.fields;
      var revision := j.fields["resource_revision"];
      RevisionReadExactly(revision);
      if revision.Number? && revision.scale == 0 {
        assert Decimals.Pow10(0) == 1;
        if revision.mantissa >= 0 { assert IsInteger(revision, revision.mantissa); }
      }
      hide ReadRevision, RefVerdict, Uuids.Read, IsIdentifier;
    }
  }

  // ---- the primary resource ----

  /** A reference to the resource, as a writer would print it. */
  function Printed(r: Resource): Json {
    Object(map[
      "resource_type" := String(r.kind), "resource_id" := String(Uuids.Text(r.id)),
      "resource_revision" := if r.revision.Some? then Number(r.revision.value, 0) else Null])
  }

  lemma PrintedIsRead(r: Resource)
    requires IsIdentifier(r.kind) && (r.revision.Some? ==> r.revision.value < 9223372036854775808)
    ensures ReadRef(Printed(r)) == Some(r)
  {
    var j := Printed(r);
    assert j.fields.Keys == REF_KEYS;
    Uuids.ReadOfText(r.id);
    RevisionReadExactly(j.fields["resource_revision"]);
    hide Uuids.Text, Uuids.Read, ReadRevision, IsIdentifier;
  }

  /**
   A printed reference counts as the primary resource exactly if it has its type, its identifier
   and its revision; without a revision it is the primary one exactly if that has none either.
   */
  lemma PrimaryExactly(r: Resource, p: Primary)
    requires IsIdentifier(r.kind) && (r.revision.Some? ==> r.revision.value < 9223372036854775808)
    ensures NamesOther(Printed(r), p) <==>
      || p.kind != Some(r.kind) || p.id != Some(r.id)
      || (if r.revision.None? then p.revision.Some? else p.revision != Some(r.revision.value))
  {
    PrintedIsRead(r);
    hide ReadRef, Printed, IsIdentifier;
  }
}
