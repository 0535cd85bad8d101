/** The AI provenance validators, version 1 and 2, and the dispatcher over them. */
module Provenance {
  import opened Basics
  import opened Json
  import opened PgText
  import Decimals
  import Uuids

  /** A validator returns a boolean or raises: the cast of a revision beyond bigint is not caught. */
  datatype Verdict = Accepts | Rejects | Raises

  const BIGINT_MAX: int := 0x7fff_ffff_ffff_ffff

  const REF_KEYS := {"resource_id", "resource_revision", "resource_type"}

  const V1_KEYS := {
    "capability_id", "correlation_id", "evaluation_refs", "generation_run_ref", "kind", "model_id",
    "policy_refs", "prompt_execution_ref", "provider_id", "schema_version", "source_refs"}

  const V2_KEYS := V1_KEYS + {"artifact_kind"}

  function Check(b: bool): Verdict { if b then Accepts else Rejects }

  /** The next test runs only if this one passed. */
  function Then(first: Verdict, next: Verdict): Verdict { if first.Accepts? then next else first }

  predicate IsObject(j: Option<Json>) { TypeOf(j) == Some("object") }

  /** The guards "jsonb_typeof(j) <> 'string'" and "text !~ identifier" in turn. */
  predicate IdentifierString(j: Option<Json>) {
    j.Some? && j.value.String? && IsIdentifier(j.value.text)
  }

  predicate UuidString(j: Option<Json>) {
    j.Some? && j.value.String? && Uuids.Read(j.value.text).Some?
  }

  function Utf8Length(s: string): nat {
    if s == "" then 0
    else
      Utf8Length(s[..|s| - 1]) +
      var c := s[|s| - 1];
      if c < '\U{80}' then 1 else if c < '\U{800}' then 2 else if c < '\U{10000}' then 3 else 4
  }

  predicate ModelString(j: Option<Json>) {
    j.Some? && j.value.String? && j.value.text != "" && Utf8Length(j.value.text) <= 255 && !HasControl(j.value.text)
  }

  function RevisionVerdict(j: Option<Json>): Verdict {
    match j
    case None => Accepts
    case Some(Null) => Accepts
    case Some(Number(m, s)) =>
      if m % Decimals.Pow10(s) != 0 || m < 0 then Rejects
      else if m / Decimals.Pow10(s) > BIGINT_MAX then Raises
      else Accepts
    case _ => Rejects
  }

  /** resource_ref_json_is_valid */
  function RefVerdict(value: Option<Json>): Verdict {
    if value.None? || !IsObject(value) then Rejects
    else if value.value.fields.Keys != REF_KEYS then Rejects
    else
      Then(Check(IdentifierString(Get(value.value, "resource_type"))),
      Then(Check(UuidString(Get(value.value, "resource_id"))),
      RevisionVerdict(Get(value.value, "resource_revision"))))
  }

  /** FOR item IN SELECT * FROM jsonb_array_elements(...) LOOP */
  function RefsVerdict(items: seq<Json>): Verdict {
    if items == [] then Accepts
    else Then(RefVerdict(Some(items[0])), RefsVerdict(items[1..]))
  }

  function ArrayVerdict(j: Option<Json>): Verdict {
    if j.Some? && j.value.Array? then RefsVerdict(j.value.items) else Rejects
  }

  function OptionalRefVerdict(j: Option<Json>): Verdict {
    if j.None? || j.value.Null? then Accepts else RefVerdict(j)
  }

  /** The IF on schema_version; version is the one digit that the validator compares with. */
  function VersionVerdict(j: Option<Json>, version: nat): Verdict
    requires version < 10
  {
    var text := Show(j);
    if Taken(Or(Differs(TypeOf(j), "number"),
        Or(if j.Some? && j.value.Number? then Some(j.value.mantissa != version * Decimals.Pow10(j.value.scale))
          else None,
        Or(NotWhole(j),
        Some(text != Some(Text(Decimals.Text(version)))))))) then Rejects
    else Accepts
  }

  /** The tests that both validators make, in their order. */
  function CommonVerdict(v: Json, version: nat): Verdict
    requires version < 10
  {
    Then(Check(Show(Get(v, "kind")) == Some(Text("ai_generation"))),
    Then(VersionVerdict(Get(v, "schema_version"), version),
    Then(RefVerdict(Get(v, "generation_run_ref")),
    Then(OptionalRefVerdict(Get(v, "prompt_execution_ref")),
    Then(Check(IdentifierString(Get(v, "provider_id"))),
    Then(Check(ModelString(Get(v, "model_id"))),
    Then(Check(IdentifierString(Get(v, "capability_id"))),
    Then(ArrayVerdict(Get(v, "source_refs")),
    Then(ArrayVerdict(Get(v, "policy_refs")),
    Then(ArrayVerdict(Get(v, "evaluation_refs")),
    Check(UuidString(Get(v, "correlation_id")))))))))))))
  }

  /** ai_generation_provenance_v1_is_valid */
  function V1Verdict(value: Option<Json>): Verdict {
    if value.None? || !IsObject(value) then Rejects
    else if value.value.fields.Keys != V1_KEYS then Rejects
    else CommonVerdict(value.value, 1)
  }

  /** ai_generation_provenance_v2_is_valid */
  function V2Verdict(value: Option<Json>): Verdict {
    if value.None? || !IsObject(value) then Rejects
    else if value.value.fields.Keys != V2_KEYS then Rejects
    else Then(CommonVerdict(value.value, 2), Check(IdentifierString(Get(value.value, "artifact_kind"))))
  }

  /** ai_generation_provenance_is_valid */
  function Dispatch(value: Option<Json>): Verdict {
    if value.None? || !IsObject(value) then Rejects
    else
      var version := Get(value.value, "schema_version");
      if Taken(Or(Differs(TypeOf(version), "number"), NotWhole(version))) then Rejects
      else if Show(version) == Some(Text("1")) then V1Verdict(value)
      else if Show(version) == Some(Text("2")) then V2Verdict(value)
      else Rejects
  }

  // ---- what is accepted, said without the order of the tests ----

  /** The revision a reference names, if any. */
  ghost predicate IsRevision(j: Json) {
    || j.Null?
    || (j.Number? && exists n: nat :: n < 9223372036854775808 && IsInteger(j, n))
  }

  ghost predicate IsInteger(j: Json, n: nat)
    requires j.Number?
  {
    j.mantissa == n * Decimals.Pow10(j.scale)
  }

  ghost predicate BeyondBigint(j: Json) {
    j.Number? && exists n: nat :: n >= 9223372036854775808 && IsInteger(j, n)
  }

  ghost predicate IsRef(j: Json) {
    && j.Object? && j.fields.Keys == REF_KEYS
    && IdentifierString(Some(j.fields["resource_type"]))
    && UuidString(Some(j.fields["resource_id"]))
    && IsRevision(j.fields["resource_revision"])
  }

  ghost predicate IsRefs(j: Json) {
    j.Array? && forall i :: 0 <= i < |j.items| ==> IsRef(j.items[i])
  }

  ghost predicate IsCommon(v: Json, version: nat) {
    && v.Object? && V1_KEYS <= v.fields.Keys
    && v.fields["kind"] == String("ai_generation")
    && v.fields["schema_version"] == Number(version, 0)
    && IsRef(v.fields["generation_run_ref"])
    && (v.fields["prompt_execution_ref"].Null? || IsRef(v.fields["prompt_execution_ref"]))
    && IdentifierString(Some(v.fields["provider_id"])) && IdentifierString(Some(v.fields["capability_id"]))
    && ModelString(Some(v.fields["model_id"]))
    && IsRefs(v.fields["source_refs"]) && IsRefs(v.fields["policy_refs"]) && IsRefs(v.fields["evaluation_refs"])
    && UuidString(Some(v.fields["correlation_id"]))
  }

  lemma RevisionAcceptedExactly(j: Json)
    ensures RevisionVerdict(Some(j)).Accepts? <==> IsRevision(j)
    ensures RevisionVerdict(Some(j)).Raises? <==> BeyondBigint(j)
  {
    if j.Number? {
      var p := Decimals.Pow10(j.scale);
      forall k: nat | IsInteger(j, k) ensures j.mantissa >= 0 && j.mantissa % p == 0 && j.mantissa / p == k {
        Quotient(k, p);
      }
      if j.mantissa >= 0 && j.mantissa % p == 0 { assert IsInteger(j, j.mantissa / p); }
    }
  }

  lemma Quotient(k: nat, p: nat)
    requires p >= 1
    ensures k * p >= 0 && (k * p) % p == 0 && (k * p) / p == k
  {
    var q, r := (k * p) / p, (k * p) % p;
    var gap: int := k - q;
    assert k * p == q * p + r;
    assert gap * p == r;
    assert gap >= 1 ==> gap * p >= p;
    assert gap <= -1 ==> gap * p < 0;
  }

  /** A reference can raise instead of answering: the bigint cast is outside the exception block. */
  lemma RefAcceptedExactly(j: Json)
    ensures RefVerdict(Some(j)).Accepts? <==> IsRef(j)
    ensures RefVerdict(Some(j)).Raises? <==>
      && j.Object? && j.fields.Keys == REF_KEYS
      && IdentifierString(Some(j.fields["resource_type"])) && UuidString(Some(j.fields["resource_id"]))
      && BeyondBigint(j.fields["resource_revision"])
  {
    if j.Object? && j.fields.Keys == REF_KEYS {
      assert "resource_revision" in j.fields && "resource_id" in j.fields && "resource_type" in j.fields;
      RevisionAcceptedExactly(j.fields["resource_revision"]);
      hide IdentifierString, UuidString, RevisionVerdict, IsRevision, BeyondBigint;
    }
  }

  lemma {:induction false} RefsAcceptedExactly(items: seq<Json>)
    ensures RefsVerdict(items).Accepts? <==> forall i :: 0 <= i < |items| ==> IsRef(items[i])
  {
    if items != [] {
      RefAcceptedExactly(items[0]);
      RefsAcceptedExactly(items[1..]);
      assert forall i :: 0 < i < |items| ==> items[i] == items[1..][i - 1];
    }
  }

  lemma ArrayAcceptedExactly(j: Json)
    ensures ArrayVerdict(Some(j)).Accepts? <==> IsRefs(j)
  {
    if j.Array? { RefsAcceptedExactly(j.items); }
  }

  /** Only the number written as that digit passes; a missing version is NULL in all tests but the last. */
  lemma VersionAcceptedExactly(j: Option<Json>, version: nat)
    requires version < 10
    ensures VersionVerdict(j, version) == Check(j == Some(Number(version, 0)))
  {
    if j.Some? && j.value.Number? {
      NumberTextIsDigit(j.value.mantissa, j.value.scale, version);
      assert Decimals.Pow10(0) == 1;
    }
  }

  lemma CommonAcceptedExactly(v: Json, version: nat)
    requires v.Object? && V1_KEYS <= v.fields.Keys && version < 10
    ensures CommonVerdict(v, version).Accepts? <==> IsCommon(v, version)
  {
    FieldsPresent(v);
    VersionAcceptedExactly(Get(v, "schema_version"), version);
    RefAcceptedExactly(v.fields["generation_run_ref"]);
    RefAcceptedExactly(v.fields["prompt_execution_ref"]);
    ArrayAcceptedExactly(v.fields["source_refs"]);
    ArrayAcceptedExactly(v.fields["policy_refs"]);
    ArrayAcceptedExactly(v.fields["evaluation_refs"]);
    KindAcceptedExactly(v.fields["kind"]);
    hide RefVerdict, ArrayVerdict, VersionVerdict, IsRef, IsRefs, Get, IdentifierString, UuidString, ModelString, Show;
  }

  lemma KindAcceptedExactly(j: Json)
    ensures Show(Some(j)) == Some(Text("ai_generation")) <==> j == String("ai_generation")
  {
    if j.Number? {
      var t := NumberText(j.mantissa, j.scale);
      assert t[0] == '-' || Decimals.IsDigit(t[0]);
    }
  }

  lemma FieldsPresent(v: Json)
    requires v.Object? && V1_KEYS <= v.fields.Keys
    ensures forall k :: k in V1_KEYS ==> k in v.fields && Get(v, k) == Some(v.fields[k])
  {
  }

  lemma V1AcceptsExactly(v: Json)
    ensures V1Verdict(Some(v)).Accepts? <==> v.Object? && v.fields.Keys == V1_KEYS && IsCommon(v, 1)
  {
    hide CommonVerdict, IsCommon;
    if v.Object? && v.fields.Keys == V1_KEYS { CommonAcceptedExactly(v, 1); }
  }

  lemma V2AcceptsExactly(v: Json)
    ensures V2Verdict(Some(v)).Accepts? <==>
      v.Object? && v.fields.Keys == V2_KEYS && IsCommon(v, 2) && IdentifierString(Some(v.fields["artifact_kind"]))
  {
    hide CommonVerdict, IsCommon, IdentifierString;
    if v.Object? && v.fields.Keys == V2_KEYS {
      CommonAcceptedExactly(v, 2);
      assert Get(v, "artifact_kind") == Some(v.fields["artifact_kind"]);
    }
  }

  /** Acceptance of each version as a statement about the value alone. */
  lemma VersionsAcceptExactly(v: Json)
    ensures V1Verdict(Some(v)).Accepts? <==> v.Object? && v.fields.Keys == V1_KEYS && IsCommon(v, 1)
    ensures V2Verdict(Some(v)).Accepts? <==>
      v.Object? && v.fields.Keys == V2_KEYS && IsCommon(v, 2) && IdentifierString(Some(v.fields["artifact_kind"]))
  {
    hide *;
    V1AcceptsExactly(v);
    V2AcceptsExactly(v);
  }

  /** Before the version matches, a validator can only reject. */
  lemma WrongVersionRejects(v: Json, version: nat)
    requires version < 10 && Get(v, "schema_version") != Some(Number(version, 0))
    ensures CommonVerdict(v, version).Rejects?
  {
    VersionAcceptedExactly(Get(v, "schema_version"), version);
    hide VersionVerdict, RefVerdict, ArrayVerdict, OptionalRefVerdict;
  }

  /**
   For every value, NULL and malformed ones included, the dispatcher gives the verdict of the
   one validator that does not reject, and rejects if both do. It raises only where that validator raises.
   */
  lemma DispatchIsTheUnion(value: Option<Json>)
    ensures V1Verdict(value).Rejects? || V2Verdict(value).Rejects?
    ensures Dispatch(value) == if V1Verdict(value).Rejects? then V2Verdict(value) else V1Verdict(value)
  {
    if IsObject(value) {
      var version := Get(value.value, "schema_version");
      if version != Some(Number(1, 0)) { WrongVersionRejects(value.value, 1); }
      if version != Some(Number(2, 0)) { WrongVersionRejects(value.value, 2); }
      if version.Some? && version.value.Number? {
        NumberTextIsDigit(version.value.mantissa, version.value.scale, 1);
        NumberTextIsDigit(version.value.mantissa, version.value.scale, 2);
      }
      assert Decimals.Text(1) == "1" && Decimals.Text(2) == "2" && Decimals.Pow10(0) == 1;
      assert version == Some(Number(1, 0)) || version == Some(Number(2, 0)) ==> NotWhole(version) == Some(false);
      hide CommonVerdict;
    }
  }

  /** In an accepted value the key texts of the indexes are present. */
  lemma AcceptedHasRun(v: Json)
    requires Dispatch(Some(v)).Accepts?
    ensures RunText(Some(v)).Some?
    ensures Get(v, "schema_version") == Some(Number(1, 0)) || Get(v, "schema_version") == Some(Number(2, 0))
    ensures V1Verdict(Some(v)).Accepts? <==> Get(v, "schema_version") == Some(Number(1, 0))
    ensures V2Verdict(Some(v)).Accepts? ==> ArtifactText(Some(v)).Some?
  {
    DispatchIsTheUnion(Some(v));
    VersionsAcceptExactly(v);
    hide V1Verdict, V2Verdict, Dispatch, IsRefs;
    assert IsRef(v.fields["generation_run_ref"]);
  }

  /** provenance #>> '{generation_run_ref,resource_id}' */
  function RunText(value: Option<Json>): Option<Shown> {
    if value.None? then None
    else
      match Get(value.value, "generation_run_ref")
      case None => None
      case Some(ref) => Show(Get(ref, "resource_id"))
  }

  /** provenance->>'artifact_kind' */
  function ArtifactText(value: Option<Json>): Option<Shown> {
    if value.None? then None else Show(Get(value.value, "artifact_kind"))
  }

  // ---- the validators accept something ----

  function Reference(run: string): Json {
    Object(map["resource_id" := String(run), "resource_revision" := Null, "resource_type" := String("r")])
  }

  /** A minimal provenance of a run. */
  function Minimal(run: string): Json {
    Object(map[
      "capability_id" := String("c"), "correlation_id" := String(run), "evaluation_refs" := Array([]),
      "generation_run_ref" := Reference(run), "kind" := String("ai_generation"), "model_id" := String("m"),
      "policy_refs" := Array([]), "prompt_execution_ref" := Null, "provider_id" := String("p"),
      "schema_version" := Number(1, 0), "source_refs" := Array([])])
  }

  lemma ReferenceIsRef(run: string)
    requires Uuids.Read(run).Some?
    ensures IsRef(Reference(run))
  {
    hide Uuids.Read;
    var j := Reference(run);
    assert j.fields.Keys == REF_KEYS;
    assert IsRevision(j.fields["resource_revision"]);
  }

  lemma MinimalKeys(run: string)
    ensures Minimal(run).Object? && Minimal(run).fields.Keys == V1_KEYS
  {
    hide Reference;
  }

  lemma MinimalIsCommon(run: string)
    requires Uuids.Read(run).Some?
    ensures IsCommon(Minimal(run), 1)
  {
    hide Uuids.Read, IsRef, Reference;
    MinimalKeys(run);
    ReferenceIsRef(run);
    assert IsIdentifier("c") && IsIdentifier("p") && ModelString(Some(String("m")));
    assert IsRefs(Array([]));
    hide IsRefs, ModelString, IsIdentifier;
  }

  /** Every UUID text is the run of some accepted provenance. */
  lemma MinimalIsAccepted(run: string)
    requires Uuids.Read(run).Some?
    ensures V1Verdict(Some(Minimal(run))).Accepts?
    ensures RunText(Some(Minimal(run))) == Some(Text(run))
  {
    hide V1Verdict, Uuids.Read, IsCommon, Reference;
    MinimalIsCommon(run);
    MinimalKeys(run);
    ReferenceNames(run);
    V1AcceptsExactly(Minimal(run));
  }

  /** The same for version 2, with any artifact kind. */
  function MinimalV2(run: string, kind: string): Json {
    Object(Minimal(run).fields["schema_version" := Number(2, 0)]["artifact_kind" := String(kind)])
  }

  lemma MinimalV2Keys(run: string, kind: string)
    ensures MinimalV2(run, kind).Object? && MinimalV2(run, kind).fields.Keys == V2_KEYS
      && MinimalV2(run, kind).fields["artifact_kind"] == String(kind)
    ensures MinimalV2(run, kind).fields["schema_version"] == Number(2, 0)
    ensures forall f :: f in V1_KEYS && f != "schema_version" ==>
      MinimalV2(run, kind).fields[f] == Minimal(run).fields[f]
  {
    MinimalKeys(run);
    hide Minimal;
    assert "artifact_kind" !in V1_KEYS;
  }

  /** The common part but for the version is the same in both versions. */
  lemma CommonOfEither(v: Json, w: Json)
    requires IsCommon(v, 1) && w.Object? && V1_KEYS <= w.fields.Keys && w.fields["schema_version"] == Number(2, 0)
    requires forall f :: f in V1_KEYS && f != "schema_version" ==> w.fields[f] == v.fields[f]
    ensures IsCommon(w, 2)
  {
    hide IsRef, IsRefs, ModelString, IdentifierString, UuidString;
    assert {"kind", "generation_run_ref", "prompt_execution_ref", "provider_id"} <= V1_KEYS - {"schema_version"};
    assert {"capability_id", "model_id"} <= V1_KEYS - {"schema_version"};
    assert {"source_refs", "policy_refs", "evaluation_refs", "correlation_id"} <= V1_KEYS - {"schema_version"};
  }

  lemma MinimalV2IsCommon(run: string, kind: string)
    requires Uuids.Read(run).Some?
    ensures IsCommon(MinimalV2(run, kind), 2)
  {
    hide Uuids.Read, Minimal, MinimalV2, IsRef, IsRefs, ModelString, IdentifierString, UuidString;
    MinimalIsCommon(run);
    MinimalV2Keys(run, kind);
    CommonOfEither(Minimal(run), MinimalV2(run, kind));
  }

  lemma MinimalV2IsAccepted(run: string, kind: string)
    requires Uuids.Read(run).Some? && IsIdentifier(kind)
    ensures V2Verdict(Some(MinimalV2(run, kind))).Accepts?
    ensures RunText(Some(MinimalV2(run, kind))) == Some(Text(run))
    ensures ArtifactText(Some(MinimalV2(run, kind))) == Some(Text(kind))
  {
    hide V2Verdict, Uuids.Read, IsCommon, Reference, IsIdentifier;
    MinimalV2IsCommon(run, kind);
    MinimalV2Keys(run, kind);
    ReferenceNames(run);
    V2AcceptsExactly(MinimalV2(run, kind));
  }

  lemma ReferenceNames(run: string)
    ensures Show(Get(Reference(run), "resource_id")) == Some(Text(run))
  {
  }
}
