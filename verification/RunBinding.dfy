/** The version indexes compare the texts of run ids. When that binds a version to its run, and when it does not. */
module RunBinding {
  import opened Basics
  import opened Json
  import opened PgText
  import opened Provenance
  import opened GenerationFences
  import Uuids

  /** The run that a version names, as an identifier. */
  function RunId(v: Version): Option<Uuids.Uuid> {
    match RunText(v.provenance)
    case Some(Text(s)) => Uuids.Read(s)
    case _ => None
  }

  /** No two version-1 rows of a tenant name the same run. */
  ghost predicate BindsRuns(versions: Versions) {
    forall a, b ::
      (a in versions && b in versions && a != b && IsAiV1(versions[a]) && IsAiV1(versions[b])
       && versions[a].tenant == versions[b].tenant && RunId(versions[a]).Some?) ==>
         RunId(versions[a]) != RunId(versions[b])
  }

  /** No two version-2 rows of a tenant name the same run and artifact kind. */
  ghost predicate BindsArtifacts(versions: Versions) {
    forall a, b ::
      (a in versions && b in versions && a != b && IsAiV2(versions[a]) && IsAiV2(versions[b])
       && versions[a].tenant == versions[b].tenant && RunId(versions[a]).Some?
       && ArtifactText(versions[a].provenance) == ArtifactText(versions[b].provenance)) ==>
        RunId(versions[a]) != RunId(versions[b])
  }

  // ---- rules on run-id texts ----

  /** A rule that a writer can test on the text before the row is written. */
  type Rule = string -> bool

  predicate Obeys(v: Version, rule: Rule) {
    match RunText(v.provenance)
    case Some(Text(s)) => rule(s)
    case _ => true
  }

  ghost predicate AllObey(versions: Versions, covered: Version -> bool, rule: Rule) {
    forall a :: a in versions && covered(versions[a]) ==> Obeys(versions[a], rule)
  }

  /** The rule admits at most one spelling of each identifier. */
  ghost predicate OneSpelling(rule: Rule) {
    forall s: string, t: string :: rule(s) && rule(t) && Uuids.Read(s).Some? && Uuids.Read(s) == Uuids.Read(t) ==>
      s == t
  }

  /** A version that obeys the rule names its run by a text that the rule admits. */
  lemma NamedByText(v: Version, rule: Rule) returns (s: string)
    requires RunId(v).Some? && Obeys(v, rule)
    ensures RunText(v.provenance) == Some(Text(s)) && rule(s) && Uuids.Read(s) == RunId(v)
  {
    s := RunText(v.provenance).value.text;
  }

  lemma SameText(v: Version, w: Version, rule: Rule)
    requires OneSpelling(rule) && Obeys(v, rule) && Obeys(w, rule) && RunId(v).Some? && RunId(v) == RunId(w)
    ensures RunText(v.provenance) == RunText(w.provenance)
  {
    hide Obeys, RunId;
    var s := NamedByText(v, rule);
    var t := NamedByText(w, rule);
  }

  lemma RuleBindsRuns(versions: Versions, rule: Rule)
    requires OneSpelling(rule) && NewVersionsOk(versions) && AllObey(versions, IsAiV1, rule)
    ensures BindsRuns(versions)
  {
    forall a, b | a in versions && b in versions && a != b && IsAiV1(versions[a]) && IsAiV1(versions[b])
        && versions[a].tenant == versions[b].tenant && RunId(versions[a]).Some?
      ensures RunId(versions[a]) != RunId(versions[b])
    {
      assert RunKey(versions[a]) != RunKey(versions[b]) by { HasRunText(versions[a]); }
      hide IsAiV1, OneSpelling, Obeys, RunId;
      if RunId(versions[a]) == RunId(versions[b]) { SameText(versions[a], versions[b], rule); }
    }
  }

  lemma HasRunText(v: Version)
    requires RunId(v).Some?
    ensures RunKey(v).Some?
  {
  }

  lemma ArtifactPair(v: Version, w: Version, rule: Rule)
    requires OneSpelling(rule) && Obeys(v, rule) && Obeys(w, rule) && IsAiV2(v) && CheckAny(v)
      && ArtifactKey(v) != ArtifactKey(w)
    requires v.tenant == w.tenant && RunId(v).Some? && ArtifactText(v.provenance) == ArtifactText(w.provenance)
    ensures RunId(v) != RunId(w)
  {
    hide CheckAny, CheckV1, OneSpelling, Obeys, RunId, RunText, ArtifactText;
    AcceptedRow(v);
    if RunId(v) == RunId(w) { SameText(v, w, rule); }
  }

  lemma RuleBindsArtifacts(versions: Versions, rule: Rule)
    requires OneSpelling(rule) && NewVersionsOk(versions) && AllObey(versions, IsAiV2, rule)
    ensures BindsArtifacts(versions)
  {
    hide IsAiV2, CheckAny, OneSpelling, Obeys, RunId, ArtifactKey, ArtifactText, RunText;
    forall a, b | a in versions && b in versions && a != b && IsAiV2(versions[a]) && IsAiV2(versions[b])
        && versions[a].tenant == versions[b].tenant && RunId(versions[a]).Some?
        && ArtifactText(versions[a].provenance) == ArtifactText(versions[b].provenance)
      ensures RunId(versions[a]) != RunId(versions[b])
    {
      assert CheckAny(versions[a]);
      assert ArtifactKey(versions[a]).Some? by { AcceptedRow(versions[a]) by { IsAiMeans(versions[a]); } }
      assert ArtifactKey(versions[a]) != ArtifactKey(versions[b]);
      hide *;
      ArtifactPair(versions[a], versions[b], rule);
    }
  }

  lemma IsAiMeans(v: Version)
    requires IsAiV2(v)
    ensures v.origin.Ai?
  {
    hide VersionText;
  }

  // ---- tables with two spellings of one run ----

  lemma TwoRows<R, K>(one: R, two: R, covered: R -> bool, key: R -> Option<K>, ok: R -> bool)
    requires key(one) != key(two) && ok(one) && ok(two)
    ensures Unique(map[0 := one, 1 := two], covered, key) && All(map[0 := one, 1 := two], ok)
  {
  }

  lemma Uncovered<R, K>(one: R, two: R, covered: R -> bool, key: R -> Option<K>)
    requires !covered(one) && !covered(two)
    ensures Unique(map[0 := one, 1 := two], covered, key)
  {
  }

  /** Two version-1 rows whose run texts differ are stored together, under the old index too. */
  lemma BothV1(one: Version, two: Version)
    requires one.origin.Ai? && two.origin.Ai? && CheckV1(one) && CheckV1(two)
    requires RunText(one.provenance) != RunText(two.provenance)
    ensures IsAiV1(one) && IsAiV1(two)
    ensures OldVersionsOk(map[0 := one, 1 := two]) && NewVersionsOk(map[0 := one, 1 := two])
  {
    AcceptedRow(one);
    AcceptedRow(two);
    assert RunKey(one) != RunKey(two);
    hide CheckV1, CheckAny, IsAiV1, IsAiV2, IsAiWithRun, RunKey, All, Unique, NewVersionsOk;
    TwoRows(one, two, IsAiWithRun, RunKey, CheckV1);
    OldVersionsPass(map[0 := one, 1 := two]);
  }

  lemma BothV2(one: Version, two: Version)
    requires one.origin.Ai? && two.origin.Ai? && V2Verdict(one.provenance).Accepts?
      && V2Verdict(two.provenance).Accepts?
    requires RunText(one.provenance) != RunText(two.provenance)
    ensures IsAiV2(one) && IsAiV2(two) && NewVersionsOk(map[0 := one, 1 := two])
  {
    DispatchIsTheUnion(one.provenance);
    DispatchIsTheUnion(two.provenance);
    assert CheckAny(one) && CheckAny(two) && !CheckV1(one) && !CheckV1(two);
    hide V1Verdict, V2Verdict, Dispatch, CheckV1, CheckAny;
    AcceptedRow(one);
    AcceptedRow(two);
    assert ArtifactKey(one) != ArtifactKey(two);
    hide IsAiV1, IsAiV2, IsAiWithRun, RunKey, ArtifactKey, All, Unique;
    TwoRows(one, two, IsAiV2, ArtifactKey, CheckAny);
    Uncovered(one, two, IsAiV1, RunKey);
  }

  function V1Row(tenant: Id, run: string): Version { Version(tenant, Ai, Some(Minimal(run))) }

  function V2Row(tenant: Id, run: string, kind: string): Version { Version(tenant, Ai, Some(MinimalV2(run, kind))) }

  lemma V1RowNames(tenant: Id, run: string, rule: Rule)
    requires Uuids.Read(run).Some?
    ensures CheckV1(V1Row(tenant, run)) && RunText(V1Row(tenant, run).provenance) == Some(Text(run))
    ensures RunId(V1Row(tenant, run)) == Uuids.Read(run) && Obeys(V1Row(tenant, run), rule) == rule(run)
  {
    hide Uuids.Read, Minimal, V1Verdict, RunText;
    MinimalIsAccepted(run);
  }

  lemma V2RowNames(tenant: Id, run: string, kind: string, rule: Rule)
    requires Uuids.Read(run).Some? && IsIdentifier(kind)
    ensures V2Verdict(V2Row(tenant, run, kind).provenance).Accepts?
      && RunText(V2Row(tenant, run, kind).provenance) == Some(Text(run))
    ensures ArtifactText(V2Row(tenant, run, kind).provenance) == Some(Text(kind))
    ensures RunId(V2Row(tenant, run, kind)) == Uuids.Read(run) && Obeys(V2Row(tenant, run, kind), rule) == rule(run)
  {
    hide Uuids.Read, MinimalV2, V2Verdict, RunText, ArtifactText, IsIdentifier;
    MinimalV2IsAccepted(run, kind);
  }

  /** Two spellings of one run that the rule admits make a table that obeys the rule and shares the run. */
  lemma SpellingsShareRun(rule: Rule, tenant: Id, s: string, t: string)
    requires rule(s) && rule(t) && Uuids.Read(s).Some? && Uuids.Read(s) == Uuids.Read(t) && s != t
    ensures var versions: Versions := map[0 := V1Row(tenant, s), 1 := V1Row(tenant, t)];
      && OldVersionsOk(versions) && NewVersionsOk(versions) && AllObey(versions, IsAiV1, rule) && !BindsRuns(versions)
      && IsAiV1(versions[0]) && IsAiV1(versions[1])
  {
    hide Uuids.Read, RunText, RunId, CheckV1, IsAiV1, OldVersionsOk, NewVersionsOk, Obeys, V1Row;
    V1RowNames(tenant, s, rule);
    V1RowNames(tenant, t, rule);
    assert V1Row(tenant, s).origin.Ai? && V1Row(tenant, t).origin.Ai?
      && V1Row(tenant, s).tenant == V1Row(tenant, t).tenant == tenant
      by { RowTenants(tenant, s, t, ""); }
    BothV1(V1Row(tenant, s), V1Row(tenant, t));
    var versions: Versions := map[0 := V1Row(tenant, s), 1 := V1Row(tenant, t)];
    assert RunId(versions[0]) == RunId(versions[1]) && versions[0].tenant == versions[1].tenant;
  }

  lemma RowTenants(tenant: Id, s: string, t: string, kind: string)
    ensures V1Row(tenant, s).origin.Ai? && V1Row(tenant, t).origin.Ai?
      && V1Row(tenant, s).tenant == V1Row(tenant, t).tenant == tenant
    ensures V2Row(tenant, s, kind).origin.Ai? && V2Row(tenant, t, kind).origin.Ai?
    ensures V2Row(tenant, s, kind).tenant == V2Row(tenant, t, kind).tenant == tenant
  {
    hide Minimal, MinimalV2;
  }

  lemma SpellingsShareArtifact(rule: Rule, tenant: Id, s: string, t: string, kind: string)
    requires rule(s) && rule(t) && Uuids.Read(s).Some? && Uuids.Read(s) == Uuids.Read(t) && s != t && IsIdentifier(kind)
    ensures var versions: Versions := map[0 := V2Row(tenant, s, kind), 1 := V2Row(tenant, t, kind)];
      && NewVersionsOk(versions) && AllObey(versions, IsAiV2, rule) && !BindsArtifacts(versions)
      && IsAiV2(versions[0]) && IsAiV2(versions[1])
  {
    hide Uuids.Read, RunText, ArtifactText, RunId, V2Verdict, IsAiV2, NewVersionsOk, Obeys, V2Row, IsIdentifier;
    V2RowNames(tenant, s, kind, rule);
    V2RowNames(tenant, t, kind, rule);
    RowTenants(tenant, s, t, kind);
    BothV2(V2Row(tenant, s, kind), V2Row(tenant, t, kind));
    var versions: Versions := map[0 := V2Row(tenant, s, kind), 1 := V2Row(tenant, t, kind)];
    assert RunId(versions[0]) == RunId(versions[1]) && versions[0].tenant == versions[1].tenant;
  }

  // ---- the exact condition ----

  /**
   Whether an index on texts binds versions to runs depends on the rule that writers follow: every
   table whose version-1 run ids obey the rule has one version per run, if and only if no two
   texts that the rule admits read as the same identifier. The old index is no different.
   */
  lemma RunsBoundExactlyIfOneSpelling(rule: Rule)
    ensures OneSpelling(rule) <==>
      (forall versions: Versions :: NewVersionsOk(versions) && AllObey(versions, IsAiV1, rule) ==> BindsRuns(versions))
    ensures OneSpelling(rule) <==>
      (forall versions: Versions :: OldVersionsOk(versions) && AllObey(versions, IsAiV1, rule) ==> BindsRuns(versions))
  {
    hide NewVersionsOk, OldVersionsOk, AllObey, BindsRuns, V1Row, Uuids.Read;
    if OneSpelling(rule) {
      hide OneSpelling;
      forall versions: Versions | NewVersionsOk(versions) && AllObey(versions, IsAiV1, rule)
        ensures BindsRuns(versions)
      {
        RuleBindsRuns(versions, rule);
      }
      forall versions: Versions | OldVersionsOk(versions) && AllObey(versions, IsAiV1, rule)
        ensures BindsRuns(versions)
      {
        OldVersionsPass(versions);
        RuleBindsRuns(versions, rule);
      }
    } else {
      var s: string, t: string :| rule(s) && rule(t) && Uuids.Read(s).Some? && Uuids.Read(s) == Uuids.Read(t) && s != t;
      SpellingsShareRun(rule, 0, s, t);
    }
  }

  /** The same for the version-2 index, which adds the artifact kind to the key. */
  lemma ArtifactsBoundExactlyIfOneSpelling(rule: Rule)
    ensures OneSpelling(rule) <==>
      (forall versions: Versions :: NewVersionsOk(versions) && AllObey(versions, IsAiV2, rule) ==>
        BindsArtifacts(versions))
  {
    hide NewVersionsOk, AllObey, BindsArtifacts, V2Row, Uuids.Read;
    if OneSpelling(rule) {
      hide OneSpelling;
      forall versions: Versions | NewVersionsOk(versions) && AllObey(versions, IsAiV2, rule)
        ensures BindsArtifacts(versions)
      {
        RuleBindsArtifacts(versions, rule);
      }
    } else {
      var s: string, t: string :| rule(s) && rule(t) && Uuids.Read(s).Some? && Uuids.Read(s) == Uuids.Read(t) && s != t;
      assert IsIdentifier("k");
      hide IsIdentifier;
      SpellingsShareArtifact(rule, 0, s, t, "k");
    }
  }

  // ---- canonical texts, and none ----

  /** The text is what printing its identifier gives. */
  predicate IsCanonical(s: string) { Uuids.Read(s).Some? ==> s == Uuids.Text(Uuids.Read(s).value) }

  /** If every run id is written canonically, both indexes bind. */
  lemma CanonicalRunsAreBound(versions: Versions)
    requires NewVersionsOk(versions) && AllObey(versions, IsAi, IsCanonical)
    ensures BindsRuns(versions) && BindsArtifacts(versions)
  {
    assert OneSpelling(IsCanonical) by { hide Uuids.Read, Uuids.Text; }
    assert AllObey(versions, IsAiV1, IsCanonical) && AllObey(versions, IsAiV2, IsCanonical) by {
      hide Obeys, VersionText;
    }
    hide *;
    RuleBindsRuns(versions, IsCanonical);
    RuleBindsArtifacts(versions, IsCanonical);
  }

  lemma BracedIsAnother(u: Uuids.Uuid)
    ensures Uuids.Read(Uuids.Text(u)) == Some(u) && Uuids.Read("{" + Uuids.Text(u) + "}") == Some(u)
    ensures Uuids.Text(u) != "{" + Uuids.Text(u) + "}"
  {
    hide Uuids.Text, Uuids.Read;
    Uuids.ReadOfText(u);
    Uuids.ReadOfBraced(u);
    assert |Uuids.Text(u)| != |"{" + Uuids.Text(u) + "}"|;
  }

  /** Two version-1 rows of the tenant name run u. */
  ghost predicate SharesRun(versions: Versions, tenant: Id, u: Uuids.Uuid) {
    exists a, b ::
      && a in versions && b in versions && a != b && versions[a].tenant == versions[b].tenant == tenant
      && IsAiV1(versions[a]) && IsAiV1(versions[b]) && RunId(versions[a]) == RunId(versions[b]) == Some(u)
  }

  /** Two version-2 rows of the tenant name run u and the artifact kind. */
  ghost predicate SharesArtifact(versions: Versions, tenant: Id, u: Uuids.Uuid, kind: string) {
    exists a, b ::
      && a in versions && b in versions && a != b && versions[a].tenant == versions[b].tenant == tenant
      && IsAiV2(versions[a]) && IsAiV2(versions[b]) && RunId(versions[a]) == RunId(versions[b]) == Some(u)
      && ArtifactText(versions[a].provenance) == ArtifactText(versions[b].provenance) == Some(Text(kind))
  }

  lemma TwoShareRun(one: Version, two: Version, tenant: Id, u: Uuids.Uuid)
    requires one.tenant == two.tenant == tenant && IsAiV1(one) && IsAiV1(two) && RunId(one) == RunId(two) == Some(u)
    ensures SharesRun(map[0 := one, 1 := two], tenant, u)
  {
    hide IsAiV1, RunId;
    var versions: Versions := map[0 := one, 1 := two];
    assert versions[0].tenant == versions[1].tenant == tenant;
  }

  lemma TwoShareArtifact(one: Version, two: Version, tenant: Id, u: Uuids.Uuid, kind: string)
    requires one.tenant == two.tenant == tenant && IsAiV2(one) && IsAiV2(two) && RunId(one) == RunId(two) == Some(u)
    requires ArtifactText(one.provenance) == ArtifactText(two.provenance) == Some(Text(kind))
    ensures SharesArtifact(map[0 := one, 1 := two], tenant, u, kind)
  {
    hide IsAiV2, RunId, ArtifactText;
    var versions: Versions := map[0 := one, 1 := two];
    assert versions[0].tenant == versions[1].tenant == tenant;
  }

  /** Without a rule, every run of every tenant can have two version-1 rows, under the old constraints and the new. */
  lemma RunsCanBeShared(u: Uuids.Uuid, tenant: Id)
    ensures exists versions :: SharesRun(versions, tenant, u) && OldVersionsOk(versions) && NewVersionsOk(versions)
  {
    var plain, braced := Uuids.Text(u), "{" + Uuids.Text(u) + "}";
    hide *;
    BracedIsAnother(u);
    SpellingsShareRun(s => true, tenant, plain, braced);
    V1RowNames(tenant, plain, s => true);
    V1RowNames(tenant, braced, s => true);
    RowTenants(tenant, plain, braced, "");
    TwoShareRun(V1Row(tenant, plain), V1Row(tenant, braced), tenant, u);
  }

  /** And every run and artifact kind can have two version-2 rows. */
  lemma ArtifactsCanBeShared(u: Uuids.Uuid, tenant: Id, kind: string)
    requires IsIdentifier(kind)
    ensures exists versions :: SharesArtifact(versions, tenant, u, kind) && NewVersionsOk(versions)
  {
    var plain, braced := Uuids.Text(u), "{" + Uuids.Text(u) + "}";
    hide *;
    BracedIsAnother(u);
    SpellingsShareArtifact(s => true, tenant, plain, braced, kind);
    V2RowNames(tenant, plain, kind, s => true);
    V2RowNames(tenant, braced, kind, s => true);
    RowTenants(tenant, plain, braced, kind);
    TwoShareArtifact(V2Row(tenant, plain, kind), V2Row(tenant, braced, kind), tenant, u, kind);
  }

  // ---- next to a stored version ----

  /** The same provenance with its run id written as another text. */
  function Respelled(v: Json, run: string): Json
    requires v.Object? && "generation_run_ref" in v.fields && v.fields["generation_run_ref"].Object?
  {
    var ref := v.fields["generation_run_ref"];
    Object(v.fields["generation_run_ref" := Object(ref.fields["resource_id" := String(run)])])
  }

  lemma RespelledRef(ref: Json, run: string)
    requires IsRef(ref) && Uuids.Read(run).Some?
    ensures ref.Object? && IsRef(Object(ref.fields["resource_id" := String(run)]))
  {
    hide Uuids.Read, IsRevision;
    assert ref.fields["resource_id" := String(run)].Keys == ref.fields.Keys;
  }

  lemma RespelledCommon(v: Json, run: string)
    requires IsCommon(v, 1) && v.fields.Keys == V1_KEYS && v.fields["generation_run_ref"].Object?
    requires IsRef(Respelled(v, run).fields["generation_run_ref"])
    ensures IsCommon(Respelled(v, run), 1) && Respelled(v, run).fields.Keys == V1_KEYS
  {
    hide IsRef, IsRefs, ModelString, IdentifierString, UuidString;
  }

  lemma RespelledAccepted(v: Json, run: string)
    requires V1Verdict(Some(v)).Accepts? && Uuids.Read(run).Some?
    ensures v.Object? && "generation_run_ref" in v.fields && v.fields["generation_run_ref"].Object?
    ensures V1Verdict(Some(Respelled(v, run))).Accepts? && RunText(Some(Respelled(v, run))) == Some(Text(run))
  {
    hide V1Verdict, Uuids.Read, IsRefs, ModelString, IdentifierString, UuidString, IsRevision;
    V1AcceptsExactly(v);
    RespelledRef(v.fields["generation_run_ref"], run);
    hide IsCommon, IsRef;
    RespelledCommon(v, run);
    V1AcceptsExactly(Respelled(v, run));
  }

  lemma RunIdPresent(v: Json, one: Version)
    requires V1Verdict(Some(v)).Accepts? && one.provenance == Some(v)
    ensures RunId(one).Some?
  {
    hide V1Verdict, Uuids.Read;
    V1AcceptsExactly(v);
    assert IsRef(v.fields["generation_run_ref"]);
  }

  /** Whatever accepted provenance a version carries, another version of its run is admitted next to it. */
  lemma SpellingEscapesIndex(v: Json, tenant: Id)
    requires V1Verdict(Some(v)).Accepts? && Obeys(Version(tenant, Ai, Some(v)), IsCanonical)
    ensures exists w ::
      var one, two := Version(tenant, Ai, Some(v)), Version(tenant, Ai, Some(w));
      OldVersionsOk(map[0 := one, 1 := two]) && NewVersionsOk(map[0 := one, 1 := two])
      && IsAiV1(one) && IsAiV1(two) && RunId(one).Some? && RunId(one) == RunId(two)
  {
    var one := Version(tenant, Ai, Some(v));
    RunIdPresent(v, one);
    var plain := NamedByText(one, IsCanonical);
    var braced := "{" + plain + "}";
    BracedIsAnother(RunId(one).value);
    hide V1Verdict, Uuids.Read, Uuids.Text, OldVersionsOk, NewVersionsOk, IsAiV1, Obeys, IsCanonical;
    RespelledAccepted(v, braced);
    var two := Version(tenant, Ai, Some(Respelled(v, braced)));
    assert CheckV1(one) && CheckV1(two) && RunId(one) == RunId(two) by { hide Respelled, RunText; }
    hide Respelled, RunText, RunId, CheckV1;
    BothV1(one, two);
  }
}
