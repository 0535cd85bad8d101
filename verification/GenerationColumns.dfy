/** The old and the new fences on the columns of the two tables, and what the guards complain about. */
module GenerationColumns {
  import opened Basics
  import opened Json
  import opened Provenance
  import opened GenerationFences

  /** No two rows are related in this way. */
  ghost predicate NoTwo<R>(rows: map<Id, R>, related: (R, R) -> bool) {
    forall a, b :: a in rows && b in rows && a != b ==> !related(rows[a], rows[b])
  }

  // ---- generation runs ----

  ghost predicate RunningOrSucceeded(r: Run) { r.status == Running || r.status == Succeeded }

  ghost predicate SameWork(q: Run, r: Run) { q.tenant == r.tenant && q.work == r.work }

  /** Both are active outcomes of one capability on one revision of a work. */
  ghost predicate SameOutcome(q: Run, r: Run) {
    && RunningOrSucceeded(q) && RunningOrSucceeded(r)
    && SameWork(q, r) && q.revision == r.revision && q.capability == r.capability
  }

  /** Both run one capability on a work, on whatever revision. */
  ghost predicate BothRunning(q: Run, r: Run) {
    q.status == Running && r.status == Running && SameWork(q, r) && q.capability == r.capability
  }

  /** Both are active on a work. */
  ghost predicate BothActive(q: Run, r: Run) { RunningOrSucceeded(q) && RunningOrSucceeded(r) && SameWork(q, r) }

  ghost predicate Leased(r: Run) { r.status == Running ==> r.lease.Some? }

  lemma KeysMean(q: Run, r: Run)
    ensures Active(q) && Active(r) && OutcomeKey(q) == OutcomeKey(r) <==> SameOutcome(q, r)
    ensures IsRunning(q) && IsRunning(r) && RunningKey(q) == RunningKey(r) <==> BothRunning(q, r)
    ensures Active(q) && Active(r) && WorkKey(q) == WorkKey(r) <==> BothActive(q, r)
    ensures OutcomeKey(q).Some? && RunningKey(q).Some? && WorkKey(q).Some?
  {
  }

  lemma UniqueExactly(runs: Runs)
    ensures Unique(runs, Active, WorkKey) <==> NoTwo(runs, BothActive)
    ensures Unique(runs, Active, OutcomeKey) <==> NoTwo(runs, SameOutcome)
    ensures Unique(runs, IsRunning, RunningKey) <==> NoTwo(runs, BothRunning)
  {
    forall a, b | a in runs && b in runs
      ensures Active(runs[a]) && Active(runs[b]) && OutcomeKey(runs[a]) == OutcomeKey(runs[b]) <==>
        SameOutcome(runs[a], runs[b])
      ensures IsRunning(runs[a]) && IsRunning(runs[b]) && RunningKey(runs[a]) == RunningKey(runs[b]) <==>
        BothRunning(runs[a], runs[b])
      ensures Active(runs[a]) && Active(runs[b]) && WorkKey(runs[a]) == WorkKey(runs[b]) <==>
        BothActive(runs[a], runs[b])
      ensures OutcomeKey(runs[a]).Some? && RunningKey(runs[a]).Some? && WorkKey(runs[a]).Some?
    {
      KeysMean(runs[a], runs[b]);
    }
    hide Active, IsRunning, WorkKey, OutcomeKey, RunningKey, SameOutcome, BothRunning, BothActive;
    assert Unique(runs, Active, WorkKey) <==> NoTwo(runs, BothActive);
    assert Unique(runs, Active, OutcomeKey) <==> NoTwo(runs, SameOutcome);
    assert Unique(runs, IsRunning, RunningKey) <==> NoTwo(runs, BothRunning);
  }

  /** The fences on generation runs before and after. */
  lemma RunsOkExactly(runs: Runs)
    ensures OldRunsOk(runs) <==> All(runs, Leased) && NoTwo(runs, BothActive)
    ensures NewRunsOk(runs) <==>
      All(runs, Leased) && NoTwo(runs, SameOutcome) && NoTwo(runs, BothRunning)
  {
    UniqueExactly(runs);
    hide Unique, NoTwo;
  }

  // ---- content versions ----

  /** Accepted provenance with this version number. */
  ghost predicate Versioned(v: Version, n: int) {
    && v.origin == Ai && v.provenance.Some? && v.provenance.value.Object?
    && "schema_version" in v.provenance.value.fields && v.provenance.value.fields["schema_version"] == Number(n, 0)
  }

  /** generation_run_ref.resource_id, if the provenance has it as a text */
  function RunIdText(v: Version): Option<string> {
    if v.provenance.None? || !v.provenance.value.Object? || "generation_run_ref" !in v.provenance.value.fields then None
    else
      var ref := v.provenance.value.fields["generation_run_ref"];
      if ref.Object? && "resource_id" in ref.fields && ref.fields["resource_id"].String?
      then Some(ref.fields["resource_id"].text) else None
  }

  function KindText(v: Version): Option<string> {
    if v.provenance.None? || !v.provenance.value.Object? || "artifact_kind" !in v.provenance.value.fields then None
    else
      var kind := v.provenance.value.fields["artifact_kind"];
      if kind.String? then Some(kind.text) else None
  }

  /** What acceptance makes of the columns. */
  lemma AcceptedColumns(v: Version)
    requires v.origin.Ai? && CheckAny(v)
    ensures Versioned(v, 1) != Versioned(v, 2)
    ensures (IsAiV1(v) <==> Versioned(v, 1)) && (IsAiV2(v) <==> Versioned(v, 2)) && IsAiWithRun(v)
    ensures RunIdText(v).Some? && RunKey(v) == Some((v.tenant, Shown.Text(RunIdText(v).value)))
    ensures Versioned(v, 2) ==>
      KindText(v).Some?
      && ArtifactKey(v) == Some((v.tenant, Shown.Text(RunIdText(v).value), Shown.Text(KindText(v).value)))
  {
    var j := v.provenance.value;
    AcceptedRow(v);
    AcceptedHasRun(j);
    VersionsAcceptExactly(j);
    DispatchIsTheUnion(Some(j));
    assert j.Object? && IsRef(j.fields["generation_run_ref"]);
    hide Dispatch, V1Verdict, V2Verdict, IsCommon, IsRevision;
  }

  /** Two version-1 rows of one tenant name their run by the same text. */
  ghost predicate SameRun(v: Version, w: Version) {
    Versioned(v, 1) && Versioned(w, 1) && v.tenant == w.tenant && RunIdText(v) == RunIdText(w)
  }

  /** Two version-2 rows of one tenant name the same run and the same artifact kind. */
  ghost predicate SameArtifact(v: Version, w: Version) {
    && Versioned(v, 2) && Versioned(w, 2) && v.tenant == w.tenant
    && RunIdText(v) == RunIdText(w) && KindText(v) == KindText(w)
  }

  lemma NewKeysMean(v: Version, w: Version)
    requires CheckAny(v) && CheckAny(w)
    ensures IsAiV1(v) && IsAiV1(w) && RunKey(v) == RunKey(w) <==> SameRun(v, w)
    ensures IsAiV2(v) && IsAiV2(w) && ArtifactKey(v) == ArtifactKey(w) <==> SameArtifact(v, w)
    ensures IsAiV1(v) ==> RunKey(v).Some?
    ensures IsAiV2(v) ==> ArtifactKey(v).Some?
  {
    hide CheckAny, RunKey, ArtifactKey, RunIdText, KindText;
    if v.origin.Ai? { AcceptedColumns(v); }
    if w.origin.Ai? { AcceptedColumns(w); }
    hide IsAiV1, IsAiV2, Versioned;
    OnlyAi(v);
    OnlyAi(w);
  }

  lemma OnlyAi(v: Version)
    ensures IsAiV1(v) || IsAiV2(v) || IsAiWithRun(v) || Versioned(v, 1) || Versioned(v, 2) ==> v.origin.Ai?
  {
  }

  /** The new fences on content versions. */
  lemma NewVersionsOkExactly(versions: Versions)
    ensures NewVersionsOk(versions) <==>
      All(versions, CheckAny) && NoTwo(versions, SameRun) && NoTwo(versions, SameArtifact)
  {
    if All(versions, CheckAny) {
      forall a, b | a in versions && b in versions
        ensures IsAiV1(versions[a]) && IsAiV1(versions[b]) && RunKey(versions[a]) == RunKey(versions[b]) <==>
          SameRun(versions[a], versions[b])
        ensures IsAiV2(versions[a]) && IsAiV2(versions[b]) && ArtifactKey(versions[a]) == ArtifactKey(versions[b]) <==>
          SameArtifact(versions[a], versions[b])
        ensures IsAiV1(versions[a]) ==> RunKey(versions[a]).Some?
        ensures IsAiV2(versions[a]) ==> ArtifactKey(versions[a]).Some?
      {
        NewKeysMean(versions[a], versions[b]);
      }
    }
    hide CheckAny, RunKey, ArtifactKey, IsAiV1, IsAiV2, SameRun, SameArtifact;
  }

  lemma OldColumns(v: Version)
    requires v.origin.Ai? && CheckV1(v)
    ensures CheckAny(v) && IsAiWithRun(v) && Versioned(v, 1) && RunIdText(v).Some?
    ensures RunKey(v) == Some((v.tenant, Shown.Text(RunIdText(v).value)))
  {
    AcceptedRow(v);
    AcceptedColumns(v);
    hide CheckAny, CheckV1, RunKey, RunIdText, Versioned;
  }

  lemma OldKeysMean(v: Version, w: Version)
    requires CheckV1(v) && CheckV1(w)
    ensures IsAiWithRun(v) && IsAiWithRun(w) && RunKey(v) == RunKey(w) <==> SameRun(v, w)
    ensures IsAiWithRun(v) ==> RunKey(v).Some?
  {
    OnlyAi(v);
    OnlyAi(w);
    hide CheckV1, RunKey, RunIdText, KindText, IsAiWithRun;
    if v.origin.Ai? { OldColumns(v); }
    if w.origin.Ai? { OldColumns(w); }
    hide Versioned;
  }

  lemma OldUniqueExactly(versions: Versions)
    requires All(versions, CheckV1)
    ensures Unique(versions, IsAiWithRun, RunKey) <==> NoTwo(versions, SameRun)
  {
    forall a, b | a in versions && b in versions
      ensures IsAiWithRun(versions[a]) && IsAiWithRun(versions[b]) && RunKey(versions[a]) == RunKey(versions[b]) <==>
        SameRun(versions[a], versions[b])
      ensures IsAiWithRun(versions[a]) ==> RunKey(versions[a]).Some?
    {
      OldKeysMean(versions[a], versions[b]);
    }
    hide CheckV1, RunKey, IsAiWithRun, SameRun;
  }

  /** The old fences on content versions; their check lets version 1 through alone. */
  lemma OldVersionsOkExactly(versions: Versions)
    ensures OldVersionsOk(versions) <==>
      All(versions, CheckV1) && NoTwo(versions, SameRun)
  {
    if All(versions, CheckV1) { OldUniqueExactly(versions); }
    hide Unique, NoTwo, CheckV1;
  }

  // ---- the guards ----

  /** The first two upgrade guards find exactly the collisions of the two new indexes on runs, in this order. */
  lemma UpgradeComplains(runs: Runs, versions: Versions)
    ensures UpgradeConflict(runs, versions) == Some(FenceA) <==> !NoTwo(runs, SameOutcome)
    ensures UpgradeConflict(runs, versions) == Some(FenceB) <==> NoTwo(runs, SameOutcome) && !NoTwo(runs, BothRunning)
  {
    UniqueExactly(runs);
    RepeatsExactly(runs, Active, OutcomeKey);
    RepeatsExactly(runs, IsRunning, RunningKey);
    hide NoTwo, Repeats, Active, IsRunning, IsAiV1, RunKey;
  }

  /**
   On valid tables the downgrade guard complains of a version-2 row if there is one, and else of
   two active runs on a work if there are such. Its complaint of a shared run never comes.
   */
  lemma DowngradeComplains(runs: Runs, versions: Versions)
    requires NewRunsOk(runs) && NewVersionsOk(versions)
    ensures DowngradeConflict(runs, versions) ==
      if exists a :: a in versions && Versioned(versions[a], 2) then Some(V2Exists)
      else if !NoTwo(runs, BothActive) then Some(SharedWork)
      else None
  {
    SharedWorkExactly(runs);
    VersionTwoMeans(versions);
    hide NoTwo, Repeats, Active, IsAiV2, IsAiWithRun, RunKey, NewVersionsOk, OldRunsOk, NewRunsOk, Versioned;
    hide Unique, All, BothActive, WorkKey, CheckAny, RunIdText;
    if !(exists a :: a in versions && IsAiV2(versions[a])) { NoSharedRun(versions); }
  }

  lemma SharedWorkExactly(runs: Runs)
    ensures Repeats(runs, Active, WorkKey) <==> !NoTwo(runs, BothActive)
  {
    UniqueExactly(runs);
    RepeatsExactly(runs, Active, WorkKey);
    hide NoTwo, Repeats, Active;
  }

  lemma NoSharedRun(versions: Versions)
    requires NewVersionsOk(versions) && !(exists a :: a in versions && IsAiV2(versions[a]))
    ensures !Repeats(versions, IsAiWithRun, RunKey)
  {
    NoVersionTwoIsOld(versions);
    VersionsDowngradeExactly(versions);
    hide Repeats, IsAiV2, IsAiWithRun, RunKey, OldVersionsOk, NewVersionsOk;
  }

  lemma VersionTwoMeans(versions: Versions)
    requires NewVersionsOk(versions)
    ensures (exists a :: a in versions && IsAiV2(versions[a])) <==>
      exists a :: a in versions && Versioned(versions[a], 2)
  {
    forall a | a in versions ensures IsAiV2(versions[a]) <==> Versioned(versions[a], 2) {
      assert CheckAny(versions[a]);
      hide CheckAny;
      if versions[a].origin.Ai? { AcceptedColumns(versions[a]); }
    }
    hide CheckAny, IsAiV1, IsAiV2, Versioned, NewVersionsOk;
  }

  lemma NoVersionTwoIsOld(versions: Versions)
    requires NewVersionsOk(versions)
    ensures !(exists a :: a in versions && IsAiV2(versions[a])) ==> OldVersionsOk(versions)
  {
    if !(exists a :: a in versions && IsAiV2(versions[a])) {
      NewVersionsOkExactly(versions);
      forall a | a in versions ensures CheckV1(versions[a]) {
        assert CheckAny(versions[a]);
        if versions[a].origin.Ai? { AcceptedRow(versions[a]); }
      }
      OldVersionsOkExactly(versions);
      hide NewVersionsOk, OldVersionsOk, CheckV1, CheckAny, IsAiV2, SameRun, SameArtifact;
    }
  }
}
