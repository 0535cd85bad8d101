/** Generation runs and content versions under the old work fence and under the fences that replace it. */
module GenerationFences {
  import opened Basics
  import opened Json
  import opened Provenance
  import opened PgText
  import Uuids

  type Id = nat

  datatype Status = Running | Validated | Succeeded | Failed

  /** The columns that the fences read; times are in seconds. */
  datatype Run = Run(tenant: Id, work: Id, revision: nat, capability: string, status: Status, updatedAt: int,
    lease: Option<int>)

  datatype Origin = Human | Ai | Import | System

  datatype Version = Version(tenant: Id, origin: Origin, provenance: Option<Json>)

  type Runs = map<Id, Run>

  type Versions = map<Id, Version>

  // ---- unique indexes and GROUP BY queries ----

  /** CREATE UNIQUE INDEX ... WHERE: rows with a NULL in the key never collide. */
  predicate Unique<R, K(==)>(rows: map<Id, R>, covered: R -> bool, key: R -> Option<K>) {
    forall a, b :: a in rows && b in rows && a != b && covered(rows[a]) && covered(rows[b]) && key(rows[a]).Some? ==>
      key(rows[a]) != key(rows[b])
  }

  /** The rows that GROUP BY puts into one group; it groups NULL keys together. */
  function Group<R, K(==)>(rows: map<Id, R>, covered: R -> bool, key: R -> Option<K>, k: Option<K>): set<Id> {
    set a | a in rows && covered(rows[a]) && key(rows[a]) == k
  }

  /** HAVING count(*) > 1 */
  predicate Repeats<R, K(==)>(rows: map<Id, R>, covered: R -> bool, key: R -> Option<K>) {
    exists a :: a in rows && |Group(rows, covered, key, key(rows[a]))| > 1
  }

  /** A group query finds nothing exactly if no two covered rows agree on the key, NULL or not. */
  lemma RepeatsExactly<R, K>(rows: map<Id, R>, covered: R -> bool, key: R -> Option<K>)
    ensures !Repeats(rows, covered, key) <==>
      forall a, b :: a in rows && b in rows && a != b && covered(rows[a]) && covered(rows[b]) ==>
        key(rows[a]) != key(rows[b])
  {
    forall a, b | a in rows && b in rows && a != b && covered(rows[a]) && covered(rows[b])
      && key(rows[a]) == key(rows[b])
      ensures |Group(rows, covered, key, key(rows[a]))| > 1
    {
      SubsetSize({a, b}, Group(rows, covered, key, key(rows[a])));
    }
    if Repeats(rows, covered, key) {
      var a :| a in rows && |Group(rows, covered, key, key(rows[a]))| > 1;
      var g := Group(rows, covered, key, key(rows[a]));
      var b :| b in g;
      assert |g - {b}| > 0;
      var c :| c in g - {b};
      assert key(rows[b]) == key(rows[c]);
    }
  }

  // ---- the constraints ----

  predicate Active(r: Run) { r.status.Running? || r.status.Succeeded? }

  predicate IsRunning(r: Run) { r.status.Running? }

  function WorkKey(r: Run): Option<(Id, Id)> { Some((r.tenant, r.work)) }

  function OutcomeKey(r: Run): Option<(Id, Id, nat, string)> { Some((r.tenant, r.work, r.revision, r.capability)) }

  function RunningKey(r: Run): Option<(Id, Id, string)> { Some((r.tenant, r.work, r.capability)) }

  predicate LeaseOk(r: Run) { r.status.Running? ==> r.lease.Some? }

  predicate IsAi(v: Version) { v.origin.Ai? && v.provenance.Some? }

  /** provenance->>'schema_version' */
  function VersionText(v: Version): Option<Shown> {
    if v.provenance.None? then None else Show(Get(v.provenance.value, "schema_version"))
  }

  predicate IsAiWithRun(v: Version) { IsAi(v) && Get(v.provenance.value, "generation_run_ref").Some? }

  predicate IsAiV1(v: Version) { IsAi(v) && VersionText(v) == Some(Text("1")) }

  predicate IsAiV2(v: Version) { IsAi(v) && VersionText(v) == Some(Text("2")) }

  function RunKey(v: Version): Option<(Id, Shown)> {
    var run := RunText(v.provenance);
    if run.None? then None else Some((v.tenant, run.value))
  }

  function ArtifactKey(v: Version): Option<(Id, Shown, Shown)> {
    var run, kind := RunText(v.provenance), ArtifactText(v.provenance);
    if run.None? || kind.None? then None else Some((v.tenant, run.value, kind.value))
  }

  /** ck_content_versions_ai_provenance_v1; a row whose check raises is not stored either. */
  predicate CheckV1(v: Version) { v.origin.Ai? ==> V1Verdict(v.provenance).Accepts? }

  /** ck_content_versions_ai_provenance */
  predicate CheckAny(v: Version) { v.origin.Ai? ==> Dispatch(v.provenance).Accepts? }

  predicate All<R>(rows: map<Id, R>, ok: R -> bool) { forall a :: a in rows ==> ok(rows[a]) }

  predicate OldRunsOk(runs: Runs) { All(runs, LeaseOk) && Unique(runs, Active, WorkKey) }

  predicate OldVersionsOk(versions: Versions) { All(versions, CheckV1) && Unique(versions, IsAiWithRun, RunKey) }

  predicate NewRunsOk(runs: Runs) {
    All(runs, LeaseOk) && Unique(runs, Active, OutcomeKey) && Unique(runs, IsRunning, RunningKey)
  }

  predicate NewVersionsOk(versions: Versions) {
    All(versions, CheckAny) && Unique(versions, IsAiV1, RunKey) && Unique(versions, IsAiV2, ArtifactKey)
  }

  // ---- the two guards ----

  datatype Conflict = FenceA | FenceB | V1Versions | V2Exists | SharedRun | SharedWork

  function UpgradeConflict(runs: Runs, versions: Versions): Option<Conflict> {
    if Repeats(runs, Active, OutcomeKey) then Some(FenceA)
    else if Repeats(runs, IsRunning, RunningKey) then Some(FenceB)
    else if Repeats(versions, IsAiV1, RunKey) then Some(V1Versions)
    else None
  }

  function DowngradeConflict(runs: Runs, versions: Versions): Option<Conflict> {
    if exists a :: a in versions && IsAiV2(versions[a]) then Some(V2Exists)
    else if Repeats(versions, IsAiWithRun, RunKey) then Some(SharedRun)
    else if Repeats(runs, Active, WorkKey) then Some(SharedWork)
    else None
  }

  // ---- rows ----

  /** What acceptance fixes about the columns that the indexes and queries read. */
  lemma AcceptedRow(v: Version)
    requires v.origin.Ai?
    ensures CheckAny(v) ==>
      IsAiWithRun(v) && RunKey(v).Some? && (IsAiV1(v) <==> CheckV1(v)) && (IsAiV2(v) <==> !CheckV1(v))
    ensures CheckAny(v) && IsAiV2(v) ==> ArtifactKey(v).Some?
    ensures CheckV1(v) ==> CheckAny(v)
  {
    DispatchIsTheUnion(v.provenance);
    if CheckAny(v) {
      AcceptedHasRun(v.provenance.value);
      assert Decimals.Text(1) == "1" && Decimals.Text(2) == "2";
      NumberTextIsDigit(1, 0, 1);
      NumberTextIsDigit(2, 0, 2);
      assert RunText(v.provenance).Some?;
      hide V1Verdict, V2Verdict, Dispatch;
    }
  }

  lemma OldRunsPass(runs: Runs)
    requires OldRunsOk(runs)
    ensures NewRunsOk(runs) && !Repeats(runs, Active, OutcomeKey) && !Repeats(runs, IsRunning, RunningKey)
  {
    RepeatsExactly(runs, Active, OutcomeKey);
    RepeatsExactly(runs, IsRunning, RunningKey);
    forall a, b | a in runs && b in runs && a != b && Active(runs[a]) && Active(runs[b])
      ensures OutcomeKey(runs[a]) != OutcomeKey(runs[b]) && RunningKey(runs[a]) != RunningKey(runs[b])
    {
      assert WorkKey(runs[a]) != WorkKey(runs[b]);
    }
    assert forall a :: a in runs && IsRunning(runs[a]) ==> Active(runs[a]);
  }

  lemma OldVersionsPass(versions: Versions)
    requires OldVersionsOk(versions)
    ensures NewVersionsOk(versions) && !Repeats(versions, IsAiV1, RunKey)
  {
    RepeatsExactly(versions, IsAiV1, RunKey);
    forall a | a in versions
      ensures CheckAny(versions[a]) && !IsAiV2(versions[a])
      ensures IsAiV1(versions[a]) ==> IsAiWithRun(versions[a]) && RunKey(versions[a]).Some?
    {
      assert CheckV1(versions[a]);
      if versions[a].origin.Ai? { AcceptedRow(versions[a]); }
    }
    hide CheckV1, CheckAny, IsAiV1, IsAiV2, IsAiWithRun, RunKey, Repeats;
  }

  /**
   Every state the old constraints admit passes all upgrade guards and meets the new check and
   the four new indexes, so the upgrade never refuses and never fails halfway.
   */
  lemma OldStatesUpgrade(runs: Runs, versions: Versions)
    requires OldRunsOk(runs) && OldVersionsOk(versions)
    ensures UpgradeConflict(runs, versions).None? && NewRunsOk(runs) && NewVersionsOk(versions)
  {
    OldRunsPass(runs);
    OldVersionsPass(versions);
  }

  lemma VersionsDowngradeExactly(versions: Versions)
    requires NewVersionsOk(versions)
    ensures OldVersionsOk(versions) <==>
      !(exists a :: a in versions && IsAiV2(versions[a])) && !Repeats(versions, IsAiWithRun, RunKey)
  {
    RepeatsExactly(versions, IsAiWithRun, RunKey);
    forall a | a in versions
      ensures CheckV1(versions[a]) <==> !IsAiV2(versions[a])
      ensures IsAiWithRun(versions[a]) ==> RunKey(versions[a]).Some?
    {
      assert CheckAny(versions[a]);
      if versions[a].origin.Ai? { AcceptedRow(versions[a]); }
    }
    hide CheckV1, CheckAny, IsAiV1, IsAiV2, IsAiWithRun, RunKey, Repeats;
  }

  /** The downgrade guard lets through exactly the states in which the old check and both old indexes hold. */
  lemma DowngradeGuardIsExact(runs: Runs, versions: Versions)
    requires NewRunsOk(runs) && NewVersionsOk(versions)
    ensures DowngradeConflict(runs, versions).None? <==> OldRunsOk(runs) && OldVersionsOk(versions)
  {
    VersionsDowngradeExactly(versions);
    RepeatsExactly(runs, Active, WorkKey);
  }
}
