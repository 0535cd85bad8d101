/** The two tables as the migrations and the application change them in place. */
module GenerationStore {
  import opened Basics
  import opened GenerationFences
  import opened GenerationColumns

  /** Which schema revision the tables are at: gcii110001 or tosd030001, tosd030002, tosd040001. */
  datatype Stage = Unfenced | WorkFence | ArtifactFences

  datatype Outcome = Done | Refused(conflict: Conflict) | StatementFailed

  function Raised(conflict: Option<Conflict>): Outcome {
    match conflict
    case None => Done
    case Some(c) => Refused(c)
  }

  function Backfilled(r: Run): Run {
    if r.status.Running? && r.lease.None? then r.(lease := Some(r.updatedAt + 120)) else r
  }

  /** Backfilling gives every RUNNING run a lease and touches no key column. */
  lemma BackfillKeepsKeys(runs: Runs, filled: Runs)
    requires filled == map a | a in runs :: Backfilled(runs[a])
    ensures All(filled, LeaseOk)
    ensures Unique(filled, Active, WorkKey) <==> Unique(runs, Active, WorkKey)
  {
    assert forall a :: a in runs ==>
      Active(filled[a]) == Active(runs[a]) && WorkKey(filled[a]) == WorkKey(runs[a]) && LeaseOk(filled[a]);
    hide Active, WorkKey, Backfilled, LeaseOk;
  }

  /** A RUNNING run without a lease has one that ends 120 seconds after its last update. */
  ghost predicate LeaseFilled(before: Run, after: Run) {
    after.lease ==
      if before.status == Running && before.lease.None? then Some(before.updatedAt + 120) else before.lease
  }

  /** No column but the lease has changed. */
  ghost predicate Refilled(before: Runs, after: Runs) {
    && after.Keys == before.Keys
    && forall a :: a in before ==> LeaseFilled(before[a], after[a]) && after[a] == before[a].(lease := after[a].lease)
  }

  lemma BackfillRefills(runs: Runs, filled: Runs)
    requires filled == map a | a in runs :: Backfilled(runs[a])
    ensures Refilled(runs, filled)
  {
  }

  // ---- what a new row collides with ----

  /** Some row under another key is related to the new row in this way. */
  ghost predicate Meets<R>(rows: map<Id, R>, id: Id, row: R, related: (R, R) -> bool) {
    exists a :: a in rows && a != id && related(rows[a], row)
  }

  /** The row lacks its lease, or collides with another one under the constraints of the stage. */
  ghost predicate RunCollides(stage: Stage, runs: Runs, id: Id, row: Run) {
    match stage
    case Unfenced => false
    case WorkFence => !Leased(row) || Meets(runs, id, row, BothActive)
    case ArtifactFences => !Leased(row) || Meets(runs, id, row, SameOutcome) || Meets(runs, id, row, BothRunning)
  }

  ghost predicate VersionCollides(stage: Stage, versions: Versions, id: Id, row: Version) {
    match stage
    case Unfenced => !CheckV1(row)
    case WorkFence => !CheckV1(row) || Meets(versions, id, row, SameRun)
    case ArtifactFences =>
      !CheckAny(row) || Meets(versions, id, row, SameRun) || Meets(versions, id, row, SameArtifact)
  }

  ghost predicate Symmetric<R(!new)>(related: (R, R) -> bool) { forall q, r :: related(q, r) == related(r, q) }

  lemma OneMore<R(!new)>(rows: map<Id, R>, id: Id, row: R, related: (R, R) -> bool)
    requires NoTwo(rows, related) && Symmetric(related)
    ensures NoTwo(rows[id := row], related) <==> !Meets(rows, id, row, related)
  {
    var next := rows[id := row];
    if NoTwo(next, related) {
      forall a | a in rows && a != id ensures !related(rows[a], row) { assert !related(next[a], next[id]); }
    }
  }

  lemma RelationsAreSymmetric()
    ensures Symmetric(BothActive) && Symmetric(SameOutcome) && Symmetric(BothRunning)
    ensures Symmetric(SameRun) && Symmetric(SameArtifact)
  {
    hide RunIdText, KindText, Versioned;
  }

  lemma OneMoreOk<R(!new)>(rows: map<Id, R>, id: Id, row: R, ok: R -> bool)
    requires All(rows, ok)
    ensures All(rows[id := row], ok) <==> ok(row)
  {
    var next := rows[id := row];
    if All(next, ok) { assert ok(next[id]); }
  }

  lemma RunAdmittedExactly(tables: Tables, id: Id, row: Run)
    requires tables.Valid()
    ensures tables.RunsAdmitted(tables.runs[id := row]) <==> !RunCollides(tables.stage, tables.runs, id, row)
  {
    var runs := tables.runs;
    RunsOkExactly(runs);
    RunsOkExactly(runs[id := row]);
    RelationsAreSymmetric();
    hide OldRunsOk, NewRunsOk, NoTwo, Meets, Symmetric, NewVersionsOk, OldVersionsOk, Leased, All;
    if All(runs, Leased) { OneMoreOk(runs, id, row, Leased); }
    if NoTwo(runs, BothActive) { OneMore(runs, id, row, BothActive); }
    if NoTwo(runs, SameOutcome) { OneMore(runs, id, row, SameOutcome); }
    if NoTwo(runs, BothRunning) { OneMore(runs, id, row, BothRunning); }
  }

  lemma VersionAdmittedExactly(tables: Tables, id: Id, row: Version)
    requires tables.Valid()
    ensures tables.VersionsAdmitted(tables.versions[id := row]) <==>
      !VersionCollides(tables.stage, tables.versions, id, row)
  {
    var versions := tables.versions;
    OldVersionsOkExactly(versions);
    OldVersionsOkExactly(versions[id := row]);
    NewVersionsOkExactly(versions);
    NewVersionsOkExactly(versions[id := row]);
    RelationsAreSymmetric();
    hide OldRunsOk, NewRunsOk, NoTwo, Meets, Symmetric, NewVersionsOk, OldVersionsOk, CheckV1, CheckAny, All;
    if All(versions, CheckV1) { OneMoreOk(versions, id, row, CheckV1); }
    if All(versions, CheckAny) { OneMoreOk(versions, id, row, CheckAny); }
    if NoTwo(versions, SameRun) { OneMore(versions, id, row, SameRun); }
    if NoTwo(versions, SameArtifact) { OneMore(versions, id, row, SameArtifact); }
  }

  class Tables {
    var runs: Runs
    var versions: Versions
    var stage: Stage

    /** The constraints of the current stage hold of all rows. */
    predicate Valid()
      reads this
    {
      match stage
      case Unfenced => All(versions, CheckV1)
      case WorkFence => OldRunsOk(runs) && OldVersionsOk(versions)
      case ArtifactFences => NewRunsOk(runs) && NewVersionsOk(versions)
    }

    constructor ()
      ensures Valid() && stage == Unfenced && runs == map[] && versions == map[]
    {
      runs, versions, stage := map[], map[], Unfenced;
    }

    predicate RunsAdmitted(next: Runs)
      reads this
    {
      match stage
      case Unfenced => true
      case WorkFence => OldRunsOk(next)
      case ArtifactFences => NewRunsOk(next)
    }

    predicate VersionsAdmitted(next: Versions)
      reads this
    {
      match stage
      case Unfenced => All(next, CheckV1)
      case WorkFence => OldVersionsOk(next)
      case ArtifactFences => NewVersionsOk(next)
    }

    /** INSERT or UPDATE of one generation run. */
    method PutRun(id: Id, row: Run) returns (ok: bool)
      requires Valid()
      modifies this`runs
      ensures Valid() && (ok <==> !RunCollides(stage, old(runs), id, row))
      ensures runs == if ok then old(runs)[id := row] else old(runs)
    {
      RunAdmittedExactly(this, id, row);
      hide OldRunsOk, NewRunsOk, OldVersionsOk, NewVersionsOk, RunCollides;
      ok := RunsAdmitted(runs[id := row]);
      if ok { runs := runs[id := row]; }
    }

    method PutVersion(id: Id, row: Version) returns (ok: bool)
      requires Valid()
      modifies this`versions
      ensures Valid() && (ok <==> !VersionCollides(stage, old(versions), id, row))
      ensures versions == if ok then old(versions)[id := row] else old(versions)
    {
      VersionAdmittedExactly(this, id, row);
      hide OldRunsOk, NewRunsOk, OldVersionsOk, NewVersionsOk, VersionCollides;
      ok := VersionsAdmitted(versions[id := row]);
      if ok { versions := versions[id := row]; }
    }

    /**
     tosd030002: give every RUNNING run a lease, then add the lease check and the two indexes.
     Only an index can fail, and then the transaction leaves everything as it was.
     */
    method InstallWorkFence() returns (o: Outcome)
      requires Valid() && stage == Unfenced
      modifies this
      ensures Valid() && versions == old(versions)
      ensures o.Done? <==> NoTwo(old(runs), BothActive) && NoTwo(versions, SameRun)
      ensures o.Done? ==> stage == WorkFence && Refilled(old(runs), runs)
      ensures !o.Done? ==> o == StatementFailed && stage == Unfenced && runs == old(runs)
    {
      hide All, Unique, NoTwo, CheckV1, IsAiWithRun, RunKey, Backfilled, Active, WorkKey, Refilled;
      var filled := map a | a in runs :: Backfilled(runs[a]);
      BackfillKeepsKeys(runs, filled);
      BackfillRefills(runs, filled);
      UniqueExactly(runs);
      OldUniqueExactly(versions);
      if !All(filled, LeaseOk) { return StatementFailed; }
      if !Unique(filled, Active, WorkKey) { return StatementFailed; }
      if !Unique(versions, IsAiWithRun, RunKey) { return StatementFailed; }
      runs, stage := filled, WorkFence;
      o := Done;
    }

    /** tosd040001, upgrade: from a valid state it always goes through, and changes no row. */
    method Upgrade() returns (o: Outcome)
      requires Valid() && stage == WorkFence
      modifies this`stage
      ensures o == Done && stage == ArtifactFences && Valid()
    {
      OldStatesUpgrade(runs, versions);
      hide All, Unique, Repeats, CheckV1, CheckAny, UpgradeConflict, OldRunsOk, OldVersionsOk;
      var conflict := UpgradeConflict(runs, versions);
      if conflict.Some? { return Raised(conflict); }
      if !All(versions, CheckAny) { return StatementFailed; }
      if !Unique(versions, IsAiV1, RunKey) || !Unique(versions, IsAiV2, ArtifactKey) { return StatementFailed; }
      if !Unique(runs, Active, OutcomeKey) || !Unique(runs, IsRunning, RunningKey) { return StatementFailed; }
      stage := ArtifactFences;
      o := Done;
    }

    /**
     tosd040001, downgrade: it goes through exactly if the old constraints hold. When they do not,
     the guard refuses first, so no statement after it ever fails.
     */
    method Downgrade() returns (o: Outcome)
      requires Valid() && stage == ArtifactFences
      modifies this`stage
      ensures Valid() && !o.StatementFailed?
      ensures o.Done? <==> OldRunsOk(runs) && OldVersionsOk(versions)
      ensures o.Refused? ==> DowngradeConflict(runs, versions) == Some(o.conflict)
      ensures stage == if o.Done? then WorkFence else ArtifactFences
    {
      DowngradeGuardIsExact(runs, versions);
      hide All, Unique, Repeats, CheckV1, CheckAny, DowngradeConflict;
      var conflict := DowngradeConflict(runs, versions);
      if conflict.Some? { return Raised(conflict); }
      if !All(versions, CheckV1) { return StatementFailed; }
      if !Unique(versions, IsAiWithRun, RunKey) { return StatementFailed; }
      if !Unique(runs, Active, WorkKey) { return StatementFailed; }
      stage := WorkFence;
      o := Done;
    }
  }
}
