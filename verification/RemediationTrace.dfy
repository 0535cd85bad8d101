/**
 How a committed pair came about, in every run whose statements leave the keys of remedial works
 alone: one transaction inserted the work and the origin, in whatever order, and committed.
 */
module RemediationTrace {
  import opened Basics
  import opened RemediationModel
  import opened RemediationStatements
  import opened RemediationPairing
  import opened RemediationRuns

  // ---- what a statement inserts ----

  predicate NewRemedial(c: Change, w: Id) { c.NewWork? && c.w == w && c.work.intent.RemediateClass? }

  predicate NewOriginOf(c: Change, w: Id) { c.NewOrigin? && c.w == w }

  /** The row under w, of the old intent, gets another key. */
  predicate TakesAway(c: Change, w: Id) {
    c.SetWork? && c.w == w && c.k != w && c.work.intent.PrepareTomorrow?
  }

  predicate InsertsWork(db: Db, op: Op, t: TxId, w: Id) {
    op.Statement? && op.t == t && (exists c :: c in op.changes && NewRemedial(c, w)) && Step(db, op).1.Done?
  }

  predicate InsertsOrigin(db: Db, op: Op, t: TxId, w: Id) {
    op.Statement? && op.t == t && (exists c :: c in op.changes && NewOriginOf(c, w)) && Step(db, op).1.Done?
  }

  // ---- row by row ----

  predicate NewRemedialIn(works: Works, x: Tx, w: Id) { IsNew(works, x, w) && x.works[w].intent.RemediateClass? }

  lemma RowFrom(db: Db, t: TxId, x: Tx, p: Progress, c: Change, w: Id)
    requires t in db.open && Underway(db, t, x, p) && Apply(db, t, p, c).Going?
    requires c.SetWork? && c.k != c.w ==> c.work.intent.PrepareTomorrow?
    requires NewRemedialIn(db.works, Apply(db, t, p, c).p.tx, w)
    ensures NewRemedial(c, w) || NewRemedialIn(db.works, p.tx, w)
  {
    hide Extends, ParentsBut, Apart, BtrimEmpty, WorkPendingElsewhere, KeyHeldElsewhere, OriginPendingElsewhere;
  }

  /** A new remedial row was new before the statement, or the statement inserted it. */
  lemma {:induction false} RowsFrom(db: Db, t: TxId, x: Tx, p: Progress, changes: seq<Change>, w: Id)
    requires t in db.open && Underway(db, t, x, p) && ApplyAll(db, t, p, changes).Going?
    requires forall c :: c in changes && c.SetWork? && c.k != c.w ==> c.work.intent.PrepareTomorrow?
    requires NewRemedialIn(db.works, ApplyAll(db, t, p, changes).p.tx, w)
    ensures NewRemedialIn(db.works, p.tx, w) || exists c :: c in changes && NewRemedial(c, w)
    decreases |changes|
  {
    hide Underway, Apply, NewRemedialIn;
    if changes != [] {
      var q := Apply(db, t, p, changes[0]).p;
      ChangeGoes(db, t, x, p, changes[0]);
      RowsFrom(db, t, x, q, changes[1..], w);
      if NewRemedialIn(db.works, q.tx, w) { RowFrom(db, t, x, p, changes[0], w); }
    }
  }

  lemma {:induction false} OriginsFrom(db: Db, t: TxId, p: Progress, changes: seq<Change>, w: Id)
    requires t in db.open && ApplyAll(db, t, p, changes).Going? && w in ApplyAll(db, t, p, changes).p.tx.origins
    ensures w in p.tx.origins || exists c :: c in changes && NewOriginOf(c, w)
    decreases |changes|
  {
    if changes != [] {
      var q := Apply(db, t, p, changes[0]).p;
      assert w in q.tx.origins ==> w in p.tx.origins || NewOriginOf(changes[0], w) by { hide BtrimEmpty, Rows; }
      hide Apply;
      OriginsFrom(db, t, q, changes[1..], w);
    }
  }

  /** A key that is taken when the statement begins must be left before a row is inserted under it. */
  lemma {:induction false} KeyIsLeft(db: Db, t: TxId, p: Progress, changes: seq<Change>, w: Id)
    requires t in db.open && w in Rows(db.works, p.tx) && ApplyAll(db, t, p, changes).Going?
    requires exists c :: c in changes && NewRemedial(c, w)
    ensures exists c :: c in changes && c.SetWork? && c.w == w && c.k != w
    decreases |changes|
  {
    var c := changes[0];
    var q := Apply(db, t, p, c).p;
    if !(c.SetWork? && c.w == w && c.k != w) {
      assert !NewRemedial(c, w) && w in Rows(db.works, q.tx) by { hide BtrimEmpty, ApplyAll, Started; }
      var d :| d in changes && NewRemedial(d, w);
      assert d in changes[1..];
      hide Apply, Rows;
      KeyIsLeft(db, t, q, changes[1..], w);
    }
  }

  // ---- statement by statement ----

  /** An open transaction with a new remedial row under w. */
  predicate HasNewWork(db: Db, t: TxId, w: Id) { t in db.open && NewRemedialIn(db.works, db.open[t], w) }

  predicate HasOrigin(db: Db, t: TxId, w: Id) { t in db.open && w in db.open[t].origins }

  /** An accepted statement, by its rows. */
  lemma StatementMeans(db: Db, op: Op)
    requires Inv(db) && op.Statement? && op.t in db.open && Step(db, op).1.Done?
    ensures var r := ApplyAll(db, op.t, Started(db, op.t), op.changes);
      && r.Going? && Underway(db, op.t, db.open[op.t], Started(db, op.t))
      && Step(db, op).0 == With(db, op.t, Ended(r.p))
  {
    InvFacts(db, op.t);
    TxOkMeans(db, op.t);
    hide Inv, RowInv, TxOk, RowsOk, DoStatement, ApplyAll, Started, Underway, Ended, ChecksKept;
    StartedUnderway(db, op.t);
    StatementKeeps(db, op.t, op.changes);
  }

  lemma OwnNewWork(db: Db, op: Op, w: Id)
    requires Inv(db) && op.Statement? && Settled(op) && op.t in db.open && Step(db, op).1.Done?
    requires HasNewWork(Step(db, op).0, op.t, w)
    ensures InsertsWork(db, op, op.t, w) || HasNewWork(db, op.t, w)
  {
    var t := op.t;
    var r := ApplyAll(db, t, Started(db, t), op.changes);
    StatementMeans(db, op);
    assert NewRemedialIn(db.works, r.p.tx, w) by { hide Inv, Step, Underway, ApplyAll, Started; }
    hide Inv, Step, ApplyAll, Underway, NewRemedialIn, Rows;
    RowsFrom(db, t, db.open[t], Started(db, t), op.changes, w);
  }

  lemma OwnOrigin(db: Db, op: Op, w: Id)
    requires Inv(db) && op.Statement? && op.t in db.open && Step(db, op).1.Done?
    requires HasOrigin(Step(db, op).0, op.t, w)
    ensures InsertsOrigin(db, op, op.t, w) || HasOrigin(db, op.t, w)
  {
    var t := op.t;
    StatementMeans(db, op);
    hide Inv, Step, ApplyAll, Underway, Rows;
    OriginsFrom(db, t, Started(db, t), op.changes, w);
  }

  /** A remedial work is put under the key of an origin only where an old work has made room. */
  lemma OriginThenWork(db: Db, op: Op, w: Id)
    requires Inv(db) && Settled(op) && InsertsWork(db, op, op.t, w) && HasOrigin(db, op.t, w)
    ensures exists c :: c in op.changes && TakesAway(c, w)
  {
    var t := op.t;
    StatementMeans(db, op);
    InvFacts(db, t);
    assert w in Rows(db.works, Started(db, t).tx) by { hide Inv, RowInv, Step, ApplyAll, Underway, Paired, Covered; }
    hide Inv, Step, ApplyAll, Underway, Rows, Started, TxOk, RowInv, Paired;
    KeyIsLeft(db, t, Started(db, t), op.changes, w);
  }

  /** What other operations leave of an open transaction's rows. */
  lemma OthersKeep(db: Db, op: Op, t: TxId, w: Id)
    requires Inv(db) && !(op.Statement? && op.t == t && t in db.open && Step(db, op).1.Done?)
    ensures HasNewWork(Step(db, op).0, t, w) ==> HasNewWork(db, t, w)
    ensures HasOrigin(Step(db, op).0, t, w) ==> HasOrigin(db, t, w)
  {
    hide Inv;
    if !Step(db, op).1.Done? {
      hide Step;
      UnsuccessfulStep(db, op);
    } else if op.t in db.open && op.Statement? {
      StatementMeans(db, op);
      hide Step, ApplyAll, Underway, Started;
    } else if op.t in db.open && op.Commit? {
      CommitMeans(db, op.t);
      hide DoCommit;
      if t in db.open && t != op.t {
        CommitLeavesNew(db, op.t, t, w);
      }
    } else {
      assert op.t in db.open && op.SetConstraints? ==>
        var n := Step(db, op).0;
        n == With(db, op.t, db.open[op.t].(queue := n.open[op.t].queue, immediate := op.immediate))
      by { hide FirstFailure, HasNewWork, HasOrigin; }
      hide DoSetConstraints, DoCommit;
    }
  }

  lemma CommitLeavesNew(db: Db, t: TxId, u: TxId, w: Id)
    requires Inv(db) && t in db.open && u in db.open && u != t
    ensures NewRemedialIn(SeenWorks(db, t), db.open[u], w) ==> NewRemedialIn(db.works, db.open[u], w)
  {
    InvHasRows(db);
    PairFacts(db, t, u);
    hide Inv, RowInv;
  }

  /** A transaction commits an origin only with a new remedial row under its key. */
  lemma CommittedHasWork(db: Db, t: TxId, w: Id)
    requires Inv(db) && t in db.open && DoCommit(db, t).1.Done? && w in db.open[t].origins
    ensures HasNewWork(db, t, w)
  {
    var x := db.open[t];
    CommitMeans(db, t);
    SeenMeans(db, t);
    InvFacts(db, t);
    TxOkMeans(db, t);
    hide Inv, RowInv, DoCommit, TxOk, Covered, SeenWorks, SeenOrigins;
    PassedIsPaired(db.works, db.origins, x) by { assert TxOk(db.works, db.origins, x) by { InvFacts(db, t); } }
    assert w !in db.origins && w in (db.origins + x.origins);
    hide Passes, Parents, Queued;
  }

  lemma CommittedFrom(db: Db, op: Op, w: Id)
    requires Inv(db) && w in Step(db, op).0.origins
    ensures w in db.origins
      || (op.Commit? && op.t in db.open && Step(db, op).1.Done? && HasOrigin(db, op.t, w) && HasNewWork(db, op.t, w))
  {
    hide Inv, HasNewWork;
    if !Step(db, op).1.Done? {
      hide Step;
      UnsuccessfulStep(db, op);
    } else if op.t in db.open && op.Statement? {
      StatementMeans(db, op);
      hide Step, ApplyAll, Underway, Started;
    } else if op.t in db.open && op.Commit? {
      CommitMeans(db, op.t);
      if w !in db.origins { CommittedHasWork(db, op.t, w); }
      hide DoCommit;
    } else {
      hide FirstFailure, DoCommit;
    }
  }

  // ---- whole runs ----

  function At(start: Db, ops: seq<Op>, n: nat): Db
    requires n <= |ops|
  {
    Run(start, ops[..n])
  }

  /** The transaction t that is open after step i is the one that is open after step n. */
  ghost predicate OpenThrough(start: Db, ops: seq<Op>, t: TxId, i: nat, n: nat)
    requires n <= |ops|
  {
    forall m :: i <= m <= n ==> t in At(start, ops, m).open
  }

  lemma AtStart(start: Db, ops: seq<Op>)
    ensures At(start, ops, 0) == start
  {
    assert ops[..0] == [];
  }

  lemma AtNext(start: Db, ops: seq<Op>, n: nat)
    requires n < |ops|
    ensures At(start, ops, n + 1) == Step(At(start, ops, n), ops[n]).0
  {
    hide Step, KeepsChecks;
    assert ops[..n + 1] == ops[..n] + [ops[n]] && [ops[n]] + [] == [ops[n]];
    RunSplits(start, ops[..n], [ops[n]]);
    RunCons(At(start, ops, n), ops[n], []);
    RunNothing(Step(At(start, ops, n), ops[n]).0);
  }

  /** No statement of the run changes the key of a remedial work. */
  predicate SettledRun(ops: seq<Op>) { forall op :: op in ops ==> Settled(op) }

  lemma InvAt(start: Db, ops: seq<Op>, n: nat)
    requires Migrated(start) && SettledRun(ops) && n <= |ops|
    ensures Inv(At(start, ops, n))
  {
    hide Inv, Settled, Run, Disciplined, Migrated;
    MigratedHasInv(start);
    assert forall op :: op in ops[..n] ==> op in ops;
    SettledRunIsDisciplined(start, ops[..n]);
    RunKeeps(start, ops[..n]);
  }

  lemma MigratedMeans(start: Db)
    requires Migrated(start)
    ensures start.origins == map[] && start.open == map[]
  {
  }

  lemma {:induction false} WorkHistory(start: Db, ops: seq<Op>, n: nat, t: TxId, w: Id) returns (i: nat)
    requires Migrated(start) && SettledRun(ops) && n <= |ops| && HasNewWork(At(start, ops, n), t, w)
    ensures i < n && InsertsWork(At(start, ops, i), ops[i], t, w) && OpenThrough(start, ops, t, i, n)
  {
    hide Inv, Step, Settled, Run, NewRemedialIn, InsertsWork;
    assert start.open == map[] by { MigratedMeans(start); }
    AtStart(start, ops);
    if n == 0 {
      assert false;
    } else {
      InvAt(start, ops, n - 1);
      AtNext(start, ops, n - 1);
      hide Migrated;
      NewWorkStep(At(start, ops, n - 1), ops[n - 1], t, w);
      if HasNewWork(At(start, ops, n - 1), t, w) {
        i := WorkHistory(start, ops, n - 1, t, w);
      } else {
        i := n - 1;
      }
      hide At;
    }
  }

  lemma NewWorkStep(db: Db, op: Op, t: TxId, w: Id)
    requires Inv(db) && Settled(op) && HasNewWork(Step(db, op).0, t, w)
    ensures t in db.open && (HasNewWork(db, t, w) || InsertsWork(db, op, t, w))
  {
    hide Inv, Step, Settled, NewRemedialIn, InsertsWork;
    if op.Statement? && op.t == t && t in db.open && Step(db, op).1.Done? {
      OwnNewWork(db, op, w);
    } else {
      OthersKeep(db, op, t, w);
    }
  }

  lemma OriginStep(db: Db, op: Op, t: TxId, w: Id)
    requires Inv(db) && HasOrigin(Step(db, op).0, t, w)
    ensures t in db.open && (HasOrigin(db, t, w) || InsertsOrigin(db, op, t, w))
  {
    hide Inv, Step, InsertsOrigin;
    if op.Statement? && op.t == t && t in db.open && Step(db, op).1.Done? {
      OwnOrigin(db, op, w);
    } else {
      OthersKeep(db, op, t, w);
    }
  }

  lemma {:induction false} OriginHistory(start: Db, ops: seq<Op>, n: nat, t: TxId, w: Id) returns (j: nat)
    requires Migrated(start) && SettledRun(ops) && n <= |ops| && HasOrigin(At(start, ops, n), t, w)
    ensures j < n && InsertsOrigin(At(start, ops, j), ops[j], t, w) && OpenThrough(start, ops, t, j, n)
    ensures forall m :: j < m <= n ==> HasOrigin(At(start, ops, m), t, w)
  {
    hide Inv, Step, Settled, Run, InsertsOrigin;
    assert start.open == map[] by { MigratedMeans(start); }
    AtStart(start, ops);
    if n == 0 {
      assert false;
    } else {
      InvAt(start, ops, n - 1);
      AtNext(start, ops, n - 1);
      hide Migrated;
      OriginStep(At(start, ops, n - 1), ops[n - 1], t, w);
      if HasOrigin(At(start, ops, n - 1), t, w) {
        j := OriginHistory(start, ops, n - 1, t, w);
      } else {
        j := n - 1;
      }
      hide At;
    }
  }

  /** In every such run, a committed origin has this history up to step n. */
  lemma {:induction false} CommittedBy(start: Db, ops: seq<Op>, n: nat, w: Id) returns (t: TxId, i: nat, j: nat, k: nat)
    requires Migrated(start) && SettledRun(ops) && n <= |ops| && w in At(start, ops, n).origins
    ensures i < k < n && j < k && ops[k] == Commit(t)
    ensures InsertsWork(At(start, ops, i), ops[i], t, w) && InsertsOrigin(At(start, ops, j), ops[j], t, w)
    ensures OpenThrough(start, ops, t, i, k) && OpenThrough(start, ops, t, j, k)
    ensures j < i ==> HasOrigin(At(start, ops, i), t, w)
  {
    hide Inv, Step, Settled, Run, InsertsWork, InsertsOrigin, NewRemedialIn;
    assert start.origins == map[] by { MigratedMeans(start); }
    AtStart(start, ops);
    if n == 0 {
      assert false;
    } else {
      InvAt(start, ops, n - 1);
      AtNext(start, ops, n - 1);
      hide Migrated;
      CommittedFrom(At(start, ops, n - 1), ops[n - 1], w);
      if w in At(start, ops, n - 1).origins {
        t, i, j, k := CommittedBy(start, ops, n - 1, w);
      } else {
        t, k := ops[n - 1].t, n - 1;
        i := WorkHistory(start, ops, n - 1, t, w);
        j := OriginHistory(start, ops, n - 1, t, w);
      }
      hide At, OpenThrough, HasOrigin;
    }
  }

  /** One transaction inserts the work in step i and the origin in step j, and commits in step k. */
  ghost predicate MadeTogether(start: Db, ops: seq<Op>, w: Id, t: TxId, i: nat, j: nat, k: nat) {
    && i < k < |ops| && j < k && ops[k] == Commit(t)
    && InsertsWork(At(start, ops, i), ops[i], t, w) && InsertsOrigin(At(start, ops, j), ops[j], t, w)
    && OpenThrough(start, ops, t, i, k) && OpenThrough(start, ops, t, j, k)
    && (j < i ==> exists c :: c in ops[i].changes && TakesAway(c, w))
  }

  /**
   Every committed pair was made by one transaction: it inserted the work and the origin and
   committed. If the origin came in an earlier statement than the work, the statement that
   inserted the work also took a work of the old intent away from its key.
   */
  lemma MadeByOneTransaction(start: Db, ops: seq<Op>, w: Id)
    requires Migrated(start) && SettledRun(ops) && w in Run(start, ops).origins
    ensures exists t, i: nat, j: nat, k: nat :: MadeTogether(start, ops, w, t, i, j, k)
  {
    assert ops[..|ops|] == ops;
    var t, i, j, k := CommittedBy(start, ops, |ops|, w);
    if j < i {
      InvAt(start, ops, i);
      assert ops[i].t == t && Settled(ops[i]);
      hide Run, Inv, Migrated, Step, OpenThrough, At, Settled, InsertsOrigin;
      OriginThenWork(At(start, ops, i), ops[i], w) by { assert InsertsWork(At(start, ops, i), ops[i], t, w); }
    }
    hide *;
    assert MadeTogether(start, ops, w, t, i, j, k) by {
      AsMade(start, ops, w, t, i, j, k);
    }
  }

  lemma AsMade(start: Db, ops: seq<Op>, w: Id, t: TxId, i: nat, j: nat, k: nat)
    requires i < k < |ops| && j < k && ops[k] == Commit(t)
    requires InsertsWork(At(start, ops, i), ops[i], t, w) && InsertsOrigin(At(start, ops, j), ops[j], t, w)
    requires OpenThrough(start, ops, t, i, k) && OpenThrough(start, ops, t, j, k)
    requires ops[i].Statement? && (j < i ==> exists c :: c in ops[i].changes && TakesAway(c, w))
    ensures MadeTogether(start, ops, w, t, i, j, k)
  {
    hide InsertsWork, InsertsOrigin, OpenThrough, TakesAway, At;
  }
}
