/** Checks on the rows of one transaction at a time keep a property of the whole committed state. */
module RemediationPairing {
  import opened Basics
  import opened RemediationModel
  import opened RemediationStatements

  // ---- the rule on statements ----

  /** An accepted statement meets the rule. A caller can work this out before making the statement. */
  predicate KeepsChecks(db: Db, op: Op) {
    op.Statement? && op.t in db.open && Step(db, op).1.Done? ==>
      var r := ApplyAll(db, op.t, Started(db, op.t), op.changes);
      r.Going? ==> ChecksKept(db.works, db.origins, r.p)
  }

  /** A simpler rule that needs no look at the database: no remedial row gets a new key. */
  predicate Settled(op: Op) {
    op.Statement? ==> forall c :: c in op.changes && c.SetWork? && c.k != c.w ==> c.work.intent.PrepareTomorrow?
  }

  /** Only rows of the old intent have moved. */
  ghost predicate OldMoves(start: Progress, p: Progress) {
    && p.landed == {} && p.found.Keys <= start.found.Keys
    && (forall w :: w in p.found ==> p.found[w] == start.found[w])
    && (forall w :: w in p.left ==> w in start.found && start.found[w].intent.PrepareTomorrow?)
  }

  lemma {:induction false} SettledMoves(db: Db, t: TxId, start: Progress, p: Progress, changes: seq<Change>)
    requires t in db.open && OldMoves(start, p) && ApplyAll(db, t, p, changes).Going?
    requires forall c :: c in changes && c.SetWork? && c.k != c.w ==> c.work.intent.PrepareTomorrow?
    ensures OldMoves(start, ApplyAll(db, t, p, changes).p)
    decreases |changes|
  {
    if changes != [] {
      var c := changes[0];
      var q := Apply(db, t, p, c).p;
      assert OldMoves(start, q) by { hide BtrimEmpty, Rows, WorkPendingElsewhere, KeyHeldElsewhere, ApplyAll; }
      hide OldMoves, Apply;
      SettledMoves(db, t, start, q, changes[1..]);
    }
  }

  /** A key that a row of the old intent has left can have no origin but one whose check is queued. */
  lemma OldMoveKeeps(db: Db, t: TxId, p: Progress, w: Id)
    requires t in db.open && RowsOk(db.works, db.origins, db.open[t]) && Covered(db.works, db.origins, db.open[t])
    requires Underway(db, t, db.open[t], p) && CoveredBut(db.works, db.origins, p) && Finish(db, t, p).1.Done?
    requires OldMoves(Started(db, t), p) && w in p.left
    ensures OriginCovered(db.works, db.origins, Ended(p), Ended(p).queue, w)
  {
    var x, y := db.open[t], Ended(p);
    FinishMeans(db, t, p);
    assert w in Rows(db.works, x) && Rows(db.works, x)[w].intent.PrepareTomorrow?;
    hide Finish, OwnRows, FoundOk, ParentsBut, Apart, ForeignKeysFail, ForeignKeysWait, Parents, WorkCovered, OldMoves;
    if w in p.added {
      assert OriginInserted(w, y.tenant) in p.fired;
    } else if w in db.origins || w in x.origins {
      assert OriginCovered(db.works, db.origins, x, x.queue, w);
    }
  }

  lemma SettledLands(start: Progress, p: Progress)
    requires OldMoves(start, p)
    ensures p.landed == {}
  {
  }

  lemma SettledEnds(db: Db, t: TxId, changes: seq<Change>)
    requires Inv(db) && t in db.open && DoStatement(db, t, changes).1.Done?
    requires forall c :: c in changes && c.SetWork? && c.k != c.w ==> c.work.intent.PrepareTomorrow?
    ensures var r := ApplyAll(db, t, Started(db, t), changes); r.Going? && ChecksKept(db.works, db.origins, r.p)
  {
    var start := Started(db, t);
    var r := ApplyAll(db, t, start, changes);
    assert r.Going? && Finish(db, t, r.p).1.Done? by { hide Finish, Started, ApplyAll; }
    TxFacts(db, t);
    assert Covered(db.works, db.origins, db.open[t]) by { hide Covered; }
    assert OldMoves(start, start);
    hide Inv, Finish, ApplyAll, Started, RowsOk, Covered, Underway, CoveredBut, OldMoves, OriginCovered, DoStatement;
    StartedUnderway(db, t);
    ChangesGo(db, t, db.open[t], start, changes);
    SettledMoves(db, t, start, start, changes);
    SettledLands(start, r.p);
    forall w | w in r.p.left ensures OriginCovered(db.works, db.origins, Ended(r.p), Ended(r.p).queue, w) {
      OldMoveKeeps(db, t, r.p, w);
    }
  }

  /** The simpler rule is enough. */
  lemma SettledKeepsChecks(db: Db, op: Op)
    requires Inv(db) && Settled(op)
    ensures KeepsChecks(db, op)
  {
    hide Inv, DoStatement, ApplyAll, Started, ChecksKept;
    if op.Statement? && op.t in db.open && DoStatement(db, op.t, op.changes).1.Done? {
      SettledEnds(db, op.t, op.changes);
    }
  }

  // ---- commit ----

  /** The deferred checks of a remedial row find its origin in the view. */
  ghost predicate InsertsHaveOrigins(x: Tx, origins: Origins) {
    forall d :: d in x.queue && d.WorkInserted? && d.intent.RemediateClass? ==> d.w in origins
  }

  lemma PassedIsPaired(works: Works, origins: Origins, x: Tx)
    requires Paired(works, origins) && TxOk(works, origins, x)
    requires forall d :: d in x.queue ==> Passes(Rows(works, x), origins + x.origins, d)
    ensures Paired(Rows(works, x), origins + x.origins)
  {
    var view, all := Rows(works, x), origins + x.origins;
    forall w | w in all ensures HasRow(view, w, all[w].tenant) {
      hide Covered, OwnRows, Queued;
    }
    forall w | w in view
      ensures view[w].intent.RemediateClass? <==> w in all && all[w].tenant == view[w].tenant
    {
      if IsNew(works, x, w) {
        assert WorkCovered(origins, x, x.queue, w);
        hide Paired;
      }
      if w in all { assert OriginCovered(works, origins, x, x.queue, w); }
      hide Covered;
    }
  }

  lemma PairedPasses(works: Works, origins: Origins, x: Tx, d: Deferred)
    requires RowsOk(works, origins, x) && Paired(Rows(works, x), origins + x.origins) && d in x.queue
    requires d.WorkInserted? && d.intent.RemediateClass? ==> d.w in origins + x.origins
    ensures Passes(Rows(works, x), origins + x.origins, d)
  {
    assert IsOwnCheck(x, d);
    hide Queued;
  }

  /**
   In every state with the invariant, a commit is accepted if and only if the transaction's view
   is paired and each inserted remedial key has an origin.
   */
  lemma CommitAcceptedExactly(db: Db, t: TxId)
    requires Inv(db) && t in db.open
    ensures Step(db, Commit(t)).1.Done? <==>
      Paired(SeenWorks(db, t), SeenOrigins(db, t)) && InsertsHaveOrigins(db.open[t], SeenOrigins(db, t))
  {
    var x := db.open[t];
    var view, all := SeenWorks(db, t), SeenOrigins(db, t);
    TxFacts(db, t);
    assert TxOk(db.works, db.origins, x) by { hide RowsOk, Covered, Paired; }
    assert Step(db, Commit(t)).1.Done? <==> forall d :: d in x.queue ==> Passes(view, all, d)
      by { hide Passes, Rows, Inv, TxOk; }
    hide Step, Inv, RowsOk, Covered, Paired, Rows;
    if Step(db, Commit(t)).1.Done? {
      PassedIsPaired(db.works, db.origins, x);
    } else if Paired(view, all) && InsertsHaveOrigins(x, all) {
      forall d | d in x.queue ensures Passes(view, all, d) { PairedPasses(db.works, db.origins, x, d); }
      assert false;
    }
  }

  // ---- what a commit leaves to the other transactions ----

  /** The view of y after the commit of x, key by key. */
  lemma OtherView(works: Works, origins: Origins, x: Tx, y: Tx, w: Id)
    requires RowsOk(works, origins, x) && RowsOk(works, origins, y) && Independent(x, y) && Independent(y, x)
    ensures w in KeysOf(x) ==>
      (w in Rows(Rows(works, x), y) <==> w in Rows(works, x))
      && (w in Rows(works, x) ==> Rows(Rows(works, x), y)[w] == Rows(works, x)[w])
    ensures w !in KeysOf(x) ==>
      (w in Rows(Rows(works, x), y) <==> w in Rows(works, y))
      && (w in Rows(works, y) ==> Rows(Rows(works, x), y)[w] == Rows(works, y)[w])
      && (w in Rows(works, x) <==> w in works)
    ensures w in x.origins && w in Rows(works, x) ==>
      w in Rows(Rows(works, x), y) && SameKind(Rows(Rows(works, x), y)[w], Rows(works, x)[w])
    ensures w in y.origins && w in Rows(works, y) ==>
      w in Rows(Rows(works, x), y) && SameKind(Rows(Rows(works, x), y)[w], Rows(works, y)[w])
  {
    hide Parents, Queued;
  }

  lemma OtherOwn(works: Works, origins: Origins, x: Tx, y: Tx)
    requires OwnRows(works, origins, y) && Independent(x, y) && Independent(y, x)
    ensures OwnRows(Rows(works, x), origins + x.origins, y)
  {
  }

  lemma OtherParents(works: Works, origins: Origins, x: Tx, y: Tx)
    requires RowsOk(works, origins, x) && RowsOk(works, origins, y) && Independent(x, y) && Independent(y, x)
    ensures Parents(Rows(works, x), origins + x.origins, y)
  {
    var all := origins + x.origins;
    forall w | w in all ensures HasRow(Rows(Rows(works, x), y), w, all[w].tenant) {
      OtherView(works, origins, x, y, w);
      hide Rows, Independent, Queued;
    }
    forall w | w in y.origins ensures HasRow(Rows(Rows(works, x), y), w, y.tenant) {
      OtherView(works, origins, x, y, w);
      hide Rows, Independent, Queued;
    }
  }

  lemma OtherRowsOk(works: Works, origins: Origins, x: Tx, y: Tx)
    requires RowsOk(works, origins, x) && RowsOk(works, origins, y) && Independent(x, y) && Independent(y, x)
    ensures RowsOk(Rows(works, x), origins + x.origins, y)
  {
    hide Rows, Independent, OwnRows, Parents, Queued;
    OtherOwn(works, origins, x, y);
    OtherParents(works, origins, x, y);
  }

  lemma OtherWorkCovered(works: Works, origins: Origins, x: Tx, y: Tx, w: Id)
    requires Independent(x, y) && Independent(y, x) && Covered(works, origins, y)
    requires IsNew(Rows(works, x), y, w)
    ensures WorkCovered(origins + x.origins, y, y.queue, w)
  {
    assert IsNew(works, y, w);
    assert WorkCovered(origins, y, y.queue, w);
    hide Covered, Independent, IsNew;
  }

  lemma OtherOriginCovered(works: Works, origins: Origins, x: Tx, y: Tx, w: Id)
    requires RowsOk(works, origins, x) && RowsOk(works, origins, y) && Independent(x, y) && Independent(y, x)
    requires Covered(works, origins, y) && Paired(Rows(works, x), origins + x.origins)
    requires w in origins || w in x.origins || w in y.origins
    ensures OriginCovered(Rows(works, x), origins + x.origins, y, y.queue, w)
  {
    OtherView(works, origins, x, y, w);
    if w in origins || w in y.origins { assert OriginCovered(works, origins, y, y.queue, w); }
    assert w in origins + x.origins ==> HasRow(Rows(works, x), w, (origins + x.origins)[w].tenant);
    assert w in y.origins ==> HasRow(Rows(works, y), w, y.tenant);
    hide Rows, Covered, OwnRows, Parents, Queued;
  }

  lemma OtherCovered(works: Works, origins: Origins, x: Tx, y: Tx)
    requires RowsOk(works, origins, x) && RowsOk(works, origins, y) && Independent(x, y) && Independent(y, x)
    requires Covered(works, origins, y) && Paired(Rows(works, x), origins + x.origins)
    ensures Covered(Rows(works, x), origins + x.origins, y)
  {
    var view, all := Rows(works, x), origins + x.origins;
    hide RowsOk, Independent, IsNew, WorkCovered, OriginCovered, Rows, Paired;
    forall w | IsNew(view, y, w) ensures WorkCovered(all, y, y.queue, w) {
      hide Covered;
      OtherWorkCovered(works, origins, x, y, w);
    }
    forall w | w in all || w in y.origins ensures OriginCovered(view, all, y, y.queue, w) {
      hide Covered;
      OtherOriginCovered(works, origins, x, y, w);
    }
  }

  lemma CommitMeans(db: Db, t: TxId)
    requires t in db.open && DoCommit(db, t).1.Done?
    ensures DoCommit(db, t).0 == Db(SeenWorks(db, t), SeenOrigins(db, t), db.open - {t})
    ensures forall d :: d in db.open[t].queue ==> Passes(SeenWorks(db, t), SeenOrigins(db, t), d)
  {
    hide Passes, Rows;
  }

  lemma CommitLeaves(db: Db, t: TxId, u: TxId)
    requires Inv(db) && t in db.open && u in db.open && u != t && Paired(SeenWorks(db, t), SeenOrigins(db, t))
    ensures RowsOk(SeenWorks(db, t), SeenOrigins(db, t), db.open[u])
    ensures Covered(SeenWorks(db, t), SeenOrigins(db, t), db.open[u])
  {
    var x, y := db.open[t], db.open[u];
    InvFacts(db, t);
    InvFacts(db, u);
    PairFacts(db, t, u);
    hide *;
    OtherRowsOk(db.works, db.origins, x, y) by { TxOkMeans(db, t); TxOkMeans(db, u); }
    OtherCovered(db.works, db.origins, x, y) by { TxOkMeans(db, t); TxOkMeans(db, u); }
    SeenMeans(db, t);
  }

  lemma SeenMeans(db: Db, t: TxId)
    requires t in db.open
    ensures SeenWorks(db, t) == Rows(db.works, db.open[t]) && SeenOrigins(db, t) == db.origins + db.open[t].origins
  {
  }

  lemma InvFacts(db: Db, t: TxId)
    requires Inv(db) && t in db.open
    ensures RowInv(db) && Paired(db.works, db.origins) && TxOk(db.works, db.origins, db.open[t])
  {
    hide Paired, RowsOk, Covered, Independent;
  }

  lemma TxOkMeans(db: Db, t: TxId)
    requires t in db.open && TxOk(db.works, db.origins, db.open[t])
    ensures RowsOk(db.works, db.origins, db.open[t]) && Covered(db.works, db.origins, db.open[t])
  {
  }

  /** The rest of the database after the end of t. */
  lemma LeftBehind(db: Db, t: TxId, works: Works, origins: Origins)
    requires RowInv(db) && t in db.open && Paired(works, origins)
    requires forall u :: u in db.open && u != t ==>
      RowsOk(works, origins, db.open[u]) && Covered(works, origins, db.open[u])
    ensures Inv(Db(works, origins, db.open - {t}))
  {
    hide RowsOk, Covered, Paired, Independent;
  }

  lemma CommitKeeps(db: Db, t: TxId)
    requires Inv(db) && t in db.open && DoCommit(db, t).1.Done?
    ensures Inv(DoCommit(db, t).0)
  {
    InvFacts(db, t);
    CommitMeans(db, t);
    SeenMeans(db, t);
    hide *;
    PassedIsPaired(db.works, db.origins, db.open[t]);
    forall u | u in db.open && u != t
      ensures RowsOk(SeenWorks(db, t), SeenOrigins(db, t), db.open[u])
      ensures Covered(SeenWorks(db, t), SeenOrigins(db, t), db.open[u])
    {
      CommitLeaves(db, t, u);
    }
    LeftBehind(db, t, SeenWorks(db, t), SeenOrigins(db, t));
  }

  // ---- the other operations ----

  /** A check that has passed is not missed in the queue. */
  lemma EmptiedCovered(works: Works, origins: Origins, x: Tx, y: Tx)
    requires TxOk(works, origins, x) && y == x.(queue := [], immediate := true)
    requires forall d :: d in x.queue ==> Passes(Rows(works, x), origins + x.origins, d)
    ensures Covered(works, origins, y)
  {
    hide RowsOk;
    forall w | IsNew(works, y, w) ensures WorkCovered(origins, y, [], w) {
      assert IsNew(works, x, w) && WorkCovered(origins, x, x.queue, w);
      hide Covered, OriginCovered, Rows;
    }
    forall w | w in origins || w in y.origins ensures OriginCovered(works, origins, y, [], w) {
      assert OriginCovered(works, origins, x, x.queue, w) && Rows(works, x) == Rows(works, y);
      hide Covered, WorkCovered, IsNew, Rows;
    }
  }

  /** The mode does not matter for rows and checks, if the queue stays. */
  lemma DeferredOk(works: Works, origins: Origins, x: Tx, y: Tx)
    requires TxOk(works, origins, x) && y == x.(immediate := false)
    ensures TxOk(works, origins, y)
  {
    assert Rows(works, x) == Rows(works, y);
    forall w | IsNew(works, y, w) ensures WorkCovered(origins, y, y.queue, w) {
      assert IsNew(works, x, w) && WorkCovered(origins, x, x.queue, w);
    }
    forall w | w in origins || w in y.origins ensures OriginCovered(works, origins, y, y.queue, w) {
      assert OriginCovered(works, origins, x, x.queue, w);
    }
  }

  lemma EmptiedOk(works: Works, origins: Origins, x: Tx, y: Tx)
    requires TxOk(works, origins, x) && y == x.(queue := [], immediate := true)
    requires forall d :: d in x.queue ==> Passes(Rows(works, x), origins + x.origins, d)
    ensures TxOk(works, origins, y)
  {
    EmptiedCovered(works, origins, x, y);
    hide Covered, Passes;
  }

  lemma SameIndependent(x: Tx, y: Tx, z: Tx)
    requires Independent(x, z) && Independent(z, x) && y == x.(queue := y.queue, immediate := y.immediate)
    ensures Independent(y, z) && Independent(z, y)
  {
  }

  lemma ModeKeeps(db: Db, t: TxId, y: Tx)
    requires Inv(db) && t in db.open && y == db.open[t].(queue := y.queue, immediate := y.immediate)
    requires TxOk(db.works, db.origins, y)
    ensures Inv(db.(open := db.open[t := y]))
  {
    InvFacts(db, t);
    assert RowsOk(db.works, db.origins, y) && Covered(db.works, db.origins, y) by { hide Inv, RowsOk, Covered; }
    hide *;
    forall u | u in db.open && u != t ensures Independent(y, db.open[u]) && Independent(db.open[u], y) {
      PairFacts(db, t, u);
      SameIndependent(db.open[t], y, db.open[u]);
    }
    ReplaceTx(db, t, y);
  }

  lemma SetConstraintsMeans(db: Db, t: TxId, immediate: bool)
    requires t in db.open
    ensures var n := DoSetConstraints(db, t, immediate);
      if !n.1.Done? then n.0 == Released(db, t)
      else if immediate then
        && n.0 == db.(open := db.open[t := db.open[t].(queue := [], immediate := true)])
        && forall d :: d in db.open[t].queue ==> Passes(SeenWorks(db, t), SeenOrigins(db, t), d)
      else n.0 == db.(open := db.open[t := db.open[t].(immediate := false)])
  {
    hide Passes, Rows;
  }

  lemma SetConstraintsKeeps(db: Db, t: TxId, immediate: bool)
    requires Inv(db) && t in db.open
    ensures Inv(DoSetConstraints(db, t, immediate).0)
  {
    var x := db.open[t];
    InvFacts(db, t);
    SetConstraintsMeans(db, t, immediate);
    SeenMeans(db, t);
    hide *;
    if !DoSetConstraints(db, t, immediate).1.Done? {
      ReleasedKeeps(db, t);
    } else if immediate {
      EmptiedOk(db.works, db.origins, x, x.(queue := [], immediate := true));
      ModeKeeps(db, t, x.(queue := [], immediate := true));
    } else {
      DeferredOk(db.works, db.origins, x, x.(immediate := false));
      ModeKeeps(db, t, x.(immediate := false));
    }
  }

  lemma NewTxOk(works: Works, origins: Origins, tenant: Id)
    requires Paired(works, origins)
    ensures RowsOk(works, origins, NewTx(tenant)) && Covered(works, origins, NewTx(tenant))
  {
    assert Rows(works, NewTx(tenant)) == works;
    hide Rows;
  }

  lemma NewTxIndependent(tenant: Id, z: Tx)
    ensures Independent(NewTx(tenant), z) && Independent(z, NewTx(tenant))
  {
  }

  lemma BeginKeeps(db: Db, t: TxId, tenant: Id)
    requires Inv(db) && t !in db.open
    ensures Inv(db.(open := db.open[t := NewTx(tenant)]))
  {
    assert RowInv(db) && Paired(db.works, db.origins) by { hide Paired, RowsOk, Covered, AllIndependent; }
    hide *;
    NewTxOk(db.works, db.origins, tenant);
    forall u | u in db.open ensures Independent(NewTx(tenant), db.open[u]) && Independent(db.open[u], NewTx(tenant)) {
      NewTxIndependent(tenant, db.open[u]);
    }
    ReplaceTx(db, t, NewTx(tenant));
  }

  // ---- every run ----

  lemma StatementStep(db: Db, op: Op)
    requires Inv(db) && KeepsChecks(db, op) && op.Statement? && op.t in db.open
    ensures Inv(Step(db, op).0)
  {
    hide Inv, DoStatement, ApplyAll, Started, ChecksKept;
    if Step(db, op).1.Done? {
      assert RowInv(db) by { InvHasRows(db); }
      StatementKeeps(db, op.t, op.changes);
    } else {
      assert RowInv(db) by { InvHasRows(db); }
      ReleasedKeeps(db, op.t);
      UnsuccessfulStep(db, op);
    }
  }

  lemma InvHasRows(db: Db)
    requires Inv(db)
    ensures RowInv(db)
  {
  }

  /** What does not succeed changes nothing, or it ends its transaction. */
  lemma UnsuccessfulStep(db: Db, op: Op)
    requires !Step(db, op).1.Done?
    ensures Step(db, op).0 == db || Step(db, op).0 == Released(db, op.t)
  {
    hide ApplyAll, Started, FirstFailure, ForeignKeysFail, ForeignKeysWait, Rows;
  }

  /** A statement that breaks the rule still keeps rows and keys in order. */
  lemma StepKeepsRows(db: Db, op: Op)
    requires op.Statement?
    ensures Inv(db) ==> RowInv(Step(db, op).0)
  {
    hide Inv, RowInv, DoStatement, ChecksKept, ApplyAll, Started;
    if Inv(db) {
      InvHasRows(db);
      if op.t in db.open && Step(db, op).1.Done? {
        StatementKeeps(db, op.t, op.changes);
      } else {
        ReleasedKeeps(db, op.t);
        UnsuccessfulStep(db, op);
      }
    }
  }

  /** Every statement that meets the rule keeps the invariant. */
  lemma StepKeeps(db: Db, op: Op)
    requires Inv(db) && KeepsChecks(db, op)
    ensures Inv(Step(db, op).0)
  {
    InvHasRows(db);
    ReleasedKeeps(db, op.t);
    hide Inv, RowInv, KeepsChecks, DoStatement, DoSetConstraints, DoCommit;
    if op.t in db.open {
      match op
      case Statement(t, changes) => StatementStep(db, op);
      case SetConstraints(t, immediate) => SetConstraintsKeeps(db, t, immediate);
      case Commit(t) =>
        if DoCommit(db, t).1.Done? { CommitKeeps(db, t); } else { UnsuccessfulStep(db, op); }
      case _ =>
    } else if op.Begin? {
      BeginKeeps(db, op.t, op.tenant);
    }
  }

  /** Every accepted statement of the run meets the rule. */
  ghost predicate Disciplined(db: Db, ops: seq<Op>)
    decreases |ops|
  {
    ops == [] || (KeepsChecks(db, ops[0]) && Disciplined(Step(db, ops[0]).0, ops[1..]))
  }

  lemma {:induction false} RunKeeps(db: Db, ops: seq<Op>)
    requires Inv(db) && Disciplined(db, ops)
    ensures Inv(Run(db, ops))
    decreases |ops|
  {
    hide Inv, Step, KeepsChecks;
    if ops != [] {
      StepKeeps(db, ops[0]);
      RunKeeps(Step(db, ops[0]).0, ops[1..]);
    }
  }

  /** The tables as the migration leaves them: works of the old intent only. */
  predicate Migrated(db: Db) {
    db.origins == map[] && db.open == map[] && forall w :: w in db.works ==> db.works[w].intent.PrepareTomorrow?
  }

  lemma MigratedHasInv(start: Db)
    requires Migrated(start)
    ensures Inv(start)
  {
  }

  /** Every committed state of every disciplined run is paired. */
  lemma AlwaysPaired(start: Db, ops: seq<Op>)
    requires Migrated(start) && Disciplined(start, ops)
    ensures Paired(Run(start, ops).works, Run(start, ops).origins)
  {
    hide Migrated, Disciplined, Run, Paired, RowsOk, Covered;
    MigratedHasInv(start);
    RunKeeps(start, ops);
  }

  lemma {:induction false} SettledRunIsDisciplined(db: Db, ops: seq<Op>)
    requires Inv(db) && forall op :: op in ops ==> Settled(op)
    ensures Disciplined(db, ops)
    decreases |ops|
  {
    hide Inv, Step, KeepsChecks, Settled;
    if ops != [] {
      SettledKeepsChecks(db, ops[0]);
      StepKeeps(db, ops[0]);
      SettledRunIsDisciplined(Step(db, ops[0]).0, ops[1..]);
    }
  }

  /** The two probes of the downgrade agree; if they are silent, the old CHECK on intents holds. */
  lemma DowngradeProbesAgree(start: Db, ops: seq<Op>)
    requires Migrated(start) && Disciplined(start, ops)
    ensures var n := Run(start, ops);
      (n.origins != map[] <==> exists w :: w in n.works && n.works[w].intent.RemediateClass?)
      && (n.origins == map[] ==> forall w :: w in n.works ==> n.works[w].intent.PrepareTomorrow?)
  {
    AlwaysPaired(start, ops);
    var n := Run(start, ops);
    hide Run, Disciplined, Migrated;
    if n.origins != map[] {
      var w :| w in n.origins;
      assert w in n.works && n.works[w].intent.RemediateClass?;
    }
  }
}
