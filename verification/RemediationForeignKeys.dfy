/**
 The foreign keys of origins over every run from the migrated tables: each committed origin has
 its work and its source work, whether or not the statements of the run meet the rule on checks.
 */
module RemediationForeignKeys {
  import opened Basics
  import opened RemediationModel
  import opened RemediationStatements
  import opened RemediationPairing
  import opened RemediationHistory

  // ---- foreign keys ----

  /** Other transactions keep their rows in order when one commits, paired or not. */
  lemma CommitKeepsRows(db: Db, t: TxId)
    requires RowInv(db) && t in db.open
    ensures RowInv(Db(SeenWorks(db, t), SeenOrigins(db, t), db.open - {t}))
  {
    var x := db.open[t];
    TxFacts(db, t);
    forall u | u in db.open && u != t ensures RowsOk(SeenWorks(db, t), SeenOrigins(db, t), db.open[u]) {
      TxFacts(db, u);
      PairFacts(db, t, u);
      hide *;
      OtherRowsOk(db.works, db.origins, x, db.open[u]);
      SeenMeans(db, t);
    }
    hide RowsOk, Independent, SeenWorks, SeenOrigins;
  }

  lemma NewTxRows(works: Works, origins: Origins, tenant: Id)
    requires forall w :: w in origins ==> HasRow(works, w, origins[w].tenant)
    ensures RowsOk(works, origins, NewTx(tenant))
  {
    assert Rows(works, NewTx(tenant)) == works;
    hide Rows;
  }

  /** Every committed origin has its work. */
  ghost predicate WorksExist(db: Db) { forall w :: w in db.origins ==> HasRow(db.works, w, db.origins[w].tenant) }

  lemma CommitKeepsWorks(db: Db, t: TxId)
    requires RowInv(db) && t in db.open
    ensures WorksExist(Db(SeenWorks(db, t), SeenOrigins(db, t), db.open - {t}))
  {
    TxFacts(db, t);
    hide RowInv, OwnRows, Queued, Rows;
  }

  lemma RowsRegardless(works: Works, origins: Origins, x: Tx, y: Tx)
    requires y == x.(queue := y.queue, immediate := y.immediate)
    ensures OwnRows(works, origins, x) ==> OwnRows(works, origins, y)
    ensures Parents(works, origins, x) ==> Parents(works, origins, y)
  {
    assert Rows(works, y) == Rows(works, x);
    hide Rows;
  }

  lemma ModeRows(db: Db, t: TxId, y: Tx)
    requires RowInv(db) && t in db.open
    requires y == db.open[t].(queue := y.queue, immediate := y.immediate)
    requires Queued(y, y.queue) && (y.immediate ==> y.queue == [])
    ensures RowInv(db.(open := db.open[t := y]))
  {
    TxFacts(db, t);
    RowsRegardless(db.works, db.origins, db.open[t], y);
    hide RowInv, OwnRows, Parents, Queued;
    forall u | u in db.open && u != t ensures Independent(y, db.open[u]) && Independent(db.open[u], y) {
      PairFacts(db, t, u);
      SameIndependent(db.open[t], y, db.open[u]);
    }
    hide Independent;
    ReplaceTx(db, t, y);
  }

  lemma StepKeepsForeignKeys(db: Db, op: Op)
    requires RowInv(db) && WorksExist(db)
    ensures RowInv(Step(db, op).0) && WorksExist(Step(db, op).0)
  {
    if !Step(db, op).1.Done? {
      hide Step, RowInv;
      UnsuccessfulStep(db, op);
      ReleasedKeeps(db, op.t);
    } else if op.t !in db.open {
      NewTxRows(db.works, db.origins, op.tenant);
      forall u | u in db.open
        ensures Independent(NewTx(op.tenant), db.open[u]) && Independent(db.open[u], NewTx(op.tenant))
      {
        NewTxIndependent(op.tenant, db.open[u]);
      }
      hide RowInv, RowsOk, Independent, NewTx;
      ReplaceTx(db, op.t, NewTx(op.tenant));
    } else {
      AcceptedMeans(db, op);
      hide Step, Finish, ApplyAll, Started, SeenWorks, SeenOrigins, RowInv, InMode;
      match op
      case Statement(t, changes) =>
        StatementUnfolds(db, t, changes);
      case SetConstraints(t, immediate) =>
        QueueStays(db, t, immediate);
      case Commit(t) =>
        CommitKeepsRows(db, t);
        CommitKeepsWorks(db, t);
      case Abort(t) => ReleasedKeeps(db, t);
      case Begin(_, _) =>
    }
  }

  lemma StatementUnfolds(db: Db, t: TxId, changes: seq<Change>)
    requires RowInv(db) && t in db.open && Step(db, Statement(t, changes)).1.Done?
    ensures RowInv(Step(db, Statement(t, changes)).0)
  {
    hide RowInv, DoStatement, ApplyAll, Started, ChecksKept;
    StatementKeeps(db, t, changes);
  }

  lemma QueueStays(db: Db, t: TxId, immediate: bool)
    requires RowInv(db) && t in db.open
    ensures RowInv(db.(open := db.open[t := InMode(db.open[t], immediate)]))
  {
    var y := InMode(db.open[t], immediate);
    TxFacts(db, t);
    assert Queued(y, y.queue);
    hide RowInv, RowsOk, Queued;
    ModeRows(db, t, y);
  }

  // ---- the foreign key on the source work ----

  predicate SourceIn(view: Works, o: Origin) { o.sourceWork.Some? ==> HasRow(view, o.sourceWork.value, o.tenant) }

  /** The source work of every visible origin is in the view. */
  ghost predicate SourcesOk(works: Works, origins: Origins, x: Tx) {
    && (forall w :: w in origins ==> SourceIn(Rows(works, x), origins[w]))
    && (forall w :: w in x.origins ==> SourceIn(Rows(works, x), x.origins[w]))
  }

  /** x has taken no key that an origin of y names as its source. */
  ghost predicate SourcesApart(x: Tx, y: Tx) {
    forall w, v :: w in x.moved && v in y.origins ==> y.origins[v].sourceWork != Some(w)
  }

  ghost predicate SourceInv(db: Db) {
    && (forall w :: w in db.origins ==> SourceIn(db.works, db.origins[w]))
    && (forall t :: t in db.open ==> SourcesOk(db.works, db.origins, db.open[t]))
    && (forall t, u :: t in db.open && u in db.open && t != u ==> SourcesApart(db.open[t], db.open[u]))
  }

  predicate LeftBy(o: Origin, p: Progress) {
    o.sourceWork.Some? && o.sourceWork.value in p.left && o.tenant == p.tx.tenant
  }

  /** A source can be missing only if a row has left its key, or if the statement has added the origin. */
  ghost predicate SourcesBut(works: Works, origins: Origins, p: Progress) {
    && (forall w :: w in origins ==> SourceIn(Rows(works, p.tx), origins[w]) || LeftBy(origins[w], p))
    && (forall w :: w in p.tx.origins ==>
          SourceIn(Rows(works, p.tx), p.tx.origins[w]) || LeftBy(p.tx.origins[w], p) || w in p.added)
  }

  lemma MoreRowsKeep(works: Works, origins: Origins, p: Progress, q: Progress)
    requires SourcesBut(works, origins, p) && q.tx.origins == p.tx.origins && q.tx.tenant == p.tx.tenant
    requires q.left == p.left && q.added == p.added
    requires forall w, tenant :: HasRow(Rows(works, p.tx), w, tenant) ==> HasRow(Rows(works, q.tx), w, tenant)
    ensures SourcesBut(works, origins, q)
  {
    hide Rows, HasRow;
  }

  lemma InsertWorkKeepsSources(db: Db, t: TxId, p: Progress, w: Id, r: Work)
    requires SourcesBut(db.works, db.origins, p) && InsertWork(db, t, p, w, r).Going?
    ensures SourcesBut(db.works, db.origins, InsertWork(db, t, p, w, r).p)
  {
    var q := InsertWork(db, t, p, w, r).p;
    assert forall v, tenant :: HasRow(Rows(db.works, p.tx), v, tenant) ==> HasRow(Rows(db.works, q.tx), v, tenant) by {
      hide WorkChecks, WorkPendingElsewhere, SourcesBut;
    }
    assert q.tx.origins == p.tx.origins && q.left == p.left && q.added == p.added && q.tx.tenant == p.tx.tenant by {
      hide WorkChecks, WorkPendingElsewhere, SourcesBut, Rows;
    }
    hide InsertWork, SourcesBut, Rows, HasRow;
    MoreRowsKeep(db.works, db.origins, p, q);
  }

  lemma MovedKeepsSources(works: Works, origins: Origins, p: Progress, w: Id, k: Id, r: Work)
    requires SourcesBut(works, origins, p) && FoundOk(works, p) && CanMove(works, p, w, k, r)
    ensures SourcesBut(works, origins, Moved(p, w, k, r))
  {
    var q := Moved(p, w, k, r);
    forall v, tenant | HasRow(Rows(works, p.tx), v, tenant)
      ensures HasRow(Rows(works, q.tx), v, tenant) || (v == w && tenant == p.tx.tenant)
    {
      if v != w { MovedRows(works, p, w, k, r, v); }
    }
    assert q.left == p.left + {w} && q.tx.origins == p.tx.origins && q.added == p.added && q.tx.tenant == p.tx.tenant;
    hide Rows, HasRow, Moved, CanMove, FoundOk;
  }

  lemma VersionedKeepsSources(works: Works, origins: Origins, p: Progress, w: Id, r: Work)
    requires SourcesBut(works, origins, p) && FoundOk(works, p) && w in p.found && SameKind(r, p.found[w])
    ensures SourcesBut(works, origins, Versioned(p, w, r))
  {
    var q := Versioned(p, w, r);
    VersionedView(works, p, w, r);
    assert forall v, tenant :: HasRow(Rows(works, p.tx), v, tenant) ==> HasRow(Rows(works, q.tx), v, tenant) by {
      hide Rows, SourcesBut;
    }
    hide Rows, HasRow, SourcesBut;
    MoreRowsKeep(works, origins, p, q);
  }

  lemma InsertOriginKeepsSources(db: Db, t: TxId, p: Progress, w: Id, o: Origin)
    requires SourcesBut(db.works, db.origins, p) && InsertOrigin(db, t, p, w, o).Going?
    ensures SourcesBut(db.works, db.origins, InsertOrigin(db, t, p, w, o).p)
  {
    var q := InsertOrigin(db, t, p, w, o).p;
    assert Rows(db.works, q.tx) == Rows(db.works, p.tx);
    hide OriginChecks, OriginPendingElsewhere, Rows, HasRow;
  }

  lemma ChangeKeepsSources(db: Db, t: TxId, x: Tx, p: Progress, c: Change)
    requires t in db.open && Underway(db, t, x, p) && SourcesBut(db.works, db.origins, p) && Apply(db, t, p, c).Going?
    ensures SourcesBut(db.works, db.origins, Apply(db, t, p, c).p)
  {
    match c
    case NewWork(w, r) =>
      hide InsertWork, SourcesBut, Underway;
      InsertWorkKeepsSources(db, t, p, w, r);
    case SetWork(w, k, r) =>
      assert FoundOk(db.works, p) by { hide Extends, OwnRows, ParentsBut, Apart, FoundOk; }
      if w in p.found {
        UpdateWorkMeans(db, t, x, p, w, k, r) by { hide SourcesBut; }
        hide UpdateWork, SourcesBut, Underway, FoundOk, CanMove, SameKind;
        if k == w {
          VersionedKeepsSources(db.works, db.origins, p, w, r);
        } else {
          MovedKeepsSources(db.works, db.origins, p, w, k, r);
        }
      }
      hide SourcesBut, Underway, FoundOk;
    case NewOrigin(w, o) =>
      hide InsertOrigin, SourcesBut, Underway;
      InsertOriginKeepsSources(db, t, p, w, o);
    case SetOrigin(w, row) =>
      hide SourcesBut, Underway;
  }

  lemma {:induction false} ChangesKeepSources(db: Db, t: TxId, x: Tx, p: Progress, changes: seq<Change>)
    requires t in db.open && Underway(db, t, x, p) && SourcesBut(db.works, db.origins, p)
    requires ApplyAll(db, t, p, changes).Going?
    ensures SourcesBut(db.works, db.origins, ApplyAll(db, t, p, changes).p)
    decreases |changes|
  {
    hide Underway, SourcesBut, Apply;
    if changes != [] {
      ChangeGoes(db, t, x, p, changes[0]);
      ChangeKeepsSources(db, t, x, p, changes[0]);
      ChangesKeepSources(db, t, x, Apply(db, t, p, changes[0]).p, changes[1..]);
    }
  }

  lemma EndedSources(works: Works, origins: Origins, p: Progress)
    requires OwnRows(works, origins, p.tx) && SourcesBut(works, origins, p)
    requires !ForeignKeysFail(Rows(works, p.tx), origins + p.tx.origins, p)
    ensures SourcesOk(works, origins, p.tx)
  {
    var view, all := Rows(works, p.tx), origins + p.tx.origins;
    hide Rows;
    forall w | w in origins ensures SourceIn(view, origins[w]) {
      if LeftBy(origins[w], p) {
        var l := origins[w].sourceWork.value;
        assert all[w] == origins[w] && RefersTo(w, all[w], l);
        assert !KeyMissed(view, all, p.tx.tenant, l);
      }
    }
    forall w | w in p.tx.origins ensures SourceIn(view, p.tx.origins[w]) {
      if LeftBy(p.tx.origins[w], p) {
        var l := p.tx.origins[w].sourceWork.value;
        assert all[w] == p.tx.origins[w] && RefersTo(w, all[w], l);
        assert !KeyMissed(view, all, p.tx.tenant, l);
      } else if w in p.added {
        assert !OriginDangles(view, p.tx.origins[w], w);
      }
    }
  }

  lemma StatementApart(db: Db, t: TxId, p: Progress, u: TxId)
    requires t in db.open && u in db.open && u != t && Underway(db, t, db.open[t], p) && !ForeignKeysWait(db, t, p)
    requires SourcesApart(db.open[t], db.open[u]) && SourcesApart(db.open[u], db.open[t])
    ensures SourcesApart(Ended(p), db.open[u]) && SourcesApart(db.open[u], Ended(p))
  {
    var x, z := db.open[t], db.open[u];
    forall w, v | w in p.tx.moved && v in z.origins ensures z.origins[v].sourceWork != Some(w) {
      if w !in x.moved && z.origins[v].sourceWork == Some(w) {
        assert RefersTo(v, z.origins[v], w);
        assert !KeyHeldElsewhere(db, t, w) by { hide Extends, OwnRows, FoundOk, ParentsBut; }
        assert false;
      }
    }
    forall w, v | w in z.moved && v in p.tx.origins ensures p.tx.origins[v].sourceWork != Some(w) {
      assert Extends(x, p);
      hide Underway;
      if v in p.added { assert MovingElsewhere(db, t, w); }
    }
  }

  lemma ReplaceSources(db: Db, t: TxId, y: Tx)
    requires SourceInv(db) && SourcesOk(db.works, db.origins, y)
    requires forall u :: u in db.open && u != t ==> SourcesApart(y, db.open[u]) && SourcesApart(db.open[u], y)
    ensures SourceInv(db.(open := db.open[t := y]))
  {
    hide SourcesOk, SourcesApart, SourceIn;
  }

  lemma SourceFacts(db: Db, t: TxId, u: TxId)
    requires SourceInv(db) && t in db.open && u in db.open && t != u
    ensures SourcesOk(db.works, db.origins, db.open[t]) && SourcesOk(db.works, db.origins, db.open[u])
    ensures SourcesApart(db.open[t], db.open[u]) && SourcesApart(db.open[u], db.open[t])
  {
    hide SourcesOk, SourcesApart, SourceIn;
  }

  lemma StatementSources(db: Db, t: TxId, changes: seq<Change>)
    requires RowInv(db) && SourceInv(db) && t in db.open && DoStatement(db, t, changes).1.Done?
    ensures var r := ApplyAll(db, t, Started(db, t), changes);
      && r.Going? && DoStatement(db, t, changes).0 == db.(open := db.open[t := Ended(r.p)])
      && Underway(db, t, db.open[t], r.p) && !ForeignKeysWait(db, t, r.p)
      && SourcesOk(db.works, db.origins, Ended(r.p))
  {
    var x, start := db.open[t], Started(db, t);
    var r := ApplyAll(db, t, start, changes);
    assert r.Going? && DoStatement(db, t, changes) == Finish(db, t, r.p) by { hide Finish, Started, ApplyAll; }
    TxFacts(db, t);
    assert SourcesBut(db.works, db.origins, start);
    hide *;
    StartedUnderway(db, t);
    ChangesGo(db, t, x, start, changes);
    ChangesKeepSources(db, t, x, start, changes);
    FinishMeans(db, t, r.p);
    UnderwayOwns(db, t, x, r.p);
    EndedSources(db.works, db.origins, r.p);
    SourcesRegardless(db.works, db.origins, r.p.tx, Ended(r.p)) by { EndedIs(r.p); }
  }

  lemma EndedIs(p: Progress)
    ensures Ended(p) == p.tx.(queue := Ended(p).queue, immediate := Ended(p).immediate)
  {
  }

  lemma StatementKeepsSources(db: Db, t: TxId, changes: seq<Change>)
    requires RowInv(db) && SourceInv(db) && t in db.open && DoStatement(db, t, changes).1.Done?
    ensures SourceInv(DoStatement(db, t, changes).0)
  {
    hide *;
    StatementSources(db, t, changes);
    var p := ApplyAll(db, t, Started(db, t), changes).p;
    forall u | u in db.open && u != t
      ensures SourcesApart(Ended(p), db.open[u]) && SourcesApart(db.open[u], Ended(p))
    {
      SourceFacts(db, t, u);
      StatementApart(db, t, p, u);
    }
    ReplaceSources(db, t, Ended(p));
  }

  lemma UnderwayOwns(db: Db, t: TxId, x: Tx, p: Progress)
    requires Underway(db, t, x, p)
    ensures OwnRows(db.works, db.origins, p.tx)
  {
    hide Extends, OwnRows, FoundOk, ParentsBut, Apart;
  }

  lemma SourcesRegardless(works: Works, origins: Origins, x: Tx, y: Tx)
    requires SourcesOk(works, origins, x) && y == x.(queue := y.queue, immediate := y.immediate)
    ensures SourcesOk(works, origins, y)
  {
    assert Rows(works, y) == Rows(works, x);
    hide Rows, SourceIn;
  }

  /**
   A row in the view of x or of y, under a key that the other has not taken, is in the view of y
   after the commit of x.
   */
  lemma OtherHasRow(works: Works, origins: Origins, x: Tx, y: Tx, w: Id, tenant: Id)
    requires RowsOk(works, origins, x) && RowsOk(works, origins, y) && Independent(x, y) && Independent(y, x)
    ensures HasRow(Rows(works, x), w, tenant) && w !in y.moved ==> HasRow(Rows(Rows(works, x), y), w, tenant)
    ensures HasRow(Rows(works, y), w, tenant) && w !in x.moved ==> HasRow(Rows(Rows(works, x), y), w, tenant)
    ensures HasRow(Rows(works, x), w, tenant) && HasRow(Rows(works, y), w, tenant) ==>
      HasRow(Rows(Rows(works, x), y), w, tenant)
  {
    OtherView(works, origins, x, y, w);
    hide Parents, Queued;
  }

  lemma OtherStored(works: Works, origins: Origins, x: Tx, y: Tx)
    requires RowsOk(works, origins, x) && RowsOk(works, origins, y) && Independent(x, y) && Independent(y, x)
    requires SourcesOk(works, origins, x) && SourcesOk(works, origins, y) && SourcesApart(x, y) && SourcesApart(y, x)
    ensures var view, all := Rows(Rows(works, x), y), origins + x.origins;
      forall w | w in all && all[w].sourceWork.Some? :: SourceIn(view, all[w])
  {
    var view, all := Rows(Rows(works, x), y), origins + x.origins;
    forall w | w in all && all[w].sourceWork.Some? ensures SourceIn(view, all[w]) {
      OtherHasRow(works, origins, x, y, all[w].sourceWork.value, all[w].tenant);
      hide RowsOk, Independent, Rows, HasRow;
    }
  }

  lemma OtherSources(works: Works, origins: Origins, x: Tx, y: Tx)
    requires RowsOk(works, origins, x) && RowsOk(works, origins, y) && Independent(x, y) && Independent(y, x)
    requires SourcesOk(works, origins, x) && SourcesOk(works, origins, y) && SourcesApart(x, y) && SourcesApart(y, x)
    ensures SourcesOk(Rows(works, x), origins + x.origins, y)
  {
    var view, all := Rows(Rows(works, x), y), origins + x.origins;
    OtherStored(works, origins, x, y);
    forall w | w in y.origins && y.origins[w].sourceWork.Some? ensures SourceIn(view, y.origins[w]) {
      OtherHasRow(works, origins, x, y, y.origins[w].sourceWork.value, y.origins[w].tenant);
      hide RowsOk, Independent, Rows, HasRow;
    }
  }

  lemma CommitKeepsSources(db: Db, t: TxId)
    requires RowInv(db) && SourceInv(db) && t in db.open
    ensures SourceInv(Db(SeenWorks(db, t), SeenOrigins(db, t), db.open - {t}))
  {
    var x := db.open[t];
    SeenMeans(db, t);
    TxFacts(db, t);
    forall w | w in db.origins + x.origins ensures SourceIn(Rows(db.works, x), (db.origins + x.origins)[w]) {
      hide RowInv, RowsOk, Rows, SourceIn, SourcesApart;
    }
    forall u | u in db.open && u != t ensures SourcesOk(SeenWorks(db, t), SeenOrigins(db, t), db.open[u]) {
      TxFacts(db, u);
      PairFacts(db, t, u);
      hide *;
      SourceFacts(db, t, u);
      OtherSources(db.works, db.origins, x, db.open[u]);
    }
    hide RowInv, RowsOk, SourcesOk, SourcesApart, SourceIn, SeenWorks, SeenOrigins;
  }

  lemma BeginKeepsSources(db: Db, t: TxId, tenant: Id)
    requires SourceInv(db) && t !in db.open
    ensures SourceInv(db.(open := db.open[t := NewTx(tenant)]))
  {
    var y := NewTx(tenant);
    assert Rows(db.works, y) == db.works;
    assert SourcesOk(db.works, db.origins, y);
    hide Rows, SourceIn, SourcesOk, SourceInv;
    ReplaceSources(db, t, y);
  }

  lemma ModeKeepsSources(db: Db, t: TxId, immediate: bool)
    requires SourceInv(db) && t in db.open
    ensures SourceInv(db.(open := db.open[t := InMode(db.open[t], immediate)]))
  {
    var x, y := db.open[t], InMode(db.open[t], immediate);
    assert SourcesOk(db.works, db.origins, x) by { hide SourcesOk, SourcesApart, SourceIn; }
    SourcesRegardless(db.works, db.origins, x, y);
    assert y.origins == x.origins && y.moved == x.moved;
    hide InMode, SourcesOk, SourceIn;
    forall u | u in db.open && u != t ensures SourcesApart(y, db.open[u]) && SourcesApart(db.open[u], y) {
      SourceFacts(db, t, u);
      hide SourceInv;
    }
    hide SourceInv, SourcesApart;
    ReplaceSources(db, t, y);
  }

  lemma ReleasedKeepsSources(db: Db, t: TxId)
    requires SourceInv(db)
    ensures SourceInv(Released(db, t))
  {
    hide SourcesOk, SourcesApart, SourceIn;
  }

  lemma BeginMeans(db: Db, op: Op)
    requires op.t !in db.open && Step(db, op).1.Done?
    ensures op.Begin? && Step(db, op).0 == db.(open := db.open[op.t := NewTx(op.tenant)])
  {
  }

  lemma StatementIs(db: Db, t: TxId, changes: seq<Change>)
    requires t in db.open
    ensures Step(db, Statement(t, changes)) == DoStatement(db, t, changes)
  {
    hide DoStatement;
  }

  lemma StepKeepsSources(db: Db, op: Op)
    requires RowInv(db) && SourceInv(db)
    ensures SourceInv(Step(db, op).0)
  {
    hide *;
    if !Step(db, op).1.Done? {
      UnsuccessfulStep(db, op);
      ReleasedKeepsSources(db, op.t);
    } else if op.t !in db.open {
      BeginMeans(db, op);
      BeginKeepsSources(db, op.t, op.tenant);
    } else {
      AcceptedMeans(db, op);
      match op
      case Statement(t, changes) =>
        StatementIs(db, t, changes);
        StatementKeepsSources(db, t, changes);
      case SetConstraints(t, immediate) => ModeKeepsSources(db, t, immediate);
      case Commit(t) => CommitKeepsSources(db, t);
      case Abort(t) => ReleasedKeepsSources(db, t);
      case Begin(_, _) =>
    }
  }

  // ---- every run ----

  /** Both foreign keys of every committed origin. */
  ghost predicate ForeignKeysHold(db: Db) {
    forall w :: w in db.origins ==>
      && HasRow(db.works, w, db.origins[w].tenant)
      && (db.origins[w].sourceWork.Some? ==> HasRow(db.works, db.origins[w].sourceWork.value, db.origins[w].tenant))
  }

  lemma {:induction false} RunKeepsForeignKeys(db: Db, ops: seq<Op>)
    requires RowInv(db) && WorksExist(db) && SourceInv(db)
    ensures ForeignKeysHold(Run(db, ops))
    decreases |ops|
  {
    if ops == [] {
      hide RowInv;
    } else {
      hide RowInv, WorksExist, SourceInv, Step, ForeignKeysHold;
      StepKeepsForeignKeys(db, ops[0]);
      StepKeepsSources(db, ops[0]);
      RunKeepsForeignKeys(Step(db, ops[0]).0, ops[1..]);
    }
  }

  /** In every committed state of every run, the work and the source work of each origin exist in its tenant. */
  lemma ForeignKeysAlwaysHold(start: Db, ops: seq<Op>)
    requires Migrated(start)
    ensures ForeignKeysHold(Run(start, ops))
  {
    RunKeepsForeignKeys(start, ops);
  }
}
