/** Exactly which statements and commits are accepted, told by rows and columns, and what a transaction sees of them. */
module RemediationAcceptance {
  import opened Basics
  import opened RemediationModel
  import opened RemediationStatements
  import opened RemediationPairing
  import opened RemediationRuns
  import opened RemediationHistory
  import opened TextRules

  // ---- columns ----

  ghost predicate WorkColumns(r: Work) { HasText(r.goal) && r.revision >= 0 }

  ghost predicate OriginColumns(o: Origin) { HasText(o.classRef) && o.assessmentRevision >= 0 }

  lemma WorkColumnsExactly(r: Work)
    ensures WorkChecks(r) <==> WorkColumns(r)
  {
    TextMeans(r.goal);
    hide BtrimEmpty, HasText;
  }

  lemma OriginColumnsExactly(o: Origin)
    ensures OriginChecks(o) <==> OriginColumns(o)
  {
    TextMeans(o.classRef);
    hide BtrimEmpty, HasText;
  }

  ghost predicate Checked(works: Works, origins: Origins) {
    && (forall w :: w in works ==> WorkColumns(works[w]))
    && (forall w :: w in origins ==> OriginColumns(origins[w]))
  }

  ghost predicate AllChecked(db: Db) {
    Checked(db.works, db.origins) && forall t :: t in db.open ==> Checked(db.open[t].works, db.open[t].origins)
  }

  lemma ChangeChecks(db: Db, t: TxId, p: Progress, c: Change)
    requires t in db.open && Checked(p.tx.works, p.tx.origins) && Apply(db, t, p, c).Going?
    ensures Checked(Apply(db, t, p, c).p.tx.works, Apply(db, t, p, c).p.tx.origins)
  {
    if c.NewWork? || c.SetWork? { WorkColumnsExactly(c.work); }
    if c.NewOrigin? { OriginColumnsExactly(c.origin); }
    hide WorkChecks, OriginChecks, WorkColumns, OriginColumns, Rows, WorkPendingElsewhere, OriginPendingElsewhere;
    hide KeyHeldElsewhere, SeenOrigins;
  }

  lemma {:induction false} ChangesCheck(db: Db, t: TxId, p: Progress, changes: seq<Change>)
    requires t in db.open && Checked(p.tx.works, p.tx.origins) && ApplyAll(db, t, p, changes).Going?
    ensures var q := ApplyAll(db, t, p, changes).p; Checked(q.tx.works, q.tx.origins)
    decreases |changes|
  {
    hide Checked, Apply;
    if changes != [] {
      ChangeChecks(db, t, p, changes[0]);
      ChangesCheck(db, t, Apply(db, t, p, changes[0]).p, changes[1..]);
    }
  }

  lemma StepChecks(db: Db, op: Op)
    requires AllChecked(db)
    ensures AllChecked(Step(db, op).0)
  {
    if !Step(db, op).1.Done? {
      hide Step, Checked;
      UnsuccessfulStep(db, op);
    } else if op.t !in db.open {
      hide WorkColumns, OriginColumns;
    } else {
      AcceptedMeans(db, op);
      hide Step, Finish, WorkColumns, OriginColumns;
      if op.Statement? {
        assert Checked(Started(db, op.t).tx.works, Started(db, op.t).tx.origins) by { hide Rows, Checked, ApplyAll; }
        hide Started;
        ChangesCheck(db, op.t, Started(db, op.t), op.changes);
        hide Checked, ApplyAll;
      } else if op.Commit? {
        hide ApplyAll, Started;
      } else {
        hide ApplyAll, Started, Checked;
      }
    }
  }

  lemma {:induction false} RunChecks(db: Db, ops: seq<Op>)
    requires AllChecked(db)
    ensures AllChecked(Run(db, ops))
    decreases |ops|
  {
    hide AllChecked, Step;
    if ops != [] {
      StepChecks(db, ops[0]);
      RunChecks(Step(db, ops[0]).0, ops[1..]);
    }
  }

  /** Over every run every committed row meets the CHECK constraints, if the migrated works do. */
  lemma ChecksAlwaysHold(start: Db, ops: seq<Op>)
    requires Migrated(start) && forall w :: w in start.works ==> WorkColumns(start.works[w])
    ensures Checked(Run(start, ops).works, Run(start, ops).origins)
  {
    hide WorkColumns, OriginColumns, Run;
    RunChecks(start, ops);
  }

  // ---- one new work ----

  /** No other transaction has a row under w or has taken that key from one. */
  ghost predicate KeyFree(db: Db, t: TxId, w: Id) {
    forall u :: u in db.open && u != t ==> w !in db.open[u].works && w !in db.open[u].moved
  }

  /** No other transaction is inserting an origin of w. */
  ghost predicate OriginFree(db: Db, t: TxId, w: Id) {
    forall u :: u in db.open && u != t ==> w !in db.open[u].origins
  }

  /** No other transaction has taken the key w from a row. */
  ghost predicate KeyStays(db: Db, t: TxId, w: Id) {
    forall u :: u in db.open && u != t ==> w !in db.open[u].moved
  }

  lemma FreeExactly(db: Db, t: TxId, w: Id)
    ensures KeyFree(db, t, w) <==> !WorkPendingElsewhere(db, t, w)
    ensures OriginFree(db, t, w) <==> !OriginPendingElsewhere(db, t, w)
    ensures KeyStays(db, t, w) <==> !MovingElsewhere(db, t, w)
  {
  }

  /** The transaction sees an origin of w for the row r. */
  ghost predicate SeesOriginFor(db: Db, t: TxId, w: Id, r: Work)
    requires t in db.open
  {
    w in SeenOrigins(db, t) && SeenOrigins(db, t)[w].tenant == r.tenant
  }

  /** A statement whose rows go through is accepted exactly if its foreign keys and its immediate checks are content. */
  lemma EndExactly(db: Db, t: TxId, changes: seq<Change>, p: Progress)
    requires t in db.open && ApplyAll(db, t, Started(db, t), changes) == Going(p)
    ensures var (n, o) := Step(db, Statement(t, changes));
      var view, all := Rows(db.works, p.tx), db.origins + p.tx.origins;
      && (o.Done? <==>
            && !ForeignKeysFail(view, all, p) && !ForeignKeysWait(db, t, p)
            && (p.tx.immediate ==> forall d :: d in p.fired ==> Passes(view, all, d)))
      && (o.Done? ==> n == With(db, t, Ended(p)))
      && (o.Rejected? && o.reason in {OriginRequired, RemediateRequired} ==>
            p.tx.immediate && exists d :: d in p.fired && !Passes(view, all, d) && o.reason == ReasonOf(d))
  {
    var view, all := Rows(db.works, p.tx), db.origins + p.tx.origins;
    FailureExactly(view, all, p.fired);
    hide ApplyAll, Started, ForeignKeysFail, ForeignKeysWait, Rows, FirstFailure, Passes;
  }

  /** Check i of the queue raises, and no earlier one does. */
  ghost predicate RaisesFirst(view: Works, all: Origins, queue: seq<Deferred>, i: nat) {
    i < |queue| && !Passes(view, all, queue[i]) && forall j :: 0 <= j < i ==> Passes(view, all, queue[j])
  }

  lemma {:induction false} FailureExactly(view: Works, all: Origins, queue: seq<Deferred>)
    ensures var f := FirstFailure(view, all, queue);
      f.Some? ==> exists i: nat :: RaisesFirst(view, all, queue, i) && queue[i] == f.value
  {
    hide Passes;
    if queue != [] {
      if Passes(view, all, queue[0]) {
        FailureExactly(view, all, queue[1..]);
        if FirstFailure(view, all, queue).Some? {
          var i: nat :| RaisesFirst(view, all, queue[1..], i) && queue[1..][i] == FirstFailure(view, all, queue).value;
          assert forall j :: 0 < j < i + 1 ==> queue[j] == queue[1..][j - 1];
          assert RaisesFirst(view, all, queue, i + 1) && queue[i + 1] == queue[1..][i];
        }
      } else {
        assert RaisesFirst(view, all, queue, 0);
      }
    }
  }

  lemma OneFired(view: Works, all: Origins, d: Deferred)
    ensures (forall c :: c in [d] ==> Passes(view, all, c)) <==> Passes(view, all, d)
  {
    assert d in [d];
    hide Passes;
  }

  /** What is seen after one transaction has been replaced. */
  lemma WithSees(db: Db, t: TxId, y: Tx)
    ensures var n := With(db, t, y);
      t in n.open && n.open[t] == y
      && SeenWorks(n, t) == Rows(db.works, y) && SeenOrigins(n, t) == db.origins + y.origins
  {
    hide Rows;
  }

  // ---- a new work ----

  lemma InsertWorkGoing(db: Db, t: TxId, w: Id, r: Work)
    requires t in db.open
    ensures var a := Apply(db, t, Started(db, t), NewWork(w, r));
      && (a.Going? <==> r.tenant == db.open[t].tenant && WorkChecks(r) && w !in SeenWorks(db, t)
                        && !WorkPendingElsewhere(db, t, w))
      && (a.Failing? ==> a.reason in {RowSecurity, CheckViolation, UniqueViolation})
      && (a.Going? ==>
            a.p == Started(db, t).(tx := db.open[t].(works := db.open[t].works[w := r]),
                                   fired := [WorkInserted(w, r.tenant, r.intent)]))
  {
    hide WorkChecks, WorkPendingElsewhere, Rows;
    assert [] + [WorkInserted(w, r.tenant, r.intent)] == [WorkInserted(w, r.tenant, r.intent)];
  }

  lemma Single(db: Db, t: TxId, c: Change)
    requires t in db.open
    ensures ApplyAll(db, t, Started(db, t), [c]) == Apply(db, t, Started(db, t), c)
  {
    assert [c][1..] == [];
    hide Apply, Started;
  }

  /** What a statement of one row, refused or waiting in that row, ends with. */
  lemma StopsAt(db: Db, t: TxId, c: Change)
    requires t in db.open && !Apply(db, t, Started(db, t), c).Going?
    ensures var a, o := Apply(db, t, Started(db, t), c), Step(db, Statement(t, [c])).1;
      o == if a.Waiting? then Blocked else Rejected(a.reason)
  {
    Single(db, t, c);
    hide Apply, Started, ApplyAll;
  }

  lemma NewWorkEnds(db: Db, t: TxId, w: Id, r: Work, p: Progress)
    requires t in db.open && w !in SeenWorks(db, t) && r.tenant == db.open[t].tenant
    requires p == Started(db, t).(tx := db.open[t].(works := db.open[t].works[w := r]),
                                  fired := [WorkInserted(w, r.tenant, r.intent)])
    ensures var view, all := Rows(db.works, p.tx), db.origins + p.tx.origins;
      && view == SeenWorks(db, t)[w := r] && all == SeenOrigins(db, t)
      && !ForeignKeysFail(view, all, p) && !ForeignKeysWait(db, t, p)
      && ((forall d :: d in p.fired ==> Passes(view, all, d)) <==>
            (r.intent == RemediateClass ==> SeesOriginFor(db, t, w, r)))
  {
    OneFired(Rows(db.works, p.tx), db.origins + p.tx.origins, WorkInserted(w, r.tenant, r.intent));
  }

  /**
   An insert of one work is accepted exactly for an own-tenant, well-formed row under a key that
   is neither seen nor pending; in immediate mode a remedial work needs its origin already.
   */
  lemma InsertWorkAcceptedExactly(db: Db, t: TxId, w: Id, r: Work)
    requires t in db.open
    ensures var (n, o) := Step(db, InsertOne(t, w, r));
      && (o.Done? <==>
            && r.tenant == db.open[t].tenant && WorkColumns(r) && w !in SeenWorks(db, t) && KeyFree(db, t, w)
            && (db.open[t].immediate && r.intent == RemediateClass ==> SeesOriginFor(db, t, w, r)))
      && (o.Done? ==>
            t in n.open && SeenWorks(n, t) == SeenWorks(db, t)[w := r] && SeenOrigins(n, t) == SeenOrigins(db, t))
      && (o == Rejected(OriginRequired) ==> r.intent == RemediateClass && !SeesOriginFor(db, t, w, r))
      && o != Rejected(RemediateRequired)
  {
    var start := Started(db, t);
    var a := Apply(db, t, start, NewWork(w, r));
    assert InsertOne(t, w, r) == Statement(t, [NewWork(w, r)]);
    assert forall d :: ReasonOf(d) == if d.WorkInserted? then OriginRequired else RemediateRequired;
    assert start.tx == db.open[t];
    hide *;
    WorkColumnsExactly(r);
    FreeExactly(db, t, w);
    InsertWorkGoing(db, t, w, r);
    Single(db, t, NewWork(w, r));
    if a.Going? {
      EndExactly(db, t, [NewWork(w, r)], a.p);
      NewWorkEnds(db, t, w, r, a.p);
      EndedSees(db, t, a.p);
    } else {
      StopsAt(db, t, NewWork(w, r));
    }
  }

  lemma EndedSees(db: Db, t: TxId, p: Progress)
    ensures var n := With(db, t, Ended(p));
      t in n.open && SeenWorks(n, t) == Rows(db.works, p.tx) && SeenOrigins(n, t) == db.origins + p.tx.origins
  {
    WithSees(db, t, Ended(p));
    assert Rows(db.works, Ended(p)) == Rows(db.works, p.tx);
    hide Rows, SeenWorks, SeenOrigins, With;
  }

  // ---- a new origin ----

  lemma InsertOriginGoing(db: Db, t: TxId, w: Id, o: Origin)
    requires t in db.open
    ensures var a := Apply(db, t, Started(db, t), NewOrigin(w, o));
      && (a.Going? <==> o.tenant == db.open[t].tenant && OriginChecks(o) && w !in SeenOrigins(db, t)
                        && !OriginPendingElsewhere(db, t, w))
      && (a.Failing? ==> a.reason in {RowSecurity, CheckViolation, UniqueViolation})
      && (a.Going? ==>
            a.p == Started(db, t).(tx := db.open[t].(origins := db.open[t].origins[w := o]),
                                   fired := [OriginInserted(w, o.tenant)], added := {w}))
  {
    hide OriginChecks, OriginPendingElsewhere, Rows;
    assert [] + [OriginInserted(w, o.tenant)] == [OriginInserted(w, o.tenant)];
  }

  /** Both works that the origin names are seen in its tenant. */
  ghost predicate SeesWorksOf(db: Db, t: TxId, w: Id, o: Origin)
    requires t in db.open
  {
    HasRow(SeenWorks(db, t), w, o.tenant)
    && (o.sourceWork.Some? ==> HasRow(SeenWorks(db, t), o.sourceWork.value, o.tenant))
  }

  ghost predicate KeysStay(db: Db, t: TxId, w: Id, o: Origin) {
    KeyStays(db, t, w) && (o.sourceWork.Some? ==> KeyStays(db, t, o.sourceWork.value))
  }

  /** The statement up to its end. */
  ghost predicate AddsOrigin(db: Db, t: TxId, w: Id, o: Origin, p: Progress) {
    && t in db.open && w !in SeenOrigins(db, t)
    && p == Started(db, t).(tx := db.open[t].(origins := db.open[t].origins[w := o]),
                            fired := [OriginInserted(w, o.tenant)], added := {w})
  }

  lemma AddsMeans(db: Db, t: TxId, w: Id, o: Origin, p: Progress)
    requires t in db.open && w !in SeenOrigins(db, t)
    requires p == Started(db, t).(tx := db.open[t].(origins := db.open[t].origins[w := o]),
                                  fired := [OriginInserted(w, o.tenant)], added := {w})
    ensures AddsOrigin(db, t, w, o, p)
  {
    hide Started, SeenOrigins;
  }

  lemma NewOriginViews(db: Db, t: TxId, w: Id, o: Origin, p: Progress)
    requires AddsOrigin(db, t, w, o, p)
    ensures Rows(db.works, p.tx) == SeenWorks(db, t) && db.origins + p.tx.origins == SeenOrigins(db, t)[w := o]
    ensures p.added == {w} && p.left == {} && w in p.tx.origins && p.tx.origins[w] == o
    ensures p.fired == [OriginInserted(w, o.tenant)] && p.tx.immediate == db.open[t].immediate
  {
  }

  lemma NewOriginKeys(db: Db, t: TxId, w: Id, o: Origin, p: Progress)
    requires AddsOrigin(db, t, w, o, p)
    ensures !ForeignKeysFail(SeenWorks(db, t), SeenOrigins(db, t)[w := o], p) <==> SeesWorksOf(db, t, w, o)
    ensures !ForeignKeysWait(db, t, p) <==> KeysStay(db, t, w, o)
  {
    NewOriginViews(db, t, w, o, p);
    FreeExactly(db, t, w);
    if o.sourceWork.Some? { FreeExactly(db, t, o.sourceWork.value); }
    hide KeyStays, MovingElsewhere, Rows, SeenWorks, SeenOrigins, AddsOrigin, HasRow;
  }

  lemma NewOriginEnds(db: Db, t: TxId, w: Id, o: Origin, p: Progress)
    requires AddsOrigin(db, t, w, o, p)
    ensures var view, all := Rows(db.works, p.tx), db.origins + p.tx.origins;
      && view == SeenWorks(db, t) && all == SeenOrigins(db, t)[w := o]
      && (!ForeignKeysFail(view, all, p) <==> SeesWorksOf(db, t, w, o))
      && (!ForeignKeysWait(db, t, p) <==> KeysStay(db, t, w, o))
      && ((forall d :: d in p.fired ==> Passes(view, all, d)) <==>
            HasRow(view, w, o.tenant) && view[w].intent == RemediateClass)
  {
    NewOriginViews(db, t, w, o, p);
    NewOriginKeys(db, t, w, o, p);
    OneFired(Rows(db.works, p.tx), db.origins + p.tx.origins, OriginInserted(w, o.tenant));
    hide Rows, SeenWorks, SeenOrigins, AddsOrigin, ForeignKeysFail, ForeignKeysWait, SeesWorksOf, KeysStay;
  }

  /**
   An insert of one origin is accepted exactly for an own-tenant, well-formed row under a key
   that is neither seen nor pending, whose work and source work are seen and not on the move; in
   immediate mode the work must be remedial.
   */
  lemma InsertOriginAcceptedExactly(db: Db, t: TxId, w: Id, r: Origin)
    requires t in db.open
    ensures var (n, o) := Step(db, OriginOne(t, w, r));
      && (o.Done? <==>
            && r.tenant == db.open[t].tenant && OriginColumns(r) && w !in SeenOrigins(db, t) && OriginFree(db, t, w)
            && SeesWorksOf(db, t, w, r) && KeysStay(db, t, w, r)
            && (db.open[t].immediate ==> SeenWorks(db, t)[w].intent == RemediateClass))
      && (o.Done? ==>
            t in n.open && SeenWorks(n, t) == SeenWorks(db, t) && SeenOrigins(n, t) == SeenOrigins(db, t)[w := r])
      && (o == Rejected(RemediateRequired) ==>
            w in SeenWorks(db, t) && SeenWorks(db, t)[w].intent == PrepareTomorrow)
      && o != Rejected(OriginRequired)
  {
    var start := Started(db, t);
    var a := Apply(db, t, start, NewOrigin(w, r));
    assert OriginOne(t, w, r) == Statement(t, [NewOrigin(w, r)]);
    assert forall d :: ReasonOf(d) == if d.WorkInserted? then OriginRequired else RemediateRequired;
    assert start.tx == db.open[t];
    assert SeesWorksOf(db, t, w, r) ==> w in SeenWorks(db, t) && HasRow(SeenWorks(db, t), w, r.tenant);
    hide *;
    OriginColumnsExactly(r);
    FreeExactly(db, t, w);
    InsertOriginGoing(db, t, w, r);
    Single(db, t, NewOrigin(w, r));
    if a.Going? {
      EndExactly(db, t, [NewOrigin(w, r)], a.p);
      assert AddsOrigin(db, t, w, r, a.p) by { AddsMeans(db, t, w, r, a.p); }
      NewOriginEnds(db, t, w, r, a.p);
      EndedSees(db, t, a.p);
    } else {
      StopsAt(db, t, NewOrigin(w, r));
    }
  }

  // ---- an update of a work ----

  /** No uncommitted origin of another transaction names w as its work or its source work. */
  ghost predicate Unreferred(db: Db, t: TxId, w: Id) {
    forall u, v :: u in db.open && u != t && v in db.open[u].origins ==>
      v != w && db.open[u].origins[v].sourceWork != Some(w)
  }

  /** Some origin in the view, of the transaction's tenant, names w as its work or its source work. */
  ghost predicate Named(db: Db, t: TxId, w: Id)
    requires t in db.open
  {
    exists v :: v in SeenOrigins(db, t) && SeenOrigins(db, t)[v].tenant == db.open[t].tenant
      && (v == w || SeenOrigins(db, t)[v].sourceWork == Some(w))
  }

  lemma ReferredExactly(db: Db, t: TxId, w: Id)
    ensures Unreferred(db, t, w) <==> !KeyHeldElsewhere(db, t, w)
  {
    if KeyHeldElsewhere(db, t, w) {
      var u :| u in db.open && u != t && exists v :: v in db.open[u].origins && RefersTo(v, db.open[u].origins[v], w);
      var v :| v in db.open[u].origins && RefersTo(v, db.open[u].origins[v], w);
    }
    forall u, v | u in db.open && u != t && v in db.open[u].origins && !KeyHeldElsewhere(db, t, w)
      ensures v != w && db.open[u].origins[v].sourceWork != Some(w)
    {
      assert !RefersTo(v, db.open[u].origins[v], w);
    }
  }

  ghost predicate Updates(db: Db, t: TxId, w: Id)
    requires t in db.open
  {
    HasRow(SeenWorks(db, t), w, db.open[t].tenant)
  }

  lemma UpdateWorkGoing(db: Db, t: TxId, w: Id, k: Id, r: Work)
    requires t in db.open && Updates(db, t, w)
    ensures var a := Apply(db, t, Started(db, t), SetWork(w, k, r));
      && (a.Going? <==>
            && !WorkPendingElsewhere(db, t, w) && r.intent == SeenWorks(db, t)[w].intent
            && r.tenant == db.open[t].tenant && WorkChecks(r)
            && (k != w ==> !KeyHeldElsewhere(db, t, w) && k !in SeenWorks(db, t) && !WorkPendingElsewhere(db, t, k)))
      && (a == Failing(IntentImmutable) <==>
            && !WorkPendingElsewhere(db, t, w) && (k != w ==> !KeyHeldElsewhere(db, t, w))
            && r.intent != SeenWorks(db, t)[w].intent)
      && (a.Going? && k == w ==> a.p == Versioned(Started(db, t), w, r))
      && (a.Going? && k != w ==> a.p == Moved(Started(db, t), w, k, r))
  {
    assert Started(db, t).found[w] == SeenWorks(db, t)[w];
    hide WorkChecks, WorkPendingElsewhere, KeyHeldElsewhere, Rows;
  }

  lemma UnfoundUpdate(db: Db, t: TxId, w: Id, k: Id, r: Work)
    requires t in db.open && !Updates(db, t, w)
    ensures Step(db, Statement(t, [SetWork(w, k, r)])) == (db, Done)
  {
    var start := Started(db, t);
    Single(db, t, SetWork(w, k, r));
    assert Apply(db, t, start, SetWork(w, k, r)) == Going(start);
    assert Ended(start) == db.open[t] by { assert start.tx.queue + [] == start.tx.queue; }
    assert db.(open := db.open[t := db.open[t]]) == db;
    hide Rows, ApplyAll;
  }

  /** An update that keeps the key fires nothing and has no foreign key to look at. */
  lemma VersionedEnds(db: Db, t: TxId, w: Id, r: Work)
    requires t in db.open && Updates(db, t, w)
    ensures var p := Versioned(Started(db, t), w, r);
      && !ForeignKeysFail(Rows(db.works, p.tx), db.origins + p.tx.origins, p) && !ForeignKeysWait(db, t, p)
      && p.fired == [] && Rows(db.works, p.tx) == SeenWorks(db, t)[w := r]
      && db.origins + p.tx.origins == SeenOrigins(db, t)
  {
  }

  /** After a move the old key is missed exactly if an origin names it. */
  lemma MovedEnds(db: Db, t: TxId, w: Id, k: Id, r: Work)
    requires t in db.open && Updates(db, t, w) && k != w && k !in SeenWorks(db, t)
    ensures var p := Moved(Started(db, t), w, k, r);
      && (ForeignKeysFail(Rows(db.works, p.tx), db.origins + p.tx.origins, p) <==> Named(db, t, w))
      && !ForeignKeysWait(db, t, p) && p.fired == []
      && Rows(db.works, p.tx) == (SeenWorks(db, t) - {w})[k := r] && db.origins + p.tx.origins == SeenOrigins(db, t)
  {
    var p := Moved(Started(db, t), w, k, r);
    assert Rows(db.works, p.tx) == (SeenWorks(db, t) - {w})[k := r];
    assert db.origins + p.tx.origins == SeenOrigins(db, t);
    assert p.left == {w} && p.added == {} && p.tx.tenant == db.open[t].tenant;
    hide Rows, SeenWorks, SeenOrigins, Moved, Started;
  }

  lemma UpdatedView(works: Works, w: Id, r: Work)
    ensures (works - {w})[w := r] == works[w := r]
  {
  }

  /**
   An update of one work finds no row and does nothing, or it is accepted exactly if the intent
   and the tenant stay, the row is well formed, nobody else has the row, and a new key is unused
   while no origin, of this transaction or pending in another, names the old one.
   */
  lemma UpdateWorkAcceptedExactly(db: Db, t: TxId, w: Id, k: Id, r: Work)
    requires t in db.open
    ensures var (n, o) := Step(db, Statement(t, [SetWork(w, k, r)]));
      && (!Updates(db, t, w) ==> o.Done? && n == db)
      && (Updates(db, t, w) ==>
           && (o.Done? <==>
                 && KeyFree(db, t, w) && r.intent == SeenWorks(db, t)[w].intent && r.tenant == db.open[t].tenant
                 && WorkColumns(r)
                 && (k != w ==>
                       Unreferred(db, t, w) && !Named(db, t, w) && k !in SeenWorks(db, t) && KeyFree(db, t, k)))
           && (o.Done? ==> t in n.open && SeenWorks(n, t) == (SeenWorks(db, t) - {w})[k := r]
                           && SeenOrigins(n, t) == SeenOrigins(db, t))
           && (o == Rejected(IntentImmutable) <==>
                 && KeyFree(db, t, w) && (k != w ==> Unreferred(db, t, w))
                 && r.intent != SeenWorks(db, t)[w].intent))
  {
    var a := Apply(db, t, Started(db, t), SetWork(w, k, r));
    hide *;
    UpdatedView(SeenWorks(db, t), w, r);
    if Updates(db, t, w) {
      WorkColumnsExactly(r);
      FreeExactly(db, t, w);
      FreeExactly(db, t, k);
      ReferredExactly(db, t, w);
      UpdateWorkGoing(db, t, w, k, r);
      Single(db, t, SetWork(w, k, r));
      if a.Going? {
        EndExactly(db, t, [SetWork(w, k, r)], a.p);
        EndIsNoTrigger(db, t, [SetWork(w, k, r)], a.p);
        EndedSees(db, t, a.p);
        if k == w { VersionedEnds(db, t, w, r); } else { MovedEnds(db, t, w, k, r); }
      } else {
        StopsAt(db, t, SetWork(w, k, r));
      }
    } else {
      UnfoundUpdate(db, t, w, k, r);
    }
  }

  lemma EndIsNoTrigger(db: Db, t: TxId, changes: seq<Change>, p: Progress)
    requires t in db.open && ApplyAll(db, t, Started(db, t), changes) == Going(p)
    ensures Step(db, Statement(t, changes)).1 != Rejected(IntentImmutable)
  {
    hide ApplyAll, Started, ForeignKeysFail, ForeignKeysWait, Rows, FirstFailure;
  }

  // ---- the queued checks ----

  /** What the deferred trigger on works asks of the view, and what the one on origins asks. */
  ghost predicate Content(works: Works, origins: Origins, d: Deferred) {
    match d
    case WorkInserted(w, tenant, intent) =>
      intent == PrepareTomorrow || (w in origins && origins[w].tenant == tenant)
    case OriginInserted(w, tenant) =>
      w in works && works[w].tenant == tenant && works[w].intent == RemediateClass
  }

  /** Check i of the queue is the first that is not content, and these are its words. */
  ghost predicate Complains(works: Works, origins: Origins, queue: seq<Deferred>, i: nat, reason: Reason) {
    && i < |queue| && !Content(works, origins, queue[i])
    && (forall j :: 0 <= j < i ==> Content(works, origins, queue[j]))
    && reason == (match queue[i]
                  case WorkInserted(_, _, _) => OriginRequired
                  case OriginInserted(_, _) => RemediateRequired)
  }

  lemma ContentExactly(works: Works, origins: Origins, d: Deferred)
    ensures Content(works, origins, d) <==> Passes(works, origins, d)
  {
  }

  lemma QueueExactly(works: Works, origins: Origins, queue: seq<Deferred>)
    ensures var f := FirstFailure(works, origins, queue);
      && (f.None? <==> forall d :: d in queue ==> Content(works, origins, d))
      && (f.Some? ==> exists i: nat :: Complains(works, origins, queue, i, ReasonOf(f.value)))
  {
    forall d ensures Content(works, origins, d) <==> Passes(works, origins, d) { ContentExactly(works, origins, d); }
    FailureExactly(works, origins, queue);
    hide Content, Passes;
    var f := FirstFailure(works, origins, queue);
    if f.Some? {
      var i: nat :| RaisesFirst(works, origins, queue, i) && queue[i] == f.value;
      assert Complains(works, origins, queue, i, ReasonOf(f.value));
    }
  }

  /**
   A commit, in any state: accepted exactly if all queued checks are content, and else refused
   for the first that is not.
   */
  lemma CommitExactly(db: Db, t: TxId)
    requires t in db.open
    ensures var (n, o) := Step(db, Commit(t));
      var works, origins, queue := SeenWorks(db, t), SeenOrigins(db, t), db.open[t].queue;
      && (o.Done? <==> forall d :: d in queue ==> Content(works, origins, d))
      && (o.Done? ==> n == Db(works, origins, db.open - {t}))
      && (!o.Done? ==> o.Rejected? && n == Db(db.works, db.origins, db.open - {t})
                       && exists i: nat :: Complains(works, origins, queue, i, o.reason))
  {
    QueueExactly(SeenWorks(db, t), SeenOrigins(db, t), db.open[t].queue);
    hide Content, Complains, FirstFailure, Rows;
  }

  /** SET CONSTRAINTS ALL DEFERRED succeeds; IMMEDIATE asks the queued checks first and then has none. */
  lemma SetConstraintsExactly(db: Db, t: TxId, immediate: bool)
    requires t in db.open
    ensures var (n, o) := Step(db, SetConstraints(t, immediate));
      var works, origins, queue := SeenWorks(db, t), SeenOrigins(db, t), db.open[t].queue;
      && (o.Done? <==> !immediate || forall d :: d in queue ==> Content(works, origins, d))
      && (o.Done? ==>
            && n.works == db.works && n.origins == db.origins && n.open.Keys == db.open.Keys
            && n.open[t] == db.open[t].(immediate := immediate, queue := n.open[t].queue)
            && n.open[t].queue == (if immediate then [] else queue)
            && forall u :: u in db.open && u != t ==> n.open[u] == db.open[u])
      && (!o.Done? ==> o.Rejected? && n == Db(db.works, db.origins, db.open - {t})
                       && exists i: nat :: Complains(works, origins, queue, i, o.reason))
  {
    QueueExactly(SeenWorks(db, t), SeenOrigins(db, t), db.open[t].queue);
    hide Content, Complains, FirstFailure, Rows;
  }
}
