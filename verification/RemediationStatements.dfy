/** What every accepted statement keeps of the rows, and what it keeps of the checks. */
module RemediationStatements {
  import opened Basics
  import opened RemediationModel

  /** A work is remedial if and only if an origin with the same tenant and work identifier exists. */
  ghost predicate Paired(works: Works, origins: Origins) {
    && (forall w :: w in works ==>
          (works[w].intent.RemediateClass? <==> w in origins && origins[w].tenant == works[w].tenant))
    && (forall w :: w in origins ==> HasRow(works, w, origins[w].tenant))
  }

  // ---- what every statement keeps ----

  predicate SameKind(q: Work, r: Work) { q.tenant == r.tenant && q.intent == r.intent }

  function KeysOf(tx: Tx): set<Id> { tx.works.Keys + tx.moved }

  /** Own rows are of the tenant; versions of committed rows keep their kind. */
  ghost predicate OwnRows(works: Works, origins: Origins, x: Tx) {
    && (forall w :: w in x.works ==> x.works[w].tenant == x.tenant)
    && (forall w :: w in x.works && w in works && w !in x.moved ==> SameKind(x.works[w], works[w]))
    && (forall w :: w in x.moved && w in works ==> works[w].tenant == x.tenant)
    && (forall w :: w in x.origins ==> w !in origins && x.origins[w].tenant == x.tenant)
  }

  /** Every visible origin has its work in the view. */
  ghost predicate Parents(works: Works, origins: Origins, x: Tx) {
    && (forall w :: w in origins ==> HasRow(Rows(works, x), w, origins[w].tenant))
    && (forall w :: w in x.origins ==> HasRow(Rows(works, x), w, x.tenant))
  }

  /** A queued check is about a row that the transaction has inserted. */
  predicate IsOwnCheck(x: Tx, d: Deferred) {
    d.tenant == x.tenant && if d.WorkInserted? then d.w in KeysOf(x) else d.w in x.origins
  }

  ghost predicate Queued(x: Tx, queue: seq<Deferred>) { forall d :: d in queue ==> IsOwnCheck(x, d) }

  ghost predicate RowsOk(works: Works, origins: Origins, x: Tx) {
    && OwnRows(works, origins, x) && Parents(works, origins, x) && Queued(x, x.queue)
    && (x.immediate ==> x.queue == [])
  }

  // ---- what the checks are for ----

  /** The transaction has a row under key w that is no version of the committed row w. */
  predicate IsNew(works: Works, x: Tx, w: Id) { w in x.works && (w !in works || w in x.moved) }

  /** A remedial row of the transaction has an origin in its view, or its check is still queued. */
  predicate WorkCovered(origins: Origins, x: Tx, queue: seq<Deferred>, w: Id) {
    w in x.works && x.works[w].intent.RemediateClass? ==>
      w in origins || w in x.origins || WorkInserted(w, x.tenant, RemediateClass) in queue
  }

  /** A visible origin stands beside a remedial row, or it is the transaction's own and its check is still queued. */
  predicate OriginCovered(works: Works, origins: Origins, x: Tx, queue: seq<Deferred>, w: Id) {
    (w in origins || w in x.origins) && w in Rows(works, x) && Rows(works, x)[w].intent.PrepareTomorrow? ==>
      w in x.origins && OriginInserted(w, x.tenant) in queue
  }

  ghost predicate Covered(works: Works, origins: Origins, x: Tx) {
    && (forall w :: IsNew(works, x, w) ==> WorkCovered(origins, x, x.queue, w))
    && (forall w :: w in origins || w in x.origins ==> OriginCovered(works, origins, x, x.queue, w))
  }

  ghost predicate TxOk(works: Works, origins: Origins, x: Tx) {
    RowsOk(works, origins, x) && Covered(works, origins, x)
  }

  ghost predicate Independent(x: Tx, y: Tx) {
    && (forall w :: w in KeysOf(x) ==> w !in KeysOf(y))
    && (forall w :: w in x.origins ==> w !in y.origins)
    && (forall w :: w in x.moved ==> w !in y.origins)
  }

  ghost predicate AllIndependent(open: map<TxId, Tx>) {
    forall t, u :: t in open && u in open && t != u ==> Independent(open[t], open[u])
  }

  /** The rows are in order in every transaction, whether or not works and origins are paired. */
  ghost predicate RowInv(db: Db) {
    AllIndependent(db.open) && forall t :: t in db.open ==> RowsOk(db.works, db.origins, db.open[t])
  }

  ghost predicate Inv(db: Db) {
    && Paired(db.works, db.origins) && RowInv(db)
    && forall t :: t in db.open ==> Covered(db.works, db.origins, db.open[t])
  }

  lemma TxFacts(db: Db, t: TxId)
    requires RowInv(db) && t in db.open
    ensures RowsOk(db.works, db.origins, db.open[t])
  {
  }

  lemma PairFacts(db: Db, t: TxId, u: TxId)
    requires RowInv(db) && t in db.open && u in db.open && t != u
    ensures Independent(db.open[t], db.open[u]) && Independent(db.open[u], db.open[t])
  {
    hide RowsOk, Paired, Independent;
  }

  // ---- one transaction among the others ----

  /** What t has added to its rows belongs to nobody else. */
  ghost predicate Apart(db: Db, t: TxId, x: Tx, y: Tx) {
    && (forall w :: w in KeysOf(y) && w !in KeysOf(x) ==> !WorkPendingElsewhere(db, t, w))
    && (forall w :: w in y.origins && w !in x.origins ==> !OriginPendingElsewhere(db, t, w))
    && (forall w :: w in y.moved && w !in x.moved ==> !KeyHeldElsewhere(db, t, w))
  }

  ghost predicate OriginsStill(db: Db, t: TxId, x: Tx, y: Tx) {
    forall w :: w in y.origins && w !in x.origins ==> !MovingElsewhere(db, t, w)
  }

  lemma ApartMeans(db: Db, t: TxId, y: Tx, u: TxId)
    requires t in db.open && u in db.open && u != t
    requires Apart(db, t, db.open[t], y) && OriginsStill(db, t, db.open[t], y)
    requires Independent(db.open[t], db.open[u]) && Independent(db.open[u], db.open[t])
    ensures Independent(y, db.open[u]) && Independent(db.open[u], y)
  {
    forall w | w in y.moved ensures w !in db.open[u].origins {
      if w !in db.open[t].moved && w in db.open[u].origins { assert RefersTo(w, db.open[u].origins[w], w); }
    }
  }

  lemma ReplaceTx(db: Db, t: TxId, y: Tx)
    requires RowInv(db) && RowsOk(db.works, db.origins, y)
    requires forall u :: u in db.open && u != t ==> Independent(y, db.open[u]) && Independent(db.open[u], y)
    ensures RowInv(db.(open := db.open[t := y]))
    ensures Inv(db) && Covered(db.works, db.origins, y) ==> Inv(db.(open := db.open[t := y]))
  {
    hide Paired, RowsOk, Covered, Independent;
  }

  lemma PutTx(db: Db, t: TxId, y: Tx)
    requires RowInv(db) && t in db.open && RowsOk(db.works, db.origins, y)
    requires Apart(db, t, db.open[t], y) && OriginsStill(db, t, db.open[t], y)
    ensures RowInv(db.(open := db.open[t := y]))
    ensures Inv(db) && Covered(db.works, db.origins, y) ==> Inv(db.(open := db.open[t := y]))
  {
    hide *;
    forall u | u in db.open && u != t ensures Independent(y, db.open[u]) && Independent(db.open[u], y) {
      PairFacts(db, t, u);
      ApartMeans(db, t, y, u);
    }
    ReplaceTx(db, t, y);
  }

  lemma ReleasedKeeps(db: Db, t: TxId)
    requires RowInv(db)
    ensures RowInv(Released(db, t)) && (Inv(db) ==> Inv(Released(db, t)))
  {
    hide RowsOk, Covered, Paired, Independent;
  }

  // ---- a statement in progress ----

  /** What the statement found and has not updated is still there. */
  ghost predicate FoundOk(works: Works, p: Progress) {
    forall w :: w in p.found ==>
      w in Rows(works, p.tx) && Rows(works, p.tx)[w] == p.found[w] && p.found[w].tenant == p.tx.tenant
  }

  /** An origin can lack its work only if a row has left its key, or if the statement has added it. */
  ghost predicate ParentsBut(works: Works, origins: Origins, p: Progress) {
    && (forall w :: w in origins ==>
          HasRow(Rows(works, p.tx), w, origins[w].tenant) || (w in p.left && origins[w].tenant == p.tx.tenant))
    && (forall w :: w in p.tx.origins ==> HasRow(Rows(works, p.tx), w, p.tx.tenant) || w in p.left || w in p.added)
  }

  ghost predicate Extends(x: Tx, p: Progress) {
    && p.tx.tenant == x.tenant && p.tx.queue == x.queue && p.tx.immediate == x.immediate
    && KeysOf(x) <= KeysOf(p.tx) && x.moved <= p.tx.moved
    && p.tx.origins.Keys == x.origins.Keys + p.added && x.origins.Keys !! p.added
    && (forall w :: w in x.origins ==> p.tx.origins[w] == x.origins[w])
    && Queued(p.tx, p.fired)
  }

  ghost predicate Underway(db: Db, t: TxId, x: Tx, p: Progress) {
    && Extends(x, p) && OwnRows(db.works, db.origins, p.tx) && FoundOk(db.works, p)
    && ParentsBut(db.works, db.origins, p) && Apart(db, t, x, p.tx)
  }

  /** Of the checks, only those of rows that moved can be missing. */
  ghost predicate CoveredBut(works: Works, origins: Origins, p: Progress) {
    var queue := p.tx.queue + p.fired;
    && (forall w :: IsNew(works, p.tx, w) ==> WorkCovered(origins, p.tx, queue, w) || w in p.landed)
    && (forall w :: w in origins || w in p.tx.origins ==>
          OriginCovered(works, origins, p.tx, queue, w) || w in p.left)
    && (forall w :: w in p.added ==> OriginInserted(w, p.tx.tenant) in p.fired)
  }

  lemma StartedUnderway(db: Db, t: TxId)
    requires t in db.open && RowsOk(db.works, db.origins, db.open[t])
    ensures Underway(db, t, db.open[t], Started(db, t))
    ensures Covered(db.works, db.origins, db.open[t]) ==> CoveredBut(db.works, db.origins, Started(db, t))
  {
    var p := Started(db, t);
    assert p.tx.queue + p.fired == p.tx.queue;
    hide WorkCovered, OriginCovered;
  }

  // ---- each row of a statement ----

  lemma InsertWorkOwn(works: Works, origins: Origins, p: Progress, w: Id, r: Work)
    requires OwnRows(works, origins, p.tx) && FoundOk(works, p) && w !in Rows(works, p.tx) && r.tenant == p.tx.tenant
    ensures var q := p.(tx := p.tx.(works := p.tx.works[w := r])); OwnRows(works, origins, q.tx) && FoundOk(works, q)
  {
  }

  lemma InsertWorkParents(works: Works, origins: Origins, p: Progress, w: Id, r: Work)
    requires ParentsBut(works, origins, p) && w !in Rows(works, p.tx)
    ensures ParentsBut(works, origins, p.(tx := p.tx.(works := p.tx.works[w := r])))
  {
    assert forall v :: v in Rows(works, p.tx) ==>
      v in Rows(works, p.tx.(works := p.tx.works[w := r]))
      && Rows(works, p.tx.(works := p.tx.works[w := r]))[v] == Rows(works, p.tx)[v];
    hide Rows;
  }

  lemma InsertWorkGoes(db: Db, t: TxId, x: Tx, p: Progress, w: Id, r: Work)
    requires Underway(db, t, x, p) && InsertWork(db, t, p, w, r).Going?
    ensures Underway(db, t, x, InsertWork(db, t, p, w, r).p)
  {
    var q := InsertWork(db, t, p, w, r).p;
    hide BtrimEmpty, Rows, OwnRows, FoundOk, ParentsBut, WorkPendingElsewhere, OriginPendingElsewhere, KeyHeldElsewhere;
    InsertWorkOwn(db.works, db.origins, p, w, r);
    InsertWorkParents(db.works, db.origins, p, w, r);
    var z := p.(tx := p.tx.(works := p.tx.works[w := r]));
    assert OwnRows(db.works, db.origins, q.tx) && q.tx == z.tx;
    assert FoundOk(db.works, q) by { SameRows(db.works, db.origins, z, q); }
    assert ParentsBut(db.works, db.origins, q) by { SameRows(db.works, db.origins, z, q); }
    assert Extends(x, q) by { hide Apart; }
    assert Apart(db, t, x, q.tx) by { hide Extends; }
  }

  /** The fired triggers do not matter for the rows. */
  lemma SameRows(works: Works, origins: Origins, p: Progress, q: Progress)
    requires q == p.(fired := q.fired)
    ensures FoundOk(works, p) ==> FoundOk(works, q)
    ensures ParentsBut(works, origins, p) ==> ParentsBut(works, origins, q)
  {
  }

  /** The row with key w gets the key k. */
  function Moved(p: Progress, w: Id, k: Id, r: Work): Progress {
    var x := p.tx;
    p.(
      tx := x.(works := (x.works - {w})[k := r], moved := x.moved + {w}), found := p.found - {w},
      left := p.left + {w}, landed := if r.intent.RemediateClass? then p.landed + {k} else p.landed)
  }

  ghost predicate CanMove(works: Works, p: Progress, w: Id, k: Id, r: Work) {
    k != w && w in p.found && k !in Rows(works, p.tx) && r.tenant == p.tx.tenant
  }

  lemma MovedOwn(works: Works, origins: Origins, p: Progress, w: Id, k: Id, r: Work)
    requires OwnRows(works, origins, p.tx) && FoundOk(works, p) && CanMove(works, p, w, k, r)
    ensures OwnRows(works, origins, Moved(p, w, k, r).tx)
  {
    assert Rows(works, p.tx)[w] == p.found[w];
  }

  lemma MovedRows(works: Works, p: Progress, w: Id, k: Id, r: Work, v: Id)
    requires v != w && v in Rows(works, p.tx) && k !in Rows(works, p.tx)
    ensures v in Rows(works, Moved(p, w, k, r).tx) && Rows(works, Moved(p, w, k, r).tx)[v] == Rows(works, p.tx)[v]
  {
  }

  lemma MovedFound(works: Works, p: Progress, w: Id, k: Id, r: Work)
    requires FoundOk(works, p) && CanMove(works, p, w, k, r)
    ensures FoundOk(works, Moved(p, w, k, r))
  {
    hide Rows;
    forall v | v in p.found && v != w { MovedRows(works, p, w, k, r, v); }
  }

  lemma MovedParents(works: Works, origins: Origins, p: Progress, w: Id, k: Id, r: Work)
    requires ParentsBut(works, origins, p) && FoundOk(works, p) && CanMove(works, p, w, k, r)
    ensures ParentsBut(works, origins, Moved(p, w, k, r))
  {
    hide Rows;
    var q := Moved(p, w, k, r);
    assert Rows(works, p.tx)[w].tenant == p.tx.tenant;
    forall v | v in origins
      ensures HasRow(Rows(works, q.tx), v, origins[v].tenant) || (v in q.left && origins[v].tenant == q.tx.tenant)
    {
      if v != w && v in Rows(works, p.tx) { MovedRows(works, p, w, k, r, v); }
    }
    forall v | v in q.tx.origins ensures HasRow(Rows(works, q.tx), v, q.tx.tenant) || v in q.left || v in q.added {
      if v != w && v in Rows(works, p.tx) { MovedRows(works, p, w, k, r, v); }
    }
  }

  lemma MovedExtends(x: Tx, p: Progress, w: Id, k: Id, r: Work)
    requires Extends(x, p)
    ensures Extends(x, Moved(p, w, k, r))
  {
  }

  lemma MovedApart(db: Db, t: TxId, x: Tx, p: Progress, w: Id, k: Id, r: Work)
    requires Apart(db, t, x, p.tx)
    requires !WorkPendingElsewhere(db, t, w) && !WorkPendingElsewhere(db, t, k) && !KeyHeldElsewhere(db, t, w)
    ensures Apart(db, t, x, Moved(p, w, k, r).tx)
  {
    hide WorkPendingElsewhere, OriginPendingElsewhere, KeyHeldElsewhere;
  }

  lemma MovedGoes(db: Db, t: TxId, x: Tx, p: Progress, w: Id, k: Id, r: Work)
    requires Underway(db, t, x, p) && CanMove(db.works, p, w, k, r)
    requires !WorkPendingElsewhere(db, t, w) && !WorkPendingElsewhere(db, t, k) && !KeyHeldElsewhere(db, t, w)
    ensures Underway(db, t, x, Moved(p, w, k, r))
  {
    hide Extends, OwnRows, FoundOk, ParentsBut, Apart, CanMove, Moved;
    hide WorkPendingElsewhere, KeyHeldElsewhere;
    MovedExtends(x, p, w, k, r);
    MovedOwn(db.works, db.origins, p, w, k, r);
    MovedFound(db.works, p, w, k, r);
    MovedParents(db.works, db.origins, p, w, k, r);
    MovedApart(db, t, x, p, w, k, r);
  }

  /** A row gets a new version under its key. */
  function Versioned(p: Progress, w: Id, r: Work): Progress {
    p.(tx := p.tx.(works := p.tx.works[w := r]), found := p.found - {w})
  }

  lemma VersionedView(works: Works, p: Progress, w: Id, r: Work)
    requires FoundOk(works, p) && w in p.found
    ensures Rows(works, Versioned(p, w, r).tx) == Rows(works, p.tx)[w := r] && Rows(works, p.tx)[w] == p.found[w]
  {
  }

  lemma VersionedOwn(works: Works, origins: Origins, p: Progress, w: Id, r: Work)
    requires OwnRows(works, origins, p.tx) && FoundOk(works, p) && w in p.found && SameKind(r, p.found[w])
    ensures OwnRows(works, origins, Versioned(p, w, r).tx)
  {
    assert Rows(works, p.tx)[w] == p.found[w];
  }

  lemma VersionedParents(works: Works, origins: Origins, p: Progress, w: Id, r: Work)
    requires FoundOk(works, p) && ParentsBut(works, origins, p) && w in p.found && SameKind(r, p.found[w])
    ensures ParentsBut(works, origins, Versioned(p, w, r))
  {
    VersionedView(works, p, w, r);
    hide Rows, FoundOk;
  }

  lemma VersionedFound(works: Works, p: Progress, w: Id, r: Work)
    requires FoundOk(works, p) && w in p.found && SameKind(r, p.found[w])
    ensures FoundOk(works, Versioned(p, w, r))
  {
    VersionedView(works, p, w, r);
    hide Rows;
  }

  lemma VersionedGoes(db: Db, t: TxId, x: Tx, p: Progress, w: Id, r: Work)
    requires Underway(db, t, x, p) && w in p.found && SameKind(r, p.found[w]) && !WorkPendingElsewhere(db, t, w)
    ensures Underway(db, t, x, Versioned(p, w, r))
  {
    var q := Versioned(p, w, r);
    VersionedOwn(db.works, db.origins, p, w, r);
    VersionedParents(db.works, db.origins, p, w, r);
    VersionedFound(db.works, p, w, r);
    hide Rows, OwnRows, FoundOk, ParentsBut, WorkPendingElsewhere, OriginPendingElsewhere, KeyHeldElsewhere;
    assert Extends(x, q) by { hide Apart; }
    assert Apart(db, t, x, q.tx) by { hide Extends; }
  }

  /** What an accepted update has tested, and what it does. */
  lemma UpdateWorkMeans(db: Db, t: TxId, x: Tx, p: Progress, w: Id, k: Id, r: Work)
    requires Underway(db, t, x, p) && UpdateWork(db, t, p, w, k, r).Going? && w in p.found
    ensures SameKind(r, p.found[w]) && !WorkPendingElsewhere(db, t, w)
    ensures k == w ==> UpdateWork(db, t, p, w, k, r).p == Versioned(p, w, r)
    ensures k != w ==>
      CanMove(db.works, p, w, k, r) && !WorkPendingElsewhere(db, t, k) && !KeyHeldElsewhere(db, t, w)
      && UpdateWork(db, t, p, w, k, r).p == Moved(p, w, k, r)
  {
    hide BtrimEmpty, Rows, OwnRows, ParentsBut, Extends, Apart, WorkPendingElsewhere, KeyHeldElsewhere;
  }

  lemma UpdateWorkGoes(db: Db, t: TxId, x: Tx, p: Progress, w: Id, k: Id, r: Work)
    requires Underway(db, t, x, p) && UpdateWork(db, t, p, w, k, r).Going?
    ensures Underway(db, t, x, UpdateWork(db, t, p, w, k, r).p)
  {
    if w in p.found {
      UpdateWorkMeans(db, t, x, p, w, k, r);
      hide *;
      if k == w { VersionedGoes(db, t, x, p, w, r); } else { MovedGoes(db, t, x, p, w, k, r); }
    }
  }

  /** The transaction has the origin o of w, too. */
  function WithOrigin(p: Progress, w: Id, o: Origin): Progress {
    p.(
      tx := p.tx.(origins := p.tx.origins[w := o]), fired := p.fired + [OriginInserted(w, o.tenant)],
      added := p.added + {w})
  }

  lemma WithOriginRows(works: Works, origins: Origins, p: Progress, w: Id, o: Origin)
    requires OwnRows(works, origins, p.tx) && FoundOk(works, p) && ParentsBut(works, origins, p)
    requires w !in origins && o.tenant == p.tx.tenant
    ensures var q := WithOrigin(p, w, o);
      OwnRows(works, origins, q.tx) && FoundOk(works, q) && ParentsBut(works, origins, q)
  {
    assert Rows(works, WithOrigin(p, w, o).tx) == Rows(works, p.tx);
    hide Rows;
  }

  lemma InsertOriginGoes(db: Db, t: TxId, x: Tx, p: Progress, w: Id, o: Origin)
    requires Underway(db, t, x, p) && InsertOrigin(db, t, p, w, o).Going?
    ensures Underway(db, t, x, InsertOrigin(db, t, p, w, o).p)
  {
    hide OriginChecks, WorkPendingElsewhere, OriginPendingElsewhere, KeyHeldElsewhere, OwnRows, FoundOk, ParentsBut;
    var q := WithOrigin(p, w, o);
    WithOriginRows(db.works, db.origins, p, w, o);
    assert Extends(x, q) by { hide Apart; }
    assert Apart(db, t, x, q.tx) by { hide Extends; }
  }

  lemma InsertWorkCovers(db: Db, t: TxId, x: Tx, p: Progress, w: Id, r: Work)
    requires Underway(db, t, x, p) && CoveredBut(db.works, db.origins, p) && InsertWork(db, t, p, w, r).Going?
    ensures CoveredBut(db.works, db.origins, InsertWork(db, t, p, w, r).p)
  {
    hide BtrimEmpty, WorkPendingElsewhere, Apart, FoundOk;
  }

  lemma MovedCovers(works: Works, origins: Origins, p: Progress, w: Id, k: Id, r: Work)
    requires CoveredBut(works, origins, p) && ParentsBut(works, origins, p) && CanMove(works, p, w, k, r)
    ensures CoveredBut(works, origins, Moved(p, w, k, r))
  {
    var q := Moved(p, w, k, r);
    var queue := p.tx.queue + p.fired;
    forall v | IsNew(works, q.tx, v) ensures WorkCovered(origins, q.tx, queue, v) || v in q.landed {
      hide ParentsBut, OriginCovered;
      assert v != k ==> IsNew(works, p.tx, v);
    }
    forall v | v in origins || v in q.tx.origins
      ensures OriginCovered(works, origins, q.tx, queue, v) || v in q.left
    {
      hide WorkCovered, IsNew;
    }
  }

  lemma VersionedCovers(works: Works, origins: Origins, p: Progress, w: Id, r: Work)
    requires CoveredBut(works, origins, p) && FoundOk(works, p) && w in p.found && SameKind(r, p.found[w])
    requires OwnRows(works, origins, p.tx)
    ensures CoveredBut(works, origins, Versioned(p, w, r))
  {
    var q := Versioned(p, w, r);
    var queue := p.tx.queue + p.fired;
    VersionedView(works, p, w, r);
    hide OwnRows, FoundOk;
    forall v | IsNew(works, q.tx, v) ensures WorkCovered(origins, q.tx, queue, v) || v in q.landed {
      hide OriginCovered;
      assert IsNew(works, p.tx, v);
    }
    forall v | v in origins || v in q.tx.origins
      ensures OriginCovered(works, origins, q.tx, queue, v) || v in q.left
    {
      hide WorkCovered, IsNew, Rows;
    }
  }

  lemma UpdateWorkCovers(db: Db, t: TxId, x: Tx, p: Progress, w: Id, k: Id, r: Work)
    requires Underway(db, t, x, p) && CoveredBut(db.works, db.origins, p) && UpdateWork(db, t, p, w, k, r).Going?
    ensures CoveredBut(db.works, db.origins, UpdateWork(db, t, p, w, k, r).p)
  {
    if w in p.found {
      UpdateWorkMeans(db, t, x, p, w, k, r);
      hide OwnRows, FoundOk, ParentsBut, Extends, Apart, CoveredBut, CanMove, UpdateWork, SameKind;
      if k == w {
        VersionedCovers(db.works, db.origins, p, w, r);
      } else {
        MovedCovers(db.works, db.origins, p, w, k, r);
      }
    }
  }

  lemma InsertOriginCovers(db: Db, t: TxId, x: Tx, p: Progress, w: Id, o: Origin)
    requires Underway(db, t, x, p) && CoveredBut(db.works, db.origins, p) && InsertOrigin(db, t, p, w, o).Going?
    ensures CoveredBut(db.works, db.origins, InsertOrigin(db, t, p, w, o).p)
  {
    hide OriginChecks, OriginPendingElsewhere, Apart, FoundOk;
  }

  lemma ChangeGoes(db: Db, t: TxId, x: Tx, p: Progress, c: Change)
    requires t in db.open && Underway(db, t, x, p) && Apply(db, t, p, c).Going?
    ensures Underway(db, t, x, Apply(db, t, p, c).p)
    ensures CoveredBut(db.works, db.origins, p) ==> CoveredBut(db.works, db.origins, Apply(db, t, p, c).p)
  {
    hide Underway, CoveredBut, InsertWork, UpdateWork, InsertOrigin;
    match c
    case NewWork(w, r) =>
      InsertWorkGoes(db, t, x, p, w, r);
      if CoveredBut(db.works, db.origins, p) { InsertWorkCovers(db, t, x, p, w, r); }
    case SetWork(w, k, r) =>
      UpdateWorkGoes(db, t, x, p, w, k, r);
      if CoveredBut(db.works, db.origins, p) { UpdateWorkCovers(db, t, x, p, w, k, r); }
    case NewOrigin(w, o) =>
      InsertOriginGoes(db, t, x, p, w, o);
      if CoveredBut(db.works, db.origins, p) { InsertOriginCovers(db, t, x, p, w, o); }
    case SetOrigin(w, row) =>
  }

  lemma {:induction false} ChangesGo(db: Db, t: TxId, x: Tx, p: Progress, changes: seq<Change>)
    requires t in db.open && Underway(db, t, x, p) && ApplyAll(db, t, p, changes).Going?
    ensures Underway(db, t, x, ApplyAll(db, t, p, changes).p)
    ensures CoveredBut(db.works, db.origins, p) ==> CoveredBut(db.works, db.origins, ApplyAll(db, t, p, changes).p)
    decreases |changes|
  {
    hide Underway, CoveredBut, Apply;
    if changes != [] {
      ChangeGoes(db, t, x, p, changes[0]);
      ChangesGo(db, t, x, Apply(db, t, p, changes[0]).p, changes[1..]);
    }
  }

  // ---- the end of a statement ----

  lemma EndedParents(works: Works, origins: Origins, p: Progress)
    requires OwnRows(works, origins, p.tx) && ParentsBut(works, origins, p)
    requires !ForeignKeysFail(Rows(works, p.tx), origins + p.tx.origins, p)
    ensures Parents(works, origins, p.tx)
  {
    var view, all := Rows(works, p.tx), origins + p.tx.origins;
    hide Rows;
    forall w | w in origins ensures HasRow(view, w, origins[w].tenant) {
      if w in p.left && origins[w].tenant == p.tx.tenant {
        assert all[w] == origins[w] && RefersTo(w, all[w], w);
        assert !KeyMissed(view, all, p.tx.tenant, w);
      }
    }
    forall w | w in p.tx.origins ensures HasRow(view, w, p.tx.tenant) {
      if w in p.left {
        assert all[w] == p.tx.origins[w] && RefersTo(w, all[w], w);
        assert !KeyMissed(view, all, p.tx.tenant, w);
      } else if w in p.added {
        assert !OriginDangles(view, p.tx.origins[w], w);
      }
    }
  }

  lemma FinishMeans(db: Db, t: TxId, p: Progress)
    requires Finish(db, t, p).1.Done?
    ensures !ForeignKeysFail(Rows(db.works, p.tx), db.origins + p.tx.origins, p) && !ForeignKeysWait(db, t, p)
    ensures Finish(db, t, p).0 == db.(open := db.open[t := Ended(p)])
    ensures p.tx.immediate ==>
      forall d :: d in p.fired ==> Passes(Rows(db.works, p.tx), db.origins + p.tx.origins, d)
  {
    hide Rows, FirstFailure, ForeignKeysFail, ForeignKeysWait, Passes;
  }

  lemma EndedStill(db: Db, t: TxId, x: Tx, p: Progress)
    requires Extends(x, p) && !ForeignKeysWait(db, t, p)
    ensures OriginsStill(db, t, x, Ended(p))
  {
    hide MovingElsewhere;
  }

  lemma EndedQueue(x: Tx, p: Progress)
    requires Extends(x, p) && Queued(x, x.queue) && (x.immediate ==> x.queue == [])
    ensures Queued(Ended(p), Ended(p).queue) && (Ended(p).immediate ==> Ended(p).queue == [])
  {
  }

  lemma EndedRows(db: Db, t: TxId, x: Tx, p: Progress)
    requires Underway(db, t, x, p) && RowsOk(db.works, db.origins, x) && Finish(db, t, p).1.Done?
    ensures RowsOk(db.works, db.origins, Ended(p))
    ensures Apart(db, t, x, Ended(p)) && OriginsStill(db, t, x, Ended(p))
  {
    FinishMeans(db, t, p);
    hide Finish, Rows, Extends, OwnRows, Parents, Queued, FoundOk, ParentsBut, Apart, ForeignKeysFail, ForeignKeysWait;
    EndedParents(db.works, db.origins, p);
    EndedStill(db, t, x, p);
    EndedQueue(x, p);
    SameRowsOk(db, t, x, p.tx, Ended(p));
  }

  /** The queue does not matter for the rows. */
  lemma SameRowsOk(db: Db, t: TxId, x: Tx, y: Tx, z: Tx)
    requires z == y.(queue := z.queue)
    ensures OwnRows(db.works, db.origins, y) ==> OwnRows(db.works, db.origins, z)
    ensures Parents(db.works, db.origins, y) ==> Parents(db.works, db.origins, z)
    ensures Apart(db, t, x, y) ==> Apart(db, t, x, z)
  {
    hide WorkPendingElsewhere, OriginPendingElsewhere, KeyHeldElsewhere;
  }

  /**
   What an accepted statement must leave in order: a remedial row with a new key has an origin
   under that key, or a check of it is queued; a key that a row has left, if it has an origin,
   holds a remedial row, or the origin's check is queued.
   */
  predicate ChecksKept(works: Works, origins: Origins, p: Progress) {
    var y := Ended(p);
    && (forall w :: w in p.landed ==> WorkCovered(origins, y, y.queue, w))
    && (forall w :: w in p.left ==> OriginCovered(works, origins, y, y.queue, w))
  }

  /** In immediate mode the checks that a statement fires have passed at its end. */
  lemma EndedCovered(db: Db, t: TxId, x: Tx, p: Progress)
    requires Underway(db, t, x, p) && RowsOk(db.works, db.origins, x) && Finish(db, t, p).1.Done?
    requires CoveredBut(db.works, db.origins, p) && ChecksKept(db.works, db.origins, p)
    ensures Covered(db.works, db.origins, Ended(p))
  {
    var y := Ended(p);
    var view, all, queue := Rows(db.works, p.tx), db.origins + p.tx.origins, p.tx.queue + p.fired;
    FinishMeans(db, t, p);
    hide ForeignKeysFail, ForeignKeysWait, OwnRows, FoundOk, ParentsBut, Apart, FirstFailure, Finish, Parents;
    forall w | IsNew(db.works, y, w) ensures WorkCovered(db.origins, y, y.queue, w) {
      assert IsNew(db.works, p.tx, w);
      if w !in p.landed { assert WorkCovered(db.origins, p.tx, queue, w); }
      hide IsNew, OriginCovered, Rows;
    }
    forall w | w in db.origins || w in y.origins ensures OriginCovered(db.works, db.origins, y, y.queue, w) {
      assert view == Rows(db.works, y);
      hide IsNew, WorkCovered, Rows;
      if w !in p.left { assert OriginCovered(db.works, db.origins, p.tx, queue, w); }
    }
  }

  /** Every accepted statement keeps the rows in order, and the checks as far as the rule says. */
  lemma StatementKeeps(db: Db, t: TxId, changes: seq<Change>)
    requires RowInv(db) && t in db.open && DoStatement(db, t, changes).1.Done?
    ensures var r := ApplyAll(db, t, Started(db, t), changes);
      && r.Going? && DoStatement(db, t, changes).0 == db.(open := db.open[t := Ended(r.p)])
      && RowInv(DoStatement(db, t, changes).0)
      && (Inv(db) && ChecksKept(db.works, db.origins, r.p) ==> Inv(DoStatement(db, t, changes).0))
  {
    var x, r := db.open[t], ApplyAll(db, t, Started(db, t), changes);
    assert r.Going? && DoStatement(db, t, changes) == Finish(db, t, r.p) by { hide Finish, Started, ApplyAll; }
    TxFacts(db, t);
    var covered := Inv(db) && ChecksKept(db.works, db.origins, r.p);
    assert covered ==> Covered(db.works, db.origins, x) by { hide Covered, ApplyAll, Finish; }
    hide *;
    StartedUnderway(db, t);
    ChangesGo(db, t, x, Started(db, t), changes);
    EndedRows(db, t, x, r.p);
    FinishMeans(db, t, r.p);
    if covered { EndedCovered(db, t, x, r.p); }
    PutTx(db, t, Ended(r.p));
  }
}
