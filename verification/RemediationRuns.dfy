/** Particular runs, and exactly when a change of a work's key can undo the pairing. */
module RemediationRuns {
  import opened Basics
  import opened RemediationModel
  import opened RemediationStatements
  import opened RemediationPairing

  function With(db: Db, t: TxId, x: Tx): Db { db.(open := db.open[t := x]) }

  lemma RunNothing(db: Db)
    ensures Run(db, []) == db
  {
  }

  lemma RunCons(db: Db, op: Op, ops: seq<Op>)
    ensures Run(db, [op] + ops) == Run(Step(db, op).0, ops)
    ensures Disciplined(db, [op] + ops) <==> KeepsChecks(db, op) && Disciplined(Step(db, op).0, ops)
  {
    hide Step, KeepsChecks;
    assert ([op] + ops)[0] == op && ([op] + ops)[1..] == ops;
  }

  lemma {:induction false} RunSplits(db: Db, pre: seq<Op>, post: seq<Op>)
    ensures Run(db, pre + post) == Run(Run(db, pre), post)
    ensures Disciplined(db, pre) && Disciplined(Run(db, pre), post) ==> Disciplined(db, pre + post)
    decreases |pre|
  {
    hide Step, KeepsChecks;
    if pre == [] {
      assert pre + post == post;
    } else {
      RunSplits(Step(db, pre[0]).0, pre[1..], post);
      assert (pre + post)[0] == pre[0] && (pre + post)[1..] == pre[1..] + post;
    }
  }

  // ---- three statements, and what they do ----

  function AddWork(x: Tx, w: Id, r: Work): Tx {
    x.(works := x.works[w := r], queue := x.queue + [WorkInserted(w, r.tenant, r.intent)])
  }

  function AddOrigin(x: Tx, w: Id, o: Origin): Tx {
    x.(origins := x.origins[w := o], queue := x.queue + [OriginInserted(w, o.tenant)])
  }

  /** The row of w gets the key k as version q, and r is inserted under w. */
  function Replaced(x: Tx, w: Id, k: Id, q: Work, r: Work): Tx {
    AddWork(x.(works := (x.works - {w})[k := q], moved := x.moved + {w}), w, r)
  }

  function InsertOne(t: TxId, w: Id, r: Work): Op { Statement(t, [NewWork(w, r)]) }

  function OriginOne(t: TxId, w: Id, o: Origin): Op { Statement(t, [NewOrigin(w, o)]) }

  /** WITH moved AS (UPDATE works ...) INSERT INTO works ..., or one UPDATE of a row and an INSERT beside it. */
  function Replace(t: TxId, w: Id, k: Id, q: Work, r: Work): Op { Statement(t, [SetWork(w, k, q), NewWork(w, r)]) }

  lemma OneChange(db: Db, t: TxId, p: Progress, c: Change)
    requires t in db.open && Apply(db, t, p, c).Going?
    ensures ApplyAll(db, t, p, [c]) == Apply(db, t, p, c)
  {
    hide Apply;
  }

  lemma TwoChanges(db: Db, t: TxId, p: Progress, c: Change, d: Change)
    requires t in db.open && Apply(db, t, p, c).Going? && Apply(db, t, Apply(db, t, p, c).p, d).Going?
    ensures ApplyAll(db, t, p, [c, d]) == Apply(db, t, Apply(db, t, p, c).p, d)
  {
    hide Apply;
    assert [c, d][1..] == [d];
    OneChange(db, t, Apply(db, t, p, c).p, d);
  }

  /** A deferred transaction has no more to do at the end than the foreign keys. */
  lemma Ends(db: Db, t: TxId, changes: seq<Change>, p: Progress)
    requires t in db.open && ApplyAll(db, t, Started(db, t), changes) == Going(p) && !p.tx.immediate
    requires !ForeignKeysFail(Rows(db.works, p.tx), db.origins + p.tx.origins, p) && !ForeignKeysWait(db, t, p)
    ensures Step(db, Statement(t, changes)) == (With(db, t, Ended(p)), Done)
    ensures KeepsChecks(db, Statement(t, changes)) <==> ChecksKept(db.works, db.origins, p)
  {
    hide ApplyAll, Started, ForeignKeysFail, ForeignKeysWait, Rows, ChecksKept;
  }

  lemma InsertOneDone(db: Db, t: TxId, w: Id, r: Work)
    requires t in db.open && !db.open[t].immediate && r.tenant == db.open[t].tenant && WorkChecks(r)
    requires w !in SeenWorks(db, t) && !WorkPendingElsewhere(db, t, w)
    ensures Step(db, InsertOne(t, w, r)) == (With(db, t, AddWork(db.open[t], w, r)), Done)
    ensures KeepsChecks(db, InsertOne(t, w, r))
  {
    var p := Apply(db, t, Started(db, t), NewWork(w, r)).p;
    hide WorkPendingElsewhere, BtrimEmpty, Step, KeepsChecks;
    OneChange(db, t, Started(db, t), NewWork(w, r));
    assert Ended(p).queue == AddWork(db.open[t], w, r).queue;
    Ends(db, t, [NewWork(w, r)], p);
  }

  lemma OriginOneDone(db: Db, t: TxId, w: Id, o: Origin)
    requires t in db.open && !db.open[t].immediate && o.tenant == db.open[t].tenant && OriginChecks(o)
    requires HasRow(SeenWorks(db, t), w, o.tenant) && o.sourceWork.None? && w !in SeenOrigins(db, t)
    requires !OriginPendingElsewhere(db, t, w) && !MovingElsewhere(db, t, w)
    ensures Step(db, OriginOne(t, w, o)) == (With(db, t, AddOrigin(db.open[t], w, o)), Done)
    ensures KeepsChecks(db, OriginOne(t, w, o))
  {
    var p := Apply(db, t, Started(db, t), NewOrigin(w, o)).p;
    hide OriginPendingElsewhere, MovingElsewhere, BtrimEmpty, Step, KeepsChecks;
    OneChange(db, t, Started(db, t), NewOrigin(w, o));
    assert Ended(p).queue == AddOrigin(db.open[t], w, o).queue;
    Ends(db, t, [NewOrigin(w, o)], p);
  }

  /** The row of w may move to k and leave its key to r. */
  ghost predicate CanReplace(db: Db, t: TxId, w: Id, k: Id, q: Work, r: Work) {
    && t in db.open && !db.open[t].immediate && q.tenant == r.tenant == db.open[t].tenant && k != w
    && WorkChecks(q) && WorkChecks(r)
    && w in SeenWorks(db, t) && SameKind(q, SeenWorks(db, t)[w]) && k !in SeenWorks(db, t)
    && !WorkPendingElsewhere(db, t, w) && !WorkPendingElsewhere(db, t, k) && !KeyHeldElsewhere(db, t, w)
  }

  /** Replace, up to its end. */
  function Replacing(p: Progress, w: Id, k: Id, q: Work, r: Work): Progress {
    p.(
      tx := p.tx.(works := (p.tx.works - {w})[k := q][w := r], moved := p.tx.moved + {w}),
      found := p.found - {w}, fired := p.fired + [WorkInserted(w, r.tenant, r.intent)],
      left := p.left + {w}, landed := if q.intent.RemediateClass? then p.landed + {k} else p.landed)
  }

  lemma ReplaceGoes(db: Db, t: TxId, w: Id, k: Id, q: Work, r: Work)
    requires CanReplace(db, t, w, k, q, r)
    ensures ApplyAll(db, t, Started(db, t), [SetWork(w, k, q), NewWork(w, r)])
      == Going(Replacing(Started(db, t), w, k, q, r))
  {
    var start := Started(db, t);
    hide WorkPendingElsewhere, KeyHeldElsewhere, BtrimEmpty, ApplyAll;
    assert w in start.found && start.found[w] == SeenWorks(db, t)[w];
    assert Apply(db, t, start, SetWork(w, k, q)) == Going(Moved(start, w, k, q));
    assert w !in Rows(db.works, Moved(start, w, k, q).tx);
    assert Apply(db, t, Moved(start, w, k, q), NewWork(w, r)) == Going(Replacing(start, w, k, q, r));
    TwoChanges(db, t, start, SetWork(w, k, q), NewWork(w, r));
  }

  lemma ReplaceIs(t: TxId, w: Id, k: Id, q: Work, r: Work)
    ensures Replace(t, w, k, q, r) == Statement(t, [SetWork(w, k, q), NewWork(w, r)])
  {
  }

  /** The foreign keys of origins of w find the new row. */
  lemma ReplaceDone(db: Db, t: TxId, w: Id, k: Id, q: Work, r: Work)
    requires CanReplace(db, t, w, k, q, r)
    ensures Step(db, Replace(t, w, k, q, r)) == (With(db, t, Replaced(db.open[t], w, k, q, r)), Done)
    ensures q.intent.PrepareTomorrow? && r.intent.RemediateClass? ==> KeepsChecks(db, Replace(t, w, k, q, r))
  {
    var p := Replacing(Started(db, t), w, k, q, r);
    var view, all := Rows(db.works, p.tx), db.origins + p.tx.origins;
    assert HasRow(view, w, p.tx.tenant) && view[w] == r;
    assert !ForeignKeysFail(view, all, p) && !ForeignKeysWait(db, t, p);
    assert q.intent.PrepareTomorrow? && r.intent.RemediateClass? ==> ChecksKept(db.works, db.origins, p);
    assert Ended(p).queue == Replaced(db.open[t], w, k, q, r).queue;
    assert Ended(p) == Replaced(db.open[t], w, k, q, r);
    assert !p.tx.immediate;
    hide *;
    ReplaceGoes(db, t, w, k, q, r);
    ReplaceIs(t, w, k, q, r);
    Ends(db, t, [SetWork(w, k, q), NewWork(w, r)], p);
  }

  lemma {:induction false} RunThrough(states: seq<Db>, ops: seq<Op>)
    requires |states| == |ops| + 1 && forall i :: 0 <= i < |ops| ==> Step(states[i], ops[i]).0 == states[i + 1]
    ensures Run(states[0], ops) == states[|ops|]
    decreases |ops|
  {
    hide Step;
    if ops != [] {
      assert states[1..][|ops| - 1] == states[|ops|];
      RunThrough(states[1..], ops[1..]);
    }
  }

  // ---- nobody else in the way ----

  /** Nobody else has a row, a moved key or an origin under w, or an origin that refers to w. */
  predicate Free(db: Db, t: TxId, w: Id) {
    !WorkPendingElsewhere(db, t, w) && !OriginPendingElsewhere(db, t, w) && !KeyHeldElsewhere(db, t, w)
  }

  lemma StillFree(db: Db, t: TxId, x: Tx, w: Id)
    requires Free(db, t, w)
    ensures var n := With(db, t, x);
      && !WorkPendingElsewhere(n, t, w) && !OriginPendingElsewhere(n, t, w) && !KeyHeldElsewhere(n, t, w)
      && !MovingElsewhere(n, t, w)
  {
    var n := With(db, t, x);
    assert forall u :: u in n.open && u != t ==> u in db.open && n.open[u] == db.open[u];
  }

  lemma WithMeans(db: Db, t: TxId, x: Tx, y: Tx)
    ensures With(With(db, t, x), t, y) == With(db, t, y) && t in With(db, t, x).open && With(db, t, x).open[t] == x
    ensures SeenWorks(With(db, t, x), t) == Rows(db.works, x)
    ensures SeenOrigins(With(db, t, x), t) == db.origins + x.origins
    ensures With(db, t, x).open - {t} == db.open - {t}
  {
    hide Rows;
  }

  /** The operation takes the transaction from x to y. */
  ghost predicate Goes(db: Db, t: TxId, x: Tx, op: Op, y: Tx) {
    Step(With(db, t, x), op) == (With(db, t, y), Done)
  }

  lemma BeginGoes(db: Db, t: TxId, tenant: Id)
    requires t !in db.open
    ensures Step(db, Begin(t, tenant)) == (With(db, t, NewTx(tenant)), Done)
  {
  }

  lemma InsertOneGoes(db: Db, t: TxId, x: Tx, w: Id, r: Work)
    requires !x.immediate && r.tenant == x.tenant && WorkChecks(r) && w !in Rows(db.works, x) && Free(db, t, w)
    ensures Goes(db, t, x, InsertOne(t, w, r), AddWork(x, w, r))
    ensures KeepsChecks(With(db, t, x), InsertOne(t, w, r))
  {
    StillFree(db, t, x, w);
    WithMeans(db, t, x, AddWork(x, w, r));
    hide Step, KeepsChecks, InsertOne, AddWork, Free, With, Rows, WorkChecks, SeenWorks;
    hide WorkPendingElsewhere;
    InsertOneDone(With(db, t, x), t, w, r);
  }

  lemma OriginOneGoes(db: Db, t: TxId, x: Tx, w: Id, o: Origin)
    requires !x.immediate && o.tenant == x.tenant && OriginChecks(o) && o.sourceWork.None?
    requires HasRow(Rows(db.works, x), w, o.tenant) && w !in db.origins && w !in x.origins && Free(db, t, w)
    ensures Goes(db, t, x, OriginOne(t, w, o), AddOrigin(x, w, o))
    ensures KeepsChecks(With(db, t, x), OriginOne(t, w, o))
  {
    StillFree(db, t, x, w);
    WithMeans(db, t, x, AddOrigin(x, w, o));
    hide Step, KeepsChecks, OriginOne, AddOrigin, Free, With, Rows, HasRow, OriginChecks, SeenWorks, SeenOrigins;
    hide OriginPendingElsewhere, MovingElsewhere;
    OriginOneDone(With(db, t, x), t, w, o);
  }

  /** The row of w may move to k and leave its key to r. */
  ghost predicate MayReplace(db: Db, t: TxId, x: Tx, w: Id, k: Id, q: Work, r: Work) {
    && !x.immediate && q.tenant == r.tenant == x.tenant && k != w && WorkChecks(q) && WorkChecks(r)
    && w in Rows(db.works, x) && SameKind(q, Rows(db.works, x)[w]) && k !in Rows(db.works, x)
    && Free(db, t, w) && Free(db, t, k)
  }

  lemma ReplaceGoesOn(db: Db, t: TxId, x: Tx, w: Id, k: Id, q: Work, r: Work)
    requires MayReplace(db, t, x, w, k, q, r)
    ensures Goes(db, t, x, Replace(t, w, k, q, r), Replaced(x, w, k, q, r))
    ensures q.intent.PrepareTomorrow? && r.intent.RemediateClass? ==>
      KeepsChecks(With(db, t, x), Replace(t, w, k, q, r))
  {
    StillFree(db, t, x, w);
    StillFree(db, t, x, k);
    WithMeans(db, t, x, Replaced(x, w, k, q, r));
    hide Step, KeepsChecks, Replace, Replaced, Free, With, Rows, SameKind, WorkChecks, SeenWorks;
    hide WorkPendingElsewhere, KeyHeldElsewhere;
    ReplaceDone(With(db, t, x), t, w, k, q, r);
  }

  lemma CommitGoes(db: Db, t: TxId, x: Tx)
    requires forall d :: d in x.queue ==> Passes(Rows(db.works, x), db.origins + x.origins, d)
    ensures Step(With(db, t, x), Commit(t)) == (Db(Rows(db.works, x), db.origins + x.origins, db.open - {t}), Done)
  {
    WithMeans(db, t, x, x);
    hide Passes, Rows;
  }

  /** A work that may get an origin, and the origin. */
  ghost predicate Match(r: Work, o: Origin) {
    r.intent.RemediateClass? && WorkChecks(r) && o.tenant == r.tenant && OriginChecks(o) && o.sourceWork.None?
  }

  lemma NewTxSees(works: Works, tenant: Id)
    ensures Rows(works, NewTx(tenant)) == works
  {
  }

  /** A transaction of two statements. */
  lemma TwoGo(db: Db, t: TxId, tenant: Id, a: Op, x: Tx, b: Op, y: Tx)
    requires t !in db.open && Goes(db, t, NewTx(tenant), a, x) && Goes(db, t, x, b, y)
    requires forall d :: d in y.queue ==> Passes(Rows(db.works, y), db.origins + y.origins, d)
    ensures var n := Run(db, [Begin(t, tenant), a, b, Commit(t)]);
      n.works == Rows(db.works, y) && n.origins == db.origins + y.origins && n.open == db.open
  {
    assert db.open - {t} == db.open;
    hide Step, Run, Rows, With, Passes;
    BeginGoes(db, t, tenant);
    CommitGoes(db, t, y);
    var end := Step(With(db, t, y), Commit(t)).0;
    RunThrough([db, With(db, t, NewTx(tenant)), With(db, t, x), With(db, t, y), end],
               [Begin(t, tenant), a, b, Commit(t)]);
  }

  // ---- work, then origin, then commit ----

  lemma PairSees(db: Db, w: Id, r: Work, o: Origin)
    requires w !in db.works && w !in db.origins && Match(r, o)
    ensures var x := AddOrigin(AddWork(NewTx(r.tenant), w, r), w, o);
      && Rows(db.works, AddWork(NewTx(r.tenant), w, r)) == Rows(db.works, x) == db.works[w := r]
      && db.origins + x.origins == db.origins[w := o]
      && forall d :: d in x.queue ==> Passes(db.works[w := r], db.origins[w := o], d)
  {
  }

  lemma NoOriginWithoutWork(db: Db, w: Id)
    requires Inv(db)
    ensures w in db.origins ==>
      HasRow(db.works, w, db.origins[w].tenant) && db.works[w].intent.RemediateClass?
  {
    hide AllIndependent, RowsOk, Covered;
  }

  /** Accepted from every state with the invariant for unused identifiers, and adds exactly the pair. */
  lemma PairCommits(db: Db, t: TxId, w: Id, r: Work, o: Origin)
    requires Inv(db) && t !in db.open && w !in db.works && Free(db, t, w) && Match(r, o)
    ensures var n := Run(db, [Begin(t, r.tenant), InsertOne(t, w, r), OriginOne(t, w, o), Commit(t)]);
      n.works == db.works[w := r] && n.origins == db.origins[w := o] && n.open == db.open
  {
    var x0 := NewTx(r.tenant);
    var x1, x2 := AddWork(x0, w, r), AddOrigin(AddWork(x0, w, r), w, o);
    NoOriginWithoutWork(db, w);
    NewTxSees(db.works, r.tenant);
    PairSees(db, w, r, o);
    hide Inv, Free, Step, Run, Rows, WorkChecks, OriginChecks, InsertOne, OriginOne, Passes, Goes;
    InsertOneGoes(db, t, x0, w, r);
    OriginOneGoes(db, t, x1, w, o);
    TwoGo(db, t, r.tenant, InsertOne(t, w, r), x1, OriginOne(t, w, o), x2);
  }

  // ---- origin first ----

  lemma OriginFirstSees(db: Db, w: Id, k: Id, q: Work, r: Work, o: Origin)
    requires w in db.works && w !in db.origins && k !in db.works && Match(r, o)
    ensures var x1 := AddOrigin(NewTx(r.tenant), w, o);
      var x := Replaced(x1, w, k, q, r);
      && Rows(db.works, x1) == db.works && Rows(db.works, x) == db.works[k := q][w := r]
      && db.origins + x.origins == db.origins[w := o]
      && forall d :: d in x.queue ==> Passes(db.works[k := q][w := r], db.origins[w := o], d)
  {
  }

  lemma SettledOnes(t: TxId, w: Id, k: Id, q: Work, r: Work, o: Origin)
    requires q.intent.PrepareTomorrow?
    ensures Settled(Begin(t, r.tenant)) && Settled(OriginOne(t, w, o)) && Settled(Commit(t))
    ensures Settled(Replace(t, w, k, q, r))
  {
  }

  /**
   An origin may come before its remedial work: it stands beside a committed work of the old
   intent until one statement gives that work a new key and puts the remedial work in its
   place. The commit is accepted and adds a pair, and no remedial work changes its key.
   */
  lemma OriginFirstCommits(db: Db, t: TxId, w: Id, k: Id, q: Work, r: Work, o: Origin)
    requires Inv(db) && t !in db.open && w in db.works && k !in db.works && Free(db, t, w) && Free(db, t, k)
    requires q.intent.PrepareTomorrow? && SameKind(q, db.works[w]) && WorkChecks(q)
    requires Match(r, o) && q.tenant == r.tenant
    ensures var ops := [Begin(t, r.tenant), OriginOne(t, w, o), Replace(t, w, k, q, r), Commit(t)];
      && Run(db, ops).works == db.works[k := q][w := r] && Run(db, ops).origins == db.origins[w := o]
      && forall op :: op in ops ==> Settled(op)
  {
    var x0 := NewTx(r.tenant);
    var x1 := AddOrigin(x0, w, o);
    var x2 := Replaced(x1, w, k, q, r);
    NoOriginWithoutWork(db, w);
    NewTxSees(db.works, r.tenant);
    OriginFirstSees(db, w, k, q, r, o);
    SettledOnes(t, w, k, q, r, o);
    hide Inv, Free, Step, Run, Rows, WorkChecks, OriginChecks, OriginOne, Replace, Passes, Settled, Replaced, Goes;
    OriginOneGoes(db, t, x0, w, o);
    ReplaceGoesOn(db, t, x1, w, k, q, r);
    TwoGo(db, t, r.tenant, OriginOne(t, w, o), x1, Replace(t, w, k, q, r), x2);
  }

  // ---- works that lose their origins ----

  lemma MissingOrigin(works: Works, origins: Origins, k: Id)
    requires k in works && works[k].intent.RemediateClass? && k !in origins
    ensures !Paired(works, origins)
  {
  }

  lemma LosesSees(db: Db, w: Id, k: Id, r: Work)
    requires w in db.origins && HasRow(db.works, w, db.origins[w].tenant) && SameKind(r, db.works[w])
    requires k !in db.works
    ensures var x := Replaced(NewTx(r.tenant), w, k, r, r);
      && Rows(db.works, x) == db.works[k := r][w := r] && db.origins + x.origins == db.origins
      && forall d :: d in x.queue ==> Passes(db.works[k := r][w := r], db.origins, d)
  {
  }

  /**
   One statement takes a committed remedial work from its origin and puts a new one in its
   place. The foreign key finds the new row, the queued check finds the origin, the commit is
   accepted, and the moved work has no origin.
   */
  lemma CommittedWorkLosesItsOrigin(db: Db, t: TxId, w: Id, k: Id, r: Work)
    requires Inv(db) && t !in db.open && w in db.origins && k !in db.works && Free(db, t, w) && Free(db, t, k)
    requires w in db.works && SameKind(r, db.works[w]) && WorkChecks(r)
    ensures var n := Run(db, [Begin(t, r.tenant), Replace(t, w, k, r, r), Commit(t)]);
      n.works == db.works[k := r][w := r] && n.origins == db.origins && !Paired(n.works, n.origins)
  {
    var x0 := NewTx(r.tenant);
    var x1 := Replaced(x0, w, k, r, r);
    NoOriginWithoutWork(db, w);
    NoOriginWithoutWork(db, k);
    NewTxSees(db.works, r.tenant);
    LosesSees(db, w, k, r);
    hide Inv, Free, Step, Run, Rows, WorkChecks, With, Replace, Passes, Paired, Replaced;
    BeginGoes(db, t, r.tenant);
    ReplaceGoesOn(db, t, x0, w, k, r, r);
    CommitGoes(db, t, x1);
    RunThrough([db, With(db, t, x0), With(db, t, x1), Step(With(db, t, x1), Commit(t)).0],
               [Begin(t, r.tenant), Replace(t, w, k, r, r), Commit(t)]);
    MissingOrigin(db.works[k := r][w := r], db.origins, k);
  }

  function MakePair(t: TxId, w: Id, r: Work, o: Origin): seq<Op> {
    [Begin(t, r.tenant), InsertOne(t, w, r), OriginOne(t, w, o), Commit(t)]
  }

  function TakeWork(t: TxId, w: Id, k: Id, r: Work): seq<Op> {
    [Begin(t, r.tenant), Replace(t, w, k, r, r), Commit(t)]
  }

  lemma SettledPair(t: TxId, w: Id, r: Work, o: Origin)
    ensures forall op :: op in MakePair(t, w, r, o) ==> Settled(op)
  {
  }

  lemma PairIsMade(start: Db, t: TxId, w: Id, r: Work, o: Origin)
    requires Migrated(start) && w !in start.works && Match(r, o)
    ensures var n := Run(start, MakePair(t, w, r, o));
      Inv(n) && n == Db(start.works[w := r], map[w := o], map[])
  {
    assert start.open == map[] && start.origins == map[] && start.origins[w := o] == map[w := o];
    assert Free(start, t, w);
    assert MakePair(t, w, r, o) == [Begin(t, r.tenant), InsertOne(t, w, r), OriginOne(t, w, o), Commit(t)];
    hide *;
    MigratedHasInv(start);
    PairCommits(start, t, w, r, o);
    SettledPair(t, w, r, o);
    SettledRunIsDisciplined(start, MakePair(t, w, r, o));
    RunKeeps(start, MakePair(t, w, r, o));
  }

  /** From all migrated tables, a pair can be made and undone. */
  lemma PairIsUndone(start: Db, t: TxId, w: Id, k: Id, r: Work, o: Origin)
    requires Migrated(start) && w != k && w !in start.works && k !in start.works && Match(r, o)
    ensures var n := Run(start, MakePair(t, w, r, o) + TakeWork(t, w, k, r));
      n.works == start.works[w := r][k := r] && n.origins == map[w := o] && !Paired(n.works, n.origins)
  {
    var n := Db(start.works[w := r], map[w := o], map[]);
    assert Free(n, t, w) && Free(n, t, k) && SameKind(r, n.works[w]);
    assert WorkChecks(r) && t !in n.open && w in n.origins && w in n.works && k !in n.works;
    assert n.works[k := r][w := r] == n.works[k := r];
    assert TakeWork(t, w, k, r) == [Begin(t, r.tenant), Replace(t, w, k, r, r), Commit(t)];
    hide *;
    PairIsMade(start, t, w, r, o);
    CommittedWorkLosesItsOrigin(n, t, w, k, r);
    RunSplits(start, MakePair(t, w, r, o), TakeWork(t, w, k, r));
  }
}
