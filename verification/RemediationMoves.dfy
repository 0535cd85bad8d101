/**
 Exactly which accepted statements keep works and origins paired. After a statement that breaks
 the rule, a continuation repairs everything that a queued check would complain about and
 commits; what no check looks at stays broken.
 */
module RemediationMoves {
  import opened Basics
  import opened RemediationModel
  import opened RemediationStatements
  import opened RemediationPairing
  import opened RemediationRuns

  // ---- keys that are wrong and keys that a check complains about ----

  /** The row of w and the origin of w do not fit, and the queued checks of w do not see it. */
  ghost predicate BrokenAt(works: Works, origins: Origins, x: Tx, w: Id) {
    var view, all := Rows(works, x), origins + x.origins;
    && w in view && (view[w].intent.RemediateClass? <==> w !in all)
    && forall d :: d in x.queue && d.w == w ==> Passes(view, all, d)
  }

  lemma BrokenIsUnpaired(works: Works, origins: Origins, x: Tx, w: Id)
    requires RowsOk(works, origins, x) && BrokenAt(works, origins, x, w)
    ensures !Paired(Rows(works, x), origins + x.origins)
  {
    var view, all := Rows(works, x), origins + x.origins;
    assert w in all ==> HasRow(view, w, all[w].tenant);
    hide OwnRows, Queued, Rows;
  }

  lemma UnkeptIsBroken(works: Works, origins: Origins, p: Progress) returns (w: Id)
    requires RowsOk(works, origins, Ended(p)) && !ChecksKept(works, origins, p)
    ensures BrokenAt(works, origins, Ended(p), w)
  {
    var y := Ended(p);
    if v :| v in p.landed && !WorkCovered(origins, y, y.queue, v) {
      w := v;
      UncoveredWorkIsBroken(works, origins, y, v);
    } else {
      w :| w in p.left && !OriginCovered(works, origins, y, y.queue, w);
      UncoveredOriginIsBroken(works, origins, y, w);
    }
  }

  lemma UncoveredWorkIsBroken(works: Works, origins: Origins, y: Tx, w: Id)
    requires RowsOk(works, origins, y) && !WorkCovered(origins, y, y.queue, w)
    ensures BrokenAt(works, origins, y, w)
  {
    hide OwnRows, Parents;
  }

  lemma UncoveredOriginIsBroken(works: Works, origins: Origins, y: Tx, w: Id)
    requires RowsOk(works, origins, y) && !OriginCovered(works, origins, y, y.queue, w)
    ensures BrokenAt(works, origins, y, w)
  {
    var view, all := Rows(works, y), origins + y.origins;
    assert HasRow(view, w, all[w].tenant);
    forall d | d in y.queue && d.w == w ensures Passes(view, all, d) {
      assert IsOwnCheck(y, d);
      if d.WorkInserted? && d.intent.RemediateClass? { assert w in y.works; }
    }
  }

  /** The keys whose queued checks would raise now. */
  function Failing(works: Works, origins: Origins, x: Tx): set<Id> {
    set d | d in x.queue && !Passes(Rows(works, x), origins + x.origins, d) :: d.w
  }

  /** No committed origin is at fault, and the row under the key, if any, is of the tenant. */
  lemma FailingFacts(works: Works, origins: Origins, x: Tx, v: Id)
    requires RowsOk(works, origins, x) && v in Failing(works, origins, x)
    ensures v !in origins && (v in Rows(works, x) ==> Rows(works, x)[v].tenant == x.tenant)
  {
    var view, all := Rows(works, x), origins + x.origins;
    var d :| d in x.queue && !Passes(view, all, d) && d.w == v;
    assert IsOwnCheck(x, d);
    assert v in origins ==> HasRow(view, v, origins[v].tenant);
    assert v in x.origins ==> HasRow(view, v, x.tenant);
    hide Queued, Parents;
  }

  // ---- repairing one key ----

  /** y has what x has under other keys, and asks no more of them; under v it has a remedial row. */
  ghost predicate RowMended(works: Works, x: Tx, y: Tx, v: Id) {
    && y.tenant == x.tenant && y.immediate == x.immediate
    && (forall u :: u != v && u in Rows(works, x) ==> u in Rows(works, y) && Rows(works, y)[u] == Rows(works, x)[u])
    && (forall d :: d in y.queue ==> d in x.queue || d.w == v)
    && HasRow(Rows(works, y), v, x.tenant) && Rows(works, y)[v].intent.RemediateClass?
  }

  ghost predicate Mended(works: Works, x: Tx, y: Tx, v: Id) {
    && RowMended(works, x, y, v)
    && v in y.origins && y.origins[v].tenant == x.tenant
    && (forall u :: u != v ==> (u in y.origins <==> u in x.origins))
    && (forall u :: u != v && u in x.origins ==> y.origins[u] == x.origins[u])
  }

  lemma SamePasses(works: Works, origins: Origins, x: Tx, y: Tx, v: Id, d: Deferred)
    requires Mended(works, x, y, v) && d.w != v && Passes(Rows(works, x), origins + x.origins, d)
    ensures Passes(Rows(works, y), origins + y.origins, d)
  {
    hide Rows;
  }

  lemma MendedPasses(works: Works, origins: Origins, x: Tx, y: Tx, v: Id, d: Deferred)
    requires Mended(works, x, y, v) && d.w == v && d.tenant == x.tenant
    ensures Passes(Rows(works, y), origins + y.origins, d)
  {
    hide Rows;
  }

  /** One key less is failing. */
  lemma MendedFails(works: Works, origins: Origins, x: Tx, y: Tx, v: Id)
    requires Mended(works, x, y, v) && Queued(y, y.queue)
    ensures Failing(works, origins, y) <= Failing(works, origins, x) - {v}
  {
    forall u | u in Failing(works, origins, y) ensures u in Failing(works, origins, x) && u != v {
      var d :| d in y.queue && !Passes(Rows(works, y), origins + y.origins, d) && d.w == u;
      assert d.tenant == x.tenant && (u != v ==> d in x.queue);
      hide Mended, Passes, Queued, Rows;
      if u == v { MendedPasses(works, origins, x, y, v, d); }
      if Passes(Rows(works, x), origins + x.origins, d) { SamePasses(works, origins, x, y, v, d); }
    }
  }

  /** What no check sees stays broken. */
  lemma MendedBroken(works: Works, origins: Origins, x: Tx, y: Tx, v: Id, w: Id)
    requires Mended(works, x, y, v) && w != v && BrokenAt(works, origins, x, w)
    ensures BrokenAt(works, origins, y, w)
  {
    forall d | d in y.queue && d.w == w ensures Passes(Rows(works, y), origins + y.origins, d) {
      SamePasses(works, origins, x, y, v, d);
    }
    hide Rows, Passes;
  }

  // ---- the continuation ----

  /** A transaction alone in the database, with its constraints deferred. */
  ghost predicate Alone(base: Db, t: TxId, x: Tx) {
    base.open == map[] && RowInv(With(base, t, x)) && !x.immediate
  }

  lemma AloneMeans(base: Db, t: TxId, x: Tx)
    requires Alone(base, t, x)
    ensures RowsOk(base.works, base.origins, x) && !x.immediate
    ensures forall w :: Free(base, t, w)
  {
    TxFacts(With(base, t, x), t);
    hide RowsOk, Paired, AllIndependent;
  }

  /** An accepted statement leaves the transaction alone. */
  lemma AloneGoesOn(base: Db, t: TxId, x: Tx, op: Op, y: Tx)
    requires Alone(base, t, x) && op.Statement? && op.t == t && Goes(base, t, x, op, y) && !y.immediate
    ensures Alone(base, t, y)
  {
    hide RowInv, DoStatement, ApplyAll, Started, Ended, ChecksKept;
    StatementKeeps(With(base, t, x), t, op.changes);
  }

  function OldWork(tenant: Id): Work { Work(tenant, PrepareTomorrow, "g", 0) }

  function RemedialWork(tenant: Id): Work { Work(tenant, RemediateClass, "g", 0) }

  function SomeOrigin(tenant: Id): Origin { Origin(tenant, 0, 0, Mixed, "c", None) }

  lemma SomeAreFine(tenant: Id)
    ensures WorkChecks(OldWork(tenant)) && WorkChecks(RemedialWork(tenant)) && OriginChecks(SomeOrigin(tenant))
  {
    assert "g"[0] != ' ' && "c"[0] != ' ';
  }

  lemma {:induction false} FreshId(ids: set<Id>) returns (f: Id)
    ensures forall i :: i in ids ==> i < f
    decreases ids
  {
    if ids == {} {
      f := 0;
    } else {
      var i :| i in ids;
      f := FreshId(ids - {i});
      assert forall j :: j in ids ==> j == i || j in ids - {i};
      if f <= i { f := i + 1; }
    }
  }

  lemma InsertMends(works: Works, x: Tx, v: Id, r: Work)
    requires v !in Rows(works, x) && r.tenant == x.tenant && r.intent.RemediateClass?
    ensures RowMended(works, x, AddWork(x, v, r), v)
  {
  }

  lemma ReplaceMends(works: Works, x: Tx, v: Id, f: Id, q: Work, r: Work)
    requires f !in Rows(works, x) && f != v && r.tenant == x.tenant && r.intent.RemediateClass?
    ensures RowMended(works, x, Replaced(x, v, f, q, r), v)
  {
  }

  /** A remedial row under v. */
  lemma MendRow(base: Db, t: TxId, x: Tx, v: Id) returns (ops: seq<Op>, y: Tx)
    requires Alone(base, t, x) && (v in Rows(base.works, x) ==> Rows(base.works, x)[v].tenant == x.tenant)
    ensures Disciplined(With(base, t, x), ops) && Run(With(base, t, x), ops) == With(base, t, y)
    ensures Alone(base, t, y) && RowMended(base.works, x, y, v) && y.origins == x.origins
  {
    var view, q, r := Rows(base.works, x), OldWork(x.tenant), RemedialWork(x.tenant);
    AloneMeans(base, t, x);
    SomeAreFine(x.tenant);
    hide Alone, Free, RowsOk, Rows, WorkChecks, Goes, KeepsChecks, Run, Disciplined, InsertOne, Replace, RowMended;
    if v !in view {
      InsertOneGoes(base, t, x, v, r);
      InsertMends(base.works, x, v, r);
      ops, y := [InsertOne(t, v, r)], AddWork(x, v, r);
      OneStep(base, t, x, InsertOne(t, v, r), y);
    } else if view[v].intent.PrepareTomorrow? {
      var f := FreshId(view.Keys);
      assert f !in view.Keys;
      ReplaceGoesOn(base, t, x, v, f, q, r);
      ReplaceMends(base.works, x, v, f, q, r);
      ops, y := [Replace(t, v, f, q, r)], Replaced(x, v, f, q, r);
      OneStep(base, t, x, Replace(t, v, f, q, r), y);
    } else {
      ops, y := [], x;
      NoStep(With(base, t, x));
      assert RowMended(base.works, x, x, v) by { StaysMended(base.works, x, v); }
    }
  }

  lemma StaysMended(works: Works, x: Tx, v: Id)
    requires HasRow(Rows(works, x), v, x.tenant) && Rows(works, x)[v].intent.RemediateClass?
    ensures RowMended(works, x, x, v)
  {
  }

  lemma NoStep(db: Db)
    ensures Disciplined(db, []) && Run(db, []) == db
  {
  }

  lemma OneStep(base: Db, t: TxId, x: Tx, op: Op, y: Tx)
    requires Alone(base, t, x) && op.Statement? && op.t == t && Goes(base, t, x, op, y) && !y.immediate
    requires KeepsChecks(With(base, t, x), op)
    ensures Disciplined(With(base, t, x), [op]) && Run(With(base, t, x), [op]) == With(base, t, y) && Alone(base, t, y)
  {
    AloneGoesOn(base, t, x, op, y);
    hide Alone, Step, KeepsChecks, With, Run, Disciplined;
    RunCons(With(base, t, x), op, []);
    NoStep(With(base, t, y));
    assert [op] + [] == [op];
  }

  /** A remedial row and an origin under v. */
  lemma MendKey(base: Db, t: TxId, x: Tx, v: Id) returns (ops: seq<Op>, z: Tx)
    requires Alone(base, t, x) && v in Failing(base.works, base.origins, x)
    ensures Disciplined(With(base, t, x), ops) && Run(With(base, t, x), ops) == With(base, t, z)
    ensures Alone(base, t, z) && Mended(base.works, x, z, v)
  {
    AloneMeans(base, t, x);
    FailingFacts(base.works, base.origins, x, v);
    hide Alone, Free, RowsOk, Rows, Goes, KeepsChecks, Run, Disciplined, Failing, RowMended, Mended, OriginOne;
    var pre, y := MendRow(base, t, x, v);
    var o := SomeOrigin(x.tenant);
    if v in x.origins {
      ops, z := pre, y;
      MendedAlready(base.works, base.origins, x, y, v) by { AloneMeans(base, t, x); }
    } else {
      z := AddOrigin(y, v, o);
      MendedWithOrigin(base.works, x, y, v, o);
      AloneMeans(base, t, y);
      SomeAreFine(x.tenant);
      hide OriginChecks;
      assert HasRow(Rows(base.works, y), v, o.tenant) && y.tenant == x.tenant by {
        RowMendedMeans(base.works, x, y, v);
      }
      OriginOneGoes(base, t, y, v, o);
      OneStep(base, t, y, OriginOne(t, v, o), z);
      ops := pre + [OriginOne(t, v, o)];
      RunSplits(With(base, t, x), pre, [OriginOne(t, v, o)]);
    }
  }

  lemma RowMendedMeans(works: Works, x: Tx, y: Tx, v: Id)
    requires RowMended(works, x, y, v)
    ensures HasRow(Rows(works, y), v, x.tenant) && y.tenant == x.tenant
  {
  }

  lemma MendedAlready(works: Works, origins: Origins, x: Tx, y: Tx, v: Id)
    requires RowsOk(works, origins, x) && RowMended(works, x, y, v) && y.origins == x.origins && v in x.origins
    ensures Mended(works, x, y, v)
  {
    hide RowMended;
  }

  lemma MendedWithOrigin(works: Works, x: Tx, y: Tx, v: Id, o: Origin)
    requires RowMended(works, x, y, v) && y.origins == x.origins && v !in x.origins && o.tenant == x.tenant
    ensures Mended(works, x, AddOrigin(y, v, o), v)
  {
    assert Rows(works, AddOrigin(y, v, o)) == Rows(works, y);
    hide Rows;
  }

  /** Every queued check passes in the end, and w is as wrong as before. */
  lemma {:induction false} MendAll(base: Db, t: TxId, x: Tx, w: Id) returns (ops: seq<Op>, z: Tx)
    requires Alone(base, t, x) && BrokenAt(base.works, base.origins, x, w)
    ensures Disciplined(With(base, t, x), ops) && Run(With(base, t, x), ops) == With(base, t, z)
    ensures Alone(base, t, z) && BrokenAt(base.works, base.origins, z, w) && Failing(base.works, base.origins, z) == {}
    decreases Failing(base.works, base.origins, x)
  {
    if Failing(base.works, base.origins, x) == {} {
      ops, z := [], x;
    } else {
      var v :| v in Failing(base.works, base.origins, x);
      assert v != w by { hide Alone, Passes, Rows; }
      hide Alone, BrokenAt, Failing, Run, Disciplined, Mended, RowsOk, Free;
      var pre, y := MendKey(base, t, x, v);
      AloneMeans(base, t, y);
      MendedFails(base.works, base.origins, x, y, v) by { QueueFacts(base, y); }
      MendedBroken(base.works, base.origins, x, y, v, w);
      var post;
      post, z := MendAll(base, t, y, w);
      ops := pre + post;
      RunSplits(With(base, t, x), pre, post);
    }
  }

  lemma QueueFacts(base: Db, x: Tx)
    requires RowsOk(base.works, base.origins, x)
    ensures Queued(x, x.queue)
  {
    hide OwnRows, Parents, Queued;
  }

  lemma CommitsBroken(base: Db, t: TxId, x: Tx, w: Id)
    requires Alone(base, t, x) && BrokenAt(base.works, base.origins, x, w)
    requires Failing(base.works, base.origins, x) == {}
    ensures Disciplined(With(base, t, x), [Commit(t)])
    ensures var n := Run(With(base, t, x), [Commit(t)]); !Paired(n.works, n.origins)
  {
    var view, all := Rows(base.works, x), base.origins + x.origins;
    forall d | d in x.queue ensures Passes(view, all, d) {
      hide Alone, BrokenAt, Rows;
      assert !Passes(view, all, d) ==> d.w in Failing(base.works, base.origins, x);
    }
    AloneMeans(base, t, x);
    hide Alone, BrokenAt, Failing, Free, Step, Run, Disciplined, Rows, RowsOk, Paired, Passes;
    CommitGoes(base, t, x);
    BrokenIsUnpaired(base.works, base.origins, x, w);
    OtherStep(With(base, t, x), Commit(t));
  }

  /** Operations other than statements are free. */
  lemma OtherStep(db: Db, op: Op)
    requires !op.Statement?
    ensures Disciplined(db, [op]) && Run(db, [op]) == Step(db, op).0
  {
    hide Step, Run, Disciplined;
    RunCons(db, op, []);
    NoStep(Step(db, op).0);
    assert [op] + [] == [op];
  }

  lemma {:induction false} AbortAll(db: Db, others: set<TxId>) returns (ops: seq<Op>)
    requires others <= db.open.Keys
    ensures Disciplined(db, ops) && Run(db, ops) == db.(open := db.open - others)
    decreases others
  {
    if others == {} {
      ops := [];
      assert db.open - others == db.open;
    } else {
      var u :| u in others;
      var n := Released(db, u);
      assert Step(db, Abort(u)).0 == n;
      hide Step, Run, Disciplined, KeepsChecks;
      var rest := AbortAll(n, others - {u});
      ops := [Abort(u)] + rest;
      OtherStep(db, Abort(u));
      RunSplits(db, [Abort(u)], rest);
      assert n.open - (others - {u}) == db.open - others;
    }
  }

  lemma DeferGoes(base: Db, t: TxId, x: Tx)
    ensures Step(With(base, t, x), SetConstraints(t, false)).0 == With(base, t, x.(immediate := false))
  {
    WithMeans(base, t, x, x.(immediate := false));
  }

  lemma DeferredRows(works: Works, origins: Origins, x: Tx, y: Tx)
    requires RowsOk(works, origins, x) && y == x.(immediate := false)
    ensures RowsOk(works, origins, y)
  {
    assert Rows(works, y) == Rows(works, x);
    assert OwnRows(works, origins, y) by { hide Parents, Queued, Rows; }
    assert Parents(works, origins, y) by { hide OwnRows, Queued, Rows; }
    assert Queued(y, y.queue) by { hide OwnRows, Parents, Rows; }
    hide OwnRows, Parents, Queued;
  }

  lemma LeftAlone(db: Db, t: TxId, base: Db, y: Tx)
    requires RowInv(db) && t in db.open && base == Db(db.works, db.origins, map[])
    requires y == db.open[t].(immediate := false)
    ensures Alone(base, t, y)
  {
    TxFacts(db, t);
    DeferredRows(db.works, db.origins, db.open[t], y);
    var n := With(base, t, y);
    assert n.open == map[t := y];
    assert AllIndependent(n.open) by { hide RowInv, RowsOk, Paired, Independent; }
    hide RowsOk, Paired, AllIndependent;
  }

  lemma DeferredBroken(works: Works, origins: Origins, x: Tx, w: Id)
    requires BrokenAt(works, origins, x, w)
    ensures BrokenAt(works, origins, x.(immediate := false), w)
  {
    assert Rows(works, x.(immediate := false)) == Rows(works, x);
    hide Rows, Passes;
  }

  lemma AloneCommits(base: Db, t: TxId, x: Tx, w: Id) returns (ops: seq<Op>)
    requires Alone(base, t, x) && BrokenAt(base.works, base.origins, x, w)
    ensures Disciplined(With(base, t, x), ops)
    ensures var n := Run(With(base, t, x), ops); !Paired(n.works, n.origins)
  {
    hide *;
    var mends, z := MendAll(base, t, x, w);
    CommitsBroken(base, t, z, w);
    ops := mends + [Commit(t)];
    RunSplits(With(base, t, x), mends, [Commit(t)]);
  }

  /** Every other transaction aborts, and t defers its constraints. */
  lemma ReachesAlone(db: Db, t: TxId) returns (ops: seq<Op>)
    requires t in db.open
    ensures Disciplined(db, ops)
    ensures Run(db, ops) == With(Db(db.works, db.origins, map[]), t, db.open[t].(immediate := false))
  {
    var base := Db(db.works, db.origins, map[]);
    var alone := With(base, t, db.open[t]);
    assert db.open - (db.open.Keys - {t}) == map[t := db.open[t]];
    hide Step, Run, Disciplined, KeepsChecks;
    var aborts := AbortAll(db, db.open.Keys - {t});
    assert Run(db, aborts) == alone;
    hide *;
    DeferGoes(base, t, db.open[t]);
    OtherStep(alone, SetConstraints(t, false));
    RunSplits(db, aborts, [SetConstraints(t, false)]);
    ops := aborts + [SetConstraints(t, false)];
  }

  /** What no check looks at can be committed by statements that meet the rule. */
  lemma BrokenCommits(db: Db, t: TxId, w: Id) returns (ops: seq<Op>)
    requires RowInv(db) && t in db.open && BrokenAt(db.works, db.origins, db.open[t], w)
    ensures Disciplined(db, ops)
    ensures var n := Run(db, ops); !Paired(n.works, n.origins)
  {
    var base, y := Db(db.works, db.origins, map[]), db.open[t].(immediate := false);
    hide *;
    LeftAlone(db, t, base, y);
    DeferredBroken(db.works, db.origins, db.open[t], w);
    var pre := ReachesAlone(db, t);
    var post := AloneCommits(base, t, y, w);
    RunSplits(db, pre, post);
    ops := pre + post;
  }

  // ---- the exact condition ----

  ghost predicate AlwaysStaysPaired(db: Db) {
    forall ops: seq<Op> :: Disciplined(db, ops) ==> Paired(Run(db, ops).works, Run(db, ops).origins)
  }

  lemma UnkeptUnpairs(db: Db, op: Op) returns (ops: seq<Op>)
    requires Inv(db) && op.Statement? && Step(db, op).1.Done? && !KeepsChecks(db, op)
    ensures Disciplined(Step(db, op).0, ops)
    ensures var n := Run(Step(db, op).0, ops); !Paired(n.works, n.origins)
  {
    var t, n := op.t, Step(db, op).0;
    var r := ApplyAll(db, t, Started(db, t), op.changes);
    assert t in db.open && n == DoStatement(db, t, op.changes).0 && r.Going? && !ChecksKept(db.works, db.origins, r.p)
      && DoStatement(db, t, op.changes).1.Done? by { hide Inv, DoStatement, ApplyAll, Started, ChecksKept; }
    hide *;
    InvHasRows(db);
    StatementKeeps(db, t, op.changes);
    assert t in n.open && n.open[t] == Ended(r.p) && n.works == db.works && n.origins == db.origins;
    TxFacts(n, t);
    var w := UnkeptIsBroken(db.works, db.origins, r.p);
    ops := BrokenCommits(n, t, w);
  }

  /**
   The exact condition. After an accepted statement in any state with the invariant, every
   disciplined continuation keeps works and origins paired if and only if the statement leaves
   no remedial row under a new key, and no origin under a key that a row has left, without the
   row or origin that belongs to it or a queued check of it.
   */
  lemma StatementIsSafeExactlyIfChecked(db: Db, op: Op)
    requires Inv(db) && op.Statement? && Step(db, op).1.Done?
    ensures KeepsChecks(db, op) <==> AlwaysStaysPaired(Step(db, op).0)
  {
    var n := Step(db, op).0;
    hide Step, KeepsChecks, Disciplined, Run, Paired, Inv;
    if KeepsChecks(db, op) {
      StepKeeps(db, op);
      forall ops: seq<Op> | Disciplined(n, ops) ensures Paired(Run(n, ops).works, Run(n, ops).origins) {
        RunKeeps(n, ops);
        InvIsPaired(Run(n, ops));
      }
    } else {
      var ops := UnkeptUnpairs(db, op);
    }
  }

  lemma InvIsPaired(db: Db)
    requires Inv(db)
    ensures Paired(db.works, db.origins)
  {
    hide Paired, RowsOk, Covered;
  }

  // ---- a remedial row may move with its origin ----

  lemma ThirdChange(db: Db, t: TxId, p: Progress, c: Change, d: Change, e: Change, q: Progress)
    requires t in db.open && ApplyAll(db, t, p, [c, d]) == Going(q) && Apply(db, t, q, e).Going?
    ensures ApplyAll(db, t, p, [c, d, e]) == Apply(db, t, q, e)
  {
    hide Apply;
    assert [c, d, e][1..] == [d, e] && [d, e][1..] == [e] && [c, d][1..] == [d];
    var first := Apply(db, t, p, c).p;
    assert ApplyAll(db, t, p, [c, d]) == ApplyAll(db, t, first, [d]);
    assert ApplyAll(db, t, first, [d]) == Apply(db, t, first, d) by {
      if Apply(db, t, first, d).Going? { OneChange(db, t, first, d); }
    }
    OneChange(db, t, q, e);
  }

  ghost predicate MovedRemedial(db: Db, t: TxId, p: Progress, w: Id, k: Id, r: Work) {
    t in db.open && p == Replacing(Started(db, t), w, k, r, r) && r.intent.RemediateClass? && k != w
    && r.tenant == p.tx.tenant && k !in SeenOrigins(db, t)
  }

  lemma OriginAtNewKey(db: Db, t: TxId, p: Progress, w: Id, k: Id, r: Work, o: Origin)
    requires MovedRemedial(db, t, p, w, k, r) && Match(r, o) && !OriginPendingElsewhere(db, t, k)
    ensures Apply(db, t, p, NewOrigin(k, o)) == Going(WithOrigin(p, k, o))
  {
    hide OriginPendingElsewhere, BtrimEmpty, Rows;
  }

  lemma OriginFindsRow(db: Db, t: TxId, p: Progress, w: Id, k: Id, r: Work, o: Origin)
    requires MovedRemedial(db, t, p, w, k, r) && Match(r, o) && !MovingElsewhere(db, t, k)
    ensures var q := WithOrigin(p, k, o);
      !ForeignKeysFail(Rows(db.works, q.tx), db.origins + q.tx.origins, q) && !ForeignKeysWait(db, t, q)
  {
    var q := WithOrigin(p, k, o);
    assert Rows(db.works, q.tx) == Rows(db.works, p.tx) && HasRow(Rows(db.works, p.tx), k, r.tenant)
      && HasRow(Rows(db.works, p.tx), w, r.tenant);
    hide MovingElsewhere, BtrimEmpty, Rows;
  }

  lemma MovedIsChecked(db: Db, t: TxId, p: Progress, w: Id, k: Id, r: Work, o: Origin)
    requires MovedRemedial(db, t, p, w, k, r) && Match(r, o)
    ensures ChecksKept(db.works, db.origins, WithOrigin(p, k, o))
  {
    var q := WithOrigin(p, k, o);
    assert Rows(db.works, q.tx)[w] == r;
    hide BtrimEmpty;
  }

  lemma StartedMode(db: Db, t: TxId)
    requires t in db.open
    ensures Started(db, t).tx == db.open[t]
  {
  }

  /** The simpler rule is not necessary: a remedial work may move if it gets an origin there. */
  lemma MoveWithOriginIsChecked(db: Db, t: TxId, w: Id, k: Id, r: Work, o: Origin)
    requires CanReplace(db, t, w, k, r, r) && Match(r, o) && k !in SeenOrigins(db, t) && Free(db, t, k)
    ensures var op := Statement(t, [SetWork(w, k, r), NewWork(w, r), NewOrigin(k, o)]);
      Step(db, op).1.Done? && KeepsChecks(db, op) && !Settled(op)
  {
    var start := Started(db, t);
    var p, changes := Replacing(start, w, k, r, r), [SetWork(w, k, r), NewWork(w, r), NewOrigin(k, o)];
    assert With(db, t, db.open[t]) == db;
    StillFree(db, t, db.open[t], k);
    ReplaceGoes(db, t, w, k, r, r);
    assert SetWork(w, k, r) in changes;
    assert MovedRemedial(db, t, p, w, k, r) && !p.tx.immediate by { StartedMode(db, t); }
    hide MovedRemedial, CanReplace;
    OriginAtNewKey(db, t, p, w, k, r, o);
    OriginFindsRow(db, t, p, w, k, r, o);
    MovedIsChecked(db, t, p, w, k, r, o);
    hide Rows, ApplyAll, Apply, Step, KeepsChecks, ForeignKeysFail, ForeignKeysWait, ChecksKept, Started;
    hide WorkPendingElsewhere, OriginPendingElsewhere, KeyHeldElsewhere, MovingElsewhere, BtrimEmpty, Free;
    ThirdChange(db, t, start, SetWork(w, k, r), NewWork(w, r), NewOrigin(k, o), p);
    Ends(db, t, changes, WithOrigin(p, k, o));
  }
}
