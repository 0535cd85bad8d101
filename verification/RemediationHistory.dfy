/**
 What holds over every run from the migrated tables, whether or not its statements meet the
 rule on checks: origins never change, foreign keys hold, and every row meets its CHECKs.
 */
module RemediationHistory {
  import opened Basics
  import opened RemediationModel
  import opened RemediationStatements
  import opened RemediationPairing

  // ---- a change of an origin is refused ----

  lemma KeepsTenant(db: Db, t: TxId, p: Progress, c: Change)
    requires t in db.open && Apply(db, t, p, c).Going?
    ensures Apply(db, t, p, c).p.tx.tenant == p.tx.tenant
  {
    hide BtrimEmpty, Rows, WorkPendingElsewhere, OriginPendingElsewhere, KeyHeldElsewhere;
  }

  lemma {:induction false} OriginChangeStops(db: Db, t: TxId, p: Progress, changes: seq<Change>, i: nat)
    requires t in db.open && p.tx.tenant == db.open[t].tenant && i < |changes| && changes[i].SetOrigin?
    requires changes[i].w in SeenOrigins(db, t) && SeenOrigins(db, t)[changes[i].w].tenant == db.open[t].tenant
    ensures !ApplyAll(db, t, p, changes).Going?
    ensures i == 0 ==> ApplyAll(db, t, p, changes) == Failing(OriginImmutable)
    decreases i
  {
    if i > 0 && Apply(db, t, p, changes[0]).Going? {
      KeepsTenant(db, t, p, changes[0]);
      hide Apply, SeenOrigins;
      OriginChangeStops(db, t, Apply(db, t, p, changes[0]).p, changes[1..], i - 1);
    }
  }

  /**
   No statement with an UPDATE or DELETE of an origin that the transaction sees is ever accepted,
   whatever row it proposes. If that is its first change, the statement aborts the transaction
   with the immutability error.
   */
  lemma OriginIsImmutable(db: Db, t: TxId, changes: seq<Change>, i: nat)
    requires t in db.open && i < |changes| && changes[i].SetOrigin?
    requires changes[i].w in SeenOrigins(db, t) && SeenOrigins(db, t)[changes[i].w].tenant == db.open[t].tenant
    ensures var (n, o) := Step(db, Statement(t, changes));
      && !o.Done? && n.works == db.works && n.origins == db.origins
      && (i == 0 ==> o == Rejected(OriginImmutable) && n.open == db.open - {t})
  {
    OriginChangeStops(db, t, Started(db, t), changes, i) by { hide SeenOrigins; }
    hide ApplyAll, SeenOrigins;
  }

  /** An UPDATE or DELETE that finds no origin changes nothing. */
  lemma UnseenOriginIsLeft(db: Db, t: TxId, w: Id, row: Option<Origin>)
    requires t in db.open
    requires w in SeenOrigins(db, t) ==> SeenOrigins(db, t)[w].tenant != db.open[t].tenant
    ensures Step(db, Statement(t, [SetOrigin(w, row)])) == (db, Done)
  {
    var start := Started(db, t);
    assert [SetOrigin(w, row)][1..] == [];
    assert ApplyAll(db, t, start, [SetOrigin(w, row)]) == Going(start);
    assert Ended(start) == db.open[t] by { assert start.tx.queue + [] == start.tx.queue; }
    assert db.(open := db.open[t := db.open[t]]) == db;
    hide Rows, SeenOrigins;
  }

  // ---- committed origins ----

  /** Nobody is about to insert an origin that is there, and no two transactions insert the same one. */
  ghost predicate OriginsFree(db: Db) {
    && (forall t, w :: t in db.open && w in db.open[t].origins ==> w !in db.origins)
    && (forall t, u, w :: t in db.open && u in db.open && w in db.open[t].origins && w in db.open[u].origins ==> t == u)
  }

  ghost predicate FreeIn(db: Db, t: TxId, p: Progress) {
    && (forall w :: w in p.tx.origins ==> w !in db.origins)
    && (forall u, w :: u in db.open && u != t && w in db.open[u].origins ==> w !in p.tx.origins)
  }

  lemma KeepsFree(db: Db, t: TxId, p: Progress, c: Change)
    requires t in db.open && FreeIn(db, t, p) && Apply(db, t, p, c).Going?
    ensures FreeIn(db, t, Apply(db, t, p, c).p)
  {
    hide BtrimEmpty, Rows, WorkPendingElsewhere, KeyHeldElsewhere;
  }

  lemma {:induction false} StaysFree(db: Db, t: TxId, p: Progress, changes: seq<Change>)
    requires t in db.open && FreeIn(db, t, p) && ApplyAll(db, t, p, changes).Going?
    ensures FreeIn(db, t, ApplyAll(db, t, p, changes).p)
    decreases |changes|
  {
    hide Apply, FreeIn;
    if changes != [] {
      KeepsFree(db, t, p, changes[0]);
      StaysFree(db, t, Apply(db, t, p, changes[0]).p, changes[1..]);
    }
  }

  function InMode(x: Tx, immediate: bool): Tx {
    if immediate then x.(queue := [], immediate := true) else x.(immediate := false)
  }

  /** What an accepted operation does to tables and transactions. */
  lemma AcceptedMeans(db: Db, op: Op)
    requires op.t in db.open && Step(db, op).1.Done?
    ensures !op.Begin?
    ensures op.Statement? ==>
      var r := ApplyAll(db, op.t, Started(db, op.t), op.changes);
      && r.Going? && Finish(db, op.t, r.p).1.Done?
      && Step(db, op).0 == db.(open := db.open[op.t := Ended(r.p)])
    ensures op.SetConstraints? ==>
      Step(db, op).0 == db.(open := db.open[op.t := InMode(db.open[op.t], op.immediate)])
    ensures op.Commit? ==> Step(db, op).0 == Db(SeenWorks(db, op.t), SeenOrigins(db, op.t), db.open - {op.t})
    ensures op.Abort? ==> Step(db, op).0 == Released(db, op.t)
  {
    hide ApplyAll, Started, FirstFailure, ForeignKeysFail, ForeignKeysWait, Rows;
  }

  lemma StatementStaysFree(db: Db, t: TxId, changes: seq<Change>)
    requires OriginsFree(db) && t in db.open && ApplyAll(db, t, Started(db, t), changes).Going?
    ensures OriginsFree(db.(open := db.open[t := Ended(ApplyAll(db, t, Started(db, t), changes).p)]))
  {
    assert FreeIn(db, t, Started(db, t)) by { hide Rows, ApplyAll; }
    StaysFree(db, t, Started(db, t), changes) by { hide ApplyAll, Started; }
    hide ApplyAll, Started;
  }

  lemma FreeStep(db: Db, op: Op)
    requires OriginsFree(db)
    ensures OriginsFree(Step(db, op).0)
  {
    if !Step(db, op).1.Done? {
      hide Step;
      UnsuccessfulStep(db, op);
    } else if op.t in db.open {
      AcceptedMeans(db, op);
      hide Step, Finish, ApplyAll, Started, SeenWorks;
      if op.Statement? {
        hide OriginsFree, Ended, SeenOrigins;
        StatementStaysFree(db, op.t, op.changes);
      }
    }
  }

  lemma StepKeepsOrigins(db: Db, op: Op)
    requires OriginsFree(db)
    ensures forall w :: w in db.origins ==> w in Step(db, op).0.origins && Step(db, op).0.origins[w] == db.origins[w]
  {
    if !Step(db, op).1.Done? {
      hide Step;
      UnsuccessfulStep(db, op);
    } else if op.t in db.open {
      AcceptedMeans(db, op);
      hide Step, Finish, ApplyAll, Started, SeenWorks;
    }
  }

  lemma {:induction false} RunKeepsOrigins(db: Db, ops: seq<Op>)
    requires OriginsFree(db)
    ensures forall w :: w in db.origins ==> w in Run(db, ops).origins && Run(db, ops).origins[w] == db.origins[w]
    ensures OriginsFree(Run(db, ops))
    decreases |ops|
  {
    hide OriginsFree, Step;
    if ops != [] {
      FreeStep(db, ops[0]);
      StepKeepsOrigins(db, ops[0]);
      RunKeepsOrigins(Step(db, ops[0]).0, ops[1..]);
    }
  }

  /** Over every run, what is committed of origins after a prefix is there, unchanged, after the whole. */
  lemma CommittedOriginForever(start: Db, pre: seq<Op>, post: seq<Op>, w: Id)
    requires Migrated(start) && w in Run(start, pre).origins
    ensures var n := Run(Run(start, pre), post); w in n.origins && n.origins[w] == Run(start, pre).origins[w]
  {
    assert OriginsFree(start);
    hide Run, Migrated, OriginsFree;
    RunKeepsOrigins(start, pre);
    RunKeepsOrigins(Run(start, pre), post);
  }
}
