/** The two teaching tables as a mutable store; each operation is proved against RemediationModel.Step. */
module RemediationStore {
  import opened Basics
  import opened RemediationModel
  import opened RemediationStatements
  import opened RemediationPairing

  lemma StepKeepsIfInv(db: Db, op: Op)
    ensures Inv(db) && KeepsChecks(db, op) ==>
      Inv(Step(db, op).0) && Paired(Step(db, op).0.works, Step(db, op).0.origins)
  {
    hide Step, KeepsChecks, Paired, RowsOk, Covered;
    if Inv(db) && KeepsChecks(db, op) { StepKeeps(db, op); }
  }

  class OriginStore {
    var works: Works
    var origins: Origins
    var open: map<TxId, Tx>

    function State(): Db
      reads this
    {
      Db(works, origins, open)
    }

    /** The tables as the migration finds them: works of the old intent only. */
    constructor (existing: Works)
      requires forall w :: w in existing ==> existing[w].intent.PrepareTomorrow?
      ensures State() == Db(existing, map[], map[]) && Inv(State())
    {
      works, origins, open := existing, map[], map[];
    }

    method Raise(t: TxId, reason: Reason) returns (o: Outcome)
      modifies this`open
      ensures (State(), o) == Fail(old(State()), t, reason)
    {
      open := open - {t};
      o := Rejected(reason);
    }

    /** Fires checks in order on one view, up to the first that raises. */
    method FireChecks(view: Works, all: Origins, queue: seq<Deferred>) returns (failure: Option<Deferred>)
      ensures failure == FirstFailure(view, all, queue)
      ensures failure.None? <==> forall d :: d in queue ==> Passes(view, all, d)
    {
      var i := 0;
      while i < |queue|
        invariant 0 <= i <= |queue|
        invariant FirstFailure(view, all, queue) == FirstFailure(view, all, queue[i..])
      {
        assert queue[i..][1..] == queue[i + 1..];
        if !Passes(view, all, queue[i]) { return Some(queue[i]); }
        i := i + 1;
      }
      failure := None;
    }

    /** The rows of a statement one after the other; nothing is stored before its end. */
    method ApplyRows(t: TxId, changes: seq<Change>) returns (r: RowResult)
      requires t in open
      ensures r == ApplyAll(State(), t, Started(State(), t), changes)
    {
      var p := Started(State(), t);
      var i := 0;
      while i < |changes|
        invariant 0 <= i <= |changes|
        invariant ApplyAll(State(), t, Started(State(), t), changes) == ApplyAll(State(), t, p, changes[i..])
      {
        hide Apply, Started;
        assert changes[i..][1..] == changes[i + 1..];
        var next := Apply(State(), t, p, changes[i]);
        if !next.Going? { return next; }
        p := next.p;
        i := i + 1;
      }
      r := Going(p);
    }

    method BeginTransaction(t: TxId, tenant: Id) returns (o: Outcome)
      modifies this
      ensures (State(), o) == Step(old(State()), Begin(t, tenant))
      ensures old(Inv(State())) ==> Inv(State())
    {
      StepKeepsIfInv(State(), Begin(t, tenant));
      if t in open { return Rejected(TransactionState); }
      open := open[t := NewTx(tenant)];
      o := Done;
    }

    /**
     INSERTs and UPDATEs of any number of rows in one statement. The foreign keys are examined
     after all rows, then the constraint triggers fire or are queued.
     */
    method ExecuteStatement(t: TxId, changes: seq<Change>) returns (o: Outcome)
      modifies this
      ensures (State(), o) == Step(old(State()), Statement(t, changes))
      ensures old(Inv(State())) ==> RowInv(State())
      ensures old(Inv(State()) && KeepsChecks(State(), Statement(t, changes))) ==> Inv(State())
    {
      StepKeepsIfInv(State(), Statement(t, changes));
      StepKeepsRows(State(), Statement(t, changes));
      hide Inv, RowInv, KeepsChecks;
      if t !in open { return Rejected(TransactionState); }
      var r := ApplyRows(t, changes);
      hide ApplyAll, Started, Rows, ForeignKeysFail, ForeignKeysWait, Passes, FirstFailure;
      if r.Waiting? { return Blocked; }
      if r.Failing? { o := Raise(t, r.reason); return; }
      var p := r.p;
      var view, all := Rows(works, p.tx), origins + p.tx.origins;
      if ForeignKeysFail(view, all, p) { o := Raise(t, ForeignKey); return; }
      if ForeignKeysWait(State(), t, p) { return Blocked; }
      if p.tx.immediate {
        var failure := FireChecks(view, all, p.fired);
        if failure.Some? { o := Raise(t, ReasonOf(failure.value)); return; }
        open := open[t := p.tx];
      } else {
        open := open[t := p.tx.(queue := p.tx.queue + p.fired)];
      }
      o := Done;
    }

    /** SET CONSTRAINTS ALL: IMMEDIATE fires the queue first. */
    method SetConstraintMode(t: TxId, immediate: bool) returns (o: Outcome)
      modifies this
      ensures (State(), o) == Step(old(State()), SetConstraints(t, immediate))
      ensures old(Inv(State())) ==> Inv(State())
    {
      StepKeepsIfInv(State(), SetConstraints(t, immediate));
      hide Inv;
      if t !in open { return Rejected(TransactionState); }
      if !immediate {
        open := open[t := open[t].(immediate := false)];
        return Done;
      }
      var failure := FireChecks(SeenWorks(State(), t), SeenOrigins(State(), t), open[t].queue);
      if failure.Some? { o := Raise(t, ReasonOf(failure.value)); return; }
      open := open[t := open[t].(queue := [], immediate := true)];
      o := Done;
    }

    /** COMMIT fires the queue, and then stores the rows. */
    method CommitTransaction(t: TxId) returns (o: Outcome)
      modifies this
      ensures (State(), o) == Step(old(State()), Commit(t))
      ensures old(Inv(State())) ==> Inv(State()) && Paired(works, origins)
    {
      StepKeepsIfInv(State(), Commit(t));
      hide Inv;
      if t !in open { return Rejected(TransactionState); }
      var failure := FireChecks(SeenWorks(State(), t), SeenOrigins(State(), t), open[t].queue);
      if failure.Some? { o := Raise(t, ReasonOf(failure.value)); return; }
      works, origins := (works - open[t].moved) + open[t].works, origins + open[t].origins;
      open := open - {t};
      o := Done;
    }

    method AbortTransaction(t: TxId) returns (o: Outcome)
      modifies this
      ensures (State(), o) == Step(old(State()), Abort(t))
      ensures old(Inv(State())) ==> Inv(State())
    {
      StepKeepsIfInv(State(), Abort(t));
      hide Inv;
      if t !in open { return Rejected(TransactionState); }
      open := open - {t};
      o := Done;
    }
  }
}
