/** The learning schema as a mutable store; each statement is proved against LearningModel.Step. */
module LearningStore {
  import opened Basics
  import opened LearningModel
  import opened LearningInvariant

  class AttemptStore {
    var attempts: map<Id, Attempt>
    var items: map<ItemKey, Item>
    var submissions: map<Id, Submission>
    var locks: map<Id, TxId>
    var open: map<TxId, Tx>

    function State(): Db
      reads this
    {
      Db(attempts, items, submissions, locks, open)
    }

    constructor ()
      ensures State() == EMPTY_DB && Inv(State())
    {
      attempts, items, submissions, locks, open := map[], map[], map[], map[], map[];
      new;
      LearningInvariant.RunKeeps(EMPTY_DB, []);
    }

    /** End of a transaction without effect on the tables. */
    method Release(t: TxId)
      modifies this`locks, this`open
      ensures State() == Released(old(State()), t)
    {
      locks := map a | a in locks && locks[a] != t :: locks[a];
      open := open - {t};
    }

    /** RAISE EXCEPTION */
    method Raise(t: TxId, reason: Reason) returns (o: Outcome)
      modifies this`locks, this`open
      ensures (State(), o) == Fail(old(State()), t, reason)
    {
      Release(t);
      o := Rejected(reason);
    }

    method BeginTransaction(t: TxId, tenant: Id) returns (o: Outcome)
      modifies this
      ensures (State(), o) == Step(old(State()), Begin(t, tenant))
      ensures old(Inv(State())) ==> Inv(State())
    {
      StepKeepsIfInv(State(), Begin(t, tenant));
      if t in open { return Rejected(TransactionState); }
      open := open[t := Tx(tenant, map[], map[], map[])];
      o := Done;
    }

    /** SELECT ... FOR UPDATE on one attempt */
    method SelectForUpdate(t: TxId, a: Id) returns (o: Outcome)
      requires t in open
      modifies this`locks
      ensures (State(), o) == DoLockAttempt(old(State()), t, a)
    {
      if !SeesAttempt(State(), t, a) { return NoRow; }
      if LockedByOther(State(), t, a) { return Blocked; }
      locks := locks[a := t];
      o := Done;
    }

    /** The trigger on response items: lock the parent of the row, then test its state. */
    method GuardItem(t: TxId, parent: ItemKey) returns (o: Outcome)
      requires t in open
      modifies this`locks
      ensures o == ItemGuard(old(State()), t, parent)
      ensures o.Done? ==> State() == old(State()).(locks := old(locks)[parent.attempt := t])
      ensures o.Blocked? ==> State() == old(State())
      ensures Released(State(), t) == Released(old(State()), t)
    {
      if !SeesAttempt(State(), t, parent.attempt) || SeenAttempt(State(), t, parent.attempt).tenant != parent.tenant {
        return Rejected(ParentNotFound);
      }
      var selected := SelectForUpdate(t, parent.attempt);
      if selected.Blocked? { return Blocked; }
      if !SeenAttempt(State(), t, parent.attempt).state.InProgress? { return Rejected(ParentNotInProgress); }
      o := Done;
    }

    method LockAttemptRow(t: TxId, a: Id) returns (o: Outcome)
      modifies this
      ensures (State(), o) == Step(old(State()), LockAttempt(t, a))
      ensures old(Inv(State())) ==> Inv(State())
    {
      StepKeepsIfInv(State(), LockAttempt(t, a));
      if t !in open { return Rejected(TransactionState); }
      o := SelectForUpdate(t, a);
    }

    method StoreAttempt(t: TxId, a: Id, r: Attempt) returns (o: Outcome)
      requires t in open && !LockedByOther(State(), t, a)
      modifies this`locks, this`open
      ensures (State(), o) == WriteAttempt(old(State()), t, a, r)
    {
      if r.tenant != open[t].tenant { o := Raise(t, RowSecurity); return; }
      if !AttemptOk(r) { o := Raise(t, CheckViolation); return; }
      if HardClash(State(), t, a, r) { o := Raise(t, UniqueViolation); return; }
      if SoftClash(State(), t, a, r) { return Blocked; }
      locks := locks[a := t];
      open := open[t := open[t].(attempts := open[t].attempts[a := r])];
      o := Done;
    }

    method InsertAttemptRow(t: TxId, a: Id, r: Attempt) returns (o: Outcome)
      modifies this
      ensures (State(), o) == Step(old(State()), InsertAttempt(t, a, r))
      ensures old(Inv(State())) ==> Inv(State())
    {
      StepKeepsIfInv(State(), InsertAttempt(t, a, r));
      if t !in open { return Rejected(TransactionState); }
      if a in attempts || a in open[t].attempts { o := Raise(t, UniqueViolation); return; }
      if AttemptPendingElsewhere(State(), t, a) || LockedByOther(State(), t, a) { return Blocked; }
      o := StoreAttempt(t, a, r);
    }

    method UpdateAttemptRow(t: TxId, a: Id, r: Attempt) returns (o: Outcome)
      modifies this
      ensures (State(), o) == Step(old(State()), UpdateAttempt(t, a, r))
      ensures old(Inv(State())) ==> Inv(State())
    {
      StepKeepsIfInv(State(), UpdateAttempt(t, a, r));
      if t !in open { return Rejected(TransactionState); }
      if !SeesAttempt(State(), t, a) { return NoRow; }
      if LockedByOther(State(), t, a) { return Blocked; }
      if SeenAttempt(State(), t, a).state.Submitted? { o := Raise(t, SubmittedIsTerminal); return; }
      o := StoreAttempt(t, a, r);
    }

    method InsertItemRow(t: TxId, k: ItemKey, i: Item) returns (o: Outcome)
      modifies this
      ensures (State(), o) == Step(old(State()), InsertItem(t, k, i))
      ensures old(Inv(State())) ==> Inv(State())
    {
      hide Inv, ItemOk;
      ghost var db := State();
      StepKeepsIfInv(db, InsertItem(t, k, i));
      if t !in open { return Rejected(TransactionState); }
      var held := ItemHeldByOther(State(), t, k);
      var before := locks;
      var g := GuardItem(t, k);
      if g.Rejected? { o := Raise(t, g.reason); return; }
      if g.Blocked? || held { locks := before; return Blocked; }
      if !ItemOk(k, i) { o := Raise(t, CheckViolation); return; }
      if SeesItem(State(), t, k) { o := Raise(t, UniqueViolation); return; }
      open := open[t := open[t].(items := open[t].items + map[k := Some(i)])];
      o := Done;
    }

    method UpdateItemRow(t: TxId, k: ItemKey, k': ItemKey, i: Item) returns (o: Outcome)
      modifies this
      ensures (State(), o) == Step(old(State()), UpdateItem(t, k, k', i))
      ensures old(Inv(State())) ==> Inv(State())
    {
      ghost var db := State();
      StepKeepsIfInv(db, UpdateItem(t, k, k', i));
      if t !in open { return Rejected(TransactionState); }
      if !SeesItem(State(), t, k) { return NoRow; }
      if ItemHeldByOther(State(), t, k) { return Blocked; }
      var held := ItemHeldByOther(State(), t, k');
      var before := locks;
      var g := GuardItem(t, k');
      if g.Rejected? { o := Raise(t, g.reason); return; }
      if g.Blocked? || held { locks := before; return Blocked; }
      if !ItemOk(k', i) { o := Raise(t, CheckViolation); return; }
      if k' != k && SeesItem(State(), t, k') { o := Raise(t, UniqueViolation); return; }
      open := open[t := open[t].(items := open[t].items + (map[k := None] + map[k' := Some(i)]))];
      o := Done;
    }

    method DeleteItemRow(t: TxId, k: ItemKey) returns (o: Outcome)
      modifies this
      ensures (State(), o) == Step(old(State()), DeleteItem(t, k))
      ensures old(Inv(State())) ==> Inv(State())
    {
      ghost var db := State();
      StepKeepsIfInv(db, DeleteItem(t, k));
      if t !in open { return Rejected(TransactionState); }
      if !SeesItem(State(), t, k) { return NoRow; }
      if ItemHeldByOther(State(), t, k) { return Blocked; }
      var g := GuardItem(t, k);
      if g.Rejected? { o := Raise(t, g.reason); return; }
      if g.Blocked? { return Blocked; }
      open := open[t := open[t].(items := open[t].items + map[k := None])];
      o := Done;
    }

    method InsertSubmissionRow(t: TxId, s: Id, r: Submission) returns (o: Outcome)
      modifies this
      ensures (State(), o) == Step(old(State()), InsertSubmission(t, s, r))
      ensures old(Inv(State())) ==> Inv(State())
    {
      StepKeepsIfInv(State(), InsertSubmission(t, s, r));
      if t !in open { return Rejected(TransactionState); }
      if r.tenant != open[t].tenant { o := Raise(t, RowSecurity); return; }
      if !SubmissionOk(r) { o := Raise(t, CheckViolation); return; }
      if SubmissionHardClash(State(), t, s, r) { o := Raise(t, UniqueViolation); return; }
      if SubmissionSoftClash(State(), t, s, r) { return Blocked; }
      if !SeesAttempt(State(), t, r.attempt) { o := Raise(t, ForeignKey); return; }
      open := open[t := open[t].(submissions := open[t].submissions[s := r])];
      o := Done;
    }

    method CommitTransaction(t: TxId) returns (o: Outcome)
      modifies this
      ensures (State(), o) == Step(old(State()), Commit(t))
      ensures old(Inv(State())) ==> Inv(State())
    {
      StepKeepsIfInv(State(), Commit(t));
      if t !in open { return Rejected(TransactionState); }
      var tx := open[t];
      attempts := attempts + tx.attempts;
      items := ApplyItems(items, tx.items);
      submissions := submissions + tx.submissions;
      Release(t);
      o := Done;
    }

    method AbortTransaction(t: TxId) returns (o: Outcome)
      modifies this
      ensures (State(), o) == Step(old(State()), Abort(t))
      ensures old(Inv(State())) ==> Inv(State())
    {
      StepKeepsIfInv(State(), Abort(t));
      if t !in open { return Rejected(TransactionState); }
      Release(t);
      o := Done;
    }
  }

  lemma StepKeepsIfInv(db: Db, op: Op)
    ensures Inv(db) ==> Inv(Step(db, op).0)
  {
    if Inv(db) { LearningInvariant.StepKeeps(db, op); }
  }
}
