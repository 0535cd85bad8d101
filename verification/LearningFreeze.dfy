/**
 Once the update that submits an attempt is committed, its row, its response items and its
 submission never change: for the rows in every run, for the items exactly when item
 updates do not leave a parent that their transaction has not locked. The trigger on item
 updates tests the new parent only, so the database does not enforce that by itself.
 */
module LearningFreeze {
  import opened Basics
  import opened LearningModel
  import opened LearningInvariant

  ghost predicate IsSubmitted(db: Db, a: Id) { a in db.attempts && db.attempts[a].state.Submitted? }

  ghost predicate SameItem(x: map<ItemKey, Item>, y: map<ItemKey, Item>, k: ItemKey) {
    (k in x <==> k in y) && (k in x ==> x[k] == y[k])
  }

  /** No attempt row disappears, no submitted one changes, and no submission changes. */
  ghost predicate RowsFrozen(db: Db, n: Db) {
    && (forall a :: a in db.attempts ==> a in n.attempts && n.attempts[a].tenant == db.attempts[a].tenant)
    && (forall a :: IsSubmitted(db, a) ==> n.attempts[a] == db.attempts[a])
    && (forall s :: s in db.submissions ==> s in n.submissions && n.submissions[s] == db.submissions[s])
  }

  ghost predicate ItemsFrozen(db: Db, n: Db) {
    forall k: ItemKey :: IsSubmitted(db, k.attempt) ==> SameItem(db.items, n.items, k)
  }

  ghost predicate Frozen(db: Db, n: Db) { RowsFrozen(db, n) && ItemsFrozen(db, n) }

  /** t holds the row lock of attempt a, and no submission of a is committed. */
  predicate Guards(db: Db, t: TxId, a: Id) {
    a in db.locks && db.locks[a] == t && (a in db.attempts ==> db.attempts[a].state.InProgress?)
  }

  /** Every uncommitted item write is to an attempt its transaction guards. */
  ghost predicate Guarded(db: Db) {
    forall t, k :: t in db.open && k in db.open[t].items ==> Guards(db, t, k.attempt)
  }

  /** What a caller of an item update can test first: the item stays under its parent, or the old parent is guarded. */
  predicate KeepsParent(db: Db, op: Op) {
    op.UpdateItem? ==> op.k.attempt == op.newKey.attempt || Guards(db, op.t, op.k.attempt)
  }

  ghost predicate Disciplined(db: Db, ops: seq<Op>)
    decreases |ops|
  {
    ops != [] ==> KeepsParent(db, ops[0]) && Disciplined(Step(db, ops[0]).0, ops[1..])
  }

  // ---- rows ----

  /** Only a commit changes what is committed. */
  lemma OnlyCommitWrites(db: Db, op: Op)
    requires !op.Commit?
    ensures SameTables(db, Step(db, op).0)
  {
    hide DoLockAttempt, DoInsertAttempt, DoUpdateAttempt, DoInsertItem, DoUpdateItem, DoDeleteItem;
    hide DoInsertSubmission, Released;
  }

  lemma CommitFreezesRows(db: Db, t: TxId)
    requires t in db.open && AttemptWritesOk(db.attempts, db.open[t])
    requires SubmissionWritesOk(db.attempts, db.submissions, db.open[t])
    ensures RowsFrozen(db, Committed(db, t))
  {
  }

  lemma StepFreezesRows(db: Db, op: Op)
    requires Inv(db)
    ensures RowsFrozen(db, Step(db, op).0)
  {
    if op.Commit? && op.t in db.open {
      hide Inv, AttemptWritesOk, SubmissionWritesOk, ItemWritesOk;
      TxFacts(db, op.t);
      CommitFreezesRows(db, op.t);
    } else if !op.Commit? {
      hide Step, Inv;
      OnlyCommitWrites(db, op);
    }
  }

  lemma CommitKeepsToTenant(db: Db, t: TxId)
    requires t in db.open && AttemptWritesOk(db.attempts, db.open[t]) && ItemWritesOk(db.attempts, db.open[t])
    ensures TenantOnly(db, Committed(db, t), db.open[t].tenant)
  {
  }

  /** Rows of other tenants neither change nor appear. */
  ghost predicate TenantOnly(db: Db, n: Db, tenant: Id) {
    && (forall a :: a in db.attempts && db.attempts[a].tenant != tenant ==>
      a in n.attempts && n.attempts[a] == db.attempts[a])
    && (forall a :: a in n.attempts && n.attempts[a].tenant != tenant ==> a in db.attempts)
    && (forall k: ItemKey :: k.tenant != tenant ==> SameItem(db.items, n.items, k))
  }

  /** Row security over whole transactions: no statement, commit included, changes what another tenant sees. */
  lemma OtherTenantsUntouched(db: Db, op: Op)
    requires Inv(db) && op.t in db.open
    ensures TenantOnly(db, Step(db, op).0, db.open[op.t].tenant)
  {
    if op.Commit? {
      hide Inv, AttemptWritesOk, SubmissionWritesOk, ItemWritesOk;
      TxFacts(db, op.t);
      CommitKeepsToTenant(db, op.t);
    } else {
      hide Step, Inv;
      OnlyCommitWrites(db, op);
    }
  }

  // ---- items ----

  lemma GuardAccepts(db: Db, t: TxId, k: ItemKey)
    requires Inv(db) && t in db.open && !ItemGuard(db, t, k).Rejected? && !ItemGuard(db, t, k).Blocked?
    ensures !LockedByOther(db, t, k.attempt)
    ensures Guards(db.(locks := db.locks[k.attempt := t]), t, k.attempt)
  {
    hide Inv, ItemWritesOk, SubmissionWritesOk, Clash, AttemptOk;
    TxFacts(db, t);
  }

  lemma PutItemsGuarded(db: Db, t: TxId, a: Id, w: map<ItemKey, Option<Item>>)
    requires Guarded(db) && t in db.open && !LockedByOther(db, t, a)
    requires forall k :: k in w ==> Guards(db.(locks := db.locks[a := t]), t, k.attempt)
    ensures Guarded(PutItems(db, t, a, w))
  {
  }

  lemma CommitGuarded(db: Db, t: TxId)
    requires Inv(db) && Guarded(db) && t in db.open
    ensures Guarded(Committed(db, t)) && ItemsFrozen(db, Committed(db, t))
  {
    hide Inv, AttemptWritesOk, ItemWritesOk, SubmissionWritesOk;
    TxFacts(db, t);
    var n := Committed(db, t);
    forall u, k | u in n.open && k in n.open[u].items ensures Guards(n, u, k.attempt) {
      assert Guards(db, u, k.attempt);
    }
    forall k: ItemKey | IsSubmitted(db, k.attempt) ensures SameItem(db.items, n.items, k) {
      assert k in db.open[t].items ==> Guards(db, t, k.attempt);
    }
  }

  lemma QuietKeepsGuarded(db: Db, n: Db)
    requires Guarded(db) && Quiet(db, n)
    ensures Guarded(n)
  {
    forall u, k | u in n.open && k in n.open[u].items ensures Guards(n, u, k.attempt) {
      assert Guards(db, u, k.attempt);
    }
  }

  lemma QuietSteps(db: Db, op: Op)
    requires !op.Begin? && !op.Commit? && !op.InsertItem? && !op.UpdateItem? && !op.DeleteItem?
    ensures Quiet(db, Step(db, op).0)
  {
    hide DoLockAttempt, DoInsertAttempt, DoUpdateAttempt, DoInsertSubmission, Released;
  }

  lemma BeginKeepsGuarded(db: Db, op: Op)
    requires Guarded(db) && op.Begin?
    ensures Guarded(Step(db, op).0)
  {
    forall t, k | t in db.open && k in db.open[t].items ensures Guards(Step(db, op).0, t, k.attempt) {
      assert Guards(db, t, k.attempt);
    }
  }

  lemma ItemStepGuarded(db: Db, op: Op)
    requires Inv(db) && Guarded(db) && KeepsParent(db, op)
    requires op.InsertItem? || op.UpdateItem? || op.DeleteItem?
    requires op.t in db.open
    ensures Guarded(Step(db, op).0)
  {
    hide Inv, Guarded, ItemHeldByOther, ItemOk, ItemGuard, SeesItem;
    if Step(db, op).1.Done? {
      match op
      case InsertItem(t, k, i) =>
        GuardAccepts(db, t, k);
        PutItemsGuarded(db, t, k.attempt, map[k := Some(i)]);
      case UpdateItem(t, k, k', i) =>
        GuardAccepts(db, t, k');
        PutItemsGuarded(db, t, k'.attempt, map[k := None] + map[k' := Some(i)]);
      case DeleteItem(t, k) =>
        GuardAccepts(db, t, k);
        PutItemsGuarded(db, t, k.attempt, map[k := None]);
    } else if Step(db, op).1.Rejected? {
      QuietKeepsGuarded(db, Released(db, op.t));
    }
  }

  lemma StepFreezesItems(db: Db, op: Op)
    requires Inv(db) && Guarded(db) && KeepsParent(db, op)
    ensures Guarded(Step(db, op).0) && ItemsFrozen(db, Step(db, op).0)
  {
    if op.Commit? {
      hide Inv, Guarded, ItemsFrozen;
      if op.t in db.open { CommitGuarded(db, op.t); } else { FrozenReflexive(db); }
    } else {
      hide Step, Inv, Guarded, Quiet;
      OnlyCommitWrites(db, op);
      if op.t in db.open && (op.InsertItem? || op.UpdateItem? || op.DeleteItem?) {
        ItemStepGuarded(db, op);
      } else {
        if op.InsertItem? || op.UpdateItem? || op.DeleteItem? {
          ClosedStep(db, op);
        } else if op.Begin? {
          BeginKeepsGuarded(db, op);
        } else {
          QuietSteps(db, op);
          QuietKeepsGuarded(db, Step(db, op).0);
        }
      }
    }
  }

  lemma ClosedStep(db: Db, op: Op)
    requires op.t !in db.open && !op.Begin?
    ensures Step(db, op).0 == db
  {
  }

  lemma FrozenTransitive(x: Db, y: Db, z: Db)
    requires Frozen(x, y) && Frozen(y, z)
    ensures Frozen(x, z)
  {
    forall k: ItemKey | IsSubmitted(x, k.attempt) ensures SameItem(x.items, z.items, k) {
      assert IsSubmitted(y, k.attempt) && SameItem(x.items, y.items, k) && SameItem(y.items, z.items, k);
    }
    forall a | IsSubmitted(x, a) ensures z.attempts[a] == x.attempts[a] { assert IsSubmitted(y, a); }
  }

  lemma {:induction false} RunFreezes(db: Db, ops: seq<Op>)
    requires Inv(db) && Guarded(db) && Disciplined(db, ops)
    ensures Frozen(db, Run(db, ops)) && Guarded(Run(db, ops)) && Inv(Run(db, ops))
    decreases |ops|
  {
    hide Inv, Guarded, Frozen, Step;
    if ops == [] {
      FrozenReflexive(db);
    } else {
      var n := Step(db, ops[0]).0;
      StepKeeps(db, ops[0]);
      StepFrozen(db, ops[0]);
      RunFreezes(n, ops[1..]);
      FrozenTransitive(db, n, Run(n, ops[1..]));
    }
  }

  lemma FrozenReflexive(db: Db)
    ensures Frozen(db, db)
  {
  }

  lemma StepFrozen(db: Db, op: Op)
    requires Inv(db) && Guarded(db) && KeepsParent(db, op)
    ensures Guarded(Step(db, op).0) && Frozen(db, Step(db, op).0)
  {
    hide Step, Inv, Guarded, RowsFrozen, ItemsFrozen;
    StepFreezesRows(db, op);
    StepFreezesItems(db, op);
  }

  lemma {:induction false} RunSplits(db: Db, pre: seq<Op>, post: seq<Op>)
    ensures Run(db, pre + post) == Run(Run(db, pre), post)
    ensures Disciplined(db, pre + post) <==> Disciplined(db, pre) && Disciplined(Run(db, pre), post)
    decreases |pre|
  {
    hide Step, KeepsParent;
    if pre == [] {
      assert pre + post == post;
    } else {
      assert (pre + post)[1..] == pre[1..] + post;
      RunSplits(Step(db, pre[0]).0, pre[1..], post);
    }
  }

  /** Safety over whole runs: what is submitted after pre is the same after any continuation. */
  lemma SubmittedForever(pre: seq<Op>, post: seq<Op>)
    requires Disciplined(EMPTY_DB, pre + post)
    ensures Frozen(Run(EMPTY_DB, pre), Run(EMPTY_DB, pre + post))
  {
    RunSplits(EMPTY_DB, pre, post);
    RunFreezes(EMPTY_DB, pre);
    RunFreezes(Run(EMPTY_DB, pre), post);
  }

  /** Attempt rows and submissions need no discipline. */
  lemma {:induction false} RowsForever(db: Db, ops: seq<Op>)
    requires Inv(db)
    ensures RowsFrozen(db, Run(db, ops))
    decreases |ops|
  {
    hide Step, Inv;
    if ops != [] {
      var n := Step(db, ops[0]).0;
      StepKeeps(db, ops[0]);
      StepFreezesRows(db, ops[0]);
      RowsForever(n, ops[1..]);
      forall a | IsSubmitted(db, a) ensures Run(n, ops[1..]).attempts[a] == db.attempts[a] {
        assert IsSubmitted(n, a);
      }
    }
  }

  // ---- the condition is exact ----

  lemma {:induction false} FreshId(s: set<TxId>) returns (v: TxId)
    ensures forall u :: u in s ==> u < v
  {
    if s == {} {
      v := 0;
    } else {
      var u :| u in s;
      var w := FreshId(s - {u});
      v := if u < w then w else u + 1;
      forall x | x in s ensures x < v { assert x == u || x in s - {u}; }
    }
  }

  /** Turning an unlocked open attempt into a submitted one clashes with nothing. */
  lemma SubmitHasNoClash(db: Db, v: TxId, a: Id, r: Attempt)
    requires Inv(db) && v in db.open && db.open[v].attempts == map[]
    requires a in db.attempts && a !in db.locks && r.state.Submitted?
    requires SameSequence(r, db.attempts[a])
    ensures !HardClash(db, v, a, r) && !SoftClash(db, v, a, r)
  {
    hide ItemWritesOk, SubmissionWritesOk, Independent, ItemsOk, SubmissionsOk;
    forall u, b | u in db.open && b in db.open[u].attempts && b != a ensures !Undecided(db, u, b, r) {
      TxFacts(db, u);
      assert a !in db.open[u].attempts;
      assert !Clash(db.open[u].attempts[b], db.attempts[a]);
    }
  }

  function AsSubmitted(r: Attempt): Attempt {
    r.(state := Submitted, submittedAt := Some(r.startedAt), submission := Some(0))
  }

  lemma SubmitIsAccepted(db: Db, v: TxId, a: Id)
    requires Inv(db) && v in db.open && db.open[v].attempts == map[]
    requires a in db.attempts && a !in db.locks && db.attempts[a].state.InProgress?
    requires db.attempts[a].tenant == db.open[v].tenant
    ensures var r := AsSubmitted(db.attempts[a]); DoUpdateAttempt(db, v, a, r).0 == PutAttempt(db, v, a, r)
  {
    hide Inv, HardClash, SoftClash;
    var r := AsSubmitted(db.attempts[a]);
    SubmitHasNoClash(db, v, a, r);
    assert AttemptOk(r) by { CommittedAttemptOk(db, a); }
  }

  lemma CommittedAttemptOk(db: Db, a: Id)
    requires Inv(db) && a in db.attempts
    ensures AttemptOk(db.attempts[a])
  {
  }

  /** While t waits, another transaction can submit an attempt that nobody has locked. */
  lemma OthersSubmit(db: Db, a: Id) returns (ops: seq<Op>)
    requires Inv(db) && a in db.attempts && a !in db.locks && db.attempts[a].state.InProgress?
    ensures Disciplined(db, ops)
    ensures var n := Run(db, ops);
      IsSubmitted(n, a) && n.items == db.items && forall u :: u in db.open ==> u in n.open && n.open[u] == db.open[u]
  {
    hide Inv, Step, Run, Disciplined, PutAttempt, Committed;
    var v := FreshId(db.open.Keys);
    var r := AsSubmitted(db.attempts[a]);
    var s1, s2, s3 := Begin(v, r.tenant), UpdateAttempt(v, a, r), Commit(v);
    ops := [s1, s2, s3];
    ThreeSteps(db, s1, s2, s3);
    StepKeeps(db, s1);
    BeginStep(db, v, r.tenant);
    var d1 := Step(db, s1).0;
    SubmitStep(d1, v, a);
    CommitOneAttempt(d1, v, a, r);
  }

  lemma BeginStep(db: Db, v: TxId, tenant: Id)
    requires v !in db.open
    ensures Step(db, Begin(v, tenant)).0 == db.(open := db.open[v := Tx(tenant, map[], map[], map[])])
  {
  }

  lemma SubmitStep(db: Db, v: TxId, a: Id)
    requires Inv(db) && v in db.open && db.open[v].attempts == map[]
    requires a in db.attempts && a !in db.locks && db.attempts[a].state.InProgress?
    requires db.attempts[a].tenant == db.open[v].tenant
    ensures var r := AsSubmitted(db.attempts[a]); Step(db, UpdateAttempt(v, a, r)).0 == PutAttempt(db, v, a, r)
  {
    hide Inv, DoUpdateAttempt, PutAttempt;
    SubmitIsAccepted(db, v, a);
  }

  lemma CommitOneAttempt(db: Db, v: TxId, a: Id, r: Attempt)
    requires v in db.open && db.open[v].attempts == map[] && db.open[v].items == map[]
    ensures var n := Step(PutAttempt(db, v, a, r), Commit(v)).0;
      && a in n.attempts && n.attempts[a] == r && n.items == db.items
      && n.open == db.open - {v}
  {
  }

  lemma ThreeSteps(db: Db, x: Op, y: Op, z: Op)
    ensures Run(db, [x, y, z]) == Step(Step(Step(db, x).0, y).0, z).0
    ensures !x.UpdateItem? && !y.UpdateItem? && !z.UpdateItem? ==> Disciplined(db, [x, y, z])
  {
    hide Step;
    var d1 := Step(db, x).0;
    var d2 := Step(d1, y).0;
    assert [x, y, z][1..] == [y, z] && [y, z][1..] == [z] && [z][1..] == [];
    assert Run(d2, [z]) == Step(d2, z).0;
    assert Run(d1, [y, z]) == Run(d2, [z]);
    assert Disciplined(d2, [z]) <==> KeepsParent(d2, z);
    assert Disciplined(d1, [y, z]) <==> KeepsParent(d1, y) && Disciplined(d2, [z]);
  }

  /** The write sets of the others survive the abort of u. */
  lemma AbortRun(db: Db, u: TxId)
    ensures Run(db, [Abort(u)]) == Step(db, Abort(u)).0 && Disciplined(db, [Abort(u)])
  {
    hide Step;
    assert [Abort(u)][1..] == [];
  }

  /** An attempt that t has not locked can be submitted by others before t goes on. */
  lemma OthersCanSubmit(db: Db, t: TxId, a: Id) returns (ops: seq<Op>)
    requires Inv(db) && t in db.open && a in db.attempts && db.attempts[a].state.InProgress?
    requires !(a in db.locks && db.locks[a] == t)
    ensures Disciplined(db, ops)
    ensures var n := Run(db, ops); IsSubmitted(n, a) && n.items == db.items && t in n.open && n.open[t] == db.open[t]
  {
    hide Inv, Run, Disciplined;
    if a in db.locks {
      var u := db.locks[a];
      LockHolderOpen(db, a);
      var d := Step(db, Abort(u)).0;
      AbortRun(db, u);
      ReleasedKeeps(db, u);
      var post := OthersSubmit(d, a);
      ops := [Abort(u)] + post;
      RunSplits(db, [Abort(u)], post);
    } else {
      ops := OthersSubmit(db, a);
    }
  }

  lemma LockHolderOpen(db: Db, a: Id)
    requires Inv(db) && a in db.locks
    ensures db.locks[a] in db.open
  {
  }

  /** An accepted item update, in a state where item writes are guarded. */
  ghost predicate AcceptedMove(db: Db, op: Op) {
    Inv(db) && Guarded(db) && op.UpdateItem? && Step(db, op).1.Done?
  }

  /** After an accepted undisciplined move the item's committed row is about to leave its committed parent. */
  lemma MoveLeaves(db: Db, op: Op)
    requires AcceptedMove(db, op) && !KeepsParent(db, op)
    ensures op.t in db.open && op.k in db.items && op.k.attempt in db.attempts
    ensures var n := Step(db, op).0;
      && Inv(n) && SameTables(db, n) && op.t in n.open
      && op.k in n.open[op.t].items && n.open[op.t].items[op.k] == None
      && (forall a :: a != op.newKey.attempt ==>
        (a in n.locks <==> a in db.locks) && (a in n.locks ==> n.locks[a] == db.locks[a]))
  {
    hide Inv, ItemGuard, ItemHeldByOther, ItemOk;
    StepKeeps(db, op);
    UnguardedIsUnwritten(db, op.t, op.k);
    CommittedItemHasParent(db, op.k);
  }

  lemma UnguardedIsUnwritten(db: Db, t: TxId, k: ItemKey)
    requires Guarded(db) && t in db.open && !Guards(db, t, k.attempt)
    ensures k !in db.open[t].items
  {
  }

  lemma CommittedItemHasParent(db: Db, k: ItemKey)
    requires Inv(db) && k in db.items
    ensures k.attempt in db.attempts
  {
  }

  /** The commit of a transaction that removes k from a submitted attempt breaks the freeze. */
  lemma RemovalThaws(db: Db, t: TxId, k: ItemKey)
    requires t in db.open && k in db.open[t].items && db.open[t].items[k] == None
    requires k in db.items && IsSubmitted(db, k.attempt)
    ensures !Frozen(db, Step(db, Commit(t)).0)
  {
    assert !SameItem(db.items, Step(db, Commit(t)).0.items, k);
  }

  /** A disciplined continuation and one more commit that break the freeze after an undisciplined move. */
  lemma UndisciplinedMoveThaws(db: Db, op: Op) returns (ops: seq<Op>)
    requires AcceptedMove(db, op) && !KeepsParent(db, op)
    ensures var n := Step(db, op).0;
      Disciplined(n, ops) && !Frozen(Run(n, ops), Step(Run(n, ops), Commit(op.t)).0)
  {
    hide Inv, Frozen, Step, AcceptedMove;
    MoveLeaves(db, op);
    var n := Step(db, op).0;
    var t, a := op.t, op.k.attempt;
    if IsSubmitted(n, a) {
      ops := [];
    } else {
      ops := OthersCanSubmit(n, t, a);
    }
    RemovalThaws(Run(n, ops), t, op.k);
  }

  /**
   The exact condition. For an accepted item update in any state with the invariant: every
   later step of every disciplined run leaves all submitted attempts as they are, if and
   only if the update kept the item's parent or its transaction guarded the old parent.
   */
  lemma MoveIsSafeExactlyIfParentGuarded(db: Db, op: Op)
    requires AcceptedMove(db, op)
    ensures KeepsParent(db, op) <==>
      (forall ops: seq<Op>, last: Op :: Disciplined(Step(db, op).0, ops + [last]) ==>
        Frozen(Run(Step(db, op).0, ops), Run(Step(db, op).0, ops + [last])))
  {
    hide Inv, Guarded, Frozen, Step, KeepsParent, Run, Disciplined;
    var n := Step(db, op).0;
    if KeepsParent(db, op) {
      StepKeeps(db, op);
      StepFrozen(db, op);
      forall ops: seq<Op>, last: Op | Disciplined(n, ops + [last])
        ensures Frozen(Run(n, ops), Run(n, ops + [last]))
      {
        RunSplits(n, ops, [last]);
        RunFreezes(n, ops);
        RunFreezes(Run(n, ops), [last]);
      }
    } else {
      var ops := UndisciplinedMoveThaws(db, op);
      var last := Commit(op.t);
      RunSplits(n, ops, [last]);
      OneStep(Run(n, ops), last);
      assert !Frozen(Run(n, ops), Run(n, ops + [last]));
    }
  }

  lemma OneStep(db: Db, op: Op)
    ensures Run(db, [op]) == Step(db, op).0
    ensures op.Commit? ==> Disciplined(db, [op])
  {
    hide Step;
    assert [op][1..] == [];
  }

  // ---- a run in which the database accepts the change ----

  const ROW_A := Attempt(1, 7, 70, 5, 5, "5A", 1, InProgress, 0, None, None, None, 0, 0, 0)
  const ROW_B := Attempt(1, 7, 71, 5, 5, "5A", 1, InProgress, 0, None, None, None, 0, 0, 0)
  const ANSWER := Item(TrueFalse, None, None, Some(true), 0, 0)
  const KEY_A := ItemKey(1, 10, "q")
  const KEY_B := ItemKey(1, 11, "q")

  const START: seq<Op> := [Begin(0, 1), InsertAttempt(0, 10, ROW_A), InsertAttempt(0, 11, ROW_B)]
  const SUBMIT: seq<Op> := [InsertItem(0, KEY_A, ANSWER), UpdateAttempt(0, 10, AsSubmitted(ROW_A)), Commit(0)]
  const MOVE: seq<Op> := [Begin(1, 1), UpdateItem(1, KEY_A, KEY_B, ANSWER), Commit(1)]

  const DB_STARTED := Db(map[], map[], map[], map[10 := 0, 11 := 0],
                         map[0 := Tx(1, map[10 := ROW_A, 11 := ROW_B], map[], map[])])
  const DB_SUBMITTED := Db(map[10 := AsSubmitted(ROW_A), 11 := ROW_B], map[KEY_A := ANSWER], map[], map[], map[])

  lemma TextsOk()
    ensures ClassRefOk("5A") && !BtrimEmpty("q")
  {
    assert "5A"[0] != ' ' && "q"[0] != ' ';
  }

  const DB_EMPTY_TX := Db(map[], map[], map[], map[], map[0 := Tx(1, map[], map[], map[])])
  const DB_ONE := Db(map[], map[], map[], map[10 := 0], map[0 := Tx(1, map[10 := ROW_A], map[], map[])])
  const DB_ANSWERED := Db(map[], map[], map[], map[10 := 0, 11 := 0],
                          map[0 := Tx(1, map[10 := ROW_A, 11 := ROW_B], map[KEY_A := Some(ANSWER)], map[])])
  const DB_SUBMITTING := Db(map[], map[], map[], map[10 := 0, 11 := 0],
                            map[0 := Tx(1, map[10 := AsSubmitted(ROW_A), 11 := ROW_B],
                                    map[KEY_A := Some(ANSWER)], map[])])

  /** A write by transaction 0, the only one that is open. */
  lemma WriteAlone(db: Db, a: Id, r: Attempt)
    requires db.open.Keys == {0} && db.attempts == map[]
    requires db.open[0].tenant == r.tenant && AttemptOk(r)
    requires forall b :: b in db.open[0].attempts && b != a ==> !Clash(db.open[0].attempts[b], r)
    ensures !LockedByOther(db, 0, a) ==> WriteAttempt(db, 0, a, r) == (PutAttempt(db, 0, a, r), Done)
    ensures !AttemptPendingElsewhere(db, 0, a)
  {
    hide AttemptOk;
  }

  lemma InsertSteps()
    ensures Step(DB_EMPTY_TX, InsertAttempt(0, 10, ROW_A)).0 == DB_ONE
    ensures Step(DB_ONE, InsertAttempt(0, 11, ROW_B)).0 == DB_STARTED
  {
    TextsOk();
    WriteAlone(DB_EMPTY_TX, 10, ROW_A);
    WriteAlone(DB_ONE, 11, ROW_B);
    hide WriteAttempt, AttemptPendingElsewhere;
    assert DB_EMPTY_TX.open[0 := DB_ONE.open[0]] == DB_ONE.open;
    assert DB_ONE.open[0 := DB_STARTED.open[0]] == DB_STARTED.open;
    assert map[10 := ROW_A][11 := ROW_B] == map[10 := ROW_A, 11 := ROW_B];
    assert map[10 := 0][11 := 0] == map[10 := 0, 11 := 0];
  }

  lemma Started()
    ensures Run(EMPTY_DB, START) == DB_STARTED
  {
    BeginStep(EMPTY_DB, 0, 1);
    InsertSteps();
    hide Step, Run;
    ThreeSteps(EMPTY_DB, START[0], START[1], START[2]);
    assert START == [START[0], START[1], START[2]];
  }

  lemma AnswerStep()
    ensures Step(DB_STARTED, InsertItem(0, KEY_A, ANSWER)).0 == DB_ANSWERED
  {
    TextsOk();
    assert ItemGuard(DB_STARTED, 0, KEY_A) == Done;
    assert DB_STARTED.locks[10 := 0] == DB_ANSWERED.locks;
    assert map[] + map[KEY_A := Some(ANSWER)] == DB_ANSWERED.open[0].items;
    assert DB_STARTED.open[0 := DB_ANSWERED.open[0]] == DB_ANSWERED.open;
  }

  lemma SubmittingStep()
    ensures Step(DB_ANSWERED, UpdateAttempt(0, 10, AsSubmitted(ROW_A))).0 == DB_SUBMITTING
  {
    TextsOk();
    WriteAlone(DB_ANSWERED, 10, AsSubmitted(ROW_A));
    hide WriteAttempt;
    assert DB_ANSWERED.locks[10 := 0] == DB_SUBMITTING.locks;
    assert DB_ANSWERED.open[0].attempts[10 := AsSubmitted(ROW_A)] == DB_SUBMITTING.open[0].attempts;
    assert DB_ANSWERED.open[0 := DB_SUBMITTING.open[0]] == DB_SUBMITTING.open;
  }

  lemma CommitStep()
    ensures Step(DB_SUBMITTING, Commit(0)).0 == DB_SUBMITTED
  {
  }

  lemma SubmitSteps()
    ensures Run(DB_STARTED, SUBMIT) == DB_SUBMITTED
  {
    hide Step, Run;
    AnswerStep();
    SubmittingStep();
    CommitStep();
    ThreeSteps(DB_STARTED, SUBMIT[0], SUBMIT[1], SUBMIT[2]);
    assert SUBMIT == [SUBMIT[0], SUBMIT[1], SUBMIT[2]];
  }

  const DB_MOVING := DB_SUBMITTED.(open := map[1 := Tx(1, map[], map[], map[])])

  lemma AcceptedMoveStep()
    ensures Step(DB_MOVING, UpdateItem(1, KEY_A, KEY_B, ANSWER))
      == (PutItems(DB_MOVING, 1, 11, map[KEY_A := None] + map[KEY_B := Some(ANSWER)]), Done)
  {
    TextsOk();
    assert ItemGuard(DB_MOVING, 1, KEY_B) == Done;
    hide PutItems, ItemGuard;
  }

  lemma MovedAway()
    ensures KEY_A !in Step(PutItems(DB_MOVING, 1, 11, map[KEY_A := None] + map[KEY_B := Some(ANSWER)]),
      Commit(1)).0.items
  {
  }

  lemma MoveSteps()
    ensures KEY_A !in Run(DB_SUBMITTED, MOVE).items
  {
    BeginStep(DB_SUBMITTED, 1, 1);
    assert DB_SUBMITTED.open[1 := Tx(1, map[], map[], map[])] == DB_MOVING.open;
    AcceptedMoveStep();
    MovedAway();
    hide Run, Step, PutItems;
    ThreeSteps(DB_SUBMITTED, MOVE[0], MOVE[1], MOVE[2]);
    assert MOVE == [MOVE[0], MOVE[1], MOVE[2]];
  }

  /** Not every run freezes: from the empty database, the answer of a submitted attempt moves to another attempt. */
  lemma ItemLeavesSubmittedAttempt()
    ensures !Frozen(Run(EMPTY_DB, START + SUBMIT), Run(EMPTY_DB, START + SUBMIT + MOVE))
  {
    hide Step, Run;
    Started();
    SubmitSteps();
    MoveSteps();
    RunSplits(EMPTY_DB, START, SUBMIT);
    RunSplits(EMPTY_DB, START + SUBMIT, MOVE);
    assert IsSubmitted(DB_SUBMITTED, KEY_A.attempt);
    assert !SameItem(DB_SUBMITTED.items, Run(DB_SUBMITTED, MOVE).items, KEY_A);
  }
}
