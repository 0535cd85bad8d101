/** What every interleaving keeps: table constraints, write sets and locks. */
module LearningInvariant {
  import opened Basics
  import opened LearningModel

  // ---- committed tables ----

  ghost predicate NoClashes(m: map<Id, Attempt>) {
    forall a, b :: a in m && b in m && a != b ==> !Clash(m[a], m[b])
  }

  ghost predicate AttemptsOk(m: map<Id, Attempt>) {
    NoClashes(m) && forall a :: a in m ==> AttemptOk(m[a])
  }

  ghost predicate HasParent(attempts: map<Id, Attempt>, attempt: Id, tenant: Id) {
    attempt in attempts && attempts[attempt].tenant == tenant
  }

  ghost predicate ItemsOk(attempts: map<Id, Attempt>, items: map<ItemKey, Item>) {
    forall k :: k in items ==> ItemOk(k, items[k]) && HasParent(attempts, k.attempt, k.tenant)
  }

  ghost predicate OnePerAttempt(m: map<Id, Submission>) {
    forall s, u :: s in m && u in m && s != u ==> !SameAttempt(m[s], m[u])
  }

  ghost predicate SubmissionsOk(attempts: map<Id, Attempt>, m: map<Id, Submission>) {
    && OnePerAttempt(m)
    && forall s :: s in m ==> SubmissionOk(m[s]) && HasParent(attempts, m[s].attempt, m[s].tenant)
  }

  // ---- write sets of open transactions ----

  ghost predicate HoldsLocks(locks: map<Id, TxId>, t: TxId, tx: Tx) {
    forall a :: a in tx.attempts ==> a in locks && locks[a] == t
  }

  /** Uncommitted versions replace only open attempts of the same tenant, and would clash with no row after a commit. */
  ghost predicate AttemptWritesOk(attempts: map<Id, Attempt>, tx: Tx) {
    && (forall a :: a in tx.attempts ==>
          && AttemptOk(tx.attempts[a]) && tx.attempts[a].tenant == tx.tenant
          && (a in attempts ==> attempts[a].state.InProgress? && attempts[a].tenant == tx.tenant))
    && NoClashes(tx.attempts)
    && (forall a, b :: a in tx.attempts && b in attempts && b !in tx.attempts ==> !Clash(tx.attempts[a], attempts[b]))
  }

  ghost predicate Sees(attempts: map<Id, Attempt>, tx: Tx, a: Id) {
    if a in tx.attempts then tx.attempts[a].tenant == tx.tenant else HasParent(attempts, a, tx.tenant)
  }

  ghost predicate ItemWritesOk(attempts: map<Id, Attempt>, tx: Tx) {
    forall k :: k in tx.items ==>
      && k.tenant == tx.tenant
      && (tx.items[k].Some? ==> ItemOk(k, tx.items[k].value) && Sees(attempts, tx, k.attempt))
  }

  ghost predicate SubmissionWritesOk(attempts: map<Id, Attempt>, submissions: map<Id, Submission>, tx: Tx) {
    var w := tx.submissions;
    && OnePerAttempt(w)
    && (forall s :: s in w ==>
          && s !in submissions
          && SubmissionOk(w[s]) && w[s].tenant == tx.tenant && Sees(attempts, tx, w[s].attempt))
    && (forall s, u :: s in w && u in submissions ==> !SameAttempt(w[s], submissions[u]))
  }

  /** Two open transactions never prepare writes that exclude each other. */
  ghost predicate Independent(x: Tx, y: Tx) {
    && (forall k :: k in x.items ==> k !in y.items)
    && (forall a, b :: a in x.attempts && b in y.attempts ==> a != b && !Clash(x.attempts[a], y.attempts[b]))
    && (forall s, u :: s in x.submissions && u in y.submissions ==>
          s != u && !SameAttempt(x.submissions[s], y.submissions[u]))
  }

  ghost predicate TxOk(db: Db, t: TxId, tx: Tx) {
    && HoldsLocks(db.locks, t, tx)
    && AttemptWritesOk(db.attempts, tx)
    && ItemWritesOk(db.attempts, tx)
    && SubmissionWritesOk(db.attempts, db.submissions, tx)
  }

  ghost predicate TablesOk(db: Db) {
    AttemptsOk(db.attempts) && ItemsOk(db.attempts, db.items) && SubmissionsOk(db.attempts, db.submissions)
  }

  ghost predicate LocksOk(db: Db) { forall a :: a in db.locks ==> db.locks[a] in db.open }

  ghost predicate AllTxOk(db: Db) { forall t :: t in db.open ==> TxOk(db, t, db.open[t]) }

  ghost predicate AllIndependent(open: map<TxId, Tx>) {
    forall t, u :: t in open && u in open && t != u ==> Independent(open[t], open[u])
  }

  ghost predicate Inv(db: Db) {
    TablesOk(db) && LocksOk(db) && AllTxOk(db) && AllIndependent(db.open)
  }

  // ---- write-set lemmas ----

  lemma ClashSymmetric(x: Attempt, y: Attempt)
    ensures Clash(x, y) == Clash(y, x)
  {
  }

  lemma OneMoreAttempt(attempts: map<Id, Attempt>, x: Tx, a: Id, r: Attempt)
    requires AttemptWritesOk(attempts, x) && r.tenant == x.tenant && AttemptOk(r)
    requires a in attempts ==> attempts[a].state.InProgress? && attempts[a].tenant == r.tenant
    requires forall b :: b in x.attempts && b != a ==> !Clash(x.attempts[b], r) && !Clash(r, x.attempts[b])
    requires forall b :: b in attempts && b != a && b !in x.attempts ==> !Clash(r, attempts[b])
    ensures AttemptWritesOk(attempts, x.(attempts := x.attempts[a := r]))
  {
    hide AttemptOk, Clash;
  }

  lemma PutAttemptWritesOk(db: Db, t: TxId, a: Id, r: Attempt)
    requires t in db.open && AttemptWritesOk(db.attempts, db.open[t])
    requires r.tenant == db.open[t].tenant && AttemptOk(r)
    requires a in db.attempts ==> db.attempts[a].state.InProgress? && db.attempts[a].tenant == r.tenant
    requires !HardClash(db, t, a, r) && !SoftClash(db, t, a, r)
    ensures AttemptWritesOk(db.attempts, PutAttempt(db, t, a, r).open[t])
  {
    var x := db.open[t];
    hide AttemptOk, AttemptWritesOk, Clash;
    forall b | b in x.attempts && b != a ensures !Clash(x.attempts[b], r) && !Clash(r, x.attempts[b]) {
      ClashSymmetric(x.attempts[b], r);
    }
    forall b | b in db.attempts && b != a && b !in x.attempts ensures !Clash(r, db.attempts[b]) {
      if AttemptPendingElsewhere(db, t, b) {
        var u :| u in db.open && u != t && b in db.open[u].attempts;
        assert !Undecided(db, u, b, r);
      }
      ClashSymmetric(db.attempts[b], r);
    }
    OneMoreAttempt(db.attempts, x, a, r);
  }

  lemma PutAttemptIndependent(db: Db, t: TxId, a: Id, r: Attempt, u: TxId)
    requires t in db.open && u in db.open && u != t && Independent(db.open[t], db.open[u])
    requires !SoftClash(db, t, a, r) && a !in db.open[u].attempts
    ensures Independent(PutAttempt(db, t, a, r).open[t], db.open[u])
  {
    forall b | b in db.open[u].attempts ensures !Clash(r, db.open[u].attempts[b]) {
      assert !Undecided(db, u, b, r);
    }
  }

  lemma PutAttemptOthersOk(attempts: map<Id, Attempt>, submissions: map<Id, Submission>, tx: Tx, a: Id, r: Attempt)
    requires r.tenant == tx.tenant
    requires ItemWritesOk(attempts, tx) && SubmissionWritesOk(attempts, submissions, tx)
    ensures ItemWritesOk(attempts, tx.(attempts := tx.attempts[a := r]))
    ensures SubmissionWritesOk(attempts, submissions, tx.(attempts := tx.attempts[a := r]))
  {
  }

  lemma SeesMeans(db: Db, t: TxId, a: Id)
    requires t in db.open
    ensures SeesAttempt(db, t, a) <==> Sees(db.attempts, db.open[t], a)
  {
  }

  lemma PutItemsOk(attempts: map<Id, Attempt>, submissions: map<Id, Submission>, tx: Tx, w: map<ItemKey, Option<Item>>)
    requires AttemptWritesOk(attempts, tx) && ItemWritesOk(attempts, tx)
      && SubmissionWritesOk(attempts, submissions, tx)
    requires forall k :: k in w ==>
      && k.tenant == tx.tenant
      && (w[k].Some? ==> ItemOk(k, w[k].value) && Sees(attempts, tx, k.attempt))
    ensures AttemptWritesOk(attempts, tx.(items := tx.items + w))
    ensures ItemWritesOk(attempts, tx.(items := tx.items + w))
    ensures SubmissionWritesOk(attempts, submissions, tx.(items := tx.items + w))
  {
  }

  lemma PutSubmissionOthersOk(attempts: map<Id, Attempt>, tx: Tx, w: map<Id, Submission>)
    requires AttemptWritesOk(attempts, tx) && ItemWritesOk(attempts, tx)
    ensures AttemptWritesOk(attempts, tx.(submissions := w)) && ItemWritesOk(attempts, tx.(submissions := w))
  {
  }

  lemma OneMoreSubmission(w: map<Id, Submission>, s: Id, r: Submission)
    requires OnePerAttempt(w) && forall b :: b in w ==> !SameAttempt(w[b], r)
    ensures OnePerAttempt(w[s := r])
  {
  }

  /** What a transaction sees of attempts does not depend on its submissions. */
  lemma SeesRegardless(attempts: map<Id, Attempt>, x: Tx, w: map<Id, Submission>, a: Id)
    ensures Sees(attempts, x.(submissions := w), a) == Sees(attempts, x, a)
  {
  }

  lemma SubmissionFits(attempts: map<Id, Attempt>, submissions: map<Id, Submission>, x: Tx, s: Id, r: Submission)
    requires SubmissionWritesOk(attempts, submissions, x) && r.tenant == x.tenant && SubmissionOk(r)
      && Sees(attempts, x, r.attempt)
    requires s !in submissions && OnePerAttempt(x.submissions[s := r])
    requires forall u :: u in submissions ==> !SameAttempt(r, submissions[u])
    ensures SubmissionWritesOk(attempts, submissions, x.(submissions := x.submissions[s := r]))
  {
    var w := x.submissions[s := r];
    var y := x.(submissions := w);
    hide SubmissionOk, OnePerAttempt, SameAttempt, Sees;
    forall v | v in w
      ensures v !in submissions && SubmissionOk(w[v]) && w[v].tenant == y.tenant && Sees(attempts, y, w[v].attempt)
    {
      SeesRegardless(attempts, x, w, w[v].attempt);
    }
  }

  lemma PutSubmissionOk(db: Db, t: TxId, s: Id, r: Submission)
    requires t in db.open && SubmissionWritesOk(db.attempts, db.submissions, db.open[t])
    requires r.tenant == db.open[t].tenant && SubmissionOk(r) && Sees(db.attempts, db.open[t], r.attempt)
    requires !SubmissionHardClash(db, t, s, r)
    ensures SubmissionWritesOk(db.attempts, db.submissions, PutSubmission(db, t, s, r).open[t])
  {
    var x := db.open[t];
    assert PutSubmission(db, t, s, r).open[t] == x.(submissions := x.submissions[s := r]);
    assert forall u :: u in db.submissions ==> !SameAttempt(r, db.submissions[u]) && !SameAttempt(db.submissions[u], r);
    assert OnePerAttempt(x.submissions) && forall b :: b in x.submissions ==> !SameAttempt(x.submissions[b], r);
    assert s !in db.submissions;
    hide *;
    OneMoreSubmission(x.submissions, s, r);
    SubmissionFits(db.attempts, db.submissions, x, s, r);
  }

  lemma IndependentSymmetric(x: Tx, y: Tx)
    requires Independent(x, y)
    ensures Independent(y, x)
  {
  }

  lemma TxFacts(db: Db, t: TxId)
    requires Inv(db) && t in db.open
    ensures TxOk(db, t, db.open[t])
  {
  }

  lemma PairFacts(db: Db, t: TxId, u: TxId)
    requires Inv(db) && t in db.open && u in db.open && t != u
    ensures Independent(db.open[t], db.open[u])
  {
  }

  lemma LocksOfOthers(locks: map<Id, TxId>, locks': map<Id, TxId>, t: TxId, u: TxId, tx: Tx)
    requires u != t && HoldsLocks(locks, u, tx)
    requires forall b :: b in locks && locks[b] != t ==> b in locks' && locks'[b] == locks[b]
    ensures HoldsLocks(locks', u, tx)
  {
  }

  /** Replacing one transaction's write set keeps the invariant if the new set is good by itself. */
  lemma ReplaceTx(db: Db, t: TxId, tx: Tx, locks: map<Id, TxId>)
    requires Inv(db) && t in db.open
    requires forall b :: b in locks ==> locks[b] == t || (b in db.locks && locks[b] == db.locks[b])
    requires forall b :: b in db.locks && db.locks[b] != t ==> b in locks && locks[b] == db.locks[b]
    requires TxOk(db.(locks := locks), t, tx)
    requires forall u :: u in db.open && u != t ==> Independent(tx, db.open[u])
    ensures Inv(db.(locks := locks, open := db.open[t := tx]))
  {
    hide HoldsLocks, AttemptWritesOk, ItemWritesOk, SubmissionWritesOk, Independent, AttemptsOk, ItemsOk, SubmissionsOk;
    var n := db.(locks := locks, open := db.open[t := tx]);
    forall u | u in n.open && u != t ensures TxOk(n, u, n.open[u]) && Independent(n.open[u], tx) {
      TxFacts(db, u);
      LocksOfOthers(db.locks, locks, t, u, db.open[u]);
      IndependentSymmetric(tx, db.open[u]);
    }
  }

  lemma PutAttemptKeeps(db: Db, t: TxId, a: Id, r: Attempt)
    requires Inv(db) && t in db.open && !LockedByOther(db, t, a)
    requires r.tenant == db.open[t].tenant && AttemptOk(r)
    requires a in db.attempts ==> db.attempts[a].state.InProgress? && db.attempts[a].tenant == r.tenant
    requires !HardClash(db, t, a, r) && !SoftClash(db, t, a, r)
    ensures Inv(PutAttempt(db, t, a, r))
  {
    hide Inv, HardClash, SoftClash, AttemptWritesOk, ItemWritesOk, SubmissionWritesOk, Independent;
    var n := PutAttempt(db, t, a, r);
    TxFacts(db, t);
    PutAttemptWritesOk(db, t, a, r);
    PutAttemptOthersOk(db.attempts, db.submissions, db.open[t], a, r);
    forall u | u in db.open && u != t ensures Independent(n.open[t], db.open[u]) {
      TxFacts(db, u);
      PairFacts(db, t, u);
      PutAttemptIndependent(db, t, a, r, u);
    }
    ReplaceTx(db, t, n.open[t], n.locks);
  }

  lemma PutItemsKeeps(db: Db, t: TxId, a: Id, w: map<ItemKey, Option<Item>>)
    requires Inv(db) && t in db.open && !LockedByOther(db, t, a)
    requires forall k :: k in w ==>
      && k.tenant == db.open[t].tenant && !ItemHeldByOther(db, t, k)
      && (w[k].Some? ==> ItemOk(k, w[k].value) && SeesAttempt(db, t, k.attempt))
    ensures Inv(PutItems(db, t, a, w))
  {
    hide Inv, AttemptWritesOk, ItemWritesOk, SubmissionWritesOk;
    var n := PutItems(db, t, a, w);
    TxFacts(db, t);
    PutItemsOk(db.attempts, db.submissions, db.open[t], w);
    forall u | u in db.open && u != t ensures Independent(n.open[t], db.open[u]) {
      PairFacts(db, t, u);
    }
    ReplaceTx(db, t, n.open[t], n.locks);
  }

  lemma PutSubmissionKeeps(db: Db, t: TxId, s: Id, r: Submission)
    requires Inv(db) && t in db.open
    requires r.tenant == db.open[t].tenant && SubmissionOk(r) && SeesAttempt(db, t, r.attempt)
    requires !SubmissionHardClash(db, t, s, r) && !SubmissionSoftClash(db, t, s, r)
    ensures Inv(PutSubmission(db, t, s, r))
  {
    hide Inv, SubmissionHardClash, AttemptWritesOk, ItemWritesOk, SubmissionWritesOk;
    var n := PutSubmission(db, t, s, r);
    TxFacts(db, t);
    SeesMeans(db, t, r.attempt);
    PutSubmissionOthersOk(db.attempts, db.open[t], n.open[t].submissions);
    PutSubmissionOk(db, t, s, r);
    forall u | u in db.open && u != t ensures Independent(n.open[t], db.open[u]) {
      PairFacts(db, t, u);
    }
    ReplaceTx(db, t, n.open[t], n.locks);
  }

  lemma LockKeeps(db: Db, t: TxId, a: Id)
    requires Inv(db) && t in db.open && !LockedByOther(db, t, a)
    ensures Inv(db.(locks := db.locks[a := t]))
  {
    hide Inv, AttemptWritesOk, ItemWritesOk, SubmissionWritesOk, Independent;
    TxFacts(db, t);
    assert db.open[t := db.open[t]] == db.open;
    forall u | u in db.open && u != t ensures Independent(db.open[t], db.open[u]) { PairFacts(db, t, u); }
    ReplaceTx(db, t, db.open[t], db.locks[a := t]);
  }

  lemma BeginKeeps(db: Db, t: TxId, tenant: Id)
    requires Inv(db) && t !in db.open
    ensures Inv(Step(db, Begin(t, tenant)).0)
  {
    var n := Step(db, Begin(t, tenant)).0;
    EmptyTxOk(db, t, tenant);
    hide HoldsLocks, AttemptWritesOk, ItemWritesOk, SubmissionWritesOk, Independent, AttemptsOk, ItemsOk, SubmissionsOk;
    forall u | u in n.open ensures TxOk(n, u, n.open[u]) {
      if u != t { TxFacts(db, u); }
    }
  }

  lemma EmptyTxOk(db: Db, t: TxId, tenant: Id)
    ensures TxOk(db, t, Tx(tenant, map[], map[], map[]))
    ensures forall x ::
      Independent(x, Tx(tenant, map[], map[], map[])) && Independent(Tx(tenant, map[], map[], map[]), x)
  {
  }

  // ---- the end of a transaction ----

  lemma ReleasedKeeps(db: Db, t: TxId)
    requires Inv(db)
    ensures Inv(Released(db, t))
  {
    var n := Released(db, t);
    forall u | u in n.open ensures TxOk(n, u, n.open[u]) {
      assert TxOk(db, u, db.open[u]);
    }
  }

  lemma MergeAttempts(attempts: map<Id, Attempt>, x: Tx)
    requires AttemptsOk(attempts) && AttemptWritesOk(attempts, x)
    ensures AttemptsOk(attempts + x.attempts)
    ensures forall a, tenant :: HasParent(attempts, a, tenant) ==> HasParent(attempts + x.attempts, a, tenant)
    ensures forall a :: Sees(attempts, x, a) ==> HasParent(attempts + x.attempts, a, x.tenant)
  {
  }

  lemma MergeItems(db: Db, t: TxId)
    requires t in db.open && AttemptsOk(db.attempts) && AttemptWritesOk(db.attempts, db.open[t])
    requires ItemsOk(db.attempts, db.items) && ItemWritesOk(db.attempts, db.open[t])
    ensures ItemsOk(db.attempts + db.open[t].attempts, ApplyItems(db.items, db.open[t].items))
  {
    MergeAttempts(db.attempts, db.open[t]);
  }

  lemma MergeSubmissions(db: Db, t: TxId)
    requires t in db.open && AttemptsOk(db.attempts) && AttemptWritesOk(db.attempts, db.open[t])
    requires SubmissionsOk(db.attempts, db.submissions)
    requires SubmissionWritesOk(db.attempts, db.submissions, db.open[t])
    ensures SubmissionsOk(db.attempts + db.open[t].attempts, db.submissions + db.open[t].submissions)
  {
    MergeAttempts(db.attempts, db.open[t]);
  }

  /** After x commits, the write set of an independent y is as good as before. */
  lemma MergeOther(attempts: map<Id, Attempt>, submissions: map<Id, Submission>, x: Tx, y: Tx)
    requires Independent(y, x)
    requires AttemptWritesOk(attempts, x) && AttemptWritesOk(attempts, y)
    requires ItemWritesOk(attempts, y) && SubmissionWritesOk(attempts, submissions, y)
    ensures AttemptWritesOk(attempts + x.attempts, y)
    ensures ItemWritesOk(attempts + x.attempts, y)
    ensures SubmissionWritesOk(attempts + x.attempts, submissions + x.submissions, y)
  {
    forall a | Sees(attempts, y, a) ensures Sees(attempts + x.attempts, y, a) {}
  }

  lemma CommitKeeps(db: Db, t: TxId)
    requires Inv(db) && t in db.open
    ensures Inv(Committed(db, t))
  {
    var n := Committed(db, t);
    assert TxOk(db, t, db.open[t]);
    MergeAttempts(db.attempts, db.open[t]);
    MergeItems(db, t);
    MergeSubmissions(db, t);
    forall u | u in n.open ensures TxOk(n, u, n.open[u]) {
      assert TxOk(db, u, db.open[u]) && Independent(db.open[u], db.open[t]);
      MergeOther(db.attempts, db.submissions, db.open[t], db.open[u]);
    }
  }

  // ---- every step ----

  lemma InsertItemKeeps(db: Db, t: TxId, k: ItemKey, i: Item)
    requires Inv(db) && t in db.open && DoInsertItem(db, t, k, i).1.Done?
    ensures Inv(DoInsertItem(db, t, k, i).0)
  {
    hide Inv, ItemHeldByOther, ItemOk, PutItems;
    PutItemsKeeps(db, t, k.attempt, map[k := Some(i)]);
  }

  lemma UpdateItemKeeps(db: Db, t: TxId, k: ItemKey, k': ItemKey, i: Item)
    requires Inv(db) && t in db.open && DoUpdateItem(db, t, k, k', i).1.Done?
    ensures Inv(DoUpdateItem(db, t, k, k', i).0)
  {
    hide Inv, ItemHeldByOther, ItemOk, PutItems;
    PutItemsKeeps(db, t, k'.attempt, map[k := None] + map[k' := Some(i)]);
  }

  lemma DeleteItemKeeps(db: Db, t: TxId, k: ItemKey)
    requires Inv(db) && t in db.open && DoDeleteItem(db, t, k).1.Done?
    ensures Inv(DoDeleteItem(db, t, k).0)
  {
    hide Inv, ItemHeldByOther, ItemOk, PutItems;
    PutItemsKeeps(db, t, k.attempt, map[k := None]);
  }

  lemma InsertSubmissionKeeps(db: Db, t: TxId, s: Id, r: Submission)
    requires Inv(db) && t in db.open && DoInsertSubmission(db, t, s, r).1.Done?
    ensures Inv(DoInsertSubmission(db, t, s, r).0)
  {
    hide Inv, SubmissionHardClash, SubmissionSoftClash, SubmissionOk, PutSubmission;
    PutSubmissionKeeps(db, t, s, r);
  }

  lemma InsertAttemptKeeps(db: Db, t: TxId, a: Id, r: Attempt)
    requires Inv(db) && t in db.open && DoInsertAttempt(db, t, a, r).1.Done?
    ensures Inv(DoInsertAttempt(db, t, a, r).0)
  {
    hide Inv, HardClash, SoftClash, AttemptOk, PutAttempt;
    PutAttemptKeeps(db, t, a, r);
  }

  /** A statement that does not succeed leaves the database alone or aborts its transaction. */
  lemma UnsuccessfulStep(db: Db, op: Op)
    requires op.t in db.open && !Step(db, op).1.Done?
    ensures Step(db, op).0 == db || Step(db, op).0 == Released(db, op.t)
  {
    hide HardClash, SoftClash, SubmissionHardClash, SubmissionSoftClash, ItemHeldByOther, AttemptOk, ItemOk;
    hide SubmissionOk, Released, PutAttempt, PutItems, PutSubmission, Committed;
  }

  lemma StepKeeps(db: Db, op: Op)
    requires Inv(db)
    ensures Inv(Step(db, op).0)
  {
    hide Inv, DoInsertAttempt, DoUpdateAttempt, DoInsertItem, DoUpdateItem, DoDeleteItem, DoInsertSubmission;
    hide Committed, Released;
    if op.t in db.open {
      ReleasedKeeps(db, op.t);
      if Step(db, op).1.Done? {
        match op
        case Begin(_, _) =>
        case LockAttempt(t, a) => LockKeeps(db, t, a);
        case InsertAttempt(t, a, r) => InsertAttemptKeeps(db, t, a, r);
        case UpdateAttempt(t, a, r) => UpdateKeeps(db, t, a, r);
        case InsertItem(t, k, i) => InsertItemKeeps(db, t, k, i);
        case UpdateItem(t, k, k', i) => UpdateItemKeeps(db, t, k, k', i);
        case DeleteItem(t, k) => DeleteItemKeeps(db, t, k);
        case InsertSubmission(t, s, r) => InsertSubmissionKeeps(db, t, s, r);
        case Commit(t) => CommitKeeps(db, t);
        case Abort(t) =>
      } else {
        UnsuccessfulStep(db, op);
      }
    } else if op.Begin? {
      BeginKeeps(db, op.t, op.tenant);
    }
  }

  lemma UpdateKeeps(db: Db, t: TxId, a: Id, r: Attempt)
    requires Inv(db) && t in db.open && DoUpdateAttempt(db, t, a, r).1.Done?
    ensures Inv(DoUpdateAttempt(db, t, a, r).0)
  {
    hide Inv, HardClash, SoftClash, ItemWritesOk, SubmissionWritesOk, AttemptOk;
    TxFacts(db, t);
    PutAttemptKeeps(db, t, a, r);
  }

  lemma {:induction false} RunKeeps(db: Db, ops: seq<Op>)
    requires Inv(db)
    ensures Inv(Run(db, ops))
    decreases |ops|
  {
    if ops != [] {
      StepKeeps(db, ops[0]);
      RunKeeps(Step(db, ops[0]).0, ops[1..]);
    }
  }

  /**
   Every reachable database: at most one open attempt and at most one row per number for a
   learner on an assignment, evidence columns that agree with the lifecycle, at most one
   submission per attempt, and a parent in the same tenant for every item and submission.
   */
  lemma ReachableTables(ops: seq<Op>)
    ensures var db := Run(EMPTY_DB, ops);
      && (forall a, b :: a in db.attempts && b in db.attempts && BothOpen(db.attempts[a], db.attempts[b]) ==> a == b)
      && (forall a, b ::
            a in db.attempts && b in db.attempts && SameSequence(db.attempts[a], db.attempts[b]) ==> a == b)
      && (forall a :: a in db.attempts ==> LifecycleEvidence(db.attempts[a]))
      && (forall k :: k in db.items ==> HasParent(db.attempts, k.attempt, k.tenant))
      && (forall s :: s in db.submissions ==>
        HasParent(db.attempts, db.submissions[s].attempt, db.submissions[s].tenant))
      && (forall s, u ::
        s in db.submissions && u in db.submissions && SameAttempt(db.submissions[s], db.submissions[u]) ==> s == u)
  {
    RunKeeps(EMPTY_DB, ops);
  }
}
