/**
 What each statement on the learning tables makes visible, what a commit stores, and exactly
 which statements are accepted, told by rows and columns.
 */
module LearningStatements {
  import opened Basics
  import opened LearningModel
  import opened LearningInvariant
  import opened TextRules

  function Stored<K, V>(m: map<K, V>, k: K): Option<V> { if k in m then Some(m[k]) else None }

  // ---- what a transaction sees ----

  /** The item that a SELECT of transaction t finds under k. */
  function ItemAt(db: Db, t: TxId, k: ItemKey): Option<Item>
    requires t in db.open
  {
    if !SeesItem(db, t, k) then None
    else if k in db.open[t].items then db.open[t].items[k]
    else Some(db.items[k])
  }

  function AttemptAt(db: Db, t: TxId, a: Id): Option<Attempt>
    requires t in db.open
  {
    if SeesAttempt(db, t, a) then Some(SeenAttempt(db, t, a)) else None
  }

  function SubmissionAt(db: Db, t: TxId, s: Id): Option<Submission>
    requires t in db.open
  {
    var own, all := db.open[t].submissions, db.submissions;
    if s in own then Some(own[s])
    else if s in all && all[s].tenant == db.open[t].tenant then Some(all[s])
    else None
  }

  /** Tables, other transactions and their locks are as before. */
  ghost predicate OnlyOwn(db: Db, t: TxId, n: Db) {
    && n.attempts == db.attempts && n.items == db.items && n.submissions == db.submissions
    && (forall u :: u != t ==> Stored(n.open, u) == Stored(db.open, u))
    && (forall a :: a in db.locks && db.locks[a] != t ==> a in n.locks && n.locks[a] == db.locks[a])
    && (forall a :: a in n.locks && n.locks[a] != t ==> a in db.locks && n.locks[a] == db.locks[a])
  }

  ghost predicate SameItems(db: Db, t: TxId, n: Db)
    requires t in db.open && t in n.open
  {
    forall k :: ItemAt(n, t, k) == ItemAt(db, t, k)
  }

  ghost predicate SameAttempts(db: Db, t: TxId, n: Db)
    requires t in db.open && t in n.open
  {
    forall a :: AttemptAt(n, t, a) == AttemptAt(db, t, a)
  }

  ghost predicate SameSubmissions(db: Db, t: TxId, n: Db)
    requires t in db.open && t in n.open
  {
    forall s :: SubmissionAt(n, t, s) == SubmissionAt(db, t, s)
  }

  // ---- commit and the end of a transaction ----

  /** The items of the transaction's tenant become what it saw, those of other tenants stay. */
  ghost predicate StoresItems(db: Db, t: TxId, n: Db)
    requires t in db.open
  {
    forall k: ItemKey ::
      Stored(n.items, k) == if k.tenant == db.open[t].tenant then ItemAt(db, t, k) else Stored(db.items, k)
  }

  /** A row that the transaction saw is stored as it saw it; the others stay. */
  ghost predicate StoresAttempts(db: Db, t: TxId, n: Db)
    requires t in db.open
  {
    forall a ::
      Stored(n.attempts, a) == if AttemptAt(db, t, a).Some? then AttemptAt(db, t, a) else Stored(db.attempts, a)
  }

  ghost predicate StoresSubmissions(db: Db, t: TxId, n: Db)
    requires t in db.open
  {
    forall s ::
      Stored(n.submissions, s)
      == if SubmissionAt(db, t, s).Some? then SubmissionAt(db, t, s) else Stored(db.submissions, s)
  }

  /** The transaction is gone with its locks, and nobody else is touched. */
  ghost predicate Ended(db: Db, t: TxId, n: Db) {
    && t !in n.open && (forall u :: u != t ==> Stored(n.open, u) == Stored(db.open, u))
    && (forall a :: Stored(n.locks, a) == if Stored(db.locks, a) == Some(t) then None else Stored(db.locks, a))
  }

  lemma WritesOfTenant(db: Db, t: TxId)
    requires Inv(db) && t in db.open
    ensures forall k :: k in db.open[t].items ==> k.tenant == db.open[t].tenant
    ensures forall a :: a in db.open[t].attempts ==> db.open[t].attempts[a].tenant == db.open[t].tenant
    ensures forall s :: s in db.open[t].submissions ==> s !in db.submissions
  {
    hide Inv, Clash, AttemptOk, ItemOk, SubmissionOk;
    TxFacts(db, t);
  }

  lemma CommitMeans(db: Db, t: TxId)
    requires t in db.open
    ensures Step(db, Commit(t)) == (Committed(db, t), Done)
  {
  }

  lemma CommitStoresItems(db: Db, t: TxId)
    requires t in db.open && forall k :: k in db.open[t].items ==> k.tenant == db.open[t].tenant
    ensures StoresItems(db, t, Committed(db, t))
  {
  }

  lemma CommitStoresAttempts(db: Db, t: TxId)
    requires t in db.open
    requires forall a :: a in db.open[t].attempts ==> db.open[t].attempts[a].tenant == db.open[t].tenant
    ensures StoresAttempts(db, t, Committed(db, t))
  {
  }

  lemma CommitStoresSubmissions(db: Db, t: TxId)
    requires t in db.open
    ensures StoresSubmissions(db, t, Committed(db, t))
  {
  }

  lemma ReleasedEnds(db: Db, t: TxId)
    ensures Ended(db, t, Released(db, t))
  {
  }

  lemma CommittedEnds(db: Db, t: TxId)
    requires t in db.open
    ensures Ended(db, t, Committed(db, t))
  {
    ReleasedEnds(db, t);
    hide Released, ApplyItems;
  }

  /** A commit stores exactly what the transaction saw. */
  lemma CommitStores(db: Db, t: TxId)
    requires Inv(db) && t in db.open
    ensures var (n, o) := Step(db, Commit(t));
      o.Done? && StoresItems(db, t, n) && StoresAttempts(db, t, n) && StoresSubmissions(db, t, n) && Ended(db, t, n)
  {
    hide *;
    WritesOfTenant(db, t);
    CommitMeans(db, t);
    CommitStoresItems(db, t);
    CommitStoresAttempts(db, t);
    CommitStoresSubmissions(db, t);
    CommittedEnds(db, t);
  }

  lemma RefusedReleases(db: Db, op: Op)
    requires op.t in db.open && !op.Begin? && (op.Abort? || Step(db, op).1.Rejected?)
    ensures Step(db, op).0 == Released(db, op.t)
  {
    hide AttemptOk, ItemOk, SubmissionOk, HardClash, SoftClash, SubmissionHardClash, SubmissionSoftClash;
    hide SeesAttempt, SeenAttempt, SeesItem, ItemHeldByOther, AttemptPendingElsewhere, Released;
  }

  /** A rollback, and a statement that is refused, leave no trace of the transaction. */
  lemma AbortLeavesNothing(db: Db, op: Op)
    requires op.t in db.open && !op.Begin? && (op.Abort? || Step(db, op).1.Rejected?)
    ensures var n := Step(db, op).0;
      n.attempts == db.attempts && n.items == db.items && n.submissions == db.submissions && Ended(db, op.t, n)
  {
    RefusedReleases(db, op);
    ReleasedEnds(db, op.t);
    hide Step, Ended;
  }

  /** A statement that waits, or that finds no row, changes nothing. */
  lemma WaitingChangesNothing(db: Db, op: Op)
    requires Step(db, op).1.Blocked? || Step(db, op).1.NoRow?
    ensures Step(db, op).0 == db
  {
    hide AttemptOk, ItemOk, SubmissionOk, HardClash, SoftClash, SubmissionHardClash, SubmissionSoftClash;
    hide SeesAttempt, SeenAttempt, SeesItem, ItemHeldByOther, AttemptPendingElsewhere, Released;
  }

  // ---- accepted item statements ----

  /** What the transaction sees of items after the statement; every other item is as before. */
  ghost predicate ItemsAfter(db: Db, op: Op, n: Db)
    requires op.t in db.open && op.t in n.open
  {
    var t := op.t;
    match op
    case InsertItem(_, k, i) =>
      ItemAt(db, t, k).None? && ItemAt(n, t, k) == Some(i)
      && forall o :: o != k ==> ItemAt(n, t, o) == ItemAt(db, t, o)
    case UpdateItem(_, k, k', i) =>
      ItemAt(db, t, k).Some? && ItemAt(n, t, k') == Some(i)
      && (k' != k ==> ItemAt(db, t, k').None? && ItemAt(n, t, k).None?)
      && forall o :: o != k && o != k' ==> ItemAt(n, t, o) == ItemAt(db, t, o)
    case DeleteItem(_, k) =>
      ItemAt(db, t, k).Some? && ItemAt(n, t, k).None?
      && forall o :: o != k ==> ItemAt(n, t, o) == ItemAt(db, t, o)
    case _ => true
  }

  /** What a commit right after the statement leaves in the item table. */
  ghost predicate ItemsStored(db: Db, op: Op, m: Db)
    requires op.t in db.open
  {
    var t := op.t;
    var tenant := db.open[t].tenant;
    match op
    case InsertItem(_, k, i) =>
      Stored(m.items, k) == Some(i) && forall o: ItemKey :: o != k ==> StoredAsSeen(db, t, m, o)
    case UpdateItem(_, k, k', i) =>
      Stored(m.items, k') == Some(i) && (k' != k ==> k !in m.items)
      && forall o: ItemKey :: o != k && o != k' ==> StoredAsSeen(db, t, m, o)
    case DeleteItem(_, k) =>
      k !in m.items && forall o: ItemKey :: o != k ==> StoredAsSeen(db, t, m, o)
    case _ => true
  }

  ghost predicate StoredAsSeen(db: Db, t: TxId, m: Db, o: ItemKey)
    requires t in db.open
  {
    Stored(m.items, o) == if o.tenant == db.open[t].tenant then ItemAt(db, t, o) else Stored(db.items, o)
  }

  predicate IsItemStatement(op: Op) { op.InsertItem? || op.UpdateItem? || op.DeleteItem? }

  function ParentOf(op: Op): ItemKey
    requires IsItemStatement(op)
  {
    if op.UpdateItem? then op.newKey else op.k
  }

  /** The item write set w on top of what the transaction saw. */
  lemma PutItemsShows(db: Db, t: TxId, a: Id, w: map<ItemKey, Option<Item>>)
    requires t in db.open && !LockedByOther(db, t, a) && forall k :: k in w ==> k.tenant == db.open[t].tenant
    ensures var n := PutItems(db, t, a, w);
      && t in n.open && n.open[t].tenant == db.open[t].tenant && OnlyOwn(db, t, n) && Stored(n.locks, a) == Some(t)
      && (forall o :: ItemAt(n, t, o) == if o in w then w[o] else ItemAt(db, t, o))
      && SameAttempts(db, t, n) && SameSubmissions(db, t, n)
  {
    var n := PutItems(db, t, a, w);
    assert OnlyOwn(db, t, n) by { hide SeesItem, SeesAttempt; }
    assert SameAttempts(db, t, n) && SameSubmissions(db, t, n) by { hide SeesItem; }
    hide SeesAttempt, OnlyOwn, SameAttempts, SameSubmissions;
  }

/** An accepted item statement is about keys of the transaction's tenant. */
  lemma OwnTenant(db: Db, op: Op)
    requires op.t in db.open && IsItemStatement(op) && Step(db, op).1.Done?
    ensures op.k.tenant == db.open[op.t].tenant && ParentOf(op).tenant == db.open[op.t].tenant
  {
    hide ItemOk, ItemHeldByOther;
  }

  function WriteOf(op: Op): map<ItemKey, Option<Item>>
    requires IsItemStatement(op)
  {
    match op
    case InsertItem(_, k, i) => map[k := Some(i)]
    case UpdateItem(_, k, k', i) => map[k := None] + map[k' := Some(i)]
    case DeleteItem(_, k) => map[k := None]
  }

  lemma ItemStatementMeans(db: Db, op: Op)
    requires op.t in db.open && IsItemStatement(op) && Step(db, op).1.Done?
    ensures Step(db, op).0 == PutItems(db, op.t, ParentOf(op).attempt, WriteOf(op))
    ensures !LockedByOther(db, op.t, ParentOf(op).attempt)
    ensures op.InsertItem? ==> ItemAt(db, op.t, op.k).None?
    ensures !op.InsertItem? ==> ItemAt(db, op.t, op.k).Some?
    ensures op.UpdateItem? && op.newKey != op.k ==> ItemAt(db, op.t, op.newKey).None?
  {
    hide ItemOk, ItemHeldByOther, SeesAttempt, SeenAttempt, PutItems;
  }

  lemma WriteShows(db: Db, op: Op, n: Db)
    requires op.t in db.open && op.t in n.open && IsItemStatement(op)
    requires forall o :: ItemAt(n, op.t, o) == if o in WriteOf(op) then WriteOf(op)[o] else ItemAt(db, op.t, o)
    requires op.InsertItem? ==> ItemAt(db, op.t, op.k).None?
    requires !op.InsertItem? ==> ItemAt(db, op.t, op.k).Some?
    requires op.UpdateItem? && op.newKey != op.k ==> ItemAt(db, op.t, op.newKey).None?
    ensures ItemsAfter(db, op, n)
  {
    hide ItemAt;
  }

  lemma WriteOfTenant(op: Op, tenant: Id)
    requires IsItemStatement(op) && op.k.tenant == tenant && ParentOf(op).tenant == tenant
    ensures forall k :: k in WriteOf(op) ==> k.tenant == tenant
  {
  }

  lemma ItemStatementShows(db: Db, op: Op)
    requires op.t in db.open && IsItemStatement(op) && Step(db, op).1.Done?
    ensures var n := Step(db, op).0;
      && op.t in n.open && OnlyOwn(db, op.t, n) && ItemsAfter(db, op, n)
      && SameAttempts(db, op.t, n) && SameSubmissions(db, op.t, n)
      && Stored(n.locks, ParentOf(op).attempt) == Some(op.t) && n.open[op.t].tenant == db.open[op.t].tenant
  {
    hide *;
    ItemStatementMeans(db, op);
    OwnTenant(db, op);
    WriteOfTenant(op, db.open[op.t].tenant);
    PutItemsShows(db, op.t, ParentOf(op).attempt, WriteOf(op));
    WriteShows(db, op, Step(db, op).0);
  }

  /**
   After an accepted insert or update the new key holds exactly the new item, after an update
   to another key or a delete the old key holds nothing, and every other item is as before: in
   the transaction's view, and in the table once it commits.
   */
  lemma ItemStatementStores(db: Db, op: Op)
    requires Inv(db) && op.t in db.open && IsItemStatement(op) && Step(db, op).1.Done?
    ensures var n := Step(db, op).0;
      && op.t in n.open && ItemsAfter(db, op, n)
      && ItemsStored(db, op, Step(n, Commit(op.t)).0)
  {
    var t, n := op.t, Step(db, op).0;
    hide *;
    StepKeeps(db, op);
    ItemStatementShows(db, op);
    assert t in n.open && n.items == db.items by { OwnMeans(db, t, n); }
    CommitStores(n, t);
    OwnTenant(db, op);
    ViewIsStored(db, op, n, Step(n, Commit(t)).0);
  }

  lemma OwnMeans(db: Db, t: TxId, n: Db)
    requires OnlyOwn(db, t, n)
    ensures n.items == db.items && n.attempts == db.attempts && n.submissions == db.submissions
  {
  }

  lemma ViewIsStored(db: Db, op: Op, n: Db, m: Db)
    requires op.t in db.open && op.t in n.open && IsItemStatement(op) && n.items == db.items
    requires n.open[op.t].tenant == db.open[op.t].tenant && ItemsAfter(db, op, n) && StoresItems(n, op.t, m)
    requires op.k.tenant == db.open[op.t].tenant && ParentOf(op).tenant == db.open[op.t].tenant
    ensures ItemsStored(db, op, m)
  {
    hide ItemAt;
  }

  // ---- accepted attempt, submission and lock statements ----

  lemma AttemptStatementMeans(db: Db, op: Op)
    requires op.t in db.open && (op.InsertAttempt? || op.UpdateAttempt?) && Step(db, op).1.Done?
    ensures Step(db, op).0 == PutAttempt(db, op.t, op.a, op.attempt)
    ensures op.attempt.tenant == db.open[op.t].tenant && !LockedByOther(db, op.t, op.a)
  {
    hide AttemptOk, HardClash, SoftClash, SeesAttempt, SeenAttempt, AttemptPendingElsewhere, PutAttempt;
  }

  lemma PutAttemptOnlyOwn(db: Db, t: TxId, a: Id, r: Attempt)
    requires t in db.open && !LockedByOther(db, t, a)
    ensures var n := PutAttempt(db, t, a, r);
      t in n.open && OnlyOwn(db, t, n) && Stored(n.locks, a) == Some(t) && SameItems(db, t, n)
      && SameSubmissions(db, t, n)
  {
    var n := PutAttempt(db, t, a, r);
    assert OnlyOwn(db, t, n) by { hide SeesAttempt, SeesItem; }
    assert SameItems(db, t, n) && SameSubmissions(db, t, n) by { hide SeesAttempt, OnlyOwn; }
    hide SameItems, SameSubmissions, OnlyOwn;
  }

  lemma PutAttemptShows(db: Db, t: TxId, a: Id, r: Attempt)
    requires t in db.open && r.tenant == db.open[t].tenant && !LockedByOther(db, t, a)
    ensures var n := PutAttempt(db, t, a, r);
      && t in n.open && OnlyOwn(db, t, n) && Stored(n.locks, a) == Some(t)
      && AttemptAt(n, t, a) == Some(r) && (forall b :: b != a ==> AttemptAt(n, t, b) == AttemptAt(db, t, b))
      && SameItems(db, t, n) && SameSubmissions(db, t, n)
  {
    PutAttemptOnlyOwn(db, t, a, r);
    hide SameItems, SameSubmissions, OnlyOwn, LockedByOther;
  }

  /** What the transaction sees of attempts after the statement, and that it holds the row lock. */
  lemma AttemptStatementStores(db: Db, op: Op)
    requires op.t in db.open && (op.InsertAttempt? || op.UpdateAttempt?) && Step(db, op).1.Done?
    ensures var n := Step(db, op).0;
      && op.t in n.open && OnlyOwn(db, op.t, n) && Stored(n.locks, op.a) == Some(op.t)
      && AttemptAt(n, op.t, op.a) == Some(op.attempt)
      && (forall b :: b != op.a ==> AttemptAt(n, op.t, b) == AttemptAt(db, op.t, b))
      && SameItems(db, op.t, n) && SameSubmissions(db, op.t, n)
  {
    hide *;
    AttemptStatementMeans(db, op);
    PutAttemptShows(db, op.t, op.a, op.attempt);
  }

  lemma SubmissionStatementMeans(db: Db, op: Op)
    requires op.t in db.open && op.InsertSubmission? && Step(db, op).1.Done?
    ensures Step(db, op).0 == PutSubmission(db, op.t, op.s, op.submission)
    ensures op.s !in db.submissions && op.s !in db.open[op.t].submissions
  {
    hide SubmissionOk, SubmissionSoftClash, SeesAttempt, PutSubmission;
  }

  lemma PutSubmissionShows(db: Db, t: TxId, s: Id, r: Submission)
    requires t in db.open
    ensures var n := PutSubmission(db, t, s, r);
      && t in n.open && OnlyOwn(db, t, n) && n.locks == db.locks && SubmissionAt(n, t, s) == Some(r)
      && (forall b :: b != s ==> SubmissionAt(n, t, b) == SubmissionAt(db, t, b))
  {
    hide SeesAttempt, SeesItem;
  }

  lemma PutSubmissionLeaves(db: Db, t: TxId, s: Id, r: Submission)
    requires t in db.open
    ensures var n := PutSubmission(db, t, s, r); t in n.open && SameItems(db, t, n) && SameAttempts(db, t, n)
  {
  }

  lemma SubmissionStatementStores(db: Db, op: Op)
    requires op.t in db.open && op.InsertSubmission? && Step(db, op).1.Done?
    ensures var n := Step(db, op).0;
      && op.t in n.open && OnlyOwn(db, op.t, n) && n.locks == db.locks
      && SubmissionAt(db, op.t, op.s).None? && SubmissionAt(n, op.t, op.s) == Some(op.submission)
      && (forall b :: b != op.s ==> SubmissionAt(n, op.t, b) == SubmissionAt(db, op.t, b))
      && SameItems(db, op.t, n) && SameAttempts(db, op.t, n)
  {
    assert op.s !in db.submissions && op.s !in db.open[op.t].submissions ==> SubmissionAt(db, op.t, op.s).None?;
    hide *;
    SubmissionStatementMeans(db, op);
    PutSubmissionShows(db, op.t, op.s, op.submission);
    PutSubmissionLeaves(db, op.t, op.s, op.submission);
  }

  /** SELECT ... FOR UPDATE waits, finds nothing, or takes the lock, and changes nothing else. */
  lemma LockStatementTakes(db: Db, t: TxId, a: Id)
    requires t in db.open
    ensures var (n, o) := Step(db, LockAttempt(t, a));
      && (o.NoRow? <==> AttemptAt(db, t, a).None?)
      && (o.Done? <==> AttemptAt(db, t, a).Some? && (a in db.locks ==> db.locks[a] == t))
      && (o.Done? || o.NoRow? || o.Blocked?)
      && n == if o.Done? then db.(locks := db.locks[a := t]) else db
  {
  }

  // ---- rows, column by column ----

  /** Exactly the answer column of the kind is filled, with a text of bounded length if it is a text. */
  ghost predicate ItemColumns(k: ItemKey, i: Item) {
    && HasText(k.question) && |k.question| <= 128 && i.createdAt <= i.updatedAt
    && (i.choice.Some? <==> i.kind == MultipleChoice) && (i.text.Some? <==> i.kind == ShortAnswer)
    && (i.flag.Some? <==> i.kind == TrueFalse)
    && (i.choice.Some? ==> HasText(i.choice.value) && |i.choice.value| <= 256)
    && (i.text.Some? ==> HasText(i.text.value) && |i.text.value| <= 4096)
  }

  /** The submission columns are filled exactly in submitted rows, and no time runs backwards. */
  ghost predicate AttemptColumns(r: Attempt) {
    && HasText(r.classRef) && |r.classRef| <= 512 && r.number > 0 && r.revision >= 0
    && (r.submittedAt.Some? <==> r.state == Submitted) && (r.submission.Some? <==> r.state == Submitted)
    && r.createdAt <= r.updatedAt
    && (r.lastSavedAt.Some? ==> r.startedAt <= r.lastSavedAt.value)
    && (r.submittedAt.Some? ==> r.startedAt <= r.submittedAt.value)
  }

  ghost predicate SubmissionColumns(r: Submission) {
    HasText(r.classRef) && |r.classRef| <= 512 && r.assignmentRevision >= 0
  }

  lemma ItemColumnsExactly(k: ItemKey, i: Item)
    ensures ItemOk(k, i) <==> ItemColumns(k, i)
  {
    TextMeans(k.question);
    if i.choice.Some? { TextMeans(i.choice.value); }
    if i.text.Some? { TextMeans(i.text.value); }
    hide HasText, BtrimEmpty;
  }

  lemma AttemptColumnsExactly(r: Attempt)
    ensures AttemptOk(r) <==> AttemptColumns(r)
  {
    TextMeans(r.classRef);
    hide HasText, BtrimEmpty;
  }

  lemma SubmissionColumnsExactly(r: Submission)
    ensures SubmissionOk(r) <==> SubmissionColumns(r)
  {
    TextMeans(r.classRef);
    hide HasText, BtrimEmpty;
  }

  // ---- exactly which statements are accepted ----

  ghost predicate Unlocked(db: Db, t: TxId, a: Id) { a !in db.locks || db.locks[a] == t }

  /** No other open transaction has written the item k. */
  ghost predicate Unwritten(db: Db, t: TxId, k: ItemKey) {
    forall u :: u in db.open && u != t ==> k !in db.open[u].items
  }

  /** The transaction sees the parent of k, in the tenant of k. */
  ghost predicate ParentSeen(db: Db, t: TxId, k: ItemKey)
    requires t in db.open
  {
    AttemptAt(db, t, k.attempt).Some? && AttemptAt(db, t, k.attempt).value.tenant == k.tenant
  }

  ghost predicate ParentOpen(db: Db, t: TxId, k: ItemKey)
    requires t in db.open
  {
    ParentSeen(db, t, k) && AttemptAt(db, t, k.attempt).value.state == InProgress
  }

  lemma GuardExactly(db: Db, t: TxId, k: ItemKey)
    requires t in db.open
    ensures ItemGuard(db, t, k) ==
      if !ParentSeen(db, t, k) then Rejected(ParentNotFound)
      else if !Unlocked(db, t, k.attempt) then Blocked
      else if !ParentOpen(db, t, k) then Rejected(ParentNotInProgress)
      else Done
  {
  }

  lemma HeldExactly(db: Db, t: TxId, k: ItemKey)
    ensures ItemHeldByOther(db, t, k) <==> !Unwritten(db, t, k)
  {
  }

  /**
   An insert goes in exactly under a parent in progress that nobody else has locked, for an
   unused key and a well-formed row.
   */
  lemma InsertItemAcceptedExactly(db: Db, t: TxId, k: ItemKey, i: Item)
    requires t in db.open
    ensures var o := Step(db, InsertItem(t, k, i)).1;
      && (o.Done? <==>
            ParentOpen(db, t, k) && Unlocked(db, t, k.attempt) && Unwritten(db, t, k)
            && ItemColumns(k, i) && ItemAt(db, t, k).None?)
      && (o == Rejected(ParentNotFound) <==> !ParentSeen(db, t, k))
      && (o == Rejected(ParentNotInProgress) <==>
            ParentSeen(db, t, k) && Unlocked(db, t, k.attempt) && !ParentOpen(db, t, k))
      && (o.Blocked? <==>
            ParentSeen(db, t, k) && (!Unlocked(db, t, k.attempt) || (ParentOpen(db, t, k) && !Unwritten(db, t, k))))
  {
    GuardExactly(db, t, k);
    HeldExactly(db, t, k);
    ItemColumnsExactly(k, i);
    hide ItemGuard, ItemHeldByOther, Unwritten, Unlocked, ItemOk, ItemColumns, PutItems, Released;
  }

  /** Only the parent of the new key is looked at. */
  lemma UpdateItemAcceptedExactly(db: Db, t: TxId, k: ItemKey, k': ItemKey, i: Item)
    requires t in db.open
    ensures var o := Step(db, UpdateItem(t, k, k', i)).1;
      && (o.NoRow? <==> ItemAt(db, t, k).None?)
      && (o.Done? <==>
            ItemAt(db, t, k).Some? && Unwritten(db, t, k) && ParentOpen(db, t, k') && Unlocked(db, t, k'.attempt)
            && Unwritten(db, t, k') && ItemColumns(k', i) && (k' != k ==> ItemAt(db, t, k').None?))
  {
    GuardExactly(db, t, k');
    HeldExactly(db, t, k);
    HeldExactly(db, t, k');
    ItemColumnsExactly(k', i);
    hide ItemGuard, ItemHeldByOther, Unwritten, Unlocked, ItemOk, ItemColumns, PutItems, Released;
  }

  lemma DeleteItemAcceptedExactly(db: Db, t: TxId, k: ItemKey)
    requires t in db.open
    ensures var o := Step(db, DeleteItem(t, k)).1;
      && (o.NoRow? <==> ItemAt(db, t, k).None?)
      && (o.Done? <==>
            ItemAt(db, t, k).Some? && Unwritten(db, t, k) && ParentOpen(db, t, k) && Unlocked(db, t, k.attempt))
      && (o == Rejected(ParentNotInProgress) <==>
            ItemAt(db, t, k).Some? && Unwritten(db, t, k) && ParentSeen(db, t, k) && Unlocked(db, t, k.attempt)
            && !ParentOpen(db, t, k))
  {
    GuardExactly(db, t, k);
    HeldExactly(db, t, k);
    hide ItemGuard, ItemHeldByOther, Unwritten, Unlocked, PutItems, Released;
  }

  // ---- unique keys ----

  /** A row version of attempt b that is there for t, or that may be there after others commit or roll back. */
  ghost predicate Possible(db: Db, t: TxId, b: Id, v: Attempt) {
    || (t in db.open && Stored(db.open[t].attempts, b) == Some(v))
    || (exists u :: u in db.open && u != t && Stored(db.open[u].attempts, b) == Some(v))
    || (Stored(db.attempts, b) == Some(v) && (t in db.open ==> b !in db.open[t].attempts))
  }

  /** The same learner on the same assignment of the same tenant. */
  ghost predicate SameCourse(x: Attempt, y: Attempt) {
    (x.tenant, x.learner, x.assignment) == (y.tenant, y.learner, y.assignment)
  }

  /** Both rows may stand: another number, and not both in progress. */
  ghost predicate Apart(v: Attempt, r: Attempt) {
    v.number != r.number && (v.state == Submitted || r.state == Submitted)
  }

  /** No possible version of another row has the number of r, nor is one in progress while r is. */
  ghost predicate Unclashing(db: Db, t: TxId, a: Id, r: Attempt) {
    forall b, v :: b != a && Possible(db, t, b, v) && SameCourse(v, r) ==> Apart(v, r)
  }

  /** Two open transactions never hold versions of the same row. */
  ghost predicate OneWriter(db: Db) {
    forall t, u, a :: t in db.open && u in db.open && a in db.open[t].attempts && a in db.open[u].attempts ==> t == u
  }

  lemma InvHasOneWriter(db: Db)
    requires Inv(db)
    ensures OneWriter(db)
  {
    forall t, u, a | t in db.open && u in db.open && a in db.open[t].attempts && a in db.open[u].attempts
      ensures t == u
    {
      if t != u { PairFacts(db, t, u); }
    }
  }

  lemma ClashMeans(v: Attempt, r: Attempt)
    ensures Clash(v, r) <==> SameCourse(v, r) && !Apart(v, r)
  {
  }

  lemma NoClashExactly(db: Db, t: TxId, a: Id, r: Attempt)
    requires t in db.open && OneWriter(db)
    ensures !HardClash(db, t, a, r) && !SoftClash(db, t, a, r) <==> Unclashing(db, t, a, r)
  {
    forall v ensures Clash(v, r) <==> SameCourse(v, r) && !Apart(v, r) { ClashMeans(v, r); }
    hide Clash, SameCourse, Apart;
    if Unclashing(db, t, a, r) {
      UnclashingIsFree(db, t, a, r);
    } else {
      var b, v :| b != a && Possible(db, t, b, v) && Clash(v, r);
      ClashIsSeen(db, t, a, r, b, v);
    }
  }

  lemma UnclashingIsFree(db: Db, t: TxId, a: Id, r: Attempt)
    requires t in db.open && OneWriter(db)
    requires forall b, v :: b != a && Possible(db, t, b, v) ==> !Clash(v, r)
    ensures !HardClash(db, t, a, r) && !SoftClash(db, t, a, r)
  {
    hide Clash;
    forall b | b in db.open[t].attempts && b != a ensures !Clash(db.open[t].attempts[b], r) {
      assert Possible(db, t, b, db.open[t].attempts[b]);
    }
    forall b | b in db.attempts && b != a && b !in db.open[t].attempts ensures !Clash(db.attempts[b], r) {
      assert Possible(db, t, b, db.attempts[b]);
    }
    forall u, b | u in db.open && b in db.open[u].attempts && u != t && b != a ensures !Undecided(db, u, b, r) {
      assert Possible(db, t, b, db.open[u].attempts[b]) by { assert Stored(db.open[u].attempts, b).Some?; }
    }
  }

  lemma ClashIsSeen(db: Db, t: TxId, a: Id, r: Attempt, b: Id, v: Attempt)
    requires t in db.open && OneWriter(db) && b != a && Possible(db, t, b, v) && Clash(v, r)
    ensures HardClash(db, t, a, r) || SoftClash(db, t, a, r)
  {
    hide Clash;
    if Stored(db.open[t].attempts, b) != Some(v) {
      if u :| u in db.open && u != t && Stored(db.open[u].attempts, b) == Some(v) {
        assert Undecided(db, u, b, r);
      } else if AttemptPendingElsewhere(db, t, b) {
        var u :| u in db.open && u != t && b in db.open[u].attempts;
        assert Undecided(db, u, b, r);
      }
    }
  }

  /** No other transaction is inserting or changing row a. */
  ghost predicate RowFree(db: Db, t: TxId, a: Id) {
    Unlocked(db, t, a) && forall u :: u in db.open && u != t ==> a !in db.open[u].attempts
  }

  lemma InsertAttemptAcceptedExactly(db: Db, t: TxId, a: Id, r: Attempt)
    requires t in db.open && OneWriter(db)
    ensures Step(db, InsertAttempt(t, a, r)).1.Done? <==>
      && a !in db.attempts && a !in db.open[t].attempts && RowFree(db, t, a)
      && r.tenant == db.open[t].tenant && AttemptColumns(r) && Unclashing(db, t, a, r)
  {
    AttemptColumnsExactly(r);
    NoClashExactly(db, t, a, r);
    assert LockedByOther(db, t, a) <==> !Unlocked(db, t, a);
    hide AttemptOk, AttemptColumns, HardClash, SoftClash, Unclashing, OneWriter, Released, PutAttempt;
  }

  /** A submitted row is refused before anything else, and a locked one is waited for. */
  lemma UpdateAttemptAcceptedExactly(db: Db, t: TxId, a: Id, r: Attempt)
    requires t in db.open && OneWriter(db)
    ensures var o := Step(db, UpdateAttempt(t, a, r)).1;
      && (o.NoRow? <==> AttemptAt(db, t, a).None?)
      && (o == Rejected(SubmittedIsTerminal) <==>
            AttemptAt(db, t, a).Some? && Unlocked(db, t, a) && AttemptAt(db, t, a).value.state == Submitted)
      && (o.Done? <==>
            && AttemptAt(db, t, a).Some? && Unlocked(db, t, a) && AttemptAt(db, t, a).value.state == InProgress
            && r.tenant == db.open[t].tenant && AttemptColumns(r) && Unclashing(db, t, a, r))
  {
    AttemptColumnsExactly(r);
    NoClashExactly(db, t, a, r);
    assert LockedByOther(db, t, a) <==> !Unlocked(db, t, a);
    hide AttemptOk, AttemptColumns, HardClash, SoftClash, Unclashing, OneWriter, Unlocked, LockedByOther, Released;
    hide PutAttempt;
  }

  /** No submission, committed or uncommitted, has this key or is one of the same attempt. */
  ghost predicate FirstSubmission(db: Db, t: TxId, s: Id, r: Submission) {
    && s !in db.submissions && (forall b :: b in db.submissions ==> !SameParent(db.submissions[b], r))
    && forall u :: u in db.open ==>
         s !in db.open[u].submissions
         && forall b :: b in db.open[u].submissions ==> !SameParent(db.open[u].submissions[b], r)
  }

  ghost predicate SameParent(x: Submission, y: Submission) { (x.tenant, x.attempt) == (y.tenant, y.attempt) }

  lemma FirstExactly(db: Db, t: TxId, s: Id, r: Submission)
    requires t in db.open
    ensures !SubmissionHardClash(db, t, s, r) && !SubmissionSoftClash(db, t, s, r) <==> FirstSubmission(db, t, s, r)
  {
  }

  lemma InsertSubmissionAcceptedExactly(db: Db, t: TxId, s: Id, r: Submission)
    requires t in db.open
    ensures Step(db, InsertSubmission(t, s, r)).1.Done? <==>
      && r.tenant == db.open[t].tenant && SubmissionColumns(r) && FirstSubmission(db, t, s, r)
      && AttemptAt(db, t, r.attempt).Some?
  {
    SubmissionColumnsExactly(r);
    FirstExactly(db, t, s, r);
    hide SubmissionOk, SubmissionColumns, SubmissionHardClash, SubmissionSoftClash, FirstSubmission, SeesAttempt;
    hide Released, PutSubmission;
  }
}
