/**
 The learning schema as a transition system: committed tables, the row locks held on
 attempts, and the uncommitted writes of every open transaction. Step is the meaning of
 one statement of one transaction; a run is any sequence of steps, so every interleaving
 of statements is a run. UUIDs and transaction identifiers are natural numbers,
 timestamps are integers.
 */
module LearningModel {
  import opened Basics

  type Id = nat
  type TxId = nat

  datatype Lifecycle = InProgress | Submitted

  datatype Attempt = Attempt(
    tenant: Id, learner: Id, assignment: Id, content: Id, contentVersion: Id,
    classRef: string, number: int, state: Lifecycle,
    startedAt: int, lastSavedAt: Option<int>, submittedAt: Option<int>, submission: Option<Id>,
    revision: int, createdAt: int, updatedAt: int)

  datatype Kind = MultipleChoice | ShortAnswer | TrueFalse

  datatype ItemKey = ItemKey(tenant: Id, attempt: Id, question: string)

  datatype Item = Item(
    kind: Kind, choice: Option<string>, text: Option<string>, flag: Option<bool>,
    createdAt: int, updatedAt: int)

  datatype Submission = Submission(
    tenant: Id, attempt: Id, learner: Id, assignment: Id, content: Id, contentVersion: Id,
    classRef: string, snapshot: seq<string>, submittedAt: int,
    assignmentRevision: int, dueAt: Option<int>, createdAt: int)

  // ---- CHECK constraints ----

  predicate ClassRefOk(s: string) { !BtrimEmpty(s) && |s| <= 512 }

  predicate LifecycleEvidence(a: Attempt) {
    || (a.state.InProgress? && a.submittedAt.None? && a.submission.None?)
    || (a.state.Submitted? && a.submittedAt.Some? && a.submission.Some?)
  }

  predicate AttemptOk(a: Attempt) {
    && ClassRefOk(a.classRef)
    && a.number >= 1 && a.revision >= 0
    && LifecycleEvidence(a)
    && a.updatedAt >= a.createdAt
    && (a.lastSavedAt.Some? ==> a.lastSavedAt.value >= a.startedAt)
    && (a.submittedAt.Some? ==> a.submittedAt.value >= a.startedAt)
  }

  predicate ItemOk(k: ItemKey, i: Item) {
    && !BtrimEmpty(k.question) && |k.question| <= 128
    && i.updatedAt >= i.createdAt
    && match i.kind
       case MultipleChoice =>
         i.choice.Some? && !BtrimEmpty(i.choice.value) && |i.choice.value| <= 256 && i.text.None? && i.flag.None?
       case ShortAnswer =>
         i.text.Some? && !BtrimEmpty(i.text.value) && |i.text.value| <= 4096 && i.choice.None? && i.flag.None?
       case TrueFalse =>
         i.flag.Some? && i.choice.None? && i.text.None?
  }

  predicate SubmissionOk(s: Submission) { ClassRefOk(s.classRef) && s.assignmentRevision >= 0 }

  // ---- unique constraints and the partial unique index ----

  predicate SameSequence(x: Attempt, y: Attempt) {
    x.tenant == y.tenant && x.learner == y.learner && x.assignment == y.assignment && x.number == y.number
  }

  predicate BothOpen(x: Attempt, y: Attempt) {
    && x.tenant == y.tenant && x.learner == y.learner && x.assignment == y.assignment
    && x.state.InProgress? && y.state.InProgress?
  }

  predicate Clash(x: Attempt, y: Attempt) { SameSequence(x, y) || BothOpen(x, y) }

  predicate SameAttempt(x: Submission, y: Submission) { x.tenant == y.tenant && x.attempt == y.attempt }

  // ---- state ----

  /** An open transaction: its RLS tenant and its uncommitted writes (None is a deleted item). */
  datatype Tx = Tx(
    tenant: Id,
    attempts: map<Id, Attempt>,
    items: map<ItemKey, Option<Item>>,
    submissions: map<Id, Submission>)

  datatype Db = Db(
    attempts: map<Id, Attempt>,
    items: map<ItemKey, Item>,
    submissions: map<Id, Submission>,
    locks: map<Id, TxId>,
    open: map<TxId, Tx>)

  const EMPTY_DB := Db(map[], map[], map[], map[], map[])

  datatype Reason =
    | TransactionState | UniqueViolation | CheckViolation | RowSecurity | ForeignKey
    | SubmittedIsTerminal | ParentNotFound | ParentNotInProgress

  /** NoRow: the WHERE clause matched nothing. Blocked: the statement waits for another transaction. */
  datatype Outcome = Done | NoRow | Blocked | Rejected(reason: Reason)

  datatype Op =
    | Begin(t: TxId, tenant: Id)
    | LockAttempt(t: TxId, a: Id)
    | InsertAttempt(t: TxId, a: Id, attempt: Attempt)
    | UpdateAttempt(t: TxId, a: Id, attempt: Attempt)
    | InsertItem(t: TxId, k: ItemKey, item: Item)
    | UpdateItem(t: TxId, k: ItemKey, newKey: ItemKey, item: Item)
    | DeleteItem(t: TxId, k: ItemKey)
    | InsertSubmission(t: TxId, s: Id, submission: Submission)
    | Commit(t: TxId)
    | Abort(t: TxId)

  // ---- what a transaction sees: its own writes over the committed tables, within its tenant ----

  predicate SeesAttempt(db: Db, t: TxId, a: Id)
    requires t in db.open
  {
    (a in db.open[t].attempts || a in db.attempts) && SeenAttempt(db, t, a).tenant == db.open[t].tenant
  }

  function SeenAttempt(db: Db, t: TxId, a: Id): Attempt
    requires t in db.open && (a in db.open[t].attempts || a in db.attempts)
  {
    if a in db.open[t].attempts then db.open[t].attempts[a] else db.attempts[a]
  }

  predicate SeesItem(db: Db, t: TxId, k: ItemKey)
    requires t in db.open
  {
    && k.tenant == db.open[t].tenant
    && (if k in db.open[t].items then db.open[t].items[k].Some? else k in db.items)
  }

  predicate LockedByOther(db: Db, t: TxId, a: Id) { a in db.locks && db.locks[a] != t }

  predicate ItemHeldByOther(db: Db, t: TxId, k: ItemKey) {
    exists u :: u in db.open && u != t && k in db.open[u].items
  }

  // ---- index probes ----

  predicate AttemptPendingElsewhere(db: Db, t: TxId, b: Id) {
    exists u :: u in db.open && u != t && b in db.open[u].attempts
  }

  /** A row that is certain to stay clashes with the new version of a. */
  predicate HardClash(db: Db, t: TxId, a: Id, r: Attempt)
    requires t in db.open
  {
    || (exists b :: b in db.open[t].attempts && b != a && Clash(db.open[t].attempts[b], r))
    || (exists b :: b in db.attempts && b != a && b !in db.open[t].attempts
                    && !AttemptPendingElsewhere(db, t, b) && Clash(db.attempts[b], r))
  }

  /** Transaction u holds a version of b; either that version or the committed one clashes with r. */
  predicate Undecided(db: Db, u: TxId, b: Id, r: Attempt) {
    && u in db.open && b in db.open[u].attempts
    && (Clash(db.open[u].attempts[b], r) || (b in db.attempts && Clash(db.attempts[b], r)))
  }

  /** A row whose fate another open transaction decides clashes with the new version of a. */
  predicate SoftClash(db: Db, t: TxId, a: Id, r: Attempt) {
    exists u, b :: u in db.open && b in db.open[u].attempts && u != t && b != a && Undecided(db, u, b, r)
  }

  predicate SubmissionHardClash(db: Db, t: TxId, s: Id, r: Submission)
    requires t in db.open
  {
    || s in db.submissions || s in db.open[t].submissions
    || (exists b :: b in db.submissions && SameAttempt(db.submissions[b], r))
    || (exists b :: b in db.open[t].submissions && SameAttempt(db.open[t].submissions[b], r))
  }

  predicate SubmissionSoftClash(db: Db, t: TxId, s: Id, r: Submission) {
    exists u, b ::
      && u in db.open && u != t && b in db.open[u].submissions
      && (b == s || SameAttempt(db.open[u].submissions[b], r))
  }

  // ---- effects ----

  ghost predicate SameTables(db: Db, n: Db) {
    n.attempts == db.attempts && n.items == db.items && n.submissions == db.submissions
  }

  /** No item is written: item write sets stay or vanish, and the other transactions keep their locks. */
  ghost predicate Quiet(db: Db, n: Db) {
    && SameTables(db, n)
    && (forall u :: u in n.open ==> u in db.open && n.open[u].items == db.open[u].items)
    && (forall b :: b in db.locks && db.locks[b] in n.open ==> b in n.locks && n.locks[b] == db.locks[b])
  }

  function PutAttempt(db: Db, t: TxId, a: Id, r: Attempt): (n: Db)
    requires t in db.open
    ensures !LockedByOther(db, t, a) ==> Quiet(db, n)
  {
    var tx := db.open[t];
    db.(locks := db.locks[a := t], open := db.open[t := tx.(attempts := tx.attempts[a := r])])
  }

  function PutItems(db: Db, t: TxId, a: Id, w: map<ItemKey, Option<Item>>): (n: Db)
    requires t in db.open
    ensures SameTables(db, n)
  {
    var tx := db.open[t];
    db.(locks := db.locks[a := t], open := db.open[t := tx.(items := tx.items + w)])
  }

  function PutSubmission(db: Db, t: TxId, s: Id, r: Submission): (n: Db)
    requires t in db.open
    ensures Quiet(db, n)
  {
    var tx := db.open[t];
    db.(open := db.open[t := tx.(submissions := tx.submissions[s := r])])
  }

  /** The transaction ends: its locks and its write set go. */
  function Released(db: Db, t: TxId): (n: Db)
    ensures Quiet(db, n)
  {
    db.(locks := map a | a in db.locks && db.locks[a] != t :: db.locks[a], open := db.open - {t})
  }

  function ApplyItems(m: map<ItemKey, Item>, w: map<ItemKey, Option<Item>>): map<ItemKey, Item> {
    map k | k in m.Keys + w.Keys && (k in w ==> w[k].Some?) :: if k in w then w[k].value else m[k]
  }

  function Committed(db: Db, t: TxId): Db
    requires t in db.open
  {
    var tx := db.open[t];
    Released(db, t).(
      attempts := db.attempts + tx.attempts,
      items := ApplyItems(db.items, tx.items),
      submissions := db.submissions + tx.submissions)
  }

  /** An error aborts the transaction. */
  function Fail(db: Db, t: TxId, reason: Reason): (Db, Outcome) { (Released(db, t), Rejected(reason)) }

  // ---- triggers ----

  /** reject_response_item_when_attempt_not_in_progress for the parent (tenant, attempt) it selected. */
  function ItemGuard(db: Db, t: TxId, parent: ItemKey): Outcome
    requires t in db.open
  {
    if !SeesAttempt(db, t, parent.attempt) || SeenAttempt(db, t, parent.attempt).tenant != parent.tenant then
      Rejected(ParentNotFound)
    else if LockedByOther(db, t, parent.attempt) then
      Blocked
    else if !SeenAttempt(db, t, parent.attempt).state.InProgress? then
      Rejected(ParentNotInProgress)
    else
      Done
  }

  // ---- statements ----

  function WriteAttempt(db: Db, t: TxId, a: Id, r: Attempt): (n: (Db, Outcome))
    requires t in db.open && !LockedByOther(db, t, a)
    ensures Quiet(db, n.0)
  {
    if r.tenant != db.open[t].tenant then Fail(db, t, RowSecurity)
    else if !AttemptOk(r) then Fail(db, t, CheckViolation)
    else if HardClash(db, t, a, r) then Fail(db, t, UniqueViolation)
    else if SoftClash(db, t, a, r) then (db, Blocked)
    else (PutAttempt(db, t, a, r), Done)
  }

  function DoInsertAttempt(db: Db, t: TxId, a: Id, r: Attempt): (n: (Db, Outcome))
    requires t in db.open
    ensures Quiet(db, n.0)
  {
    if a in db.attempts || a in db.open[t].attempts then Fail(db, t, UniqueViolation)
    else if AttemptPendingElsewhere(db, t, a) || LockedByOther(db, t, a) then (db, Blocked)
    else WriteAttempt(db, t, a, r)
  }

  /** The new row keeps its primary key; the terminal trigger reads the row version locked last. */
  function DoUpdateAttempt(db: Db, t: TxId, a: Id, r: Attempt): (n: (Db, Outcome))
    requires t in db.open
    ensures Quiet(db, n.0)
  {
    if !SeesAttempt(db, t, a) then (db, NoRow)
    else if LockedByOther(db, t, a) then (db, Blocked)
    else if SeenAttempt(db, t, a).state.Submitted? then Fail(db, t, SubmittedIsTerminal)
    else WriteAttempt(db, t, a, r)
  }

  function DoInsertItem(db: Db, t: TxId, k: ItemKey, i: Item): (n: (Db, Outcome))
    requires t in db.open
    ensures SameTables(db, n.0)
  {
    var g := ItemGuard(db, t, k);
    if g.Rejected? then Fail(db, t, g.reason)
    else if g.Blocked? || ItemHeldByOther(db, t, k) then (db, Blocked)
    else if !ItemOk(k, i) then Fail(db, t, CheckViolation)
    else if SeesItem(db, t, k) then Fail(db, t, UniqueViolation)
    else (PutItems(db, t, k.attempt, map[k := Some(i)]), Done)
  }

  /** The trigger reads NEW only: the parent of the old key is neither locked nor tested. */
  function DoUpdateItem(db: Db, t: TxId, k: ItemKey, k': ItemKey, i: Item): (n: (Db, Outcome))
    requires t in db.open
    ensures SameTables(db, n.0)
  {
    if !SeesItem(db, t, k) then (db, NoRow)
    else if ItemHeldByOther(db, t, k) then (db, Blocked)
    else
      var g := ItemGuard(db, t, k');
      if g.Rejected? then Fail(db, t, g.reason)
      else if g.Blocked? || ItemHeldByOther(db, t, k') then (db, Blocked)
      else if !ItemOk(k', i) then Fail(db, t, CheckViolation)
      else if k' != k && SeesItem(db, t, k') then Fail(db, t, UniqueViolation)
      else (PutItems(db, t, k'.attempt, map[k := None] + map[k' := Some(i)]), Done)
  }

  function DoDeleteItem(db: Db, t: TxId, k: ItemKey): (n: (Db, Outcome))
    requires t in db.open
    ensures SameTables(db, n.0)
  {
    if !SeesItem(db, t, k) then (db, NoRow)
    else if ItemHeldByOther(db, t, k) then (db, Blocked)
    else
      var g := ItemGuard(db, t, k);
      if g.Rejected? then Fail(db, t, g.reason)
      else if g.Blocked? then (db, Blocked)
      else (PutItems(db, t, k.attempt, map[k := None]), Done)
  }

  function DoInsertSubmission(db: Db, t: TxId, s: Id, r: Submission): (n: (Db, Outcome))
    requires t in db.open
    ensures Quiet(db, n.0)
  {
    if r.tenant != db.open[t].tenant then Fail(db, t, RowSecurity)
    else if !SubmissionOk(r) then Fail(db, t, CheckViolation)
    else if SubmissionHardClash(db, t, s, r) then Fail(db, t, UniqueViolation)
    else if SubmissionSoftClash(db, t, s, r) then (db, Blocked)
    else if !SeesAttempt(db, t, r.attempt) then Fail(db, t, ForeignKey)
    else (PutSubmission(db, t, s, r), Done)
  }

  function DoLockAttempt(db: Db, t: TxId, a: Id): (n: (Db, Outcome))
    requires t in db.open
    ensures Quiet(db, n.0)
  {
    if !SeesAttempt(db, t, a) then (db, NoRow)
    else if LockedByOther(db, t, a) then (db, Blocked)
    else (db.(locks := db.locks[a := t]), Done)
  }

  function Step(db: Db, op: Op): (Db, Outcome) {
    if op.Begin? then
      if op.t in db.open then (db, Rejected(TransactionState))
      else (db.(open := db.open[op.t := Tx(op.tenant, map[], map[], map[])]), Done)
    else if op.t !in db.open then (db, Rejected(TransactionState))
    else match op
      case LockAttempt(t, a) => DoLockAttempt(db, t, a)
      case InsertAttempt(t, a, r) => DoInsertAttempt(db, t, a, r)
      case UpdateAttempt(t, a, r) => DoUpdateAttempt(db, t, a, r)
      case InsertItem(t, k, i) => DoInsertItem(db, t, k, i)
      case UpdateItem(t, k, k', i) => DoUpdateItem(db, t, k, k', i)
      case DeleteItem(t, k) => DoDeleteItem(db, t, k)
      case InsertSubmission(t, s, r) => DoInsertSubmission(db, t, s, r)
      case Commit(t) => (Committed(db, t), Done)
      case Abort(t) => (Released(db, t), Done)
  }

  function Run(db: Db, ops: seq<Op>): Db
    decreases |ops|
  {
    if ops == [] then db else Run(Step(db, ops[0]).0, ops[1..])
  }
}
