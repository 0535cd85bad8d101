/**
 Teaching works and their remediation origins, with foreign keys that are checked at the end
 of a statement and constraint triggers that wait until commit. A statement may change any
 number of rows. Every open transaction keeps its uncommitted rows and its queue of deferred
 checks; a run is any interleaving of statements.
 */
module RemediationModel {
  import opened Basics

  type Id = nat
  type TxId = nat

  datatype Intent = PrepareTomorrow | RemediateClass

  datatype Work = Work(tenant: Id, intent: Intent, goal: string, revision: int)

  datatype Level = Demonstrated | Mixed | NotYetDemonstrated

  datatype Origin = Origin(
    tenant: Id, assessment: Id, assessmentRevision: int, level: Level, classRef: string,
    sourceWork: Option<Id>)

  type Works = map<Id, Work>

  type Origins = map<Id, Origin>

  /** The row that fired an AFTER INSERT constraint trigger. */
  datatype Deferred = WorkInserted(w: Id, tenant: Id, intent: Intent) | OriginInserted(w: Id, tenant: Id)

  /**
   An open transaction: moved holds the keys that its updates have taken from rows, and
   immediate is its SET CONSTRAINTS mode.
   */
  datatype Tx = Tx(
    tenant: Id, works: Works, moved: set<Id>, origins: Origins, queue: seq<Deferred>, immediate: bool)

  datatype Db = Db(works: Works, origins: Origins, open: map<TxId, Tx>)

  datatype Reason =
    | TransactionState | RowSecurity | CheckViolation | UniqueViolation | ForeignKey
    | IntentImmutable | OriginImmutable | OriginRequired | RemediateRequired

  datatype Outcome = Done | Blocked | Rejected(reason: Reason)

  /** What a statement does to one row. An update of a work gives the row with key w the key k. */
  datatype Change =
    | NewWork(w: Id, work: Work)
    | SetWork(w: Id, k: Id, work: Work)
    | NewOrigin(w: Id, origin: Origin)
    | SetOrigin(w: Id, row: Option<Origin>)

  datatype Op =
    | Begin(t: TxId, tenant: Id)
    | Statement(t: TxId, changes: seq<Change>)
    | SetConstraints(t: TxId, immediate: bool)
    | Commit(t: TxId)
    | Abort(t: TxId)

  // ---- what a transaction sees ----

  /** The work rows of a transaction's view: its own over the committed ones whose keys it has not moved. */
  function Rows(works: Works, tx: Tx): Works { (works - tx.moved) + tx.works }

  function SeenWorks(db: Db, t: TxId): Works
    requires t in db.open
  {
    Rows(db.works, db.open[t])
  }

  function SeenOrigins(db: Db, t: TxId): Origins
    requires t in db.open
  {
    db.origins + db.open[t].origins
  }

  /** A row with this composite key. */
  predicate HasRow(works: Works, w: Id, tenant: Id) { w in works && works[w].tenant == tenant }

  // ---- what other transactions hold ----

  predicate WorkPendingElsewhere(db: Db, t: TxId, w: Id) {
    exists u :: u in db.open && u != t && (w in db.open[u].works || w in db.open[u].moved)
  }

  predicate OriginPendingElsewhere(db: Db, t: TxId, w: Id) {
    exists u :: u in db.open && u != t && w in db.open[u].origins
  }

  /** Another transaction is changing the key of w, so a foreign-key check on it has to wait. */
  predicate MovingElsewhere(db: Db, t: TxId, w: Id) {
    exists u :: u in db.open && u != t && w in db.open[u].moved
  }

  /** One of the two foreign keys of the origin of v names work w. */
  predicate RefersTo(v: Id, o: Origin, w: Id) { v == w || o.sourceWork == Some(w) }

  /** An uncommitted origin of another transaction refers to w and holds its key. */
  predicate KeyHeldElsewhere(db: Db, t: TxId, w: Id) {
    exists u :: u in db.open && u != t &&
      exists v :: v in db.open[u].origins && RefersTo(v, db.open[u].origins[v], w)
  }

  // ---- constraint triggers ----

  /** enforce_remediation_work_has_origin and enforce_origin_work_is_remediate_class, in one view. */
  predicate Passes(works: Works, origins: Origins, d: Deferred) {
    match d
    case WorkInserted(w, tenant, intent) =>
      intent.RemediateClass? ==> w in origins && origins[w].tenant == tenant
    case OriginInserted(w, tenant) => HasRow(works, w, tenant) && works[w].intent.RemediateClass?
  }

  function ReasonOf(d: Deferred): Reason { if d.WorkInserted? then OriginRequired else RemediateRequired }

  /** The checks run in order up to the first that raises. */
  function FirstFailure(works: Works, origins: Origins, queue: seq<Deferred>): (f: Option<Deferred>)
    ensures f.None? <==> forall d :: d in queue ==> Passes(works, origins, d)
  {
    if queue == [] then None
    else if !Passes(works, origins, queue[0]) then Some(queue[0])
    else FirstFailure(works, origins, queue[1..])
  }

  // ---- one statement, row by row ----

  /**
   A statement in progress: the transaction so far; the work rows it found at its start and has
   not updated yet; the triggers it has fired; the keys that rows have left, the keys that
   remedial rows have moved to, and the origins it has added.
   */
  datatype Progress = Progress(
    tx: Tx, found: Works, fired: seq<Deferred>, left: set<Id>, landed: set<Id>, added: set<Id>)

  datatype RowResult = Going(p: Progress) | Waiting | Failing(reason: Reason)

  predicate WorkChecks(r: Work) { !BtrimEmpty(r.goal) && r.revision >= 0 }

  predicate OriginChecks(o: Origin) { o.assessmentRevision >= 0 && !BtrimEmpty(o.classRef) }

  function InsertWork(db: Db, t: TxId, p: Progress, w: Id, r: Work): RowResult {
    var x := p.tx;
    if r.tenant != x.tenant then Failing(RowSecurity)
    else if !WorkChecks(r) then Failing(CheckViolation)
    else if w in Rows(db.works, x) then Failing(UniqueViolation)
    else if WorkPendingElsewhere(db, t, w) then Waiting
    else Going(p.(tx := x.(works := x.works[w := r]), fired := p.fired + [WorkInserted(w, r.tenant, r.intent)]))
  }

  /**
   The intent may not change. A new key waits for transactions whose origins refer to the old
   one. No trigger looks at a change of the key itself.
   */
  function UpdateWork(db: Db, t: TxId, p: Progress, w: Id, k: Id, r: Work): RowResult {
    var x := p.tx;
    if w !in p.found then Going(p)
    else if WorkPendingElsewhere(db, t, w) || (k != w && KeyHeldElsewhere(db, t, w)) then Waiting
    else if r.intent != p.found[w].intent then Failing(IntentImmutable)
    else if r.tenant != x.tenant then Failing(RowSecurity)
    else if !WorkChecks(r) then Failing(CheckViolation)
    else if k == w then Going(p.(tx := x.(works := x.works[w := r]), found := p.found - {w}))
    else if k in Rows(db.works, x) then Failing(UniqueViolation)
    else if WorkPendingElsewhere(db, t, k) then Waiting
    else
      Going(p.(
        tx := x.(works := (x.works - {w})[k := r], moved := x.moved + {w}), found := p.found - {w},
        left := p.left + {w}, landed := if r.intent.RemediateClass? then p.landed + {k} else p.landed))
  }

  function InsertOrigin(db: Db, t: TxId, p: Progress, w: Id, o: Origin): RowResult {
    var x := p.tx;
    if o.tenant != x.tenant then Failing(RowSecurity)
    else if !OriginChecks(o) then Failing(CheckViolation)
    else if w in db.origins || w in x.origins then Failing(UniqueViolation)
    else if OriginPendingElsewhere(db, t, w) then Waiting
    else
      Going(p.(
        tx := x.(origins := x.origins[w := o]), fired := p.fired + [OriginInserted(w, o.tenant)],
        added := p.added + {w}))
  }

  /**
   UPDATE with a proposed row, or DELETE. The row-level triggers refuse every change of an origin,
   but fire only for a row that the statement finds.
   */
  function UpdateOrigin(db: Db, t: TxId, p: Progress, w: Id, row: Option<Origin>): RowResult
    requires t in db.open
  {
    var found := SeenOrigins(db, t);
    if w in found && found[w].tenant == p.tx.tenant then Failing(OriginImmutable) else Going(p)
  }

  function Apply(db: Db, t: TxId, p: Progress, c: Change): RowResult
    requires t in db.open
  {
    match c
    case NewWork(w, r) => InsertWork(db, t, p, w, r)
    case SetWork(w, k, r) => UpdateWork(db, t, p, w, k, r)
    case NewOrigin(w, o) => InsertOrigin(db, t, p, w, o)
    case SetOrigin(w, row) => UpdateOrigin(db, t, p, w, row)
  }

  function ApplyAll(db: Db, t: TxId, p: Progress, changes: seq<Change>): RowResult
    requires t in db.open
    decreases |changes|
  {
    if changes == [] then Going(p)
    else
      match Apply(db, t, p, changes[0])
      case Going(q) => ApplyAll(db, t, q, changes[1..])
      case other => other
  }

  // ---- the end of a statement ----

  /** An added origin names a work that does not exist. */
  predicate OriginDangles(works: Works, o: Origin, w: Id) {
    !HasRow(works, w, o.tenant) || (o.sourceWork.Some? && !HasRow(works, o.sourceWork.value, o.tenant))
  }

  /** NO ACTION: a key that a row has left is missed only if some origin refers to it and no row has it now. */
  predicate KeyMissed(works: Works, origins: Origins, tenant: Id, l: Id) {
    !HasRow(works, l, tenant) && exists v :: v in origins && origins[v].tenant == tenant && RefersTo(v, origins[v], l)
  }

  predicate ForeignKeysFail(works: Works, origins: Origins, p: Progress) {
    || (exists w :: w in p.added && w in p.tx.origins && OriginDangles(works, p.tx.origins[w], w))
    || (exists l :: l in p.left && KeyMissed(works, origins, p.tx.tenant, l))
  }

  predicate ForeignKeysWait(db: Db, t: TxId, p: Progress) {
    exists w :: w in p.added && w in p.tx.origins &&
      (MovingElsewhere(db, t, w)
       || (p.tx.origins[w].sourceWork.Some? && MovingElsewhere(db, t, p.tx.origins[w].sourceWork.value)))
  }

  function Released(db: Db, t: TxId): Db { db.(open := db.open - {t}) }

  function Fail(db: Db, t: TxId, reason: Reason): (Db, Outcome) { (Released(db, t), Rejected(reason)) }

  /** Constraint triggers fire at once if constraints are immediate, and else are queued. */
  function Ended(p: Progress): Tx { if p.tx.immediate then p.tx else p.tx.(queue := p.tx.queue + p.fired) }

  function Finish(db: Db, t: TxId, p: Progress): (Db, Outcome) {
    var works, origins := Rows(db.works, p.tx), db.origins + p.tx.origins;
    if ForeignKeysFail(works, origins, p) then Fail(db, t, ForeignKey)
    else if ForeignKeysWait(db, t, p) then (db, Blocked)
    else
      var failure := if p.tx.immediate then FirstFailure(works, origins, p.fired) else None;
      match failure
      case Some(d) => Fail(db, t, ReasonOf(d))
      case None => (db.(open := db.open[t := Ended(p)]), Done)
  }

  function Started(db: Db, t: TxId): Progress
    requires t in db.open
  {
    var rows := SeenWorks(db, t);
    Progress(db.open[t], map w | w in rows && rows[w].tenant == db.open[t].tenant :: rows[w], [], {}, {}, {})
  }

  function DoStatement(db: Db, t: TxId, changes: seq<Change>): (Db, Outcome)
    requires t in db.open
  {
    match ApplyAll(db, t, Started(db, t), changes)
    case Waiting => (db, Blocked)
    case Failing(reason) => Fail(db, t, reason)
    case Going(p) => Finish(db, t, p)
  }

  // ---- the other operations ----

  /** SET CONSTRAINTS ALL: IMMEDIATE runs what is queued first. */
  function DoSetConstraints(db: Db, t: TxId, immediate: bool): (Db, Outcome)
    requires t in db.open
  {
    var x := db.open[t];
    if !immediate then (db.(open := db.open[t := x.(immediate := false)]), Done)
    else
      match FirstFailure(SeenWorks(db, t), SeenOrigins(db, t), x.queue)
      case Some(d) => Fail(db, t, ReasonOf(d))
      case None => (db.(open := db.open[t := x.(queue := [], immediate := true)]), Done)
  }

  function DoCommit(db: Db, t: TxId): (Db, Outcome)
    requires t in db.open
  {
    match FirstFailure(SeenWorks(db, t), SeenOrigins(db, t), db.open[t].queue)
    case Some(d) => Fail(db, t, ReasonOf(d))
    case None => (Db(SeenWorks(db, t), SeenOrigins(db, t), db.open - {t}), Done)
  }

  function NewTx(tenant: Id): Tx { Tx(tenant, map[], {}, map[], [], false) }

  function Step(db: Db, op: Op): (Db, Outcome) {
    if op.Begin? then
      if op.t in db.open then (db, Rejected(TransactionState))
      else (db.(open := db.open[op.t := NewTx(op.tenant)]), Done)
    else if op.t !in db.open then (db, Rejected(TransactionState))
    else match op
      case Statement(t, changes) => DoStatement(db, t, changes)
      case SetConstraints(t, immediate) => DoSetConstraints(db, t, immediate)
      case Commit(t) => DoCommit(db, t)
      case Abort(t) => (Released(db, t), Done)
  }

  function Run(db: Db, ops: seq<Op>): Db
    decreases |ops|
  {
    if ops == [] then db else Run(Step(db, ops[0]).0, ops[1..])
  }
}
