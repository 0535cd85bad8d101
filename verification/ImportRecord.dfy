/** The update guard of migration import records, over every run of update attempts on a row. */
module ImportRecord {
  import opened Basics
  import opened PgText
  import TextRules

  datatype Record = Record(
    tenant: nat, sourceSystem: string, sourceType: string, sourceId: string, sourceVersion: Option<string>,
    sourceDigest: string, mappingId: string, mappingVersion: int, firstBatch: nat, firstAttemptAt: int,
    lastBatch: nat, outcome: string, targetContent: Option<nat>, targetVersion: Option<nat>,
    attemptCount: int, lastAttemptAt: int, completedAt: Option<int>, failureCode: Option<string>)

  datatype Refusal = EvidenceImmutable | ImportedIsTerminal | InvalidImport | RetrySetsTargets | TransitionNotAllowed
    | CheckViolation

  predicate PlainText(s: string) { 1 <= |s| <= 255 && BtrimStable(s) && !HasControl(s) }

  predicate FailureCodeOk(s: string) {
    1 <= |s| <= 64 && 'a' <= s[0] <= 'z' && forall i :: 0 <= i < |s| ==> IdentifierChar(s[i])
  }

  predicate OutcomeOk(r: Record) {
    || (r.outcome == "IMPORTED" && r.targetContent.Some? && r.targetVersion.Some? && r.completedAt.Some?
      && r.failureCode.None?)
    || (r.outcome == "FAILED" && r.targetContent.None? && r.targetVersion.None? && r.failureCode.Some?)
  }

  /** The CHECK constraints of the table. */
  predicate RowOk(r: Record) {
    && IsIdentifier(r.sourceSystem) && IsIdentifier(r.sourceType) && PlainText(r.sourceId)
    && (r.sourceVersion.Some? ==> PlainText(r.sourceVersion.value))
    && IsSha256Hex(r.sourceDigest) && IsIdentifier(r.mappingId)
    && r.mappingVersion >= 1 && r.attemptCount >= 1
    && (r.failureCode.Some? ==> FailureCodeOk(r.failureCode.value))
    && OutcomeOk(r)
  }

  predicate SameEvidence(o: Record, n: Record) {
    && n.tenant == o.tenant && n.sourceSystem == o.sourceSystem && n.sourceType == o.sourceType
    && n.sourceId == o.sourceId && n.sourceVersion == o.sourceVersion && n.sourceDigest == o.sourceDigest
    && n.mappingId == o.mappingId && n.mappingVersion == o.mappingVersion
    && n.firstBatch == o.firstBatch && n.firstAttemptAt == o.firstAttemptAt
  }

  /** guard_migration_import_record_update; None lets the new row through. */
  function Guard(o: Record, n: Record): Option<Refusal> {
    if !SameEvidence(o, n) then Some(EvidenceImmutable)
    else if o.outcome == "IMPORTED"
        && (n.outcome != "IMPORTED" || n.targetContent != o.targetContent || n.targetVersion != o.targetVersion
            || n.completedAt != o.completedAt || n.failureCode != o.failureCode || n.attemptCount != o.attemptCount
            || n.lastBatch != o.lastBatch || n.lastAttemptAt != o.lastAttemptAt) then Some(ImportedIsTerminal)
    else if o.outcome == "FAILED" && n.outcome == "IMPORTED" then
      if n.targetContent.None? || n.targetVersion.None? || n.completedAt.None? || n.failureCode.Some?
      then Some(InvalidImport) else None
    else if o.outcome == "FAILED" && n.outcome == "FAILED" then
      if n.targetContent.Some? || n.targetVersion.Some? then Some(RetrySetsTargets) else None
    else if o.outcome != n.outcome then Some(TransitionNotAllowed)
    else None
  }

  function Update(o: Record, n: Record): Result<Record, Refusal> {
    var g := Guard(o, n);
    if g.Some? then Err(g.value) else if !RowOk(n) then Err(CheckViolation) else Ok(n)
  }

  class ImportRow {
    var row: Record

    ghost predicate Valid()
      reads this
    {
      RowOk(row)
    }

    constructor (r: Record)
      requires RowOk(r)
      ensures Valid() && row == r
    {
      row := r;
    }

    /** UPDATE of all columns: the trigger compares OLD and NEW, then the table constraints are checked. */
    method Assign(n: Record) returns (refused: Option<Refusal>)
      requires Valid()
      modifies this
      ensures Valid()
      ensures refused.None? <==> Update(old(row), n).Ok?
      ensures row == if refused.None? then n else old(row)
      ensures SameEvidence(old(row), row)
      ensures old(row).outcome == "IMPORTED" ==> row == old(row)
    {
      refused := Guard(row, n);
      if refused.Some? { return; }
      if !RowOk(n) { return Some(CheckViolation); }
      row := n;
    }
  }

  /**
   What the guard comes to beside the CHECK constraints: an update is accepted exactly if
   the new row is well formed, keeps the ten evidence columns, and either the old row had
   failed or nothing changes at all.
   */
  lemma AcceptedExactly(o: Record, n: Record)
    requires RowOk(o)
    ensures Update(o, n).Ok? <==> RowOk(n) && SameEvidence(o, n) && (o.outcome == "FAILED" || n == o)
  {
    hide PlainText, FailureCodeOk, IsIdentifier, IsSha256Hex;
  }

  /** The row after one update attempt; a refused one leaves it. */
  function Next(r: Record, n: Record): Record {
    var u := Update(r, n);
    if u.Ok? then u.value else r
  }

  /** The row after a run of update attempts. */
  function After(r: Record, attempts: seq<Record>): Record {
    if attempts == [] then r else Next(After(r, attempts[..|attempts| - 1]), attempts[|attempts| - 1])
  }

  predicate Follows(x: Record, y: Record) {
    && (x.outcome == "IMPORTED" ==> y == x)
    && (y.outcome == "FAILED" ==> x.outcome == "FAILED")
    && (x.outcome == "FAILED" || x.outcome == "IMPORTED")
    && SameEvidence(x, y)
  }

  lemma NextKeeps(r: Record, n: Record)
    requires RowOk(r)
    ensures RowOk(Next(r, n)) && Follows(r, Next(r, n))
  {
    hide PlainText, FailureCodeOk, IsIdentifier, IsSha256Hex;
    AcceptedExactly(r, n);
  }

  lemma FollowsTransitive(x: Record, y: Record, z: Record)
    requires Follows(x, y) && Follows(y, z)
    ensures Follows(x, z)
  {
  }

  lemma AfterNext(r: Record, attempts: seq<Record>, j: nat)
    requires j < |attempts|
    ensures After(r, attempts[..j + 1]) == Next(After(r, attempts[..j]), attempts[j])
  {
    hide Next;
    assert attempts[..j + 1][..j] == attempts[..j];
  }

  lemma {:induction false} RunKeeps(r: Record, attempts: seq<Record>)
    requires RowOk(r)
    ensures RowOk(After(r, attempts)) && SameEvidence(r, After(r, attempts))
  {
    hide RowOk, Next;
    if attempts != [] {
      RunKeeps(r, attempts[..|attempts| - 1]);
      NextKeeps(After(r, attempts[..|attempts| - 1]), attempts[|attempts| - 1]);
    }
  }

  /** Over every run the outcomes are FAILED* then IMPORTED*, and an imported row never changes again. */
  lemma {:induction false} ImportedForever(r: Record, attempts: seq<Record>, i: nat, j: nat)
    requires RowOk(r) && i <= j <= |attempts|
    ensures var x, y := After(r, attempts[..i]), After(r, attempts[..j]);
      && (x.outcome == "IMPORTED" ==> y == x)
      && (y.outcome == "FAILED" ==> x.outcome == "FAILED")
      && (x.outcome == "FAILED" || x.outcome == "IMPORTED")
      && SameEvidence(x, y)
  {
    hide RowOk, After, SameEvidence;
    AfterFollows(r, attempts, i, j);
  }

  lemma {:induction false} AfterFollows(r: Record, attempts: seq<Record>, i: nat, j: nat)
    requires RowOk(r) && i <= j <= |attempts|
    ensures Follows(After(r, attempts[..i]), After(r, attempts[..j]))
    decreases j - i
  {
    if i == j {
      RunKeeps(r, attempts[..i]);
      FollowsItself(After(r, attempts[..i]));
    } else {
      hide *;
      AfterFollows(r, attempts, i, j - 1);
      RunKeeps(r, attempts[..j - 1]);
      AfterNext(r, attempts, j - 1);
      NextKeeps(After(r, attempts[..j - 1]), attempts[j - 1]);
      FollowsTransitive(After(r, attempts[..i]), After(r, attempts[..j - 1]), After(r, attempts[..j]));
    }
  }

  lemma FollowsItself(r: Record)
    requires RowOk(r)
    ensures Follows(r, r)
  {
  }

  // ---- rows and refusals, column by column ----

  /** 1 to 255 characters, no space at either end, no control character. */
  ghost predicate SourceText(s: string) {
    && 1 <= |s| <= 255 && TextRules.Btrim(s) == s
    && forall c :: c in s ==> c as int >= 32 && !(127 <= c as int < 160)
  }

  ghost predicate Columns(r: Record) {
    && TextRules.Matches(TextRules.IDENTIFIER, r.sourceSystem) && TextRules.Matches(TextRules.IDENTIFIER, r.sourceType)
    && TextRules.Matches(TextRules.IDENTIFIER, r.mappingId) && TextRules.Matches(TextRules.SHA256, r.sourceDigest)
    && SourceText(r.sourceId) && (r.sourceVersion.Some? ==> SourceText(r.sourceVersion.value))
    && r.mappingVersion > 0 && r.attemptCount > 0
    && (r.failureCode.Some? ==> |r.failureCode.value| <= 64 && TextRules.Matches(TextRules.CODE, r.failureCode.value))
    && r.outcome in {"IMPORTED", "FAILED"}
    && (r.outcome == "IMPORTED" <==> r.targetContent.Some?) && (r.outcome == "IMPORTED" <==> r.targetVersion.Some?)
    && (r.outcome == "FAILED" <==> r.failureCode.Some?) && (r.outcome == "IMPORTED" ==> r.completedAt.Some?)
  }

  lemma SourceTextExactly(s: string)
    ensures PlainText(s) <==> SourceText(s)
  {
    TextRules.BtrimExactly(s);
    TextRules.ControlsExactly(s);
    hide TextRules.Btrim, HasControl, BtrimStable;
  }

  lemma FailureCodeExactly(s: string)
    ensures FailureCodeOk(s) <==> |s| <= 64 && TextRules.Matches(TextRules.CODE, s)
  {
    TextRules.FirstThenRest(s, None);
    hide TextRules.Matches, IdentifierChar;
  }

  /** The CHECK constraints on the columns. */
  lemma ColumnsExactly(r: Record)
    ensures RowOk(r) <==> Columns(r)
  {
    SourceTextExactly(r.sourceId);
    if r.sourceVersion.Some? { SourceTextExactly(r.sourceVersion.value); }
    if r.failureCode.Some? { FailureCodeExactly(r.failureCode.value); }
    TextRules.IdentifierIsPattern(r.sourceSystem);
    TextRules.IdentifierIsPattern(r.sourceType);
    TextRules.IdentifierIsPattern(r.mappingId);
    TextRules.Sha256IsPattern(r.sourceDigest);
    hide TextRules.Matches, PlainText, SourceText, FailureCodeOk, IsIdentifier, IsSha256Hex;
  }

  /** One of the ten evidence columns differs. */
  ghost predicate EvidenceChanged(o: Record, n: Record) {
    (o.tenant, o.sourceSystem, o.sourceType, o.sourceId, o.sourceVersion)
      != (n.tenant, n.sourceSystem, n.sourceType, n.sourceId, n.sourceVersion)
    || (o.sourceDigest, o.mappingId, o.mappingVersion, o.firstBatch, o.firstAttemptAt)
      != (n.sourceDigest, n.mappingId, n.mappingVersion, n.firstBatch, n.firstAttemptAt)
  }

  /** Why an update of a well-formed row is refused, for every new row. */
  lemma RefusedExactly(o: Record, n: Record)
    requires RowOk(o)
    ensures var u := Update(o, n);
      && (u == Err(EvidenceImmutable) <==> EvidenceChanged(o, n))
      && (!EvidenceChanged(o, n) ==>
           && (u == Err(ImportedIsTerminal) <==> o.outcome == "IMPORTED" && n != o)
           && (u == Err(InvalidImport) <==>
                 && o.outcome == "FAILED" && n.outcome == "IMPORTED"
                 && !(n.targetContent.Some? && n.targetVersion.Some? && n.completedAt.Some? && n.failureCode.None?))
           && (u == Err(RetrySetsTargets) <==>
                 && o.outcome == "FAILED" && n.outcome == "FAILED"
                 && (n.targetContent.Some? || n.targetVersion.Some?))
           && (u == Err(TransitionNotAllowed) <==> o.outcome == "FAILED" && n.outcome !in {"IMPORTED", "FAILED"}))
  {
    hide PlainText, FailureCodeOk, IsIdentifier, IsSha256Hex;
  }
}
