# Verified model of the AIEOS data rules and codecs

This project states and proves what the persistence layer, the quality evaluators, the
development School Context provider and the codecs of the repository guarantee. Every
`.dfy` file is one component; `dafny verify dfyconfig.toml` checks them all.

**Learner attempts** (`LearningModel`, `LearningInvariant`, `LearningFreeze`,
`LearningStore`, `LearningStatements`). Attempts, response items and submissions as a transition system over
committed tables, row locks and the uncommitted writes of any number of open
transactions, at READ COMMITTED. A run is any interleaving of statements. `AttemptStore`
is the same store as an object whose methods change its fields, each proved equal to a
step; `LearningStatements` says what each statement shows, what a commit stores and exactly
which statements are accepted, by rows and columns. The schema's promise that a submitted attempt is frozen does not hold as it stands:
the item trigger examines only the new row of an UPDATE, so an item can be moved out of a
submitted attempt. The model gives such a run, and the condition on the update under
which the promise holds, in both directions.

**Preparation quality** (`AlignmentSearch`, `Payloads`, `PreparationQuality`,
`PreparationEvaluator`, `PreparationMinimal`, `PayloadFields`, `PreparationFields`). The 22-check verdict over six artifacts.
The evaluators are methods with the loops, flags and dictionaries of the program, proved
equal to a declarative report. Six checks decide the verdict; each of the six is needed.
`PayloadFields` and `PreparationFields` say field by field what the validators admit and
what each check searches.
Word characters and case folding are parameters.

**Dispatch candidates** (`DispatchCandidates`). Filter, union, minimum per tenant, order
and limit, as loops, against a declarative listing, and the listing told by status and columns.

**Remediation origins** (`RemediationModel`, `RemediationStatements`, `RemediationPairing`,
`RemediationRuns`, `RemediationMoves`, `RemediationTrace`, `RemediationHistory`,
`RemediationForeignKeys`, `RemediationAcceptance`, `RemediationStore`). Statements
that insert and update any number of rows, foreign keys that are examined at their end,
constraint triggers that queue until commit and look at their own transaction's rows only,
and the global pairing that they nevertheless keep, with one exception: an UPDATE may
change the key of a remedial work, and no trigger looks at it. The model gives runs in
which a work loses its origin in this way, and the exact rule on a statement under which
the pairing survives, and proves the pairing for all runs that meet it. Whether they meet it
or not, origins never change, both foreign keys and the CHECKs hold over every run.

**Provenance and generation fences** (`Json`, `Provenance`, `TextRules`, `Uuids`, `UuidTexts`,
`GenerationFences`, `GenerationColumns`, `GenerationStore`, `RunBinding`). The validators over all jsonb values under three-valued logic, with
raising as a third verdict; old and new unique indexes, checks and migration guards.
`GenerationColumns` tells the fences by their columns, and `Tables` holds the rows and the
schema stage. The version indexes compare the texts of run
ids; `RunBinding` says exactly which rules on those texts make them bind versions to runs.

**Audit references** (`RelatedRefs`), **import records** (`ImportRecord`), **School
Context** (`SchoolFacts`, `SchoolRevalidation`, `SchoolProvider`), **Luhn check** (`Luhn`),
**cursors** (`Base64Url`, `FlatJson`, `Timestamps`, `Cursors`), **entity tags** (`IfMatch`)
and **release checks** (`MigrationHeads`, `TarNames`) follow the same pattern: the loop or
object as the program has it, a specification that does not mention it, and theorems about
every input or every run. `Basics`, `Decimals` and `PgText` hold shared definitions.

Where the code and its description differ, the model follows the code: the freeze of
submitted attempts (above); the pairing of works and origins, which a change of a remedial
work's key can undo; the binding of a version to its run, which depends on how run ids are
spelled; and the single migration head, which does not by itself exclude a cycle beside the
history.

## Model

| member | source | states |
|---|---|---|
| LearningInvariant.StepKeeps | migrations/versions/a360s010001_learning_attempt_submission.py:71-329 | Every statement of every transaction, whatever its outcome, keeps the invariant over tables, write sets and row locks: no two rows clash on a unique index, two open transactions never hold writes that exclude each other, every item write holds the lock of its parent. |
| LearningInvariant.RunKeeps | migrations/versions/a360s010001_learning_attempt_submission.py:71-329 | The same over every interleaving of any length. |
| LearningInvariant.ReachableTables | migrations/versions/a360s010001_learning_attempt_submission.py:71-247 | In every reachable database: at most one IN_PROGRESS attempt and at most one row per attempt number for a learner on an assignment, evidence columns agree with the lifecycle, one submission per attempt, and every item and submission has a parent attempt of its tenant. |
| LearningFreeze.StepFreezesRows | migrations/versions/a360s010001_learning_attempt_submission.py:309-351 | No step of the model removes an attempt row, changes a SUBMITTED attempt row or changes a submission. The model's UPDATE of an IN_PROGRESS attempt keeps its key; see Left out. |
| LearningFreeze.RowsForever | migrations/versions/a360s010001_learning_attempt_submission.py:309-351 | The same over every run of the model's statements, with no discipline on item updates; key-changing updates of IN_PROGRESS attempts are left out. |
| LearningFreeze.StepFreezesItems | migrations/versions/a360s010001_learning_attempt_submission.py:248-308 | If item writes are guarded by the parent's row lock and the next item update keeps its parent (or holds the old parent's lock while it is not submitted), the items of submitted attempts stay as they are and the guarding continues. |
| LearningFreeze.RunFreezes | migrations/versions/a360s010001_learning_attempt_submission.py:248-329 | Over every disciplined interleaving, submitted attempt rows, their items and all submissions are frozen. |
| LearningFreeze.SubmittedForever | migrations/versions/a360s010001_learning_attempt_submission.py:248-329 | What is submitted after any disciplined run from the empty database is the same after every disciplined continuation of it. |
| LearningFreeze.MoveIsSafeExactlyIfParentGuarded | migrations/versions/a360s010001_learning_attempt_submission.py:259-278 | The exact condition for an accepted item update: all later steps of all disciplined runs leave submitted attempts alone if and only if the update kept (tenant, attempt) or its transaction holds the lock of the old, unsubmitted parent. |
| LearningFreeze.UndisciplinedMoveThaws | migrations/versions/a360s010001_learning_attempt_submission.py:259-265 | For every accepted update that breaks the condition there is a disciplined continuation whose commit changes a submitted attempt's items: the trigger's UPDATE branch looks at NEW only. |
| LearningFreeze.ItemLeavesSubmittedAttempt | migrations/versions/a360s010001_learning_attempt_submission.py:259-283 | A concrete run from the empty database in which an answer leaves a submitted attempt. |
| LearningFreeze.OtherTenantsUntouched | migrations/versions/a360s010001_learning_attempt_submission.py:354-381 | No statement of a transaction, its commit included, changes or adds a row of another tenant. |
| LearningStore.AttemptStore.SelectForUpdate | migrations/versions/a360s010001_learning_attempt_submission.py:269-273 | Locking a visible attempt gives exactly the state and outcome of the transition system: blocked if another transaction holds the lock, no row if invisible. |
| LearningStore.AttemptStore.GuardItem | migrations/versions/a360s010001_learning_attempt_submission.py:249-290 | The item trigger: lock the parent, then accept exactly an IN_PROGRESS one; missing and submitted parents are different errors, and a held lock blocks. |
| LearningStore.AttemptStore.InsertAttemptRow | migrations/versions/a360s010001_learning_attempt_submission.py:71-154 | INSERT on attempts does exactly what the transition system says: row security, CHECKs, the two unique keys against committed and pending rows. |
| LearningStore.AttemptStore.UpdateAttemptRow | migrations/versions/a360s010001_learning_attempt_submission.py:309-329 | UPDATE on attempts that keeps the key: waits for the row lock, re-reads, and refuses a SUBMITTED row before anything else. |
| LearningStore.AttemptStore.InsertItemRow | migrations/versions/a360s010001_learning_attempt_submission.py:291-296 | INSERT of an item is exactly the step of the transition system, whose effect ItemStatementStores states: parent guard first, then CHECKs and primary key. |
| LearningStore.AttemptStore.UpdateItemRow | migrations/versions/a360s010001_learning_attempt_submission.py:297-302 | UPDATE of an item, likewise: only the new parent is guarded, so the item may leave any old parent. |
| LearningStore.AttemptStore.DeleteItemRow | migrations/versions/a360s010001_learning_attempt_submission.py:303-308 | DELETE of an item, likewise: the old parent is guarded, and the row goes. |
| LearningStore.AttemptStore.InsertSubmissionRow | migrations/versions/a360s010001_learning_attempt_submission.py:213-247 | INSERT of a submission: CHECKs, foreign key to an attempt of the tenant, one per attempt. |
| LearningStore.AttemptStore.CommitTransaction | migrations/versions/a360s010001_learning_attempt_submission.py:71-329 | Commit merges the write set into the three tables, releases the locks, and keeps the invariant. |
| LearningStatements.ItemStatementStores | migrations/versions/a360s010001_learning_attempt_submission.py:284-308 | After an accepted INSERT or UPDATE of an item the new key holds exactly the new item; after an UPDATE to another key or a DELETE the old key holds nothing; every other item is as before. This is so in the transaction's view and, after a commit, in the table. |
| LearningStatements.AttemptStatementStores | migrations/versions/a360s010001_learning_attempt_submission.py:71-154 | After an accepted INSERT or UPDATE of an attempt the transaction sees exactly the new row, every other attempt, item and submission as before, and holds the row's lock. |
| LearningStatements.SubmissionStatementStores | migrations/versions/a360s010001_learning_attempt_submission.py:213-247 | After an accepted INSERT the transaction sees exactly the new submission besides the earlier ones, and takes no lock. |
| LearningStatements.LockStatementTakes | migrations/versions/a360s010001_learning_attempt_submission.py:269-273 | SELECT FOR UPDATE waits exactly if another transaction holds the lock, finds nothing exactly if the row is not visible, else takes that lock and changes nothing more. |
| LearningStatements.CommitStores | migrations/versions/a360s010001_learning_attempt_submission.py:71-247 | In a state with the invariant a commit stores exactly what the transaction saw of its tenant, leaves all else, and ends the transaction with its locks. |
| LearningStatements.AbortLeavesNothing | migrations/versions/a360s010001_learning_attempt_submission.py:274-283 | A refused statement leaves no trace of its transaction and frees its locks. |
| LearningStatements.InsertItemAcceptedExactly | migrations/versions/a360s010001_learning_attempt_submission.py:249-296 | An item goes in exactly under a visible IN_PROGRESS parent that nobody else has locked, for an unused key, with exactly the answer column of its kind filled within bounds. |
| LearningStatements.UpdateItemAcceptedExactly | migrations/versions/a360s010001_learning_attempt_submission.py:259-302 | Of an UPDATE only the new parent is looked at; otherwise the same conditions on the new key and row. |
| LearningStatements.DeleteItemAcceptedExactly | migrations/versions/a360s010001_learning_attempt_submission.py:284-308 | A visible item of the tenant goes exactly if its parent is visible, IN_PROGRESS and not locked by others. |
| LearningStatements.InsertAttemptAcceptedExactly | migrations/versions/a360s010001_learning_attempt_submission.py:71-154 | An attempt goes in exactly if its key is unused, its columns agree with its state, no row of the same learner and assignment has its number, and none is IN_PROGRESS beside it, over committed rows and all pending versions of them. |
| LearningStatements.UpdateAttemptAcceptedExactly | migrations/versions/a360s010001_learning_attempt_submission.py:309-329 | The same for an UPDATE: besides, the row must be visible, IN_PROGRESS and not locked by others; an invisible row is no row, and a SUBMITTED one that can be locked is refused as terminal. |
| LearningStatements.InsertSubmissionAcceptedExactly | migrations/versions/a360s010001_learning_attempt_submission.py:213-247 | A submission goes in exactly if its columns are well formed, its attempt is visible in the tenant and it is the first of that attempt, committed and pending ones counted. |
| AlignmentSearch.SearchFinds | src/aieos/platform/education/quality_baseline.py:18-79 | The search from any position succeeds exactly if a claim word starts there or later, and returns the first such word as it stands in the text. |
| AlignmentSearch.SearchIsMembership | src/aieos/platform/education/quality_baseline.py:68-79 | A claim is found if and only if some maximal run of word characters is, up to case, one of the frozen terms. |
| AlignmentSearch.JoinedSearch | src/aieos/platform/education/quality_baseline.py:86-107 | Searching newline-joined parts finds a claim if and only if searching some part alone does. |
| AlignmentSearch.TermsExactly | src/aieos/platform/education/quality_baseline.py:18-31 | The frozen terms are cbse, icse, ncf, ncp, cambridge and ib. |
| PreparationQuality.QuestionHasEntry | src/aieos/platform/education/preparation_quality_baseline.py:334-394 | With complete and matching key, each question of worksheet, quiz or homework has an entry with its exact answer and explanation. |
| PreparationQuality.EntriesAreQuestions | src/aieos/platform/education/preparation_quality_baseline.py:334-394 | If the artifacts are valid and the completeness and reference checks pass, every entry answers some question and every question is answered. |
| PreparationQuality.AnswersIsInjective | src/aieos/platform/education/preparation_quality_baseline.py:334-394 | That correspondence is one to one in both directions. |
| PreparationQuality.KeyMakesWorksheetNonblank | src/aieos/platform/education/preparation_quality_baseline.py:307-394 | Worksheet question identifiers, answers and explanations are not blank, which only the answer key's validators enforce. |
| PreparationQuality.CleanKitCleanWorksheet | src/aieos/platform/education/preparation_quality_baseline.py:441-473 | If the text of the whole kit has no claim, the worksheet text has none. |
| PreparationQuality.SixForceAll | src/aieos/platform/education/preparation_quality_baseline.py:183-480 | On valid artifacts the six deciding conditions make all 22 checks pass. |
| PreparationQuality.SixChecksDecide | src/aieos/platform/education/preparation_quality_baseline.py:178-480 | For every kit, valid or not: 22 checks with one fixed sequence of codes; PASS exactly if six named checks pass (answer_key_complete, answer_key_reference_integrity, cross_artifact_objective_consistency, unsupported_alignment_claim_absent, and the worksheet's bloom and difficulty distribution); and schema_valid passes whenever any other check does, so it need not be counted among the deciding ones. |
| PreparationMinimal.EachDecidingCheckIsNeeded | src/aieos/platform/education/preparation_quality_baseline.py:178-480 | For each of the six there is a kit of valid artifacts on which it alone of the six fails, so none can be dropped. |
| PreparationEvaluator.CollectKitText | src/aieos/platform/education/preparation_quality_baseline.py:104-155 | The loops that append texts yield the newline-joined texts of the kit in the declared order; that these are all of its text fields is AlignmentFieldByField. |
| PreparationEvaluator.SharedObjectivesPresent | src/aieos/platform/education/preparation_quality_baseline.py:220-237 | The flag loop decides that all four lists are nonempty with nonblank objectives. |
| PreparationEvaluator.QuestionIdentifierIntegrity | src/aieos/platform/education/preparation_quality_baseline.py:307-332 | The loops and set sizes decide that identifiers are nonblank and distinct per component and key references distinct. |
| PreparationEvaluator.AnswerKeyComplete | src/aieos/platform/education/preparation_quality_baseline.py:334-358 | The lists and sets that the loops fill decide that key references and question references are equal as sets and in number. |
| PreparationEvaluator.IndexQuestions | src/aieos/platform/education/preparation_quality_baseline.py:373-380 | The dictionary holds, per kind and identifier, the last question with that identifier and nothing else. |
| PreparationEvaluator.ReferenceIntegrity | src/aieos/platform/education/preparation_quality_baseline.py:370-394 | The loop with break decides that each entry's source exists and agrees in answer and explanation. |
| PreparationEvaluator.EvaluateWorksheet | src/aieos/platform/education/quality_baseline.py:110-251 | The nine worksheet checks with loops and sets equal the declarative report, on both the parsed and the rejected path. |
| PreparationEvaluator.EvaluateKit | src/aieos/platform/education/preparation_quality_baseline.py:178-480 | The evaluator as it runs returns exactly the declarative 22-check verdict that the theorems above are about. |
| PreparationEvaluator.FourWorksheetChecksDecide | src/aieos/platform/education/quality_baseline.py:150-251 | On a valid worksheet, four of the nine checks decide the worksheet verdict. |
| PreparationFields.AlignmentFieldByField | src/aieos/platform/education/preparation_quality_baseline.py:104-155 | On a valid kit the alignment check passes if and only if no text field of any artifact has a claim, told field by field from titles to teacher notes; a claim in any one of them fails the verdict. |
| PreparationFields.KitChecksOnValid | src/aieos/platform/education/preparation_quality_baseline.py:178-480 | What each of the thirteen kit checks comes to on valid artifacts, by its position and code and in terms of fields: five cannot fail any more, topic consistency is objective consistency, and of identifiers and shared objectives only the worksheet's can be blank. |
| PreparationFields.WorksheetChecksOnValid | src/aieos/platform/education/quality_baseline.py:110-251 | The same for the nine worksheet checks. |
| PreparationFields.InvalidKitFailsAll | src/aieos/platform/education/preparation_quality_baseline.py:178-218 | If some artifact is invalid, each of the 22 checks fails. |
| PayloadFields.LessonPlanFields | src/aieos/domains/education/content_payloads_v1.py:49-88 | In a valid lesson plan, exactly which new values of one field keep it valid. |
| PayloadFields.SectionReplaced | src/aieos/domains/education/preparation_kit_v1.py:45-63 | The same for any one section. |
| PayloadFields.ObjectiveReplaced | src/aieos/domains/education/content_payloads_v1.py:34-46 | The same for any one learning objective. |
| PayloadFields.WorksheetFields | src/aieos/domains/education/worksheet_v1.py:75-99 | The same for worksheet texts, which may be white space, unlike those of the other artifacts. |
| PayloadFields.WorksheetQuestionReplaced | src/aieos/domains/education/worksheet_v1.py:39-99 | The same for any one question of a worksheet: a multiple-choice question offers three to five options with its answer among them, other types offer none, and identifiers stay distinct. |
| PayloadFields.WorksheetShortened | src/aieos/domains/education/worksheet_v1.py:75-99 | The first n questions of a valid worksheet suffice exactly if n is at least six. |
| PayloadFields.WorksheetLengthened | src/aieos/domains/education/worksheet_v1.py:75-99 | One more question is admitted exactly if it is well formed, new, and there are fewer than twelve. |
| PayloadFields.ComponentFields | src/aieos/domains/education/content_payloads_v1.py:91-152 | The same for the texts of quiz and homework. |
| PayloadFields.ComponentQuestionReplaced | src/aieos/domains/education/content_payloads_v1.py:91-152 | The same for any one of their questions. |
| PayloadFields.EntryReplaced | src/aieos/domains/education/preparation_kit_v1.py:177-211 | The same for any one entry of the answer key, whose references stay distinct. |
| PayloadFields.TeacherNotesFields | src/aieos/domains/education/content_payloads_v1.py:155-171 | The same for the fields of the teacher notes. |
| DispatchCandidates.ListCandidates | migrations/versions/adra045001_dispatcher_candidate_authority.py:567-607 | The grouping loop, insertion order and limit return exactly the declarative listing: the first p_limit tenants by (earliest eligible time, tenant), each with its true minimum; the two argument errors in their order. |
| DispatchCandidates.LaterClock | migrations/versions/adra045001_dispatcher_candidate_authority.py:588-604 | A later p_as_of keeps every candidate with the same time and adds only candidates after the earlier clock. |
| DispatchCandidates.EarlierIsPrefix | migrations/versions/adra045001_dispatcher_candidate_authority.py:588-604 | On a fixed table the listing at an earlier p_as_of or smaller p_limit is a prefix of the one at a later or larger. |
| DispatchCandidates.ListingUnique | migrations/versions/adra045001_dispatcher_candidate_authority.py:588-604 | The listing depends only on the set of rows, so it is deterministic. |
| DispatchCandidates.PageIsFirst | migrations/versions/adra045001_dispatcher_candidate_authority.py:588-604 | A page has min(p_limit, number of candidates) entries and entry i has exactly i candidates before it among all. |
| DispatchCandidates.PolicyIsTransparent | migrations/versions/adra045001_dispatcher_candidate_authority.py:740-748 | Restricting the table to the rows that the candidate-reader policy admits changes nothing in the answer. |
| DispatchCandidates.PageOnColumns | migrations/versions/adra045001_dispatcher_candidate_authority.py:588-604 | Told by status and columns: a listed tenant has a PENDING row whose available time, or a CLAIMED row whose set lease end, is at or before p_as_of; its time is the least of exactly those; every such tenant is on a page that is not full, and a full page leaves out later ones only. |
| DispatchCandidates.RunningLeaseIsNotListed | migrations/versions/adra045001_dispatcher_candidate_authority.py:596-600 | A tenant whose rows are all finished, not yet available, or CLAIMED without a lease end or under a running lease is never listed. |
| RemediationStatements.StatementKeeps | migrations/versions/tosd090001_remediation_work_origin.py:78-85 | Every accepted statement, whatever rows it inserts and updates together, leaves each origin with its work, keys apart between transactions and intents unchanged; it also keeps the pairing invariant if it meets the rule on checks. |
| RemediationPairing.StepKeeps | migrations/versions/tosd090001_remediation_work_origin.py:133-214 | Every operation that meets the rule keeps the invariant of committed tables, uncommitted rows and queues: committed works and origins are paired, and each uncommitted row is paired in its transaction's view or its check is still queued. |
| RemediationPairing.SettledKeepsChecks | migrations/versions/tosd090001_remediation_work_origin.py:193-214 | The rule holds of every statement that changes no key of a remediate_class row, a test that needs no look at the database. |
| RemediationPairing.AlwaysPaired | migrations/versions/tosd090001_remediation_work_origin.py:133-214 | In every committed state of every run from the migrated tables whose statements meet the rule, a work is remediate_class if and only if an origin with its tenant and work id exists, although triggers re-check only inserted rows of their own transaction. |
| RemediationPairing.CommitAcceptedExactly | migrations/versions/tosd090001_remediation_work_origin.py:156-192 | In every state with the invariant a commit is accepted if and only if the transaction's view is paired and each remedial key that it inserted has an origin. |
| RemediationPairing.DowngradeProbesAgree | migrations/versions/tosd090001_remediation_work_origin.py:290-313 | After every such run both probes of the downgrade guard say the same, and when they are silent the old CHECK holds. |
| RemediationRuns.PairCommits | migrations/versions/tosd090001_remediation_work_origin.py:133-192 | Work, then origin, then commit succeeds from every state with the invariant for unused identifiers, and adds exactly those two rows. |
| RemediationRuns.OriginFirstCommits | migrations/versions/tosd090001_remediation_work_origin.py:78-85 | The origin may come first: it stands beside a committed prepare_tomorrow work until one statement gives that work a new key and inserts the remedial work in its place; the commit adds exactly a pair. |
| RemediationRuns.CommittedWorkLosesItsOrigin | migrations/versions/tosd090001_remediation_work_origin.py:78-192 | In every state with the invariant: one statement gives a committed remedial work a new key and inserts another under the old one; foreign key and queued check are content, the commit is accepted, and the moved work has no origin. |
| RemediationRuns.PairIsUndone | migrations/versions/tosd090001_remediation_work_origin.py:78-192 | From all migrated tables a pair can be made and then lost in that way. |
| RemediationMoves.StatementIsSafeExactlyIfChecked | migrations/versions/tosd090001_remediation_work_origin.py:133-214 | The exact condition for an accepted statement in a state with the invariant: every continuation that meets the rule stays paired if and only if the statement itself meets it, that is, each remedial row under a new key has an origin there or a queued check, and each origin whose key a row has left stands beside a remedial row or has a queued check. |
| RemediationMoves.UnkeptUnpairs | migrations/versions/tosd090001_remediation_work_origin.py:133-214 | For every other accepted statement there is a continuation within the rule that repairs whatever a queued check would complain about and commits works and origins unpaired. |
| RemediationMoves.MoveWithOriginIsChecked | migrations/versions/tosd090001_remediation_work_origin.py:133-214 | That no remedial row changes its key is sufficient but not necessary: one may move and get an origin at its new key in the same statement. |
| RemediationTrace.MadeByOneTransaction | migrations/versions/tosd090001_remediation_work_origin.py:133-192 | In every run that changes no key of a remedial row, each committed origin has one history: a single transaction inserted its work and the origin and then committed; if the origin came in the earlier statement, the later one also moved a prepare_tomorrow work off the key. |
| RemediationTrace.NewWorkStep | migrations/versions/tosd090001_remediation_work_origin.py:134-162 | If after any operation an open transaction has a new remedial row, it had it before, or the operation is its own accepted statement that inserts that row: no update and no other transaction makes one. |
| RemediationTrace.OriginThenWork | migrations/versions/tosd090001_remediation_work_origin.py:78-81 | A statement that inserts a remedial work under the key of an origin of its transaction takes a prepare_tomorrow work away from that key. |
| RemediationStore.OriginStore.FireChecks | migrations/versions/tosd090001_remediation_work_origin.py:156-192 | Firing queued checks in order finds the first failing one, and none exactly if all pass. |
| RemediationStore.OriginStore.ApplyRows | migrations/versions/tosd090001_remediation_work_origin.py:36-214 | The rows of a statement are applied one after the other up to the first that fails or waits, and nothing is stored meanwhile. |
| RemediationStore.OriginStore.ExecuteStatement | migrations/versions/tosd090001_remediation_work_origin.py:36-214 | INSERTs and UPDATEs of any number of rows: exactly the transition system's step, foreign keys at the end of the statement, triggers queued or fired; rows and keys stay in order, and the invariant under the rule. |
| RemediationStore.OriginStore.SetConstraintMode | migrations/versions/tosd090001_remediation_work_origin.py:156-192 | SET CONSTRAINTS ALL: IMMEDIATE runs the queue first and may abort, DEFERRED queues again. |
| RemediationStore.OriginStore.CommitTransaction | migrations/versions/tosd090001_remediation_work_origin.py:156-192 | Commit runs the queue and merges the rows, or aborts; the tables stay paired. |
| RemediationHistory.OriginIsImmutable | migrations/versions/tosd090001_remediation_work_origin.py:110-130 | In every state, no statement with an UPDATE or DELETE of an origin that the transaction sees is accepted, whatever row it proposes and wherever in the statement it stands; nothing is stored, and as first change it aborts with the immutability error. |
| RemediationHistory.UnseenOriginIsLeft | migrations/versions/tosd090001_remediation_work_origin.py:110-130 | Such a change of a row that the transaction does not see is accepted and changes nothing. |
| RemediationHistory.CommittedOriginForever | migrations/versions/tosd090001_remediation_work_origin.py:110-130 | Over every run from the migrated tables, within the rule on checks or not, a committed origin stays there with the same value. |
| RemediationForeignKeys.ForeignKeysAlwaysHold | migrations/versions/tosd090001_remediation_work_origin.py:78-85 | In every committed state of every run, the work and the source work of each origin exist in its tenant. |
| RemediationAcceptance.ChecksAlwaysHold | migrations/versions/tosd090001_remediation_work_origin.py:42-77 | Committed works and origins meet their CHECKs over every run. |
| RemediationAcceptance.InsertWorkAcceptedExactly | migrations/versions/tosd090001_remediation_work_origin.py:133-162 | Exactly when the INSERT of one work is accepted and what is seen then; in immediate mode a remedial work needs its origin already. |
| RemediationAcceptance.InsertOriginAcceptedExactly | migrations/versions/tosd090001_remediation_work_origin.py:49-85 | Exactly when the INSERT of one origin is accepted and what is seen then: columns, unused key, both foreign keys, and in immediate mode a remedial work. |
| RemediationAcceptance.UpdateWorkAcceptedExactly | migrations/versions/tosd090001_remediation_work_origin.py:78-85 | Exactly when the UPDATE of one work is accepted and what is seen then: a key to which an origin refers may not be left, and no trigger looks at it. |
| RemediationAcceptance.CommitExactly | migrations/versions/tosd090001_remediation_work_origin.py:133-214 | In every state, with the invariant or not: a commit is accepted exactly if all queued checks are content, stores what the transaction saw, and is else refused for the first that is not. |
| RemediationAcceptance.SetConstraintsExactly | migrations/versions/tosd090001_remediation_work_origin.py:156-192 | DEFERRED always succeeds; IMMEDIATE succeeds exactly if all queued checks are content and empties the queue. |
| Json.NumberTextIsDigit | migrations/versions/tosd040001_multi_artifact_provenance_and_generation_fences.py:174-186 | A jsonb number prints as a one-digit constant exactly if it is that integer written without decimals. |
| Json.NumberTextReads | migrations/versions/gcii110001_ai_provenance.py:68-72 | The printed text of a number has as many decimals as its scale, and its digits are those of the mantissa. |
| Provenance.RefAcceptedExactly | migrations/versions/gcii110001_ai_provenance.py:21-75 | A resource reference is accepted exactly if it is an object of the three keys with an identifier type, a UUID text and a revision that is null or a whole number in bigint; beyond bigint the validator raises instead of answering. |
| Provenance.VersionAcceptedExactly | migrations/versions/gcii110001_ai_provenance.py:117-123 | Under SQL's three-valued OR, with a missing version giving NULL, only the number written as that one digit passes. |
| Provenance.VersionsAcceptExactly | migrations/versions/tosd040001_multi_artifact_provenance_and_generation_fences.py:30-160 | Each validator accepts exactly the objects of its key set whose parts are well formed, stated without the order of the tests. |
| Provenance.DispatchIsTheUnion | migrations/versions/tosd040001_multi_artifact_provenance_and_generation_fences.py:163-188 | For every value, NULL and malformed ones included: at most one validator does not reject, and the dispatcher gives that one's verdict, raising included. |
| Provenance.MinimalIsAccepted | migrations/versions/gcii110001_ai_provenance.py:78-197 | Every UUID text is the run of some accepted provenance. |
| Provenance.MinimalV2IsAccepted | migrations/versions/tosd040001_multi_artifact_provenance_and_generation_fences.py:30-160 | Every UUID text with every artifact kind occurs in some accepted version-2 provenance. |
| Provenance.AcceptedHasRun | migrations/versions/tosd040001_multi_artifact_provenance_and_generation_fences.py:390-414 | Accepted provenance has the key texts that the indexes read, and its version tells which validator accepted it. |
| TextRules.IdentifierIsPattern | migrations/versions/gcii110001_ai_provenance.py:46-49 | The test on identifiers is the match of the anchored pattern with its bounds. |
| TextRules.ModelTextExactly | migrations/versions/gcii110001_ai_provenance.py:143-149 | A model identifier is accepted exactly if it has 1 to 255 bytes in UTF-8 and no control character, whatever it is made of. |
| TextRules.Utf8Decodes | migrations/versions/gcii110001_ai_provenance.py:146-146 | The bytes counted for a character are those from which section 3 of RFC 3629 reads it back. |
| TextRules.BtrimExactly | migrations/versions/gcii130001_migration_import.py:181-196 | The two tests on trimmed texts agree with trimming spaces off both ends until none is left: nothing remains, and nothing changes. |
| TextRules.Sha256IsPattern | migrations/versions/gcii130001_migration_import.py:197-198 | The test on digests is the match of 64 hexadecimal digits. |
| GenerationFences.RepeatsExactly | migrations/versions/tosd040001_multi_artifact_provenance_and_generation_fences.py:206-228 | GROUP BY with HAVING count(*) > 1 finds a row exactly if two covered rows agree on the key, NULL keys included. |
| GenerationFences.AcceptedRow | migrations/versions/tosd040001_multi_artifact_provenance_and_generation_fences.py:376-414 | An AI row that passes the new check is covered by exactly one of the two version indexes, with no NULL in its key; the old check implies the new one. |
| GenerationFences.OldStatesUpgrade | migrations/versions/tosd040001_multi_artifact_provenance_and_generation_fences.py:191-438 | Every state valid under the old work fence, V1 check and run-id index passes all three upgrade guards and satisfies the new check and all four new indexes. |
| GenerationFences.DowngradeGuardIsExact | migrations/versions/tosd040001_multi_artifact_provenance_and_generation_fences.py:281-345 | In every state valid under the new schema the downgrade guard passes if and only if the old check and both old indexes hold. |
| RunBinding.RunsBoundExactlyIfOneSpelling | migrations/versions/tosd040001_multi_artifact_provenance_and_generation_fences.py:391-401 | For every rule on run-id texts that writers may follow: all tables whose version-1 run ids obey it have one version per tenant and run, if and only if no two texts it admits read as the same UUID; the old index is no different. |
| RunBinding.ArtifactsBoundExactlyIfOneSpelling | migrations/versions/tosd040001_multi_artifact_provenance_and_generation_fences.py:403-414 | The same for the version-2 index over run and artifact kind. |
| RunBinding.CanonicalRunsAreBound | migrations/versions/tosd040001_multi_artifact_provenance_and_generation_fences.py:391-414 | Writing run ids canonically is such a rule: then both indexes bind. |
| RunBinding.SpellingEscapesIndex | migrations/versions/tosd030002_generation_run_work_fence.py:48-57 | Next to any accepted canonical version-1 provenance another version of the same run, with its id in braces, is admitted, because the index compares texts. |
| RunBinding.RunsCanBeShared | migrations/versions/tosd030002_generation_run_work_fence.py:48-57 | For every run and tenant some table that all constraints admit, old and new, holds two version-1 rows of that tenant which name that run. |
| RunBinding.ArtifactsCanBeShared | migrations/versions/tosd040001_multi_artifact_provenance_and_generation_fences.py:403-414 | For every run, tenant and artifact kind some table admitted by the new constraints holds two version-2 rows of them. |
| GenerationStore.Tables.InstallWorkFence | migrations/versions/tosd030002_generation_run_work_fence.py:27-57 | The lease backfill and the old fences go in exactly if no two active runs are on one work and no two versions of a tenant have the same run text; RUNNING rows without a lease then get updated or else created time plus 120 seconds and nothing else changes; otherwise nothing changes. |
| GenerationStore.Tables.Upgrade | migrations/versions/tosd040001_multi_artifact_provenance_and_generation_fences.py:364-438 | From every valid old state the upgrade goes through, leaves all rows as they are and ends in a valid new state. |
| GenerationStore.Tables.Downgrade | migrations/versions/tosd040001_multi_artifact_provenance_and_generation_fences.py:441-500 | The downgrade goes through exactly if the old constraints hold; when they do not, the guard refuses and no later statement ever fails. |
| GenerationColumns.RunsOkExactly | migrations/versions/tosd040001_multi_artifact_provenance_and_generation_fences.py:418-426 | On the columns: the old fence holds exactly if every RUNNING run has a lease and no two active runs are on one work; the new one exactly if leases are there, no two active runs agree in tenant, work, revision and capability, and no two RUNNING ones in tenant, work and capability. |
| GenerationColumns.NewVersionsOkExactly | migrations/versions/tosd040001_multi_artifact_provenance_and_generation_fences.py:376-414 | On the columns: provenance is accepted, no two version-1 rows of a tenant name their run by the same text, and no two version-2 rows agree in tenant, run text and artifact kind. |
| GenerationColumns.OldVersionsOkExactly | migrations/versions/tosd030002_generation_run_work_fence.py:48-57 | On the columns: version-1 provenance alone, and no two rows of a tenant with the same run text. |
| GenerationColumns.UpgradeComplains | migrations/versions/tosd040001_multi_artifact_provenance_and_generation_fences.py:191-245 | Which of the two guards on runs complains, and first. |
| GenerationColumns.DowngradeComplains | migrations/versions/tosd040001_multi_artifact_provenance_and_generation_fences.py:281-345 | On valid tables the downgrade guard complains of a version-2 row if there is one, else of two active runs on a work; its complaint of a shared run can never come. |
| GenerationStore.Tables.PutRun | migrations/versions/tosd040001_multi_artifact_provenance_and_generation_fences.py:418-426 | A run is admitted exactly if it has its lease and collides with no other row on the columns that the present fences name, and is then stored alone. |
| GenerationStore.Tables.PutVersion | migrations/versions/tosd040001_multi_artifact_provenance_and_generation_fences.py:376-414 | The same for a content version. |
| Uuids.ReadOfText | migrations/versions/saii020001_security_audit_ledger.py:127-135 | Reading the canonical UUID text back with the database's input rules is the identity. |
| UuidTexts.ReadExactly | migrations/versions/saii020001_security_audit_ledger.py:127-135 | A text is read as a UUID exactly if it is its 32 digits, each in either case, with an optional hyphen after every group of four and optional braces around the whole. |
| RelatedRefs.RevisionReadExactly | migrations/versions/saii020001_security_audit_ledger.py:136-158 | A revision is read exactly if it is null or a whole number within bigint that is written without decimals. |
| RelatedRefs.FingerprintInjective | migrations/versions/saii020001_security_audit_ledger.py:165-169 | Two well-formed references have equal \|-joined fingerprints exactly if they name the same (type, UUID, revision). |
| RelatedRefs.SeenMeansNamed | migrations/versions/saii020001_security_audit_ledger.py:170-173 | Membership of a fingerprint in the seen array is membership of the resource among the references already read. |
| RelatedRefs.AreValid | migrations/versions/saii020001_security_audit_ledger.py:71-177 | The loop returns true if and only if the value is an array of at most 16 well-formed references to pairwise distinct resources, none the primary one. |
| RelatedRefs.StricterThanProvenance | migrations/versions/saii020001_security_audit_ledger.py:106-158 | The ledger and the provenance validator accept the same references except whole revisions written with decimals. |
| RelatedRefs.PrimaryExactly | migrations/versions/saii020001_security_audit_ledger.py:159-163 | A printed reference differs from the primary one exactly in type, UUID or revision, where no revision equals no revision only. |
| ImportRecord.AcceptedExactly | migrations/versions/gcii130001_migration_import.py:240-297 | An update of a well-formed row is accepted exactly if the new row is well formed, the ten evidence columns are kept, and the old row had failed or nothing changes. |
| ImportRecord.RunKeeps | migrations/versions/gcii130001_migration_import.py:240-297 | Over every run of update attempts the row stays well formed and its source evidence constant. |
| ImportRecord.ImportedForever | migrations/versions/gcii130001_migration_import.py:259-293 | Over every run the outcomes are FAILED* then IMPORTED*, and after IMPORTED the row never changes on any of its 18 columns. |
| ImportRecord.ImportRow.Assign | migrations/versions/gcii130001_migration_import.py:240-297 | The in-place update does what the guard and the table constraints decide, and leaves the row when refused. |
| ImportRecord.ColumnsExactly | migrations/versions/gcii130001_migration_import.py:175-235 | The CHECKs hold exactly if each text matches its pattern or bounds, numbers are positive, and the outcome agrees with targets, completion and failure code. |
| ImportRecord.RefusedExactly | migrations/versions/gcii130001_migration_import.py:240-297 | For every new row of a well-formed old one, exactly which refusal comes. |
| SchoolRevalidation.StatedIsCoherent | src/aieos/development/coherent_school_context.py:159-282 | Whatever validation lets through satisfies the provider's invariant: distinct defined classes with labels, scopes and memberships of known classes, accesses to known learners. |
| SchoolRevalidation.RevalidationIsIdentity | src/aieos/development/coherent_school_context.py:379-393 | Coherent facts, exported as _replace exports them, validate and give back the same facts. |
| SchoolRevalidation.TeacherReplaced | src/aieos/development/coherent_school_context.py:467-476 | Re-validating the whole universe with one teacher entry replaced succeeds exactly if that entry is valid, and changes that entry alone. |
| SchoolRevalidation.LearnerReplaced | src/aieos/development/coherent_school_context.py:478-487 | The same for a learner; adult access stays valid because no learner ever disappears. |
| SchoolRevalidation.PrincipalReplaced | src/aieos/development/coherent_school_context.py:489-498 | The same for a principal's scope. |
| SchoolRevalidation.AdultReplaced | src/aieos/development/coherent_school_context.py:500-509 | The same for an adult's access to known learners. |
| SchoolFacts.LookupOfPut | src/aieos/development/coherent_school_context.py:474-476 | Setting one key of a dictionary changes the lookup of that key and of no other. |
| SchoolFacts.PairIsMembership | src/aieos/development/coherent_school_context.py:206-236 | A pair of class and learner reference states the membership that an object with these two attributes states. |
| SchoolFacts.TextsExactly | src/aieos/development/coherent_school_context.py:109-133 | References are texts that stripping neither empties nor changes, and only the learner's may be absent; labels are texts that stripping does not empty. |
| SchoolProvider.UniqueClassRefs | src/aieos/development/coherent_school_context.py:136-156 | The loop returns exactly on known, well-formed class references without repetition, and returns them in order. |
| SchoolProvider.Define | src/aieos/development/coherent_school_context.py:170-184 | The definition loop returns exactly on distinct well-formed definitions, with their labels and order. |
| SchoolProvider.Enrol | src/aieos/development/coherent_school_context.py:206-236 | The membership loop, over objects and pairs alike. |
| SchoolProvider.Authorize | src/aieos/development/coherent_school_context.py:258-272 | The access loop: UUIDs of known learners without repetition. |
| SchoolProvider.ValidatedFacts | src/aieos/development/coherent_school_context.py:159-282 | Validation returns if and only if all six arguments are valid, and then exactly the facts they state. |
| SchoolProvider.Provider.Create | src/aieos/development/coherent_school_context.py:338-377 | A provider exists only for valid arguments and starts with their facts and an empty call log. |
| SchoolProvider.Provider.Replace | src/aieos/development/coherent_school_context.py:379-393 | A failed replacement leaves the facts as they were. |
| SchoolProvider.Provider.SetTeacherClassAuthority | src/aieos/development/coherent_school_context.py:467-476 | Succeeds exactly on a UUID and valid references against the current facts; then only that teacher's entry changes, and on failure nothing. |
| SchoolProvider.Provider.SetLearnerMembership | src/aieos/development/coherent_school_context.py:478-487 | The same for memberships. |
| SchoolProvider.Provider.SetPrincipalClassScope | src/aieos/development/coherent_school_context.py:489-498 | The same for a principal's scope. |
| SchoolProvider.Provider.SetAdultLearnerAccess | src/aieos/development/coherent_school_context.py:500-509 | The same for adult access. |
| SchoolProvider.Provider.Note | src/aieos/development/coherent_school_context.py:395-400 | Every call is counted, also one that raises; only calls with two UUIDs are logged, in order. |
| SchoolProvider.Provider.ListAssignableClasses | src/aieos/development/coherent_school_context.py:405-422 | The teacher's classes with their labels; the label lookup is defined in every reachable state; another tenant or an unknown teacher gets nothing. |
| SchoolProvider.Provider.ListCurrentMemberships | src/aieos/development/coherent_school_context.py:424-434 | The learner's memberships in the bound tenant, else nothing. |
| SchoolProvider.Provider.ListCurrentAuthorizedClasses | src/aieos/development/coherent_school_context.py:436-451 | The principal's classes with labels, always defined. |
| SchoolProvider.Provider.ListCurrentAuthorizedLearners | src/aieos/development/coherent_school_context.py:453-465 | The adult's learners, each of whom has a membership entry. |
| Luhn.LuhnValid | src/aieos/platform/governance/review_comment.py:81-90 | The loop from the right decides the recursive definition of Annex B of ISO/IEC 7812-1 for digit strings of any length. |
| Luhn.SumSplits | src/aieos/platform/governance/review_comment.py:81-90 | The sum of a concatenation is the sum of the parts, the left one at the parity that the right one's length gives. |
| Luhn.SingleChangeRejected | src/aieos/platform/governance/review_comment.py:81-90 | Every change of one digit of a valid string makes it invalid. |
| Luhn.SwapNoticedExactly | src/aieos/platform/governance/review_comment.py:81-90 | Swapping two neighbours of a valid string keeps it valid exactly if they are equal, or 0 and 9. |
| Luhn.CheckDigitUnique | src/aieos/platform/governance/review_comment.py:81-90 | At most one digit completes a string to a valid one. |
| Luhn.CheckDigitExists | src/aieos/platform/governance/review_comment.py:81-90 | Some digit does. |
| Luhn.ValidByPositions | src/aieos/platform/governance/review_comment.py:81-90 | Told by positions from the right: the last digit counts as it is, the one before it doubled, and so on. |
| Base64Url.PaddingComesBack | src/aieos/platform/api/pagination.py:60-66 | The padding that the encoder strips is the padding that the decoder restores from the length. |
| Base64Url.DecodeOfEncode | src/aieos/platform/api/pagination.py:60-66 | base64url without padding decodes back to the original bytes, for every byte string and with the lenient decoder; the encoded text has no dot. |
| Base64Url.EncodeInjective | src/aieos/platform/api/pagination.py:60-61 | Distinct byte strings have distinct encodings. |
| Base64Url.KnownTexts | src/aieos/platform/api/pagination.py:60-61 | A test vector of section 10 of RFC 4648, and the digits 62 and 63 of the URL-safe alphabet. |
| Base64Url.StandardDecodesAlike | src/aieos/platform/api/pagination.py:64-66 | A text in the standard alphabet decodes as the one in the URL-safe alphabet does. |
| Base64Url.SkippedExactly | src/aieos/platform/api/pagination.py:64-66 | The lenient decoder skips exactly the characters outside both alphabets. |
| FlatJson.ReadOfPrint | src/aieos/platform/api/pagination.py:84-93 | A compact JSON object of plain strings and integers reads back as the entries printed. |
| FlatJson.ReadExactly | src/aieos/platform/api/pagination.py:84-93 | The reader takes exactly the texts that the printer makes, so both directions of the codec are inverse. |
| Timestamps.MomentRoundTrip | src/aieos/platform/api/pagination.py:69-70 | A printed UTC instant reads back as itself if years are padded or the year is at least 1000, and otherwise not at all. |
| Timestamps.CanonicalForm | src/aieos/platform/api/pagination.py:69-70 | The fields, widths and separators of a printed instant. |
| Timestamps.ReadBackExactly | src/aieos/platform/api/pagination.py:69-70 | Numbers that fit their widths are read back exactly if they are a time of the clock and a day of the Gregorian calendar. |
| Cursors.SignatureFixesDict | src/aieos/platform/api/pagination.py:97-106 | A signature cannot be carried over: two opened tokens with the same second part give the same dict, or their different payloads have the same signature bytes. |
| Cursors.OpenedOfSign | src/aieos/platform/api/pagination.py:83-108 | A signed payload opens to its own dict. |
| Cursors.CursorRoundTrip | src/aieos/platform/api/pagination.py:83-277 | For each of the four kinds, the encoder accepts exactly the cursors with its own type marker, and each of them comes back from its decoder exactly with the right tenant (and a year that prints with four digits); every other tenant is refused. |
| Cursors.KindsAreSeparate | src/aieos/platform/api/pagination.py:83-277 | A token of one kind is refused by the three other decoders, for every tenant. |
| Cursors.PayloadDict | src/aieos/platform/api/pagination.py:83-277 | The dictionary that is signed, for each of the four kinds. |
| Cursors.DecodedStates | src/aieos/platform/api/pagination.py:97-277 | A dictionary decodes only if it states version 1, the type of its kind and the caller's tenant. |
| IfMatch.ParseOfEncode | src/aieos/platform/api/if_match.py:12-21 | Parsing the printed tag gives the revision back, for every revision Python can print. |
| IfMatch.AcceptedExactly | src/aieos/platform/api/if_match.py:12-21 | A header parses to n if and only if, stripped, it is the printed tag of n. |
| IfMatch.TagsAreStrong | src/aieos/platform/api/etag.py:6-8 | Distinct revisions have distinct tags (section 8.8.3 of RFC 9110). |
| IfMatch.PrintedExactly | src/aieos/platform/api/etag.py:6-8 | A revision can be printed exactly if it has at most 4300 digits. |
| IfMatch.WhatIsRefused | src/aieos/platform/api/if_match.py:13-20 | Missing and blank headers, and only those, ask for a precondition; the tag of a negative revision is invalid. |
| MigrationHeads.DeriveHeads | tools/release/common.py:85-107 | The dictionary loop returns the revisions that no revision names as its parent, or the complaint about the first unreadable file. |
| MigrationHeads.DeriveAndValidateHead | tools/release/common.py:110-138 | Succeeds exactly if all files are readable, the head set is the expected revision alone and readiness.py names it. |
| MigrationHeads.CollectedExactly | tools/release/common.py:85-105 | The dictionary holds each stated revision with the parent that the last file to state it gives. |
| MigrationHeads.HeadsExactly | tools/release/common.py:106-107 | Told by files: a head is a stated revision that no last statement of a revision names as its parent. |
| MigrationHeads.ComplaintExactly | tools/release/common.py:92-99 | Which complaint an unreadable file raises. |
| MigrationHeads.AcyclicHasHead | tools/release/common.py:106-107 | A nonempty acyclic set of revisions has a head. |
| MigrationHeads.OneHeadIsLinearExactlyIfAcyclic | tools/release/common.py:110-117 | With one head, all revisions form one chain from it if and only if there is no cycle. |
| MigrationHeads.HistoryDoesNotBranch | tools/release/common.py:106-107 | In such a history no two revisions share a parent and only one has none. |
| MigrationHeads.OneHeadBesideCycle | tools/release/common.py:110-117 | Three revisions with one head that are not linear, because two of them name each other. |
| TarNames.ParentIsComponent | tools/release/common.py:149-158 | Splitting at separators yields a ".." component exactly if two dots stand between separators. |
| TarNames.TestsFindParents | tools/release/common.py:151-154 | The four textual tests together find every parent component and nothing else. |
| TarNames.UnsafeExactly | tools/release/common.py:149-158 | A name is refused exactly if, backslashes read as slashes, it is absolute, has a parent component, or has a colon in its first component. |

## Left out

- LearningFreeze.StepFreezesRows: an UPDATE that changes the key of an IN_PROGRESS attempt is not an operation of the model. A SUBMITTED attempt cannot be updated at all. While items or submissions refer to the old key, the foreign keys, which are NO ACTION, accept such an UPDATE only in a statement at whose end another attempt of the same tenant has that key.
- LearningFreeze.RowsForever: the same key-changing UPDATE.
- LearningStore.AttemptStore.UpdateAttemptRow: the same key-changing UPDATE.
- LearningModel: savepoints, deletes by the table owner (the runtime role has no DELETE on attempts or submissions), lock modes other than FOR UPDATE, and the waiting of foreign-key checks on parent rows; a blocked statement is a step that changes nothing and can be tried again.
- LearningStore: `submission_id` of an attempt is not tied to a submission row, because no constraint ties it.
- RemediationModel: savepoints and SET CONSTRAINTS for a single constraint; a change of the tenant setting within a transaction, which only hides rows from checks that then raise; deletes of works, which the runtime role may not make; the foreign keys to and from executions and assignments, which can only refuse or delay a statement; which of several violations at the end of a statement is reported; row locks that a waiting statement has already taken; goal normalisation beyond the nonblank check; the catalog probe of the downgrade.
- PreparationQuality: the explanation texts of checks; `source_artifact_kind`, Bloom and difficulty labels are typed, so a mapping with an unknown label is only the rejected-worksheet path; the summary round trip is a field-by-field copy and would add an easy member.
- PreparationEvaluator.EvaluateWorksheet: takes the result of parsing a mapping as an argument; pydantic's coercions are not modelled.
- Payloads: the draft types of the generation step, which the verdict does not read.
- AlignmentSearch: characters whose case folding has several characters.
- DispatchCandidates: role preflight, grants and index creation; infinite timestamps; only the ordering of tenants and timestamps is used.
- Json: the printed text of arrays and objects, which stand for themselves where ->> would print them; a string that happens to be such a text counts as different.
- Provenance: AND and OR are taken to be evaluated from left to right, as the database does for these expressions; the collation of key names; [[:cntrl:]] is the C0 and C1 ranges in every locale.
- GenerationFences: nullable columns of generation runs that no fence reads, and offline SQL generation; RLS is off while the guards run, so they see all rows.
- RelatedRefs: the other constraints and triggers of the ledger.
- ImportRecord: the import provenance validator, which has the shape of the AI ones; the delete trigger.
- SchoolProvider: messages of the fixture error, which is one exception class; the default fixture values; arguments that are not sequences or mappings.
- Luhn: the scan for card-like digit groups and the other patterns of the comment policy; non-ASCII digits.
- Cursors: HMAC-SHA-256 is any function of the payload; the empty-key test of the constructor; JSON, UUID and timestamp texts that the encoders never print but Python would read, and multi-byte UTF-8 payloads.
- Timestamps: offsets other than UTC, which astimezone removes first; whether strftime pads years is a parameter.
- Base64Url: nothing is assumed about tokens; only ASCII text reaches the scanner, as in the program.
- IfMatch: the HTTP layer that supplies the header.
- MigrationHeads: the regular expressions that find the two assignments in a file; what they find is the input.
- TarNames: archive building and digests.
- Outbox rows: only status and times; the immutability triggers of the outbox are independent of the listing. That PUBLISHED rows are terminal is not claimed, because no constraint says so.
- FastAPI composition, problem details, OpenAPI, AI gateways, Temporal, engine setup, development loaders and the audit-vocabulary migrations: wiring and lists without unbounded properties.
