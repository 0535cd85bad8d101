/** The worksheet baseline and the 22-check verdict over a whole preparation kit. */
module PreparationQuality {
  import opened Basics
  import opened AlignmentSearch
  import opened Payloads

  datatype Check = Check(code: string, passed: bool)
  datatype Status = Pass | Fail
  datatype Verdict = Verdict(status: Status, checks: seq<Check>)

  predicate AllPassed(checks: seq<Check>) { forall i :: 0 <= i < |checks| ==> checks[i].passed }

  function Conclude(checks: seq<Check>): Verdict { Verdict(if AllPassed(checks) then Pass else Fail, checks) }

  const WORKSHEET_CODES: seq<string> := [
    "schema_valid", "learning_objectives_present", "question_count_valid", "objective_mapping_complete",
    "answer_key_complete", "bloom_labels_valid", "bloom_distribution_baseline",
    "difficulty_distribution_baseline", "unsupported_alignment_claim_absent"]

  const PREPARATION_CODES: seq<string> := [
    "schema_valid", "shared_objectives_present", "lesson_plan_objectives_mapped", "worksheet_objectives_mapped",
    "quiz_objectives_mapped", "homework_objectives_mapped", "question_identifier_integrity", "answer_key_complete",
    "answer_key_reference_integrity", "cross_artifact_objective_consistency", "cross_artifact_topic_consistency",
    "unsupported_alignment_claim_absent", "teacher_notes_present"]

  /** The codes of every report, in order. */
  function AllCodes(): (codes: seq<string>)
    ensures |codes| == 22
  {
    PREPARATION_CODES + seq(9, i requires 0 <= i < 9 => "worksheet_" + WORKSHEET_CODES[i])
  }

  // ---- texts searched for alignment claims ----

  function VisibleText(o: Option<string>): seq<string> {
    if o.Some? && o.value != "" then [o.value] else []
  }

  function ObjectiveTexts(objectives: seq<Objective>): seq<string> {
    seq(|objectives|, i requires 0 <= i < |objectives| => objectives[i].text)
  }

  function QuestionTexts(questions: seq<Question>): seq<string> {
    if questions == [] then []
    else
      var q := questions[0];
      [q.prompt, q.answer, q.explanation] + q.options + VisibleText(q.visual) + QuestionTexts(questions[1..])
  }

  function WorksheetTexts(w: Worksheet): seq<string> {
    [w.title, w.teacherSummary, w.instructions] + VisibleText(w.teacherNotes)
    + ObjectiveTexts(w.objectives) + QuestionTexts(w.questions)
  }

  function SectionTexts(sections: seq<Section>): seq<string> {
    if sections == [] then []
    else [sections[0].title, sections[0].teacherActions, sections[0].learnerActions] + SectionTexts(sections[1..])
  }

  function LessonPlanTexts(p: LessonPlan): seq<string> {
    [p.title, p.opening, p.closure, p.formativeCheck] + p.materials
    + ObjectiveTexts(p.objectives) + SectionTexts(p.sections)
  }

  function ComponentTexts(c: Component): seq<string> {
    [c.title, c.instructions] + ObjectiveTexts(c.objectives) + QuestionTexts(c.questions)
  }

  function EntryTexts(entries: seq<Entry>): seq<string> {
    if entries == [] then [] else [entries[0].answer, entries[0].explanation] + EntryTexts(entries[1..])
  }

  function KitTexts(k: Kit): seq<string> {
    LessonPlanTexts(k.lessonPlan) + WorksheetTexts(k.worksheet)
    + ComponentTexts(k.quiz) + ComponentTexts(k.homework)
    + [k.answerKey.title] + EntryTexts(k.answerKey.entries)
    + [k.teacherNotes.title] + k.teacherNotes.notes
  }

  predicate Clean(lx: Lexicon, texts: seq<string>) { FindClaim(lx, Join(texts)).None? }

  // ---- the conditions behind the checks ----

  predicate Mapped(objectives: seq<Objective>, questions: seq<Question>) {
    forall q :: q in questions ==> q.objectiveIds != [] && AllKnown(objectives, q.objectiveIds)
  }

  predicate Answered(questions: seq<Question>) {
    forall q :: q in questions ==> !Blank(q.answer) && !Blank(q.explanation)
  }

  /** At least two levels, one of them understand or apply. */
  predicate BloomSpread(questions: seq<Question>) {
    && (exists p, q :: p in questions && q in questions && p.bloom != q.bloom)
    && (exists q :: q in questions && (q.bloom.Understand? || q.bloom.Apply?))
  }

  predicate DifficultySpread(questions: seq<Question>) {
    exists p, q :: p in questions && q in questions && p.difficulty != q.difficulty
  }

  /** Outcome of worksheet check i; a typed worksheet is not revalidated, and its labels are typed. */
  predicate WorksheetOutcome(lx: Lexicon, w: Worksheet, i: nat)
    requires i < 9
  {
    match i
    case 1 => w.objectives != []
    case 2 => 6 <= |w.questions| <= 12
    case 3 => Mapped(w.objectives, w.questions)
    case 4 => Answered(w.questions)
    case 6 => BloomSpread(w.questions)
    case 7 => DifficultySpread(w.questions)
    case 8 => Clean(lx, WorksheetTexts(w))
    case _ => true
  }

  predicate LessonPlanMapped(p: LessonPlan) {
    && p.objectiveIds != [] && AllKnown(p.objectives, p.objectiveIds)
    && forall s :: s in p.sections ==> s.objectiveIds != [] && AllKnown(p.objectives, s.objectiveIds)
  }

  predicate SharedObjectives(objectives: seq<Objective>) { objectives != [] && ObjectivesNonblank(objectives) }

  predicate IdentifiersOk(questions: seq<Question>) {
    DistinctQuestions(questions) && forall q :: q in questions ==> !Blank(q.id)
  }

  function QuestionKeys(kind: SourceKind, questions: seq<Question>): seq<(SourceKind, string)> {
    seq(|questions|, i requires 0 <= i < |questions| => (kind, questions[i].id))
  }

  function ExpectedKeys(k: Kit): seq<(SourceKind, string)> {
    QuestionKeys(FromWorksheet, k.worksheet.questions) + QuestionKeys(FromQuiz, k.quiz.questions)
    + QuestionKeys(FromHomework, k.homework.questions)
  }

  function QuestionsOf(k: Kit, kind: SourceKind): seq<Question> {
    match kind
    case FromWorksheet => k.worksheet.questions
    case FromQuiz => k.quiz.questions
    case FromHomework => k.homework.questions
  }

  predicate KeyComplete(k: Kit) {
    var actual, expected := EntryKeys(k.answerKey.entries), ExpectedKeys(k);
    (set x | x in actual) == (set x | x in expected) && |actual| == |expected|
  }

  /** A dictionary filled in order keeps the last question with an identifier. */
  function LastWithId(questions: seq<Question>, id: string): Option<Question> {
    if questions == [] then None
    else if questions[|questions| - 1].id == id then Some(questions[|questions| - 1])
    else LastWithId(questions[..|questions| - 1], id)
  }

  predicate EntryMatches(k: Kit, e: Entry) {
    var source := LastWithId(QuestionsOf(k, e.kind), e.questionId);
    source.Some? && e.answer == source.value.answer && e.explanation == source.value.explanation
  }

  predicate ReferencesMatch(k: Kit) { forall e :: e in k.answerKey.entries ==> EntryMatches(k, e) }

  predicate ObjectivesAgree(k: Kit) {
    && k.worksheet.objectives == k.lessonPlan.objectives
    && k.quiz.objectives == k.lessonPlan.objectives
    && k.homework.objectives == k.lessonPlan.objectives
  }

  predicate AllMapped(k: Kit) {
    && LessonPlanMapped(k.lessonPlan) && Mapped(k.worksheet.objectives, k.worksheet.questions)
    && Mapped(k.quiz.objectives, k.quiz.questions) && Mapped(k.homework.objectives, k.homework.questions)
  }

  predicate AllShared(k: Kit) {
    && SharedObjectives(k.lessonPlan.objectives) && SharedObjectives(k.worksheet.objectives)
    && SharedObjectives(k.quiz.objectives) && SharedObjectives(k.homework.objectives)
  }

  predicate AllIdentified(k: Kit) {
    && IdentifiersOk(k.worksheet.questions) && IdentifiersOk(k.quiz.questions) && IdentifiersOk(k.homework.questions)
    && AllDistinct(EntryKeys(k.answerKey.entries))
  }

  predicate NotesPresent(n: TeacherNotes) { !Blank(n.title) && |n.notes| >= 1 && NoneBlank(n.notes) }

  /** Outcome of check i of a kit whose artifacts all revalidate. */
  predicate KitOutcome(lx: Lexicon, k: Kit, i: nat)
    requires i < 22
  {
    match i
    case 0 => true
    case 1 => AllShared(k)
    case 2 => LessonPlanMapped(k.lessonPlan)
    case 3 => Mapped(k.worksheet.objectives, k.worksheet.questions)
    case 4 => Mapped(k.quiz.objectives, k.quiz.questions)
    case 5 => Mapped(k.homework.objectives, k.homework.questions)
    case 6 => AllIdentified(k)
    case 7 => KeyComplete(k)
    case 8 => ReferencesMatch(k)
    case 9 => ObjectivesAgree(k)
    case 10 => ObjectivesAgree(k) && AllMapped(k)
    case 11 => Clean(lx, KitTexts(k))
    case 12 => NotesPresent(k.teacherNotes)
    case _ => WorksheetOutcome(lx, k.worksheet, i - 13)
  }

  /** Every check is reported failed when some artifact fails its validator. */
  predicate Outcome(lx: Lexicon, k: Kit, i: nat)
    requires i < 22
  {
    KitValid(k) && KitOutcome(lx, k, i)
  }

  function Report(lx: Lexicon, k: Kit): (checks: seq<Check>)
    ensures |checks| == 22
  {
    seq(22, i requires 0 <= i < 22 => Check(AllCodes()[i], Outcome(lx, k, i)))
  }

  // ---- which checks decide ----

  const KEY_COMPLETE := 7
  const REFERENCES := 8
  const AGREEMENT := 9
  const ALIGNMENT := 11
  const BLOOM := 19
  const DIFFICULTY := 20

  const DECIDING: set<int> := {KEY_COMPLETE, REFERENCES, AGREEMENT, ALIGNMENT, BLOOM, DIFFICULTY}

  /** The deciding checks and the schema check by their codes. */
  predicate NamesDeciding(codes: seq<string>) {
    && |codes| == 22 && codes[0] == "schema_valid"
    && codes[KEY_COMPLETE] == "answer_key_complete" && codes[REFERENCES] == "answer_key_reference_integrity"
    && codes[AGREEMENT] == "cross_artifact_objective_consistency"
    && codes[ALIGNMENT] == "unsupported_alignment_claim_absent"
    && codes[BLOOM] == "worksheet_" + "bloom_distribution_baseline"
    && codes[DIFFICULTY] == "worksheet_" + "difficulty_distribution_baseline"
  }

  lemma DecidingCodes()
    ensures NamesDeciding(AllCodes())
  {
    var w := seq(9, i requires 0 <= i < 9 => "worksheet_" + WORKSHEET_CODES[i]);
    assert AllCodes() == PREPARATION_CODES + w;
    assert AllCodes()[BLOOM] == w[6] && AllCodes()[DIFFICULTY] == w[7];
  }

  lemma {:induction false} LastWithIdIsUnique(questions: seq<Question>, i: nat)
    requires DistinctQuestions(questions) && i < |questions|
    ensures LastWithId(questions, questions[i].id) == Some(questions[i])
  {
    if i < |questions| - 1 {
      LastWithIdIsUnique(questions[..|questions| - 1], i);
    }
  }

  lemma {:induction false} LastWithIdOccurs(questions: seq<Question>, id: string)
    ensures LastWithId(questions, id).Some? ==>
      exists i :: 0 <= i < |questions| && questions[i].id == id && questions[i] == LastWithId(questions, id).value
  {
    if questions != [] && questions[|questions| - 1].id != id {
      LastWithIdOccurs(questions[..|questions| - 1], id);
    }
  }

  lemma KeyIsExpected(k: Kit, kind: SourceKind, i: nat)
    requires i < |QuestionsOf(k, kind)|
    ensures (kind, QuestionsOf(k, kind)[i].id) in ExpectedKeys(k)
  {
    var q := QuestionsOf(k, kind);
    var own := QuestionKeys(kind, q);
    assert own[i] == (kind, q[i].id) && own[i] in own;
  }

  /** With a complete key, every question has an entry that carries its exact answer and explanation. */
  lemma QuestionHasEntry(k: Kit, kind: SourceKind, i: nat) returns (j: nat)
    requires KitValid(k) && KeyComplete(k) && ReferencesMatch(k) && i < |QuestionsOf(k, kind)|
    ensures j < |k.answerKey.entries|
    ensures var e, q := k.answerKey.entries[j], QuestionsOf(k, kind)[i];
      e.kind == kind && e.questionId == q.id && e.answer == q.answer && e.explanation == q.explanation
  {
    var q := QuestionsOf(k, kind);
    var actual, expected := EntryKeys(k.answerKey.entries), ExpectedKeys(k);
    KeyIsExpected(k, kind, i);
    var e := set x | x in expected;
    assert (kind, q[i].id) in e;
    assert e == set x | x in actual;
    assert (kind, q[i].id) in actual;
    j :| 0 <= j < |actual| && actual[j] == (kind, q[i].id);
    assert EntryMatches(k, k.answerKey.entries[j]);
    LastWithIdIsUnique(q, i);
  }

  /** An entry and a question stand for each other. */
  ghost predicate Answers(k: Kit, j: int, kind: SourceKind, i: int) {
    && 0 <= j < |k.answerKey.entries| && 0 <= i < |QuestionsOf(k, kind)|
    && var e, q := k.answerKey.entries[j], QuestionsOf(k, kind)[i];
       e.kind == kind && e.questionId == q.id && e.answer == q.answer && e.explanation == q.explanation
  }

  ghost predicate EntryHasQuestion(k: Kit, j: int) { exists kind, i :: Answers(k, j, kind, i) }

  ghost predicate QuestionIsAnswered(k: Kit, kind: SourceKind, i: int) { exists j :: Answers(k, j, kind, i) }

  /**
   With valid artifacts, a complete key and matching references, Answers is a bijection
   between the entries and the questions of worksheet, quiz and homework.
   */
  lemma EntriesAreQuestions(k: Kit)
    requires KitValid(k) && KeyComplete(k) && ReferencesMatch(k)
    ensures forall j :: 0 <= j < |k.answerKey.entries| ==> EntryHasQuestion(k, j)
    ensures forall kind, i :: 0 <= i < |QuestionsOf(k, kind)| ==> QuestionIsAnswered(k, kind, i)
    ensures forall j, kind, i, kind', i' :: Answers(k, j, kind, i) && Answers(k, j, kind', i') ==>
      kind == kind' && i == i'
    ensures forall j, j', kind, i :: Answers(k, j, kind, i) && Answers(k, j', kind, i) ==> j == j'
  {
    forall j | 0 <= j < |k.answerKey.entries| ensures EntryHasQuestion(k, j) {
      var e := k.answerKey.entries[j];
      assert EntryMatches(k, e);
      LastWithIdOccurs(QuestionsOf(k, e.kind), e.questionId);
      var i :| 0 <= i < |QuestionsOf(k, e.kind)| && QuestionsOf(k, e.kind)[i].id == e.questionId
               && QuestionsOf(k, e.kind)[i] == LastWithId(QuestionsOf(k, e.kind), e.questionId).value;
      assert Answers(k, j, e.kind, i);
    }
    forall kind, i | 0 <= i < |QuestionsOf(k, kind)| ensures QuestionIsAnswered(k, kind, i) {
      var j := QuestionHasEntry(k, kind, i);
      assert Answers(k, j, kind, i);
    }
    AnswersIsInjective(k);
  }

  lemma AnswersIsInjective(k: Kit)
    requires KitValid(k)
    ensures forall j, kind, i, kind', i' :: Answers(k, j, kind, i) && Answers(k, j, kind', i') ==>
      kind == kind' && i == i'
    ensures forall j, j', kind, i :: Answers(k, j, kind, i) && Answers(k, j', kind, i) ==> j == j'
  {
    forall kind ensures DistinctQuestions(QuestionsOf(k, kind)) {}
    var keys := EntryKeys(k.answerKey.entries);
    forall j, j', kind, i | Answers(k, j, kind, i) && Answers(k, j', kind, i) ensures j == j' {
      assert keys[j] == keys[j'];
    }
  }

  /** Worksheet identifiers, answers and explanations are nonblank only because the key entries are. */
  lemma KeyMakesWorksheetNonblank(k: Kit)
    requires KitValid(k) && KeyComplete(k) && ReferencesMatch(k)
    ensures Answered(k.worksheet.questions)
    ensures forall q :: q in k.worksheet.questions ==> !Blank(q.id)
  {
    forall q | q in k.worksheet.questions ensures !Blank(q.id) && !Blank(q.answer) && !Blank(q.explanation) {
      var i :| 0 <= i < |k.worksheet.questions| && k.worksheet.questions[i] == q;
      var j := QuestionHasEntry(k, FromWorksheet, i);
      assert EntryValid(k.answerKey.entries[j]);
    }
  }

  lemma CleanKitCleanWorksheet(lx: Lexicon, k: Kit)
    requires Sound(lx) && Clean(lx, KitTexts(k))
    ensures Clean(lx, WorksheetTexts(k.worksheet))
  {
    JoinedSearch(lx, KitTexts(k));
    JoinedSearch(lx, WorksheetTexts(k.worksheet));
    forall t | t in WorksheetTexts(k.worksheet) ensures t in KitTexts(k) {}
  }

  lemma ValidMeansMapped(k: Kit)
    requires KitValid(k)
    ensures AllMapped(k)
  {
  }

  lemma ValidMeansIdentified(k: Kit)
    requires KitValid(k) && KeyComplete(k) && ReferencesMatch(k)
    ensures AllIdentified(k)
  {
    KeyMakesWorksheetNonblank(k);
  }

  lemma AgreementShares(k: Kit)
    requires KitValid(k) && ObjectivesAgree(k)
    ensures AllShared(k)
  {
  }

  predicate DecidingHold(lx: Lexicon, k: Kit) {
    && KeyComplete(k) && ReferencesMatch(k) && ObjectivesAgree(k) && Clean(lx, KitTexts(k))
    && BloomSpread(k.worksheet.questions) && DifficultySpread(k.worksheet.questions)
  }

  /** On valid artifacts the six deciding conditions force the other sixteen. */
  lemma SixForceAll(lx: Lexicon, k: Kit, i: nat)
    requires Sound(lx) && KitValid(k) && DecidingHold(lx, k) && i < 22
    ensures KitOutcome(lx, k, i)
  {
    KeyMakesWorksheetNonblank(k);
    CleanKitCleanWorksheet(lx, k);
    ValidMeansMapped(k);
    ValidMeansIdentified(k);
    AgreementShares(k);
    assert WorksheetValid(k.worksheet) && TeacherNotesValid(k.teacherNotes);
    hide AllShared, LessonPlanMapped, Mapped, AllIdentified, KeyComplete, ReferencesMatch, ObjectivesAgree, Clean;
    hide Blank, NoneBlank, Answered, BloomSpread, DifficultySpread, QuestionsValid, LessonPlanValid, ComponentValid;
    hide AnswerKeyValid, ObjectivesNonblank, DistinctObjectives;
  }

  lemma DecidingMeans(lx: Lexicon, k: Kit)
    ensures (forall i :: i in DECIDING ==> Outcome(lx, k, i)) <==> KitValid(k) && DecidingHold(lx, k)
  {
    hide KitValid, KeyComplete, ReferencesMatch, ObjectivesAgree, Clean, BloomSpread, DifficultySpread;
    assert KEY_COMPLETE in DECIDING && REFERENCES in DECIDING && AGREEMENT in DECIDING
      && ALIGNMENT in DECIDING && BLOOM in DECIDING && DIFFICULTY in DECIDING;
    if forall i :: i in DECIDING ==> Outcome(lx, k, i) {
      assert Outcome(lx, k, KEY_COMPLETE) && Outcome(lx, k, REFERENCES) && Outcome(lx, k, AGREEMENT)
        && Outcome(lx, k, ALIGNMENT) && Outcome(lx, k, BLOOM) && Outcome(lx, k, DIFFICULTY);
    }
  }

  /** evaluate_preparation_educational_quality_v1 as a function of the kit. */
  function Evaluated(lx: Lexicon, k: Kit): Verdict { Conclude(Report(lx, k)) }

  /**
   The verdict is PASS exactly when six checks pass, and the codes are the same sequence
   whether or not the schema check fails. The schema check need not be counted among them:
   whenever any check passes, it does.
   */
  lemma SixChecksDecide(lx: Lexicon, k: Kit)
    requires Sound(lx)
    ensures var v := Evaluated(lx, k);
      && |v.checks| == 22
      && (forall i :: 0 <= i < 22 ==> v.checks[i].code == AllCodes()[i])
      && NamesDeciding(AllCodes())
      && (v.status.Pass? <==> forall i :: i in DECIDING ==> v.checks[i].passed)
      && ((exists i :: 0 < i < 22 && v.checks[i].passed) ==> v.checks[0].passed)
  {
    var v := Evaluated(lx, k);
    hide AllCodes, KitOutcome, Sound, KitValid, DecidingHold, NamesDeciding;
    DecidingCodes();
    assert forall i :: 0 <= i < 22 ==> v.checks[i].passed == Outcome(lx, k, i);
    DecidingMeans(lx, k);
    FirstOutcome(lx, k);
    if forall i :: i in DECIDING ==> v.checks[i].passed {
      forall i | 0 <= i < 22 ensures v.checks[i].passed { SixForceAll(lx, k, i); }
    }
  }

  lemma FirstOutcome(lx: Lexicon, k: Kit)
    ensures KitOutcome(lx, k, 0)
  {
  }
}
