/** The verdict on a kit told by the fields of its artifacts: every check, and every text that is searched. */
module PreparationFields {
  import opened Basics
  import opened AlignmentSearch
  import opened Payloads
  import opened PreparationQuality
  import opened PayloadFields

  // ---- claims, field by field ----

  ghost predicate ObjectiveClaims(lx: Lexicon, objectives: seq<Objective>) {
    exists o :: o in objectives && HasClaim(lx, o.text)
  }

  ghost predicate OptionClaims(lx: Lexicon, options: seq<string>) { exists o :: o in options && HasClaim(lx, o) }

  ghost predicate QuestionClaims(lx: Lexicon, q: Question) {
    || HasClaim(lx, q.prompt) || HasClaim(lx, q.answer) || HasClaim(lx, q.explanation) || OptionClaims(lx, q.options)
    || (q.visual.Some? && HasClaim(lx, q.visual.value))
  }

  ghost predicate SomeQuestionClaims(lx: Lexicon, questions: seq<Question>) {
    exists q :: q in questions && QuestionClaims(lx, q)
  }

  ghost predicate SectionClaims(lx: Lexicon, sections: seq<Section>) {
    exists s :: s in sections
      && (HasClaim(lx, s.title) || HasClaim(lx, s.teacherActions) || HasClaim(lx, s.learnerActions))
  }

  ghost predicate LessonPlanClaims(lx: Lexicon, p: LessonPlan) {
    || HasClaim(lx, p.title) || HasClaim(lx, p.opening) || HasClaim(lx, p.closure) || HasClaim(lx, p.formativeCheck)
    || (exists m :: m in p.materials && HasClaim(lx, m))
    || ObjectiveClaims(lx, p.objectives) || SectionClaims(lx, p.sections)
  }

  ghost predicate WorksheetClaims(lx: Lexicon, w: Worksheet) {
    || HasClaim(lx, w.title) || HasClaim(lx, w.teacherSummary) || HasClaim(lx, w.instructions)
    || (w.teacherNotes.Some? && HasClaim(lx, w.teacherNotes.value))
    || ObjectiveClaims(lx, w.objectives) || SomeQuestionClaims(lx, w.questions)
  }

  ghost predicate ComponentClaims(lx: Lexicon, c: Component) {
    || HasClaim(lx, c.title) || HasClaim(lx, c.instructions)
    || ObjectiveClaims(lx, c.objectives) || SomeQuestionClaims(lx, c.questions)
  }

  ghost predicate AnswerKeyClaims(lx: Lexicon, a: AnswerKey) {
    HasClaim(lx, a.title)
    || exists e :: e in a.entries && (HasClaim(lx, e.answer) || HasClaim(lx, e.explanation))
  }

  ghost predicate NotesClaim(lx: Lexicon, n: TeacherNotes) {
    HasClaim(lx, n.title) || exists s :: s in n.notes && HasClaim(lx, s)
  }

  ghost predicate KitClaims(lx: Lexicon, k: Kit) {
    || LessonPlanClaims(lx, k.lessonPlan) || WorksheetClaims(lx, k.worksheet)
    || ComponentClaims(lx, k.quiz) || ComponentClaims(lx, k.homework)
    || AnswerKeyClaims(lx, k.answerKey) || NotesClaim(lx, k.teacherNotes)
  }

  /** Some of the texts contains a claim. */
  ghost predicate Claims(lx: Lexicon, texts: seq<string>) { exists t :: t in texts && HasClaim(lx, t) }

  lemma ClaimsOfBoth(lx: Lexicon, a: seq<string>, b: seq<string>)
    ensures Claims(lx, a + b) <==> Claims(lx, a) || Claims(lx, b)
  {
    hide HasClaim;
  }

  lemma ClaimsOfOne(lx: Lexicon, s: string)
    ensures Claims(lx, [s]) <==> HasClaim(lx, s)
  {
    assert s in [s];
    hide HasClaim;
  }

  lemma EmptyHasNoClaim(lx: Lexicon)
    ensures !HasClaim(lx, "")
  {
  }

  lemma VisibleClaims(lx: Lexicon, o: Option<string>)
    ensures Claims(lx, VisibleText(o)) <==> o.Some? && HasClaim(lx, o.value)
  {
    EmptyHasNoClaim(lx);
    hide HasClaim;
    if o.Some? && o.value != "" { ClaimsOfOne(lx, o.value); }
  }

  lemma ObjectivesClaim(lx: Lexicon, objectives: seq<Objective>)
    ensures Claims(lx, ObjectiveTexts(objectives)) <==> ObjectiveClaims(lx, objectives)
  {
    var t := ObjectiveTexts(objectives);
    hide HasClaim;
    forall o | o in objectives ensures o.text in t {
      var i :| 0 <= i < |objectives| && objectives[i] == o;
      assert t[i] == o.text;
    }
  }

  lemma QuestionTextsClaim(lx: Lexicon, q: Question)
    ensures Claims(lx, [q.prompt, q.answer, q.explanation] + q.options + VisibleText(q.visual)) <==>
      QuestionClaims(lx, q)
  {
    hide HasClaim, VisibleText;
    ClaimsOfBoth(lx, [q.prompt, q.answer, q.explanation] + q.options, VisibleText(q.visual));
    ClaimsOfBoth(lx, [q.prompt, q.answer, q.explanation], q.options);
    VisibleClaims(lx, q.visual);
    assert q.prompt in [q.prompt, q.answer, q.explanation];
    assert q.answer in [q.prompt, q.answer, q.explanation];
    assert q.explanation in [q.prompt, q.answer, q.explanation];
    assert Claims(lx, q.options) <==> OptionClaims(lx, q.options);
  }

  lemma {:induction false} QuestionsClaim(lx: Lexicon, questions: seq<Question>)
    ensures Claims(lx, QuestionTexts(questions)) <==> SomeQuestionClaims(lx, questions)
  {
    hide HasClaim, QuestionClaims, VisibleText;
    if questions != [] {
      var q := questions[0];
      QuestionsClaim(lx, questions[1..]);
      QuestionTextsClaim(lx, q);
      ClaimsOfBoth(lx, [q.prompt, q.answer, q.explanation] + q.options + VisibleText(q.visual),
                   QuestionTexts(questions[1..]));
      assert forall p :: p in questions <==> p == q || p in questions[1..];
    }
  }

  lemma {:induction false} SectionsClaim(lx: Lexicon, sections: seq<Section>)
    ensures Claims(lx, SectionTexts(sections)) <==> SectionClaims(lx, sections)
  {
    hide HasClaim;
    if sections != [] {
      var s := sections[0];
      var own := [s.title, s.teacherActions, s.learnerActions];
      SectionsClaim(lx, sections[1..]);
      ClaimsOfBoth(lx, own, SectionTexts(sections[1..]));
      assert s.title in own && s.teacherActions in own && s.learnerActions in own;
      assert forall p :: p in sections <==> p == s || p in sections[1..];
    }
  }

  lemma {:induction false} EntriesClaim(lx: Lexicon, entries: seq<Entry>)
    ensures Claims(lx, EntryTexts(entries)) <==>
      exists e :: e in entries && (HasClaim(lx, e.answer) || HasClaim(lx, e.explanation))
  {
    hide HasClaim;
    if entries != [] {
      var e := entries[0];
      EntriesClaim(lx, entries[1..]);
      ClaimsOfBoth(lx, [e.answer, e.explanation], EntryTexts(entries[1..]));
      assert e.answer in [e.answer, e.explanation] && e.explanation in [e.answer, e.explanation];
      assert forall p :: p in entries <==> p == e || p in entries[1..];
    }
  }

  lemma LessonPlanTextsClaim(lx: Lexicon, p: LessonPlan)
    ensures Claims(lx, LessonPlanTexts(p)) <==> LessonPlanClaims(lx, p)
  {
    var own := [p.title, p.opening, p.closure, p.formativeCheck];
    hide HasClaim, ObjectiveTexts, SectionTexts, ObjectiveClaims, SectionClaims;
    ObjectivesClaim(lx, p.objectives);
    SectionsClaim(lx, p.sections);
    ClaimsOfBoth(lx, own + p.materials + ObjectiveTexts(p.objectives), SectionTexts(p.sections));
    ClaimsOfBoth(lx, own + p.materials, ObjectiveTexts(p.objectives));
    ClaimsOfBoth(lx, own, p.materials);
    assert p.title in own && p.opening in own && p.closure in own && p.formativeCheck in own;
  }

  lemma WorksheetTextsClaim(lx: Lexicon, w: Worksheet)
    ensures Claims(lx, WorksheetTexts(w)) <==> WorksheetClaims(lx, w)
  {
    var own := [w.title, w.teacherSummary, w.instructions];
    hide HasClaim, VisibleText, ObjectiveTexts, QuestionTexts, ObjectiveClaims, SomeQuestionClaims;
    VisibleClaims(lx, w.teacherNotes);
    ObjectivesClaim(lx, w.objectives);
    QuestionsClaim(lx, w.questions);
    ClaimsOfBoth(lx, own + VisibleText(w.teacherNotes) + ObjectiveTexts(w.objectives), QuestionTexts(w.questions));
    ClaimsOfBoth(lx, own + VisibleText(w.teacherNotes), ObjectiveTexts(w.objectives));
    ClaimsOfBoth(lx, own, VisibleText(w.teacherNotes));
    assert w.title in own && w.teacherSummary in own && w.instructions in own;
  }

  lemma ComponentTextsClaim(lx: Lexicon, c: Component)
    ensures Claims(lx, ComponentTexts(c)) <==> ComponentClaims(lx, c)
  {
    var own := [c.title, c.instructions];
    hide HasClaim, ObjectiveTexts, QuestionTexts, ObjectiveClaims, SomeQuestionClaims;
    ObjectivesClaim(lx, c.objectives);
    QuestionsClaim(lx, c.questions);
    ClaimsOfBoth(lx, own + ObjectiveTexts(c.objectives), QuestionTexts(c.questions));
    ClaimsOfBoth(lx, own, ObjectiveTexts(c.objectives));
    assert c.title in own && c.instructions in own;
  }

  lemma KitTextsClaim(lx: Lexicon, k: Kit)
    ensures Claims(lx, KitTexts(k)) <==> KitClaims(lx, k)
  {
    var p, w, q, h := LessonPlanTexts(k.lessonPlan), WorksheetTexts(k.worksheet), ComponentTexts(k.quiz),
      ComponentTexts(k.homework);
    var e, n := EntryTexts(k.answerKey.entries), k.teacherNotes.notes;
    LessonPlanTextsClaim(lx, k.lessonPlan);
    WorksheetTextsClaim(lx, k.worksheet);
    ComponentTextsClaim(lx, k.quiz);
    ComponentTextsClaim(lx, k.homework);
    EntriesClaim(lx, k.answerKey.entries);
    hide HasClaim, LessonPlanTexts, WorksheetTexts, ComponentTexts, EntryTexts;
    hide LessonPlanClaims, WorksheetClaims, ComponentClaims;
    ClaimsOfBoth(lx, p + w + q + h + [k.answerKey.title] + e + [k.teacherNotes.title], n);
    ClaimsOfBoth(lx, p + w + q + h + [k.answerKey.title] + e, [k.teacherNotes.title]);
    ClaimsOfBoth(lx, p + w + q + h + [k.answerKey.title], e);
    ClaimsOfBoth(lx, p + w + q + h, [k.answerKey.title]);
    ClaimsOfBoth(lx, p + w + q, h);
    ClaimsOfBoth(lx, p + w, q);
    ClaimsOfBoth(lx, p, w);
    ClaimsOfOne(lx, k.answerKey.title);
    ClaimsOfOne(lx, k.teacherNotes.title);
  }

  lemma CleanMeans(lx: Lexicon, texts: seq<string>)
    requires Sound(lx)
    ensures Clean(lx, texts) <==> !Claims(lx, texts)
  {
    JoinedSearch(lx, texts);
    forall t | t in texts ensures FindClaim(lx, t).Some? <==> HasClaim(lx, t) { SearchIsMembership(lx, t); }
    hide FindClaim, HasClaim, Join;
  }

  lemma CheckAt(lx: Lexicon, k: Kit, i: nat)
    requires i < 22
    ensures |Evaluated(lx, k).checks| == 22
    ensures Evaluated(lx, k).checks[i] == Check(AllCodes()[i], KitValid(k) && KitOutcome(lx, k, i))
  {
    hide KitValid, KitOutcome, AllCodes;
  }

  lemma FailedCheckFails(lx: Lexicon, k: Kit, i: nat)
    requires i < 22 && !(KitValid(k) && KitOutcome(lx, k, i))
    ensures Evaluated(lx, k).status.Fail?
  {
    CheckAt(lx, k, i);
    hide KitValid, KitOutcome, Report;
  }

  lemma AlignmentOutcome(lx: Lexicon, k: Kit)
    ensures KitOutcome(lx, k, 11) <==> Clean(lx, KitTexts(k))
  {
    hide Clean, KitTexts;
  }

  /**
   On a valid kit the alignment check passes exactly if no text field of any artifact has a
   claim, and a claim in any one field fails the verdict.
   */
  lemma AlignmentFieldByField(lx: Lexicon, k: Kit)
    requires Sound(lx) && KitValid(k)
    ensures Evaluated(lx, k).checks[ALIGNMENT].passed <==> !KitClaims(lx, k)
    ensures KitClaims(lx, k) ==> Evaluated(lx, k).status.Fail?
  {
    assert ALIGNMENT == 11;
    hide *;
    CleanMeans(lx, KitTexts(k));
    KitTextsClaim(lx, k);
    AlignmentOutcome(lx, k);
    CheckAt(lx, k, 11);
    if KitClaims(lx, k) { FailedCheckFails(lx, k, 11); }
  }

  // ---- every check on a valid kit ----

  ghost predicate ObjectivesVisible(objectives: seq<Objective>) {
    forall o :: o in objectives ==> Visible(o.id) && Visible(o.text)
  }

  /** The entry is about a question of the list. */
  ghost predicate About(e: Entry, questions: seq<Question>) { exists q :: q in questions && q.id == e.questionId }

  /** The entry repeats answer and explanation of the question it is about. */
  ghost predicate Repeats(e: Entry, questions: seq<Question>) {
    exists q :: q in questions && q.id == e.questionId && q.answer == e.answer && q.explanation == e.explanation
  }

  /** Some entry of the key is about each question of the list. */
  ghost predicate HaveEntries(questions: seq<Question>, entries: seq<Entry>, kind: SourceKind) {
    forall q :: q in questions ==> exists e :: e in entries && e.kind == kind && e.questionId == q.id
  }

  ghost predicate KeyCovers(k: Kit) {
    var entries := k.answerKey.entries;
    && HaveEntries(k.worksheet.questions, entries, FromWorksheet) && HaveEntries(k.quiz.questions, entries, FromQuiz)
    && HaveEntries(k.homework.questions, entries, FromHomework)
    && forall e :: e in entries ==>
         match e.kind
         case FromWorksheet => About(e, k.worksheet.questions)
         case FromQuiz => About(e, k.quiz.questions)
         case FromHomework => About(e, k.homework.questions)
  }

  ghost predicate KeyRepeats(k: Kit) {
    forall e :: e in k.answerKey.entries ==>
      match e.kind
      case FromWorksheet => Repeats(e, k.worksheet.questions)
      case FromQuiz => Repeats(e, k.quiz.questions)
      case FromHomework => Repeats(e, k.homework.questions)
  }

  ghost predicate OneSetOfObjectives(k: Kit) {
    k.lessonPlan.objectives == k.worksheet.objectives == k.quiz.objectives == k.homework.objectives
  }

  /** Two levels at least, and one of them is the second or the third of the taxonomy. */
  ghost predicate Levels(questions: seq<Question>) {
    && (exists q :: q in questions && q.bloom in {Bloom.Understand, Bloom.Apply})
    && exists q, r :: q in questions && r in questions && q.bloom != r.bloom
  }

  ghost predicate Bands(questions: seq<Question>) {
    exists q, r :: q in questions && r in questions && q.difficulty != r.difficulty
  }

  lemma ValidParts(k: Kit)
    requires KitValid(k)
    ensures ObjectivesValid(k.worksheet.objectives) && TeacherNotesValid(k.teacherNotes)
    ensures SharedObjectives(k.lessonPlan.objectives) && SharedObjectives(k.quiz.objectives)
    ensures SharedObjectives(k.homework.objectives)
    ensures DistinctQuestions(k.worksheet.questions) && AllDistinct(EntryKeys(k.answerKey.entries))
    ensures IdentifiersOk(k.quiz.questions) && IdentifiersOk(k.homework.questions)
    ensures 6 <= |k.worksheet.questions| <= 12
  {
    hide Blank, NoneBlank, Known, EntryKeys;
  }

  lemma ObjectivesVisibleMeans(objectives: seq<Objective>)
    ensures ObjectivesVisible(objectives) <==> ObjectivesNonblank(objectives)
  {
    VisibleExactly();
    hide Blank, Visible;
  }

  lemma SharedOnValid(lx: Lexicon, k: Kit)
    requires KitValid(k)
    ensures KitOutcome(lx, k, 1) <==> ObjectivesVisible(k.worksheet.objectives)
  {
    ValidParts(k);
    ObjectivesVisibleMeans(k.worksheet.objectives);
    hide KitValid, ObjectivesVisible, ObjectivesNonblank, DistinctObjectives, ObjectiveValid;
  }

  lemma MappedOnValid(lx: Lexicon, k: Kit)
    requires KitValid(k)
    ensures KitOutcome(lx, k, 2) && KitOutcome(lx, k, 3) && KitOutcome(lx, k, 4) && KitOutcome(lx, k, 5)
    ensures KitOutcome(lx, k, 10) <==> OneSetOfObjectives(k)
    ensures KitOutcome(lx, k, 9) <==> OneSetOfObjectives(k)
  {
    ValidMeansMapped(k);
    hide KitValid, LessonPlanMapped, Mapped;
  }

  lemma IdentifiersOutcome(lx: Lexicon, k: Kit)
    ensures KitOutcome(lx, k, 6) <==> AllIdentified(k)
  {
    hide AllIdentified;
  }

  lemma IdentifiersOnValid(lx: Lexicon, k: Kit)
    requires KitValid(k)
    ensures KitOutcome(lx, k, 6) <==> forall q :: q in k.worksheet.questions ==> Visible(q.id)
  {
    ValidParts(k);
    IdentifiersOutcome(lx, k);
    VisibleExactly();
    hide KitOutcome, KitValid, Blank, Visible, AllDistinct, DistinctQuestions, ObjectivesValid, SharedObjectives;
  }

  lemma ExpectedMeans(k: Kit, kind: SourceKind, id: string)
    ensures (kind, id) in ExpectedKeys(k) <==> exists q :: q in QuestionsOf(k, kind) && q.id == id
  {
    var w, z, h := QuestionKeys(FromWorksheet, k.worksheet.questions), QuestionKeys(FromQuiz, k.quiz.questions),
      QuestionKeys(FromHomework, k.homework.questions);
    QuestionKeysMean(FromWorksheet, k.worksheet.questions, kind, id);
    QuestionKeysMean(FromQuiz, k.quiz.questions, kind, id);
    QuestionKeysMean(FromHomework, k.homework.questions, kind, id);
    hide QuestionKeys;
  }

  lemma QuestionKeysMean(source: SourceKind, questions: seq<Question>, kind: SourceKind, id: string)
    ensures (kind, id) in QuestionKeys(source, questions) <==>
      kind == source && exists q :: q in questions && q.id == id
  {
    var keys := QuestionKeys(source, questions);
    if kind == source && exists q :: q in questions && q.id == id {
      var q :| q in questions && q.id == id;
      var i :| 0 <= i < |questions| && questions[i] == q;
      assert keys[i] == (kind, id);
    }
  }

  lemma EntryKeysMean(entries: seq<Entry>, kind: SourceKind, id: string)
    ensures (kind, id) in EntryKeys(entries) <==> exists e :: e in entries && e.kind == kind && e.questionId == id
  {
    var keys := EntryKeys(entries);
    if exists e :: e in entries && e.kind == kind && e.questionId == id {
      var e :| e in entries && e.kind == kind && e.questionId == id;
      var i :| 0 <= i < |entries| && entries[i] == e;
      assert keys[i] == (kind, id);
    }
  }

  lemma ExpectedAreDistinct(k: Kit)
    requires KitValid(k)
    ensures AllDistinct(ExpectedKeys(k))
  {
    var w, z, h := QuestionKeys(FromWorksheet, k.worksheet.questions), QuestionKeys(FromQuiz, k.quiz.questions),
      QuestionKeys(FromHomework, k.homework.questions);
    assert DistinctQuestions(k.worksheet.questions) && DistinctQuestions(k.quiz.questions)
      && DistinctQuestions(k.homework.questions);
    hide KitValid;
    assert ExpectedKeys(k) == w + z + h;
    assert AllDistinct(w) && AllDistinct(z) && AllDistinct(h);
  }

  /** On a valid kit the two sizes agree as soon as the two sets do. */
  lemma SizesAgree(k: Kit)
    requires KitValid(k)
    ensures KeyComplete(k) <==>
      forall kind, id :: (kind, id) in EntryKeys(k.answerKey.entries) <==> (kind, id) in ExpectedKeys(k)
  {
    var actual, expected := EntryKeys(k.answerKey.entries), ExpectedKeys(k);
    ExpectedAreDistinct(k);
    assert AllDistinct(actual);
    DistinctBySize(actual);
    DistinctBySize(expected);
    hide KitValid, EntryKeys, ExpectedKeys, AllDistinct;
    var a, e := set x | x in actual, set x | x in expected;
    if KeyComplete(k) {
      forall kind, id ensures (kind, id) in actual <==> (kind, id) in expected {
        assert (kind, id) in actual <==> (kind, id) in a;
        assert (kind, id) in expected <==> (kind, id) in e;
      }
    }
    if forall kind, id :: (kind, id) in actual <==> (kind, id) in expected {
      forall x ensures x in a <==> x in e { assert x == (x.0, x.1); }
      assert a == e;
    }
  }

  ghost predicate EntryFor(entries: seq<Entry>, kind: SourceKind, id: string) {
    exists e :: e in entries && e.kind == kind && e.questionId == id
  }

  ghost predicate QuestionFor(k: Kit, kind: SourceKind, id: string) {
    exists q :: q in QuestionsOf(k, kind) && q.id == id
  }

  lemma KeyOnValid(lx: Lexicon, k: Kit)
    requires KitValid(k)
    ensures KitOutcome(lx, k, 7) <==> KeyCovers(k)
  {
    SizesAgree(k);
    forall kind, id
      ensures (kind, id) in EntryKeys(k.answerKey.entries) <==> EntryFor(k.answerKey.entries, kind, id)
      ensures (kind, id) in ExpectedKeys(k) <==> QuestionFor(k, kind, id)
    {
      EntryKeysMean(k.answerKey.entries, kind, id);
      ExpectedMeans(k, kind, id);
    }
    CoversExactly(k);
    hide KitValid, EntryKeys, ExpectedKeys, KeyCovers, EntryFor, QuestionFor;
    assert KitOutcome(lx, k, 7) <==> KeyComplete(k);
    hide KeyComplete, KitOutcome;
    if KeyComplete(k) {
      forall kind, id ensures EntryFor(k.answerKey.entries, kind, id) <==> QuestionFor(k, kind, id) {
        assert (kind, id) in EntryKeys(k.answerKey.entries) <==> (kind, id) in ExpectedKeys(k);
      }
    }
    if KeyCovers(k) {
      forall kind, id ensures (kind, id) in EntryKeys(k.answerKey.entries) <==> (kind, id) in ExpectedKeys(k) {
        assert EntryFor(k.answerKey.entries, kind, id) <==> QuestionFor(k, kind, id);
      }
    }
  }

  lemma ThreeSources(k: Kit)
    ensures KeyCovers(k) <==>
      && (forall kind :: HaveEntries(QuestionsOf(k, kind), k.answerKey.entries, kind))
      && (forall e :: e in k.answerKey.entries ==> About(e, QuestionsOf(k, e.kind)))
  {
    hide HaveEntries, About;
    if forall kind :: HaveEntries(QuestionsOf(k, kind), k.answerKey.entries, kind) {
      assert HaveEntries(QuestionsOf(k, FromWorksheet), k.answerKey.entries, FromWorksheet);
      assert HaveEntries(QuestionsOf(k, FromQuiz), k.answerKey.entries, FromQuiz);
      assert HaveEntries(QuestionsOf(k, FromHomework), k.answerKey.entries, FromHomework);
    }
  }

  lemma CoversExactly(k: Kit)
    ensures KeyCovers(k) <==>
      forall kind, id :: EntryFor(k.answerKey.entries, kind, id) <==> QuestionFor(k, kind, id)
  {
    var entries := k.answerKey.entries;
    ThreeSources(k);
    hide KeyCovers, QuestionsOf;
    if KeyCovers(k) {
      forall kind, id ensures EntryFor(entries, kind, id) <==> QuestionFor(k, kind, id) {
        assert HaveEntries(QuestionsOf(k, kind), entries, kind);
      }
    }
    if forall kind, id :: EntryFor(entries, kind, id) <==> QuestionFor(k, kind, id) {
      forall kind ensures HaveEntries(QuestionsOf(k, kind), entries, kind) {
        forall q | q in QuestionsOf(k, kind) ensures EntryFor(entries, kind, q.id) {
          assert QuestionFor(k, kind, q.id);
        }
      }
      forall e | e in entries ensures About(e, QuestionsOf(k, e.kind)) {
        assert EntryFor(entries, e.kind, e.questionId);
      }
    }
  }

  lemma ReferencesOnValid(lx: Lexicon, k: Kit)
    requires KitValid(k)
    ensures KitOutcome(lx, k, 8) <==> KeyRepeats(k)
  {
    assert DistinctQuestions(k.worksheet.questions) && DistinctQuestions(k.quiz.questions)
      && DistinctQuestions(k.homework.questions);
    hide KitValid, LastWithId;
    forall e | e in k.answerKey.entries ensures EntryMatches(k, e) <==> Repeats(e, QuestionsOf(k, e.kind)) {
      MatchesExactly(k, e);
    }
    hide EntryMatches, Repeats;
  }

  lemma MatchesExactly(k: Kit, e: Entry)
    requires DistinctQuestions(QuestionsOf(k, e.kind))
    ensures EntryMatches(k, e) <==> Repeats(e, QuestionsOf(k, e.kind))
  {
    var questions := QuestionsOf(k, e.kind);
    LastWithIdOccurs(questions, e.questionId);
    if exists q :: q in questions && q.id == e.questionId {
      var q :| q in questions && q.id == e.questionId;
      var i :| 0 <= i < |questions| && questions[i] == q;
      LastWithIdIsUnique(questions, i);
    }
    forall q | q in questions && q.id == e.questionId ensures LastWithId(questions, e.questionId) == Some(q) {
      var i :| 0 <= i < |questions| && questions[i] == q;
      LastWithIdIsUnique(questions, i);
    }
    hide LastWithId, QuestionsOf;
  }

  lemma ForcedOnValid(lx: Lexicon, k: Kit)
    requires KitValid(k)
    ensures KitOutcome(lx, k, 12) && KitOutcome(lx, k, 13) && KitOutcome(lx, k, 14) && KitOutcome(lx, k, 15)
    ensures KitOutcome(lx, k, 16) && KitOutcome(lx, k, 18)
  {
    ValidParts(k);
    ValidMeansMapped(k);
    hide KitValid, Blank, NoneBlank, Mapped, LessonPlanMapped, IdentifiersOk, SharedObjectives, DistinctObjectives;
  }

  lemma AnsweredMeans(questions: seq<Question>)
    ensures Answered(questions) <==> forall q :: q in questions ==> Visible(q.answer) && Visible(q.explanation)
  {
    VisibleExactly();
    hide Blank, Visible;
  }

  lemma SpreadOutcomes(lx: Lexicon, k: Kit)
    ensures KitOutcome(lx, k, 17) <==> Answered(k.worksheet.questions)
    ensures KitOutcome(lx, k, 19) <==> BloomSpread(k.worksheet.questions)
    ensures KitOutcome(lx, k, 20) <==> DifficultySpread(k.worksheet.questions)
    ensures KitOutcome(lx, k, 21) <==> Clean(lx, WorksheetTexts(k.worksheet))
  {
    hide Answered, BloomSpread, DifficultySpread, Clean, WorksheetTexts;
  }

  lemma WorksheetOnValid(lx: Lexicon, k: Kit)
    ensures KitOutcome(lx, k, 17) <==>
      forall q :: q in k.worksheet.questions ==> Visible(q.answer) && Visible(q.explanation)
    ensures KitOutcome(lx, k, 19) <==> Levels(k.worksheet.questions)
    ensures KitOutcome(lx, k, 20) <==> Bands(k.worksheet.questions)
  {
    AnsweredMeans(k.worksheet.questions);
    SpreadOutcomes(lx, k);
    hide KitOutcome, Answered, Visible;
  }

  lemma WorksheetClaimsOnValid(lx: Lexicon, k: Kit)
    requires Sound(lx)
    ensures KitOutcome(lx, k, 21) <==> !WorksheetClaims(lx, k.worksheet)
  {
    hide *;
    CleanMeans(lx, WorksheetTexts(k.worksheet));
    WorksheetTextsClaim(lx, k.worksheet);
    SpreadOutcomes(lx, k);
  }

  lemma CodesInOrder()
    ensures var c := AllCodes();
      && c[0] == "schema_valid" && c[1] == "shared_objectives_present" && c[2] == "lesson_plan_objectives_mapped"
      && c[3] == "worksheet_objectives_mapped" && c[4] == "quiz_objectives_mapped"
      && c[5] == "homework_objectives_mapped" && c[6] == "question_identifier_integrity"
      && c[7] == "answer_key_complete" && c[8] == "answer_key_reference_integrity"
      && c[9] == "cross_artifact_objective_consistency" && c[10] == "cross_artifact_topic_consistency"
      && c[11] == "unsupported_alignment_claim_absent" && c[12] == "teacher_notes_present"
  {
    assert forall i :: 0 <= i < 13 ==> AllCodes()[i] == PREPARATION_CODES[i];
  }

  lemma WorksheetCodesInOrder()
    ensures var c := AllCodes();
      && c[13] == "worksheet_" + "schema_valid" && c[14] == "worksheet_" + "learning_objectives_present"
      && c[15] == "worksheet_" + "question_count_valid" && c[16] == "worksheet_" + "objective_mapping_complete"
      && c[17] == "worksheet_" + "answer_key_complete" && c[18] == "worksheet_" + "bloom_labels_valid"
      && c[19] == "worksheet_" + "bloom_distribution_baseline"
      && c[20] == "worksheet_" + "difficulty_distribution_baseline"
      && c[21] == "worksheet_" + "unsupported_alignment_claim_absent"
  {
    assert forall i :: 0 <= i < 9 ==> AllCodes()[13 + i] == "worksheet_" + WORKSHEET_CODES[i];
  }

  /** The check with this code, and whether it passed. */
  ghost predicate Says(v: Verdict, i: nat, code: string, passed: bool) {
    i < |v.checks| && v.checks[i] == Check(code, passed)
  }

  /**
   What the thirteen kit checks come to when all artifacts are valid: mapping and notes cannot
   fail any more, topic consistency is objective consistency, and of identifiers and shared
   objectives only the worksheet's can be blank.
   */
  lemma KitChecksOnValid(lx: Lexicon, k: Kit)
    requires Sound(lx) && KitValid(k)
    ensures var v := Evaluated(lx, k);
      && Says(v, 0, "schema_valid", true)
      && Says(v, 1, "shared_objectives_present", ObjectivesVisible(k.worksheet.objectives))
      && Says(v, 2, "lesson_plan_objectives_mapped", true) && Says(v, 3, "worksheet_objectives_mapped", true)
      && Says(v, 4, "quiz_objectives_mapped", true) && Says(v, 5, "homework_objectives_mapped", true)
      && Says(v, 6, "question_identifier_integrity", forall q :: q in k.worksheet.questions ==> Visible(q.id))
      && Says(v, 7, "answer_key_complete", KeyCovers(k))
      && Says(v, 8, "answer_key_reference_integrity", KeyRepeats(k))
      && Says(v, 9, "cross_artifact_objective_consistency", OneSetOfObjectives(k))
      && Says(v, 10, "cross_artifact_topic_consistency", OneSetOfObjectives(k))
      && Says(v, 11, "unsupported_alignment_claim_absent", !KitClaims(lx, k))
      && Says(v, 12, "teacher_notes_present", true)
  {
    hide *;
    FirstOutcome(lx, k);
    SharedOnValid(lx, k);
    MappedOnValid(lx, k);
    IdentifiersOnValid(lx, k);
    KeyOnValid(lx, k);
    ReferencesOnValid(lx, k);
    AlignmentOutcome(lx, k);
    CleanMeans(lx, KitTexts(k));
    KitTextsClaim(lx, k);
    ForcedOnValid(lx, k);
    CodesInOrder();
    forall i: nat | i < 13 ensures i < |Evaluated(lx, k).checks|
      && Evaluated(lx, k).checks[i] == Check(AllCodes()[i], KitOutcome(lx, k, i)) { CheckAt(lx, k, i); }
    SaysMeans();
  }

  lemma SaysMeans()
    ensures forall v: Verdict, i: nat, code: string, passed: bool ::
      i < |v.checks| && v.checks[i] == Check(code, passed) ==> Says(v, i, code, passed)
  {
  }

  /** The same for the nine worksheet checks. */
  lemma WorksheetChecksOnValid(lx: Lexicon, k: Kit)
    requires Sound(lx) && KitValid(k)
    ensures var v, w := Evaluated(lx, k), k.worksheet;
      && Says(v, 13, "worksheet_" + "schema_valid", true)
      && Says(v, 14, "worksheet_" + "learning_objectives_present", true)
      && Says(v, 15, "worksheet_" + "question_count_valid", true)
      && Says(v, 16, "worksheet_" + "objective_mapping_complete", true)
      && Says(v, 17, "worksheet_" + "answer_key_complete",
              forall q :: q in w.questions ==> Visible(q.answer) && Visible(q.explanation))
      && Says(v, 18, "worksheet_" + "bloom_labels_valid", true)
      && Says(v, 19, "worksheet_" + "bloom_distribution_baseline", Levels(w.questions))
      && Says(v, 20, "worksheet_" + "difficulty_distribution_baseline", Bands(w.questions))
      && Says(v, 21, "worksheet_" + "unsupported_alignment_claim_absent", !WorksheetClaims(lx, w))
  {
    hide *;
    ForcedOnValid(lx, k);
    WorksheetOnValid(lx, k);
    WorksheetClaimsOnValid(lx, k);
    WorksheetCodesInOrder();
    forall i: nat | 13 <= i < 22 ensures i < |Evaluated(lx, k).checks|
      && Evaluated(lx, k).checks[i] == Check(AllCodes()[i], KitOutcome(lx, k, i)) { CheckAt(lx, k, i); }
    SaysMeans();
  }

  /** If an artifact is invalid, all 22 checks fail, under the same codes. */
  lemma InvalidKitFailsAll(lx: Lexicon, k: Kit, i: nat)
    requires !KitValid(k) && i < 22
    ensures Says(Evaluated(lx, k), i, AllCodes()[i], false) && Evaluated(lx, k).status.Fail?
  {
    CheckAt(lx, k, i);
    FailedCheckFails(lx, k, i);
    hide KitValid, KitOutcome, AllCodes, Evaluated;
  }
}
