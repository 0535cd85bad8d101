/**
 The validators of the six artifacts, field by field: in a valid artifact, which new values of
 one field keep it valid.
 */
module PayloadFields {
  import opened Basics
  import opened Payloads
  import TextRules

  /** s.strip() is not empty. */
  ghost predicate Visible(s: string) { Stripped(s) != "" }

  ghost predicate AllVisible(texts: seq<string>) { forall s :: s in texts ==> Visible(s) }

  lemma VisibleExactly()
    ensures forall s :: Visible(s) <==> !Blank(s)
    ensures forall texts :: AllVisible(texts) <==> NoneBlank(texts)
  {
    forall s ensures Visible(s) <==> !Blank(s) { TextRules.StripExactly(s); }
    hide Visible, Blank;
  }

  /** The identifiers are those of objectives of the artifact, there is one at least, and none is blank. */
  ghost predicate Refers(objectives: seq<Objective>, ids: seq<string>) {
    ids != [] && forall id :: id in ids ==> Visible(id) && exists o :: o in objectives && o.id == id
  }

  lemma RefersExactly(objectives: seq<Objective>, ids: seq<string>)
    ensures Refers(objectives, ids) <==> ids != [] && NoneBlank(ids) && AllKnown(objectives, ids)
  {
    VisibleExactly();
    hide Visible, Blank;
    forall id ensures Known(objectives, id) <==> exists o :: o in objectives && o.id == id {
      if Known(objectives, id) {
        var i :| 0 <= i < |objectives| && objectives[i].id == id;
        assert objectives[i] in objectives;
      }
    }
    hide Known;
  }

  // ---- lesson plan ----

  /** Each single text, list of texts and list of identifiers. */
  lemma LessonPlanFields(p: LessonPlan, s: string, texts: seq<string>)
    requires LessonPlanValid(p)
    ensures LessonPlanValid(p.(title := s)) <==> Visible(s)
    ensures LessonPlanValid(p.(opening := s)) <==> Visible(s)
    ensures LessonPlanValid(p.(closure := s)) <==> Visible(s)
    ensures LessonPlanValid(p.(formativeCheck := s)) <==> Visible(s)
    ensures LessonPlanValid(p.(materials := texts)) <==> texts != [] && AllVisible(texts)
    ensures LessonPlanValid(p.(objectiveIds := texts)) <==> Refers(p.objectives, texts)
    ensures !LessonPlanValid(p.(sections := [])) && !LessonPlanValid(p.(objectives := []))
  {
    VisibleExactly();
    RefersExactly(p.objectives, texts);
    hide Visible, Blank, NoneBlank, AllVisible, Refers, AllKnown, SectionValid, DistinctObjectives, ObjectivesNonblank;
  }

  ghost predicate SectionColumns(objectives: seq<Objective>, s: Section) {
    && Visible(s.id) && Visible(s.title) && Visible(s.teacherActions) && Visible(s.learnerActions)
    && Refers(objectives, s.objectiveIds) && s.minutes > 0
  }

  lemma SectionExactly(objectives: seq<Objective>, s: Section)
    ensures SectionValid(objectives, s) <==> SectionColumns(objectives, s)
  {
    VisibleExactly();
    RefersExactly(objectives, s.objectiveIds);
    hide Visible, Blank, NoneBlank, AllVisible, Refers, AllKnown;
  }

  /** Any section in place of section i. */
  lemma SectionReplaced(p: LessonPlan, i: nat, s: Section)
    requires LessonPlanValid(p) && i < |p.sections|
    ensures LessonPlanValid(p.(sections := p.sections[i := s])) <==>
      SectionColumns(p.objectives, s) && forall j :: 0 <= j < |p.sections| && j != i ==> p.sections[j].id != s.id
  {
    SectionExactly(p.objectives, s);
    hide Blank, NoneBlank, AllKnown, SectionColumns, SectionValid, DistinctObjectives, ObjectivesNonblank;
    var n := p.sections[i := s];
    assert n[i] == s && forall j :: 0 <= j < |n| && j != i ==> n[j] == p.sections[j];
    assert (forall x :: x in n ==> SectionValid(p.objectives, x)) <==> SectionValid(p.objectives, s) by {
      assert s in n;
      forall x | x in n && x != s ensures x in p.sections {}
    }
  }

  // ---- questions ----

  /** The fields of one question; a multiple-choice question offers three to five options, its answer among them. */
  ghost predicate QuestionColumns(objectives: seq<Objective>, q: Question) {
    && q.id != "" && q.prompt != "" && q.answer != "" && q.explanation != "" && Refers(objectives, q.objectiveIds)
    && if q.kind == MultipleChoice then |q.options| in {3, 4, 5} && AllVisible(q.options) && q.answer in q.options
       else |q.options| == 0
  }

  lemma QuestionExactly(objectives: seq<Objective>, q: Question)
    ensures QuestionValid(q) && AllKnown(objectives, q.objectiveIds) <==> QuestionColumns(objectives, q)
  {
    VisibleExactly();
    RefersExactly(objectives, q.objectiveIds);
    hide Visible, Blank, NoneBlank, AllVisible, Refers, AllKnown;
  }

  lemma QuestionListReplaced(objectives: seq<Objective>, questions: seq<Question>, i: nat, q: Question)
    requires QuestionsValid(objectives, questions) && i < |questions|
    ensures QuestionsValid(objectives, questions[i := q]) <==>
      && QuestionColumns(objectives, q)
      && forall j :: 0 <= j < |questions| && j != i ==> questions[j].id != q.id
  {
    QuestionExactly(objectives, q);
    hide QuestionValid, AllKnown, QuestionColumns;
    var n := questions[i := q];
    assert n[i] == q && forall j :: 0 <= j < |n| && j != i ==> n[j] == questions[j];
    assert q in n && forall x :: x in n && x != q ==> x in questions;
  }

  // ---- worksheet ----

  /** Worksheet texts may be white space only. */
  lemma WorksheetFields(w: Worksheet, s: string, notes: Option<string>)
    requires WorksheetValid(w)
    ensures WorksheetValid(w.(title := s)) <==> s != ""
    ensures WorksheetValid(w.(teacherSummary := s)) <==> s != ""
    ensures WorksheetValid(w.(instructions := s)) <==> s != ""
    ensures WorksheetValid(w.(teacherNotes := notes))
    ensures !WorksheetValid(w.(objectives := []))
  {
    hide QuestionsValid, DistinctObjectives;
  }

  lemma WorksheetQuestionReplaced(w: Worksheet, i: nat, q: Question)
    requires WorksheetValid(w) && i < |w.questions|
    ensures WorksheetValid(w.(questions := w.questions[i := q])) <==>
      QuestionColumns(w.objectives, q) && forall j :: 0 <= j < |w.questions| && j != i ==> w.questions[j].id != q.id
  {
    QuestionListReplaced(w.objectives, w.questions, i, q);
    hide QuestionsValid, QuestionColumns, ObjectivesValid;
  }

  /** The first n questions of a valid worksheet are enough exactly if they are six. */
  lemma WorksheetShortened(w: Worksheet, n: nat)
    requires WorksheetValid(w) && n <= |w.questions|
    ensures WorksheetValid(w.(questions := w.questions[..n])) <==> n >= 6
    ensures |w.questions| <= 12
  {
    var short := w.questions[..n];
    hide QuestionValid, AllKnown, ObjectivesValid;
    assert forall j :: 0 <= j < n ==> short[j] == w.questions[j];
    assert forall q :: q in short ==> q in w.questions;
  }

  /** One more question, of which there may be twelve. */
  lemma WorksheetLengthened(w: Worksheet, q: Question)
    requires WorksheetValid(w) && QuestionColumns(w.objectives, q) && forall x :: x in w.questions ==> x.id != q.id
    ensures WorksheetValid(w.(questions := w.questions + [q])) <==> |w.questions| < 12
  {
    var long := w.questions + [q];
    QuestionExactly(w.objectives, q);
    hide QuestionValid, AllKnown, ObjectivesValid, QuestionColumns;
    assert forall j :: 0 <= j < |w.questions| ==> long[j] == w.questions[j] && w.questions[j] in w.questions;
    assert forall x :: x in long <==> x in w.questions || x == q;
    assert DistinctQuestions(long);
  }

  // ---- quiz and homework ----

  lemma ComponentFields(c: Component, s: string)
    requires ComponentValid(c)
    ensures ComponentValid(c.(title := s)) <==> Visible(s)
    ensures ComponentValid(c.(instructions := s)) <==> Visible(s)
    ensures !ComponentValid(c.(objectives := [])) && !ComponentValid(c.(questions := []))
  {
    VisibleExactly();
    hide Visible, Blank, QuestionsValid, DistinctObjectives, ObjectivesNonblank;
  }

  lemma ComponentQuestionReplaced(c: Component, i: nat, q: Question)
    requires ComponentValid(c) && i < |c.questions|
    ensures ComponentValid(c.(questions := c.questions[i := q])) <==>
      && QuestionColumns(c.objectives, q) && Visible(q.id) && Visible(q.prompt) && Visible(q.answer)
      && Visible(q.explanation) && forall j :: 0 <= j < |c.questions| && j != i ==> c.questions[j].id != q.id
  {
    QuestionListReplaced(c.objectives, c.questions, i, q);
    VisibleExactly();
    var n := c.questions[i := q];
    assert n[i] == q && q in n && forall x :: x in n && x != q ==> x in c.questions;
    hide QuestionsValid, QuestionColumns, ObjectivesValid, ObjectivesNonblank, Visible, Blank;
  }

  // ---- objectives ----

  /** Any objective in place of objective i, in the list on its own. */
  lemma ObjectiveReplaced(objectives: seq<Objective>, i: nat, o: Objective)
    requires ObjectivesValid(objectives) && i < |objectives|
    ensures ObjectivesValid(objectives[i := o]) <==>
      o.id != "" && o.text != "" && forall j :: 0 <= j < |objectives| && j != i ==> objectives[j].id != o.id
    ensures ObjectivesNonblank(objectives) ==>
      (ObjectivesNonblank(objectives[i := o]) <==> Visible(o.id) && Visible(o.text))
  {
    VisibleExactly();
    hide Visible, Blank;
    var n := objectives[i := o];
    assert n[i] == o && o in n && (forall j :: 0 <= j < |n| && j != i ==> n[j] == objectives[j])
      && forall x :: x in n && x != o ==> x in objectives;
  }

  // ---- answer key and teacher notes ----

  lemma AnswerKeyFields(a: AnswerKey, s: string)
    requires AnswerKeyValid(a)
    ensures AnswerKeyValid(a.(title := s)) <==> Visible(s)
    ensures !AnswerKeyValid(a.(entries := []))
  {
    VisibleExactly();
    hide Visible, Blank, AllDistinct, EntryKeys;
  }

  lemma EntryReplaced(a: AnswerKey, i: nat, e: Entry)
    requires AnswerKeyValid(a) && i < |a.entries|
    ensures AnswerKeyValid(a.(entries := a.entries[i := e])) <==>
      && Visible(e.questionId) && Visible(e.answer) && Visible(e.explanation)
      && forall j :: 0 <= j < |a.entries| && j != i ==>
           a.entries[j].kind != e.kind || a.entries[j].questionId != e.questionId
  {
    VisibleExactly();
    hide Visible, Blank;
    var n := a.entries[i := e];
    assert n[i] == e && e in n && (forall j :: 0 <= j < |n| && j != i ==> n[j] == a.entries[j])
      && forall x :: x in n && x != e ==> x in a.entries;
    var keys, before := EntryKeys(n), EntryKeys(a.entries);
    assert forall j :: 0 <= j < |n| && j != i ==> keys[j] == before[j];
    assert keys[i] == (e.kind, e.questionId);
    assert forall j :: 0 <= j < |n| ==> before[j] == (a.entries[j].kind, a.entries[j].questionId);
    assert AllDistinct(keys) <==> forall j :: 0 <= j < |n| && j != i ==> before[j] != keys[i] by {
      hide EntryKeys, EntryValid;
    }
    hide EntryKeys, AllDistinct;
  }

  lemma TeacherNotesFields(n: TeacherNotes, s: string, texts: seq<string>)
    requires TeacherNotesValid(n)
    ensures TeacherNotesValid(n.(title := s)) <==> Visible(s)
    ensures TeacherNotesValid(n.(notes := texts)) <==> texts != [] && AllVisible(texts)
  {
    VisibleExactly();
    hide Visible, Blank;
  }
}
