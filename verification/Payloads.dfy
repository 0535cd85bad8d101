/** The six preparation artifacts and what their validators demand. */
module Payloads {
  import opened Basics

  datatype QuestionType = MultipleChoice | ShortAnswer | TrueFalse
  datatype Difficulty = Easy | Medium | Hard
  datatype Bloom = Remember | Understand | Apply | Analyze | Evaluate | Create
  datatype SourceKind = FromWorksheet | FromQuiz | FromHomework

  datatype Objective = Objective(id: string, text: string)

  datatype Question = Question(
    id: string, prompt: string, kind: QuestionType, difficulty: Difficulty, bloom: Bloom,
    objectiveIds: seq<string>, options: seq<string>, answer: string, explanation: string,
    visual: Option<string>)

  datatype Section = Section(
    id: string, title: string, objectiveIds: seq<string>,
    teacherActions: string, learnerActions: string, minutes: int)

  datatype LessonPlan = LessonPlan(
    title: string, objectives: seq<Objective>, objectiveIds: seq<string>, materials: seq<string>,
    opening: string, sections: seq<Section>, closure: string, formativeCheck: string)

  datatype Worksheet = Worksheet(
    title: string, teacherSummary: string, objectives: seq<Objective>, instructions: string,
    questions: seq<Question>, teacherNotes: Option<string>)

  /** QuizV1 and HomeworkV1 have the same fields and validators. */
  datatype Component = Component(
    title: string, objectives: seq<Objective>, instructions: string, questions: seq<Question>)

  datatype Entry = Entry(kind: SourceKind, questionId: string, answer: string, explanation: string)

  datatype AnswerKey = AnswerKey(title: string, entries: seq<Entry>)

  datatype TeacherNotes = TeacherNotes(title: string, notes: seq<string>)

  datatype Kit = Kit(
    lessonPlan: LessonPlan, worksheet: Worksheet, quiz: Component, homework: Component,
    answerKey: AnswerKey, teacherNotes: TeacherNotes)

  // ---- shared tests ----

  predicate NoneBlank(texts: seq<string>) { forall s :: s in texts ==> !Blank(s) }

  predicate Known(objectives: seq<Objective>, id: string) {
    exists i :: 0 <= i < |objectives| && objectives[i].id == id
  }

  predicate AllKnown(objectives: seq<Objective>, ids: seq<string>) {
    forall id :: id in ids ==> Known(objectives, id)
  }

  predicate DistinctObjectives(objectives: seq<Objective>) {
    forall i, j :: 0 <= i < j < |objectives| ==> objectives[i].id != objectives[j].id
  }

  predicate DistinctQuestions(questions: seq<Question>) {
    forall i, j :: 0 <= i < j < |questions| ==> questions[i].id != questions[j].id
  }

  predicate ObjectivesNonblank(objectives: seq<Objective>) {
    forall o :: o in objectives ==> !Blank(o.id) && !Blank(o.text)
  }

  // ---- field constraints and validators ----

  predicate ObjectiveValid(o: Objective) { o.id != "" && o.text != "" }

  predicate OptionsValid(q: Question) {
    if q.kind.MultipleChoice? then 3 <= |q.options| <= 5 && NoneBlank(q.options) && q.answer in q.options
    else q.options == []
  }

  predicate QuestionValid(q: Question) {
    && q.id != "" && q.prompt != "" && q.answer != "" && q.explanation != ""
    && q.objectiveIds != [] && NoneBlank(q.objectiveIds)
    && OptionsValid(q)
  }

  predicate QuestionsValid(objectives: seq<Objective>, questions: seq<Question>) {
    && (forall q :: q in questions ==> QuestionValid(q) && AllKnown(objectives, q.objectiveIds))
    && DistinctQuestions(questions)
  }

  predicate ObjectivesValid(objectives: seq<Objective>) {
    && objectives != []
    && (forall o :: o in objectives ==> ObjectiveValid(o))
    && DistinctObjectives(objectives)
  }

  predicate SectionValid(objectives: seq<Objective>, s: Section) {
    && !Blank(s.id) && !Blank(s.title) && !Blank(s.teacherActions) && !Blank(s.learnerActions)
    && s.objectiveIds != [] && NoneBlank(s.objectiveIds) && s.minutes >= 1
    && AllKnown(objectives, s.objectiveIds)
  }

  predicate LessonPlanValid(p: LessonPlan) {
    && !Blank(p.title) && !Blank(p.opening) && !Blank(p.closure) && !Blank(p.formativeCheck)
    && ObjectivesValid(p.objectives) && ObjectivesNonblank(p.objectives)
    && p.objectiveIds != [] && NoneBlank(p.objectiveIds) && AllKnown(p.objectives, p.objectiveIds)
    && p.materials != [] && NoneBlank(p.materials)
    && p.sections != [] && (forall s :: s in p.sections ==> SectionValid(p.objectives, s))
    && (forall i, j :: 0 <= i < j < |p.sections| ==> p.sections[i].id != p.sections[j].id)
  }

  /** Worksheets may carry whitespace-only texts: their fields are only required to be nonempty. */
  predicate WorksheetValid(w: Worksheet) {
    && w.title != "" && w.teacherSummary != "" && w.instructions != ""
    && ObjectivesValid(w.objectives)
    && 6 <= |w.questions| <= 12
    && QuestionsValid(w.objectives, w.questions)
  }

  predicate ComponentValid(c: Component) {
    && !Blank(c.title) && !Blank(c.instructions)
    && ObjectivesValid(c.objectives) && ObjectivesNonblank(c.objectives)
    && c.questions != [] && QuestionsValid(c.objectives, c.questions)
    && (forall q :: q in c.questions ==> !Blank(q.id) && !Blank(q.prompt) && !Blank(q.answer) && !Blank(q.explanation))
  }

  predicate EntryValid(e: Entry) { !Blank(e.questionId) && !Blank(e.answer) && !Blank(e.explanation) }

  function EntryKeys(entries: seq<Entry>): seq<(SourceKind, string)> {
    seq(|entries|, i requires 0 <= i < |entries| => (entries[i].kind, entries[i].questionId))
  }

  predicate AnswerKeyValid(a: AnswerKey) {
    && !Blank(a.title) && a.entries != []
    && (forall e :: e in a.entries ==> EntryValid(e))
    && AllDistinct(EntryKeys(a.entries))
  }

  predicate TeacherNotesValid(n: TeacherNotes) { !Blank(n.title) && n.notes != [] && NoneBlank(n.notes) }

  predicate KitValid(k: Kit) {
    && LessonPlanValid(k.lessonPlan) && WorksheetValid(k.worksheet)
    && ComponentValid(k.quiz) && ComponentValid(k.homework)
    && AnswerKeyValid(k.answerKey) && TeacherNotesValid(k.teacherNotes)
  }
}
