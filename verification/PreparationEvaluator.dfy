/** The evaluators as they run: lists that grow, flags cleared by breaking loops, a dictionary of questions. */
module PreparationEvaluator {
  import opened Basics
  import opened AlignmentSearch
  import opened Payloads
  import opened PreparationQuality

  // ---- collecting text ----

  method AppendObjectives(parts: seq<string>, objectives: seq<Objective>) returns (r: seq<string>)
    ensures r == parts + ObjectiveTexts(objectives)
  {
    r := parts;
    for i := 0 to |objectives|
      invariant r == parts + ObjectiveTexts(objectives)[..i]
    {
      r := r + [objectives[i].text];
    }
  }

  method AppendQuestions(parts: seq<string>, questions: seq<Question>) returns (r: seq<string>)
    ensures r == parts + QuestionTexts(questions)
  {
    r := parts;
    for i := 0 to |questions|
      invariant r + QuestionTexts(questions[i..]) == parts + QuestionTexts(questions)
    {
      var q := questions[i];
      assert questions[i..][1..] == questions[i + 1..];
      r := r + ([q.prompt, q.answer, q.explanation] + q.options);
      if q.visual.Some? && q.visual.value != "" {
        r := r + [q.visual.value];
      }
    }
  }

  method AppendSections(parts: seq<string>, sections: seq<Section>) returns (r: seq<string>)
    ensures r == parts + SectionTexts(sections)
  {
    r := parts;
    for i := 0 to |sections|
      invariant r + SectionTexts(sections[i..]) == parts + SectionTexts(sections)
    {
      assert sections[i..][1..] == sections[i + 1..];
      r := r + [sections[i].title, sections[i].teacherActions, sections[i].learnerActions];
    }
  }

  method AppendEntries(parts: seq<string>, entries: seq<Entry>) returns (r: seq<string>)
    ensures r == parts + EntryTexts(entries)
  {
    r := parts;
    for i := 0 to |entries|
      invariant r + EntryTexts(entries[i..]) == parts + EntryTexts(entries)
    {
      assert entries[i..][1..] == entries[i + 1..];
      r := r + [entries[i].answer, entries[i].explanation];
    }
  }

  method AppendWorksheet(parts: seq<string>, w: Worksheet) returns (r: seq<string>)
    ensures r == parts + WorksheetTexts(w)
  {
    r := parts + [w.title, w.teacherSummary, w.instructions];
    if w.teacherNotes.Some? && w.teacherNotes.value != "" {
      r := r + [w.teacherNotes.value];
    }
    r := AppendObjectives(r, w.objectives);
    r := AppendQuestions(r, w.questions);
  }

  method AppendComponent(parts: seq<string>, c: Component) returns (r: seq<string>)
    ensures r == parts + ComponentTexts(c)
  {
    hide ObjectiveTexts, QuestionTexts;
    r := parts + [c.title, c.instructions];
    r := AppendObjectives(r, c.objectives);
    r := AppendQuestions(r, c.questions);
  }

  method CollectKitText(k: Kit) returns (text: string)
    ensures text == Join(KitTexts(k))
  {
    hide ObjectiveTexts, SectionTexts, EntryTexts, WorksheetTexts, ComponentTexts, Join;
    var p := k.lessonPlan;
    var parts := [p.title, p.opening, p.closure, p.formativeCheck] + p.materials;
    parts := AppendObjectives(parts, p.objectives);
    parts := AppendSections(parts, p.sections);
    parts := AppendWorksheet(parts, k.worksheet);
    var components := [k.quiz, k.homework];
    ghost var before := parts;
    for i := 0 to 2
      invariant i == 0 ==> parts == before
      invariant i == 1 ==> parts == before + ComponentTexts(k.quiz)
      invariant i == 2 ==> parts == before + ComponentTexts(k.quiz) + ComponentTexts(k.homework)
    {
      parts := AppendComponent(parts, components[i]);
    }
    parts := parts + [k.answerKey.title];
    parts := AppendEntries(parts, k.answerKey.entries);
    parts := parts + [k.teacherNotes.title];
    parts := parts + k.teacherNotes.notes;
    assert parts == KitTexts(k);
    text := Join(parts);
  }

  // ---- sets against sequences ----

  lemma AtLeastTwo<T>(s: set<T>)
    ensures |s| >= 2 <==> exists x, y :: x in s && y in s && x != y
  {
    if exists x, y :: x in s && y in s && x != y {
      var x, y :| x in s && y in s && x != y;
      SubsetSize({x, y}, s);
      assert |{x, y}| == 2;
    }
    if |s| >= 2 {
      var x :| x in s;
      assert |s - {x}| >= 1;
      var y :| y in s - {x};
    }
  }

  lemma HigherBloom(questions: seq<Question>, levels: set<Bloom>)
    requires levels == set q | q in questions :: q.bloom
    ensures (exists q :: q in questions && (q.bloom.Understand? || q.bloom.Apply?)) <==>
      levels * {Understand, Apply} != {}
  {
    if levels * {Understand, Apply} != {} {
      var l :| l in levels * {Understand, Apply};
      assert exists q :: q in questions && q.bloom == l;
    }
    if exists q :: q in questions && (q.bloom.Understand? || q.bloom.Apply?) {
      var q :| q in questions && (q.bloom.Understand? || q.bloom.Apply?);
      assert q.bloom in levels * {Understand, Apply};
    }
  }

  lemma BloomBySet(questions: seq<Question>, levels: set<Bloom>)
    requires levels == set q | q in questions :: q.bloom
    ensures BloomSpread(questions) <==> |levels| >= 2 && levels * {Understand, Apply} != {}
  {
    AtLeastTwo(levels);
    HigherBloom(questions, levels);
    if |levels| >= 2 {
      var x, y :| x in levels && y in levels && x != y;
      var p :| p in questions && p.bloom == x;
      var q :| q in questions && q.bloom == y;
    }
    if exists p, q :: p in questions && q in questions && p.bloom != q.bloom {
      var p, q :| p in questions && q in questions && p.bloom != q.bloom;
      assert p.bloom in levels && q.bloom in levels;
    }
  }

  lemma DifficultyBySet(questions: seq<Question>, bands: set<Difficulty>)
    requires bands == set q | q in questions :: q.difficulty
    ensures DifficultySpread(questions) <==> |bands| >= 2
  {
    AtLeastTwo(bands);
    if |bands| >= 2 {
      var x, y :| x in bands && y in bands && x != y;
      var p :| p in questions && p.difficulty == x;
      var q :| q in questions && q.difficulty == y;
    }
    if DifficultySpread(questions) {
      var p, q :| p in questions && q in questions && p.difficulty != q.difficulty;
      assert p.difficulty in bands && q.difficulty in bands;
    }
  }

  // ---- the worksheet baseline ----

  /** The nine worksheet checks; None is a mapping that WorksheetV1 rejects. */
  function WorksheetReport(lx: Lexicon, parsed: Option<Worksheet>): seq<Check> {
    seq(9, i requires 0 <= i < 9 => Check(WORKSHEET_CODES[i], parsed.Some? && WorksheetOutcome(lx, parsed.value, i)))
  }

  method EvaluateWorksheet(lx: Lexicon, parsed: Option<Worksheet>) returns (v: Verdict)
    ensures v == Conclude(WorksheetReport(lx, parsed))
  {
    var checks: seq<Check> := [];
    if parsed.None? {
      for i := 0 to 9
        invariant |checks| == i && forall j :: 0 <= j < i ==> checks[j] == Check(WORKSHEET_CODES[j], false)
      {
        checks := checks + [Check(WORKSHEET_CODES[i], false)];
      }
      assert checks == WorksheetReport(lx, parsed);
      assert !checks[0].passed;
      return Verdict(Fail, checks);
    }
    var w := parsed.value;
    var levels := set q | q in w.questions :: q.bloom;
    var bands := set q | q in w.questions :: q.difficulty;
    BloomBySet(w.questions, levels);
    DifficultyBySet(w.questions, bands);
    var parts := AppendWorksheet([], w);
    assert parts == WorksheetTexts(w);
    checks := WorksheetChecks(
      lx, w, |levels| >= 2 && levels * {Understand, Apply} != {}, |bands| >= 2, Clean(lx, parts));
    assert checks == WorksheetReport(lx, parsed);
    v := Verdict(if AllPassed(checks) then Pass else Fail, checks);
  }

  method WorksheetChecks(lx: Lexicon, w: Worksheet, bloom: bool, difficulty: bool, aligned: bool)
    returns (checks: seq<Check>)
    requires bloom == BloomSpread(w.questions) && difficulty == DifficultySpread(w.questions)
    requires aligned == Clean(lx, WorksheetTexts(w))
    ensures |checks| == 9 && forall i :: 0 <= i < 9 ==>
      checks[i] == Check(WORKSHEET_CODES[i], WorksheetOutcome(lx, w, i))
  {
    hide Mapped, Answered, BloomSpread, DifficultySpread, Clean, WorksheetTexts;
    var c := WORKSHEET_CODES;
    var mapped, answered := Mapped(w.objectives, w.questions), Answered(w.questions);
    checks := [Check(c[0], true), Check(c[1], |w.objectives| >= 1), Check(c[2], 6 <= |w.questions| <= 12)];
    checks := checks + [Check(c[3], mapped), Check(c[4], answered), Check(c[5], true)];
    checks := checks + [Check(c[6], bloom), Check(c[7], difficulty), Check(c[8], aligned)];
    forall i | 0 <= i < 9 ensures checks[i] == Check(c[i], WorksheetOutcome(lx, w, i)) {
      WorksheetOutcomeAt(lx, w, i);
    }
  }

  lemma WorksheetOutcomeAt(lx: Lexicon, w: Worksheet, i: nat)
    requires i < 9
    ensures WorksheetOutcome(lx, w, i) ==
      if i == 1 then |w.objectives| >= 1 else if i == 2 then 6 <= |w.questions| <= 12
      else if i == 3 then Mapped(w.objectives, w.questions) else if i == 4 then Answered(w.questions)
      else if i == 6 then BloomSpread(w.questions) else if i == 7 then DifficultySpread(w.questions)
      else if i == 8 then Clean(lx, WorksheetTexts(w)) else true
  {
    hide Mapped, Answered, BloomSpread, DifficultySpread, Clean, WorksheetTexts;
  }

  // ---- the preparation kit ----

  method SharedObjectivesPresent(k: Kit) returns (ok: bool)
    ensures ok == AllShared(k)
  {
    var lists := [k.lessonPlan.objectives, k.worksheet.objectives, k.quiz.objectives, k.homework.objectives];
    ok := true;
    for i := 0 to 4
      invariant ok && forall j :: 0 <= j < i ==> SharedObjectives(lists[j])
    {
      if lists[i] == [] || exists o: Objective :: o in lists[i] && (Blank(o.id) || Blank(o.text)) {
        ok := false;
        assert !SharedObjectives(lists[i]);
        break;
      }
    }
    assert AllShared(k) <==>
      SharedObjectives(lists[0]) && SharedObjectives(lists[1]) && SharedObjectives(lists[2])
      && SharedObjectives(lists[3]);
  }

  lemma IdsDistinct(questions: seq<Question>, ids: seq<string>)
    requires |ids| == |questions| && forall m :: 0 <= m < |ids| ==> ids[m] == questions[m].id
    ensures DistinctQuestions(questions) <==> AllDistinct(ids)
  {
    if DistinctQuestions(questions) {
      forall i, j | 0 <= i < j < |ids| ensures ids[i] != ids[j] { assert questions[i].id != questions[j].id; }
    }
    if AllDistinct(ids) {
      forall i, j | 0 <= i < j < |ids| ensures questions[i].id != questions[j].id { assert ids[i] != ids[j]; }
    }
  }

  method QuestionIdentifierIntegrity(k: Kit) returns (ok: bool)
    ensures ok == AllIdentified(k)
  {
    var lists := [k.worksheet.questions, k.quiz.questions, k.homework.questions];
    ok := true;
    for i := 0 to 3
      invariant ok && forall j :: 0 <= j < i ==> IdentifiersOk(lists[j])
    {
      var questions := lists[i];
      var ids := seq(|questions|, m requires 0 <= m < |questions| => questions[m].id);
      DistinctBySize(ids);
      IdsDistinct(questions, ids);
      if exists m :: 0 <= m < |ids| && Blank(ids[m]) {
        ok := false;
        assert !IdentifiersOk(lists[i]);
        break;
      }
      if |ids| != |(set x | x in ids)| {
        ok := false;
        assert !IdentifiersOk(lists[i]);
        break;
      }
      forall q: Question | q in lists[i] ensures !Blank(q.id) {
        var m :| 0 <= m < |lists[i]| && lists[i][m] == q;
        assert !Blank(ids[m]);
      }
    }
    assert AllIdentified(k) <==> IdentifiersOk(lists[0]) && IdentifiersOk(lists[1]) && IdentifiersOk(lists[2])
                                 && AllDistinct(EntryKeys(k.answerKey.entries));
    if ok {
      var keys := EntryKeys(k.answerKey.entries);
      DistinctBySize(keys);
      ok := |keys| == |(set x | x in keys)|;
    }
  }

  const KINDS: seq<SourceKind> := [FromWorksheet, FromQuiz, FromHomework]

  method AnswerKeyComplete(k: Kit) returns (ok: bool)
    ensures ok == KeyComplete(k)
  {
    var expected: seq<(SourceKind, string)> := [];
    for i := 0 to 3
      invariant i == 0 ==> expected == []
      invariant i == 1 ==> expected == QuestionKeys(FromWorksheet, k.worksheet.questions)
      invariant i == 2 ==>
        expected == QuestionKeys(FromWorksheet, k.worksheet.questions) + QuestionKeys(FromQuiz, k.quiz.questions)
      invariant i == 3 ==> expected == ExpectedKeys(k)
    {
      var questions := QuestionsOf(k, KINDS[i]);
      ghost var before := expected;
      for j := 0 to |questions|
        invariant expected == before + QuestionKeys(KINDS[i], questions)[..j]
      {
        expected := expected + [(KINDS[i], questions[j].id)];
      }
    }
    var actual := EntryKeys(k.answerKey.entries);
    ok := && (set x | x in expected) == (set x | x in actual)
          && |actual| == |expected|
          && |k.answerKey.entries| == |k.worksheet.questions| + |k.quiz.questions| + |k.homework.questions|;
  }

  /** The dictionary agrees with LastWithId on the questions of kind among those already entered. */
  ghost predicate Indexed(index: map<(SourceKind, string), Question>, kind: SourceKind, entered: seq<Question>) {
    forall id :: (LastWithId(entered, id).Some? <==> (kind, id) in index)
              && ((kind, id) in index ==> index[(kind, id)] == LastWithId(entered, id).value)
  }

  method IndexQuestions(k: Kit) returns (index: map<(SourceKind, string), Question>)
    ensures forall kind :: Indexed(index, kind, QuestionsOf(k, kind))
  {
    index := map[];
    for i := 0 to 3
      invariant forall j :: 0 <= j < 3 ==> Indexed(index, KINDS[j], if j < i then QuestionsOf(k, KINDS[j]) else [])
    {
      var questions := QuestionsOf(k, KINDS[i]);
      for m := 0 to |questions|
        invariant Indexed(index, KINDS[i], questions[..m])
        invariant forall j :: 0 <= j < 3 && j != i ==>
          Indexed(index, KINDS[j], if j < i then QuestionsOf(k, KINDS[j]) else [])
      {
        assert questions[..m + 1][..m] == questions[..m];
        index := index[(KINDS[i], questions[m].id) := questions[m]];
      }
      assert questions[..|questions|] == questions;
    }
    assert Indexed(index, KINDS[0], QuestionsOf(k, KINDS[0])) && Indexed(index, KINDS[1], QuestionsOf(k, KINDS[1]))
      && Indexed(index, KINDS[2], QuestionsOf(k, KINDS[2]));
  }

  method ReferenceIntegrity(k: Kit) returns (ok: bool)
    ensures ok == ReferencesMatch(k)
  {
    var index := IndexQuestions(k);
    ok := true;
    for i := 0 to |k.answerKey.entries|
      invariant ok && forall j :: 0 <= j < i ==> EntryMatches(k, k.answerKey.entries[j])
    {
      var e := k.answerKey.entries[i];
      assert Indexed(index, e.kind, QuestionsOf(k, e.kind));
      if (e.kind, e.questionId) !in index {
        ok := false;
        assert !EntryMatches(k, e);
        break;
      }
      var source := index[(e.kind, e.questionId)];
      if e.answer != source.answer || e.explanation != source.explanation {
        ok := false;
        assert !EntryMatches(k, e);
        break;
      }
    }
  }

  /** evaluate_preparation_educational_quality_v1 */
  method EvaluateKit(lx: Lexicon, k: Kit) returns (v: Verdict)
    ensures v == Evaluated(lx, k)
  {
    var valid := [LessonPlanValid(k.lessonPlan), WorksheetValid(k.worksheet), ComponentValid(k.quiz),
                  ComponentValid(k.homework), AnswerKeyValid(k.answerKey), TeacherNotesValid(k.teacherNotes)];
    var failures: seq<nat> := [];
    for i := 0 to 6
      invariant failures == [] <==> forall j :: 0 <= j < i ==> valid[j]
    {
      if !valid[i] { failures := failures + [i]; }
    }
    assert failures == [] <==> KitValid(k) by {
      assert (forall j :: 0 <= j < 6 ==> valid[j]) <==>
        valid[0] && valid[1] && valid[2] && valid[3] && valid[4] && valid[5];
    }
    hide KitValid, AllCodes;
    if failures != [] {
      v := Skipped(lx, k);
      return;
    }
    var shared := SharedObjectivesPresent(k);
    var identified := QuestionIdentifierIntegrity(k);
    var complete := AnswerKeyComplete(k);
    var references := ReferenceIntegrity(k);
    var text := CollectKitText(k);
    var worksheet := EvaluateWorksheet(lx, Some(k.worksheet));
    hide AllShared, AllIdentified, KeyComplete, ReferencesMatch, FindClaim, Join, KitTexts, KitOutcome;
    hide WorksheetOutcome;
    var checks := KitChecks(lx, k, shared, identified, complete, references, FindClaim(lx, text).None?);
    var prefixed := Prefixed(worksheet.checks);
    AssembledReport(lx, k, checks, prefixed);
    checks := checks + prefixed;
    v := Verdict(if AllPassed(checks) then Pass else Fail, checks);
  }

  function Prefixed(checks: seq<Check>): seq<Check> {
    seq(|checks|, i requires 0 <= i < |checks| => Check("worksheet_" + checks[i].code, checks[i].passed))
  }

  lemma InheritedOutcome(lx: Lexicon, k: Kit, i: nat)
    requires 13 <= i < 22
    ensures KitOutcome(lx, k, i) == WorksheetOutcome(lx, k.worksheet, i - 13)
  {
    hide WorksheetOutcome;
  }

  lemma AssembledReport(lx: Lexicon, k: Kit, first: seq<Check>, second: seq<Check>)
    requires KitValid(k) && |first| == 13 && second == Prefixed(WorksheetReport(lx, Some(k.worksheet)))
    requires forall i :: 0 <= i < 13 ==> first[i] == Check(PREPARATION_CODES[i], KitOutcome(lx, k, i))
    ensures first + second == Report(lx, k)
  {
    hide KitValid, AllCodes, WorksheetOutcome, KitOutcome;
    var all := first + second;
    forall i | 0 <= i < 22 ensures all[i] == Report(lx, k)[i] {
      CodeAt(i);
      if i >= 13 {
        assert all[i] == second[i - 13];
        InheritedOutcome(lx, k, i);
      }
    }
  }

  /** The first thirteen checks, from the flags that took loops to compute. */
  method KitChecks(lx: Lexicon, k: Kit, shared: bool, identified: bool, complete: bool, references: bool, aligned: bool)
    returns (checks: seq<Check>)
    requires shared == AllShared(k) && identified == AllIdentified(k)
    requires complete == KeyComplete(k) && references == ReferencesMatch(k) && aligned == Clean(lx, KitTexts(k))
    ensures |checks| == 13
    ensures forall i :: 0 <= i < 13 ==> checks[i] == Check(PREPARATION_CODES[i], KitOutcome(lx, k, i))
  {
    hide AllShared, LessonPlanMapped, Mapped, AllIdentified, KeyComplete, ReferencesMatch, ObjectivesAgree;
    hide NotesPresent, Clean, KitTexts, WorksheetOutcome;
    var c := PREPARATION_CODES;
    var lp := LessonPlanMapped(k.lessonPlan);
    var ws := Mapped(k.worksheet.objectives, k.worksheet.questions);
    var qz := Mapped(k.quiz.objectives, k.quiz.questions);
    var hw := Mapped(k.homework.objectives, k.homework.questions);
    var agree, notes := ObjectivesAgree(k), NotesPresent(k.teacherNotes);
    checks := [Check(c[0], true), Check(c[1], shared), Check(c[2], lp), Check(c[3], ws)];
    checks := checks + [Check(c[4], qz), Check(c[5], hw), Check(c[6], identified), Check(c[7], complete)];
    checks := checks + [Check(c[8], references), Check(c[9], agree), Check(c[10], agree && lp && ws && qz && hw)];
    checks := checks + [Check(c[11], aligned), Check(c[12], notes)];
    forall i | 0 <= i < 13 ensures checks[i] == Check(c[i], KitOutcome(lx, k, i)) {
      if i < 4 {} else if i < 8 {} else if i < 11 {} else {}
    }
  }

  lemma CodeAt(i: nat)
    requires i < 22
    ensures AllCodes()[i] == if i < 13 then PREPARATION_CODES[i] else "worksheet_" + WORKSHEET_CODES[i - 13]
  {
  }

  method Skipped(lx: Lexicon, k: Kit) returns (v: Verdict)
    requires !KitValid(k)
    ensures v == Evaluated(lx, k)
  {
    hide KitValid, AllCodes, KitOutcome;
    var checks: seq<Check> := [];
    for i := 0 to 13
      invariant |checks| == i && forall j :: 0 <= j < i ==> checks[j] == Check(PREPARATION_CODES[j], false)
    {
      checks := checks + [Check(PREPARATION_CODES[i], false)];
    }
    for i := 0 to 9
      invariant |checks| == 13 + i
      invariant forall j :: 0 <= j < 13 ==> checks[j] == Check(PREPARATION_CODES[j], false)
      invariant forall j :: 0 <= j < i ==> checks[13 + j] == Check("worksheet_" + WORKSHEET_CODES[j], false)
    {
      checks := checks + [Check("worksheet_" + WORKSHEET_CODES[i], false)];
    }
    forall i | 0 <= i < 22 ensures checks[i] == Report(lx, k)[i] {
      CodeAt(i);
      if i >= 13 { assert checks[13 + (i - 13)] == checks[i]; }
    }
    assert checks == Report(lx, k);
    assert !checks[0].passed;
    v := Verdict(Fail, checks);
  }

  // ---- the worksheet verdict ----

  /** On a worksheet that its validator accepts, four of the nine checks decide. */
  lemma FourWorksheetChecksDecide(lx: Lexicon, w: Worksheet)
    requires WorksheetValid(w)
    ensures Conclude(WorksheetReport(lx, Some(w))).status.Pass? <==>
      Answered(w.questions) && BloomSpread(w.questions) && DifficultySpread(w.questions) && Clean(lx, WorksheetTexts(w))
  {
    assert Mapped(w.objectives, w.questions);
    hide Answered, BloomSpread, DifficultySpread, Clean, Mapped;
    var r := WorksheetReport(lx, Some(w));
    forall i | 0 <= i < 9 ensures r[i].passed == WorksheetOutcome(lx, w, i) {}
    if Conclude(r).status.Pass? {
      assert r[4].passed && r[6].passed && r[7].passed && r[8].passed;
    }
  }
}
