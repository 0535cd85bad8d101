/** None of the six deciding checks can be dropped: each fails alone on some kit. */
module PreparationMinimal {
  import opened Basics
  import opened AlignmentSearch
  import opened Payloads
  import opened PreparationQuality

  /** ASCII word characters and case folding. */
  function Ascii(): Lexicon {
    Lexicon(
      c => ('a' <= c <= 'z') || ('A' <= c <= 'Z') || ('0' <= c <= '9') || c == '_',
      c => if 'A' <= c <= 'Z' then c + (32 as char) else c)
  }

  lemma AsciiIsSound()
    ensures Sound(Ascii())
  {
  }

  function A(n: nat): (s: string)
    ensures |s| == n
  {
    seq(n, i requires 0 <= i < n => 'a')
  }

  lemma LettersNotBlank(n: nat)
    ensures n > 0 ==> !Blank(A(n))
  {
    if n > 0 { assert A(n)[0] == 'a'; }
  }

  lemma TermsStartOtherwise(t: string)
    requires t in TERMS
    ensures |t| > 0 && t[0] != 'a'
  {
  }

  lemma LettersNotSpelled(n: nat)
    ensures !Spelled(Ascii(), A(n))
  {
    forall t | t in TERMS && |t| == n
      ensures exists m :: 0 <= m < |t| && Ascii().fold(A(n)[m]) != t[m]
    {
      TermsStartOtherwise(t);
      assert Ascii().fold(A(n)[0]) == 'a';
    }
  }

  /** No term is spelled with the letter a alone. */
  lemma LettersAreClean(n: nat)
    ensures FindClaim(Ascii(), A(n)).None?
  {
    AsciiIsSound();
    hide Sound, FindClaim, Spelled;
    SearchIsMembership(Ascii(), A(n));
    forall i: nat, j: nat ensures !ClaimRun(Ascii(), A(n), i, j) {
      if i <= j <= n {
        assert A(n)[i..j] == A(j - i);
        LettersNotSpelled(j - i);
      }
    }
  }

  function MakeQuestion(n: nat, d: Difficulty, b: Bloom): Question {
    Question(A(n + 1), A(1), ShortAnswer, d, b, [A(1)], [], A(1), A(1), None)
  }

  function MakeQuestions(d: Difficulty, b: Bloom): (s: seq<Question>)
    ensures |s| == 6
  {
    seq(6, i requires 0 <= i < 6 => if i == 0 then MakeQuestion(0, d, b) else MakeQuestion(i, Easy, Remember))
  }

  function MakeObjectives(n: nat): seq<Objective> { [Objective(A(1), A(n))] }

  function MakeComponent(n: nat): Component {
    Component(A(1), MakeObjectives(n), A(1), [MakeQuestion(0, Easy, Remember)])
  }

  function MakeEntries(n: nat, e: nat): seq<Entry> {
    seq(n, i requires 0 <= i < n => Entry(FromWorksheet, A(i + 1), A(1), A(1)))
    + [Entry(FromQuiz, A(1), A(1), A(e)), Entry(FromHomework, A(1), A(1), A(1))]
  }

  /**
   A small kit: title of the lesson plan, length of the quiz objective, worksheet entries,
   length of one explanation.
   */
  function MakeKit(title: string, o: nat, n: nat, e: nat, d: Difficulty, b: Bloom): Kit {
    Kit(
      LessonPlan(title, MakeObjectives(1), [A(1)], [A(1)], A(1), [Section(A(1), A(1), [A(1)], A(1), A(1), 1)],
        A(1), A(1)),
      Worksheet(A(1), A(1), MakeObjectives(1), A(1), MakeQuestions(d, b), None),
      MakeComponent(o), MakeComponent(1),
      AnswerKey(A(1), MakeEntries(n, e)),
      TeacherNotes(A(1), [A(1)]))
  }

  lemma ComponentsValid(n: nat)
    requires n > 0
    ensures ComponentValid(MakeComponent(n))
  {
    LettersNotBlank(1);
    LettersNotBlank(n);
    assert Known(MakeObjectives(n), A(1)) by { assert MakeObjectives(n)[0].id == A(1); }
  }

  lemma LessonPlanIsValid(k: Kit, title: string)
    requires !Blank(title) && k.lessonPlan == MakeKit(title, 1, 6, 1, Easy, Remember).lessonPlan
    ensures LessonPlanValid(k.lessonPlan)
  {
    LettersNotBlank(1);
    assert Known(MakeObjectives(1), A(1)) by { assert MakeObjectives(1)[0].id == A(1); }
    assert SectionValid(k.lessonPlan.objectives, k.lessonPlan.sections[0]);
  }

  lemma MadeQuestion(d: Difficulty, b: Bloom, i: nat)
    requires i < 6
    ensures MakeQuestions(d, b)[i] == if i == 0 then MakeQuestion(0, d, b) else MakeQuestion(i, Easy, Remember)
  {
  }

  lemma MadeQuestionsDistinct(d: Difficulty, b: Bloom)
    ensures DistinctQuestions(MakeQuestions(d, b))
  {
    var qs := MakeQuestions(d, b);
    forall i, j | 0 <= i < j < 6 ensures qs[i].id != qs[j].id {
      MadeQuestion(d, b, i);
      MadeQuestion(d, b, j);
      assert |qs[i].id| == i + 1 && |qs[j].id| == j + 1;
    }
  }

  lemma MadeQuestionValid(n: nat, d: Difficulty, b: Bloom)
    ensures QuestionValid(MakeQuestion(n, d, b)) && AllKnown(MakeObjectives(1), [A(1)])
  {
    LettersNotBlank(1);
    assert Known(MakeObjectives(1), A(1)) by { assert MakeObjectives(1)[0].id == A(1); }
  }

  lemma WorksheetIsValid(d: Difficulty, b: Bloom)
    ensures WorksheetValid(MakeKit("", 1, 6, 1, d, b).worksheet)
  {
    var w := MakeKit("", 1, 6, 1, d, b).worksheet;
    hide QuestionValid, AllKnown, DistinctQuestions;
    forall q | q in w.questions ensures QuestionValid(q) && AllKnown(w.objectives, q.objectiveIds) {
      var i :| 0 <= i < 6 && w.questions[i] == q;
      MadeQuestion(d, b, i);
      MadeQuestionValid(i, q.difficulty, q.bloom);
    }
    MadeQuestionsDistinct(d, b);
  }

  lemma AnswerKeyIsValid(n: nat, e: nat)
    requires e > 0
    ensures AnswerKeyValid(AnswerKey(A(1), MakeEntries(n, e)))
  {
    LettersNotBlank(1);
    var entries := MakeEntries(n, e);
    forall x | x in entries ensures EntryValid(x) {
      var i :| 0 <= i < |entries| && entries[i] == x;
      LettersNotBlank(i + 1);
      LettersNotBlank(e);
    }
    var keys := EntryKeys(entries);
    forall i, j | 0 <= i < j < |keys| ensures keys[i] != keys[j] {
      if j < n { assert |keys[i].1| == i + 1 && |keys[j].1| == j + 1; }
    }
  }

  lemma MakeKitValid(title: string, o: nat, n: nat, e: nat, d: Difficulty, b: Bloom)
    requires !Blank(title) && o > 0 && e > 0
    ensures KitValid(MakeKit(title, o, n, e, d, b))
  {
    var k := MakeKit(title, o, n, e, d, b);
    hide WorksheetValid, ComponentValid, AnswerKeyValid, LessonPlanValid;
    LessonPlanIsValid(k, title);
    WorksheetIsValid(d, b);
    ComponentsValid(o);
    ComponentsValid(1);
    AnswerKeyIsValid(n, e);
    LettersNotBlank(1);
  }

  lemma CompleteIffSix(title: string, o: nat, n: nat, e: nat, d: Difficulty, b: Bloom)
    ensures KeyComplete(MakeKit(title, o, n, e, d, b)) <==> n == 6
  {
    var k := MakeKit(title, o, n, e, d, b);
    var actual, expected := EntryKeys(k.answerKey.entries), ExpectedKeys(k);
    assert |actual| == n + 2 && |expected| == 8;
    if n == 6 {
      forall i | 0 <= i < 8 ensures actual[i] == expected[i] {}
      assert actual == expected;
    }
  }

  lemma ReferencesIffSame(title: string, o: nat, n: nat, e: nat, d: Difficulty, b: Bloom)
    requires n <= 6
    ensures ReferencesMatch(MakeKit(title, o, n, e, d, b)) <==> e == 1
  {
    var k := MakeKit(title, o, n, e, d, b);
    WorksheetIsValid(d, b);
    forall i: nat | i < n ensures EntryMatches(k, k.answerKey.entries[i]) {
      LastWithIdIsUnique(k.worksheet.questions, i);
    }
    LastWithIdIsUnique(k.quiz.questions, 0);
    assert EntryMatches(k, k.answerKey.entries[n + 1]);
    assert EntryMatches(k, k.answerKey.entries[n]) <==> A(e) == A(1);
    assert A(e) == A(1) <==> e == 1 by { assert |A(e)| == e; }
    forall x | x in k.answerKey.entries && e == 1 ensures EntryMatches(k, x) {
      var i :| 0 <= i < |k.answerKey.entries| && k.answerKey.entries[i] == x;
    }
    assert k.answerKey.entries[n] in k.answerKey.entries;
  }

  lemma SpreadsAsMade(d: Difficulty, b: Bloom)
    requires d.Easy? || d.Medium?
    requires b.Remember? || b.Apply?
    ensures BloomSpread(MakeQuestions(d, b)) <==> b.Apply?
    ensures DifficultySpread(MakeQuestions(d, b)) <==> d.Medium?
  {
    var qs := MakeQuestions(d, b);
    MadeQuestion(d, b, 0);
    MadeQuestion(d, b, 1);
    assert qs[0] in qs && qs[1] in qs;
    forall q | q in qs ensures q == qs[0] || (q.bloom.Remember? && q.difficulty.Easy?) {
      var i :| 0 <= i < 6 && qs[i] == q;
      MadeQuestion(d, b, i);
    }
    assert qs[0].bloom == b && qs[1].bloom == Remember && qs[0].difficulty == d && qs[1].difficulty == Easy;
  }

  ghost predicate Letters(s: string) { s == A(|s|) }

  lemma {:induction false} QuestionTextsAreLetters(questions: seq<Question>)
    requires forall q :: q in questions ==>
      Letters(q.prompt) && Letters(q.answer) && Letters(q.explanation) && q.options == [] && q.visual.None?
    ensures forall t :: t in QuestionTexts(questions) ==> Letters(t)
  {
    if questions != [] {
      QuestionTextsAreLetters(questions[1..]);
      assert questions[0] in questions;
    }
  }

  lemma {:induction false} EntryTextsAreLetters(entries: seq<Entry>)
    requires forall e :: e in entries ==> Letters(e.answer) && Letters(e.explanation)
    ensures forall t :: t in EntryTexts(entries) ==> Letters(t)
  {
    if entries != [] {
      EntryTextsAreLetters(entries[1..]);
      assert entries[0] in entries;
    }
  }

  lemma KitTextsAreLetters(title: string, o: nat, n: nat, e: nat, d: Difficulty, b: Bloom)
    ensures var texts := KitTexts(MakeKit(title, o, n, e, d, b));
      title in texts && forall t :: t in texts ==> t == title || Letters(t)
  {
    var k := MakeKit(title, o, n, e, d, b);
    QuestionTextsAreLetters(k.worksheet.questions);
    QuestionTextsAreLetters(k.quiz.questions);
    EntryTextsAreLetters(k.answerKey.entries);
    hide QuestionTexts, EntryTexts;
    var lp := LessonPlanTexts(k.lessonPlan);
    assert SectionTexts(k.lessonPlan.sections) == [A(1), A(1), A(1)] + SectionTexts([]);
    assert lp[0] == title;
    assert forall t :: t in lp ==> t == title || Letters(t);
    assert forall t :: t in WorksheetTexts(k.worksheet) ==> Letters(t);
    assert forall t :: t in ComponentTexts(k.quiz) ==> Letters(t);
    assert forall t :: t in ComponentTexts(k.homework) ==> Letters(t);
  }

  lemma CleanAsMade(title: string, o: nat, n: nat, e: nat, d: Difficulty, b: Bloom)
    ensures Clean(Ascii(), KitTexts(MakeKit(title, o, n, e, d, b))) <==> FindClaim(Ascii(), title).None?
  {
    AsciiIsSound();
    var texts := KitTexts(MakeKit(title, o, n, e, d, b));
    KitTextsAreLetters(title, o, n, e, d, b);
    JoinedSearch(Ascii(), texts);
    forall t | t in texts && t != title ensures FindClaim(Ascii(), t).None? { LettersAreClean(|t|); }
  }

  lemma IbIsSpelled()
    ensures Spelled(Ascii(), "ib")
  {
    var t := TERMS[5];
    assert t == "ib" && t in TERMS;
    assert forall m :: 0 <= m < 2 ==> Ascii().fold("ib"[m]) == t[m];
  }

  lemma IbIsClaim()
    ensures FindClaim(Ascii(), "ib").Some? && !Blank("ib")
  {
    AsciiIsSound();
    hide Sound, FindClaim, Spelled;
    SearchIsMembership(Ascii(), "ib");
    IbIsSpelled();
    assert "ib"[0..2] == "ib" && "ib"[0] == 'i' && "ib"[1] == 'b';
    assert ClaimRun(Ascii(), "ib", 0, 2);
  }

  lemma AgreementAsMade(title: string, o: nat, n: nat, e: nat, d: Difficulty, b: Bloom)
    ensures ObjectivesAgree(MakeKit(title, o, n, e, d, b)) <==> o == 1
  {
    assert |A(o)| == o && |A(1)| == 1;
    assert MakeObjectives(o)[0].text == A(o) && MakeObjectives(1)[0].text == A(1);
  }

  lemma DecidingMeaning(lx: Lexicon, k: Kit)
    requires KitValid(k)
    ensures Outcome(lx, k, KEY_COMPLETE) == KeyComplete(k) && Outcome(lx, k, REFERENCES) == ReferencesMatch(k)
    ensures Outcome(lx, k, AGREEMENT) == ObjectivesAgree(k) && Outcome(lx, k, ALIGNMENT) == Clean(lx, KitTexts(k))
    ensures Outcome(lx, k, BLOOM) == BloomSpread(k.worksheet.questions)
    ensures Outcome(lx, k, DIFFICULTY) == DifficultySpread(k.worksheet.questions)
  {
    hide KitValid, KeyComplete, ReferencesMatch, ObjectivesAgree, Clean, BloomSpread, DifficultySpread, KitTexts;
  }

  /** What the six deciding conditions are on a made kit. */
  lemma DecidingAsMade(title: string, o: nat, n: nat, e: nat, d: Difficulty, b: Bloom)
    requires !Blank(title) && o > 0 && e > 0 && n <= 6
    requires d.Easy? || d.Medium?
    requires b.Remember? || b.Apply?
    ensures var k := MakeKit(title, o, n, e, d, b);
      && Outcome(Ascii(), k, KEY_COMPLETE) == (n == 6) && Outcome(Ascii(), k, REFERENCES) == (e == 1)
      && Outcome(Ascii(), k, AGREEMENT) == (o == 1) && Outcome(Ascii(), k, ALIGNMENT) == FindClaim(Ascii(), title).None?
      && Outcome(Ascii(), k, BLOOM) == b.Apply? && Outcome(Ascii(), k, DIFFICULTY) == d.Medium?
  {
    var k := MakeKit(title, o, n, e, d, b);
    MakeKitValid(title, o, n, e, d, b);
    CompleteIffSix(title, o, n, e, d, b);
    ReferencesIffSame(title, o, n, e, d, b);
    CleanAsMade(title, o, n, e, d, b);
    SpreadsAsMade(d, b);
    AgreementAsMade(title, o, n, e, d, b);
    assert k.worksheet.questions == MakeQuestions(d, b);
    hide MakeKit, MakeQuestions, Ascii, A, FindClaim, KitTexts;
    DecidingMeaning(Ascii(), k);
    hide Outcome;
  }

  /** The failing kit for each deciding check. */
  function Witness(i: int): Kit {
    MakeKit(
      if i == ALIGNMENT then "ib" else A(1), if i == AGREEMENT then 2 else 1, if i == KEY_COMPLETE then 5 else 6,
      if i == REFERENCES then 2 else 1, if i == DIFFICULTY then Easy else Medium,
      if i == BLOOM then Remember else Apply)
  }

  /** For each of the six checks there is a kit of valid artifacts on which it fails and the other five pass. */
  lemma EachDecidingCheckIsNeeded(i: int)
    requires i in DECIDING
    ensures exists k ::
      KitValid(k) && !Outcome(Ascii(), k, i) && forall j :: j in DECIDING && j != i ==> Outcome(Ascii(), k, j)
  {
    hide KitValid, KitOutcome, MakeKit, FindClaim;
    IbIsClaim();
    LettersNotBlank(1);
    LettersAreClean(1);
    var title := if i == ALIGNMENT then "ib" else A(1);
    MakeKitValid(title, if i == AGREEMENT then 2 else 1, if i == KEY_COMPLETE then 5 else 6,
      if i == REFERENCES then 2 else 1, if i == DIFFICULTY then Easy else Medium,
      if i == BLOOM then Remember else Apply);
    DecidingAsMade(title, if i == AGREEMENT then 2 else 1, if i == KEY_COMPLETE then 5 else 6,
      if i == REFERENCES then 2 else 1, if i == DIFFICULTY then Easy else Medium,
      if i == BLOOM then Remember else Apply);
    var k := Witness(i);
    assert KitValid(k) && !Outcome(Ascii(), k, i) && forall j :: j in DECIDING && j != i ==> Outcome(Ascii(), k, j);
  }
}
