/**
 The case-insensitive whole-word search for curriculum and board claims. Which characters
 are word characters and how case folds are parameters, so every result holds for ASCII
 and for Unicode matching alike.
 */
module AlignmentSearch {
  import opened Basics

  datatype Lexicon = Lexicon(isWord: char -> bool, fold: char -> char)

  const TERMS: seq<string> := ["cbse", "icse", "ncf", "ncp", "cambridge", "ib"]

  /**
   What any regular-expression engine provides: a newline is no word character, a letter is one
   in every case form.
   */
  ghost predicate Sound(lx: Lexicon) {
    !lx.isWord('\n') && forall c :: 'a' <= lx.fold(c) <= 'z' ==> lx.isWord(c)
  }

  // ---- the regular expression ----

  /** \b at position i */
  predicate Boundary(lx: Lexicon, text: string, i: nat)
    requires i <= |text|
  {
    (i > 0 && lx.isWord(text[i - 1])) != (i < |text| && lx.isWord(text[i]))
  }

  predicate SpellsAt(lx: Lexicon, text: string, i: nat, term: string) {
    i + |term| <= |text| && forall j :: 0 <= j < |term| ==> lx.fold(text[i + j]) == term[j]
  }

  predicate MatchesAt(lx: Lexicon, text: string, i: nat, term: string) {
    SpellsAt(lx, text, i, term) && Boundary(lx, text, i) && Boundary(lx, text, i + |term|)
  }

  /** The alternatives in order at position i. */
  function FirstTermAt(lx: Lexicon, text: string, i: nat, terms: seq<string>): Option<string> {
    if terms == [] then None
    else if MatchesAt(lx, text, i, terms[0]) then Some(text[i..i + |terms[0]|])
    else FirstTermAt(lx, text, i, terms[1..])
  }

  function SearchFrom(lx: Lexicon, text: string, i: nat): Option<string>
    decreases |text| - i
  {
    if i >= |text| then None
    else
      var hit := FirstTermAt(lx, text, i, TERMS);
      if hit.Some? then hit else SearchFrom(lx, text, i + 1)
  }

  /** find_unsupported_alignment_claim */
  function FindClaim(lx: Lexicon, text: string): Option<string> { SearchFrom(lx, text, 0) }

  // ---- words ----

  /** text[i..j] is a maximal run of word characters. */
  ghost predicate WordRun(lx: Lexicon, text: string, i: nat, j: nat) {
    && i < j <= |text|
    && (forall m :: i <= m < j ==> lx.isWord(text[m]))
    && (i > 0 ==> !lx.isWord(text[i - 1]))
    && (j < |text| ==> !lx.isWord(text[j]))
  }

  /** The six words. */
  ghost predicate IsTerm(t: string) {
    t == "cbse" || t == "icse" || t == "ncf" || t == "ncp" || t == "cambridge" || t == "ib"
  }

  ghost predicate Spelled(lx: Lexicon, word: string) {
    exists t :: t in TERMS && |t| == |word| && forall m :: 0 <= m < |t| ==> lx.fold(word[m]) == t[m]
  }

  lemma TermsExactly(t: string)
    ensures t in TERMS <==> IsTerm(t)
  {
    assert TERMS[0] == "cbse" && TERMS[1] == "icse" && TERMS[2] == "ncf" && TERMS[3] == "ncp"
      && TERMS[4] == "cambridge" && TERMS[5] == "ib";
  }

  ghost predicate ClaimRun(lx: Lexicon, text: string, i: nat, j: nat) {
    WordRun(lx, text, i, j) && Spelled(lx, text[i..j])
  }

  /** Some word of the text is a term. */
  ghost predicate HasClaim(lx: Lexicon, text: string) { exists i: nat, j: nat :: ClaimRun(lx, text, i, j) }

  lemma TermsAreLetters(t: string, m: nat)
    requires t in TERMS && m < |t|
    ensures |t| > 0 && 'a' <= t[m] <= 'z'
  {
  }

  lemma MatchIsRun(lx: Lexicon, text: string, i: nat, t: string)
    requires Sound(lx) && t in TERMS && MatchesAt(lx, text, i, t)
    ensures ClaimRun(lx, text, i, i + |t|)
  {
    var w := text[i..i + |t|];
    forall m | 0 <= m < |t| ensures lx.isWord(w[m]) && lx.fold(w[m]) == t[m] && text[i + m] == w[m] {
      TermsAreLetters(t, m);
      assert lx.fold(text[i + m]) == t[m];
    }
    TermsAreLetters(t, 0);
    forall m | i <= m < i + |t| ensures lx.isWord(text[m]) { assert text[m] == w[m - i]; }
    assert Spelled(lx, w);
  }

  lemma RunIsMatch(lx: Lexicon, text: string, i: nat, j: nat)
    requires ClaimRun(lx, text, i, j)
    ensures exists t :: t in TERMS && MatchesAt(lx, text, i, t) && i + |t| == j
  {
    var w := text[i..j];
    var t :| t in TERMS && |t| == |w| && forall m :: 0 <= m < |t| ==> lx.fold(w[m]) == t[m];
    forall m | 0 <= m < |t| ensures lx.fold(text[i + m]) == t[m] { assert text[i + m] == w[m]; }
    assert MatchesAt(lx, text, i, t);
  }

  lemma {:induction false} FirstTermFinds(lx: Lexicon, text: string, i: nat, terms: seq<string>)
    ensures FirstTermAt(lx, text, i, terms).Some? <==> exists t :: t in terms && MatchesAt(lx, text, i, t)
    ensures FirstTermAt(lx, text, i, terms).Some? ==>
      exists t :: t in terms && MatchesAt(lx, text, i, t) && FirstTermAt(lx, text, i, terms).value == text[i..i + |t|]
  {
    if terms != [] {
      FirstTermFinds(lx, text, i, terms[1..]);
      if MatchesAt(lx, text, i, terms[0]) {
        assert terms[0] in terms;
      } else {
        forall t | t in terms && MatchesAt(lx, text, i, t) ensures t in terms[1..] {}
      }
    }
  }

  /** The search from i succeeds exactly if a claim starts at i or later, and returns the first such word. */
  lemma {:induction false} SearchFinds(lx: Lexicon, text: string, i: nat)
    requires Sound(lx)
    ensures SearchFrom(lx, text, i).Some? ==>
      exists a: nat, b: nat :: i <= a && ClaimRun(lx, text, a, b) && SearchFrom(lx, text, i).value == text[a..b]
        && forall c: nat, d: nat :: i <= c < a ==> !ClaimRun(lx, text, c, d)
    ensures SearchFrom(lx, text, i).None? ==> forall a: nat, b: nat :: i <= a ==> !ClaimRun(lx, text, a, b)
    decreases |text| - i
  {
    if i < |text| {
      FirstTermFinds(lx, text, i, TERMS);
      if FirstTermAt(lx, text, i, TERMS).Some? {
        var t :| t in TERMS && MatchesAt(lx, text, i, t) && FirstTermAt(lx, text, i, TERMS).value == text[i..i + |t|];
        MatchIsRun(lx, text, i, t);
      } else {
        forall b: nat ensures !ClaimRun(lx, text, i, b) {
          if ClaimRun(lx, text, i, b) { RunIsMatch(lx, text, i, b); }
        }
        SearchFinds(lx, text, i + 1);
        if SearchFrom(lx, text, i + 1).Some? {
          var a: nat, b: nat :| i + 1 <= a && ClaimRun(lx, text, a, b) && SearchFrom(lx, text, i).value == text[a..b]
            && forall c: nat, d: nat :: i + 1 <= c < a ==> !ClaimRun(lx, text, c, d);
          assert forall c: nat, d: nat :: i <= c < a ==> !ClaimRun(lx, text, c, d);
        }
      }
    }
  }

  /** The search finds something if and only if some maximal word run is a term. */
  lemma SearchIsMembership(lx: Lexicon, text: string)
    requires Sound(lx)
    ensures FindClaim(lx, text).Some? <==> HasClaim(lx, text)
  {
    SearchFinds(lx, text, 0);
  }

  // ---- joined texts ----

  /** "\n".join(parts) */
  function Join(parts: seq<string>): string {
    if parts == [] then "" else if |parts| == 1 then parts[0] else parts[0] + "\n" + Join(parts[1..])
  }

  lemma RunLeft(lx: Lexicon, a: string, b: string, i: nat, j: nat)
    requires Sound(lx) && j <= |a|
    ensures ClaimRun(lx, a + "\n" + b, i, j) <==> ClaimRun(lx, a, i, j)
  {
    var s := a + "\n" + b;
    if i < j {
      assert s[i..j] == a[i..j];
      assert forall m :: 0 <= m < |a| ==> s[m] == a[m];
      assert s[|a|] == '\n';
    }
  }

  lemma RunRight(lx: Lexicon, a: string, b: string, i: nat, j: nat)
    requires Sound(lx) && j <= |b|
    ensures ClaimRun(lx, a + "\n" + b, |a| + 1 + i, |a| + 1 + j) <==> ClaimRun(lx, b, i, j)
  {
    var s := a + "\n" + b;
    if i < j {
      assert s[|a| + 1 + i..|a| + 1 + j] == b[i..j];
      assert s[|a|] == '\n';
      assert forall m :: 0 <= m < |b| ==> s[|a| + 1 + m] == b[m];
      if WordRun(lx, b, i, j) {
        forall m | |a| + 1 + i <= m < |a| + 1 + j ensures lx.isWord(s[m]) { assert s[m] == b[m - |a| - 1]; }
      }
    }
  }

  /** A run never crosses the newline between two parts. */
  lemma RunOnOneSide(lx: Lexicon, a: string, b: string, i: nat, j: nat)
    requires Sound(lx) && ClaimRun(lx, a + "\n" + b, i, j)
    ensures j <= |a| || i > |a|
  {
    assert (a + "\n" + b)[|a|] == '\n';
  }

  lemma SideHasClaim(lx: Lexicon, a: string, b: string)
    requires Sound(lx)
    ensures HasClaim(lx, a) || HasClaim(lx, b) ==> HasClaim(lx, a + "\n" + b)
  {
    hide Sound, ClaimRun;
    if HasClaim(lx, a) {
      var i: nat, j: nat :| ClaimRun(lx, a, i, j);
      RunInText(lx, a, i, j);
      RunLeft(lx, a, b, i, j);
    } else if HasClaim(lx, b) {
      var i: nat, j: nat :| ClaimRun(lx, b, i, j);
      RunInText(lx, b, i, j);
      RunRight(lx, a, b, i, j);
    }
  }

  lemma JoinedHasClaim(lx: Lexicon, a: string, b: string)
    requires Sound(lx) && HasClaim(lx, a + "\n" + b)
    ensures HasClaim(lx, a) || HasClaim(lx, b)
  {
    hide Sound, ClaimRun;
    var i: nat, j: nat :| ClaimRun(lx, a + "\n" + b, i, j);
    RunInText(lx, a + "\n" + b, i, j);
    RunOnOneSide(lx, a, b, i, j);
    if j <= |a| {
      RunLeft(lx, a, b, i, j);
    } else {
      RunRight(lx, a, b, i - |a| - 1, j - |a| - 1);
    }
  }

  lemma ClaimSplits(lx: Lexicon, a: string, b: string)
    requires Sound(lx)
    ensures HasClaim(lx, a + "\n" + b) <==> HasClaim(lx, a) || HasClaim(lx, b)
  {
    hide Sound, HasClaim;
    if HasClaim(lx, a + "\n" + b) { JoinedHasClaim(lx, a, b); }
    SideHasClaim(lx, a, b);
  }

  lemma RunInText(lx: Lexicon, text: string, i: nat, j: nat)
    requires ClaimRun(lx, text, i, j)
    ensures i < j <= |text|
  {
  }

  lemma {:induction false} JoinedClaim(lx: Lexicon, parts: seq<string>)
    requires Sound(lx)
    ensures HasClaim(lx, Join(parts)) <==> exists p :: p in parts && HasClaim(lx, p)
  {
    if |parts| > 1 {
      ClaimSplits(lx, parts[0], Join(parts[1..]));
      JoinedClaim(lx, parts[1..]);
      assert forall p :: p in parts <==> p == parts[0] || p in parts[1..];
    } else if |parts| == 1 {
      assert parts[0] in parts;
    }
  }

  /** Searching newline-joined parts finds a claim if and only if searching some part does. */
  lemma JoinedSearch(lx: Lexicon, parts: seq<string>)
    requires Sound(lx)
    ensures FindClaim(lx, Join(parts)).Some? <==> exists p :: p in parts && FindClaim(lx, p).Some?
  {
    SearchIsMembership(lx, Join(parts));
    JoinedClaim(lx, parts);
    forall p | p in parts ensures FindClaim(lx, p).Some? <==> HasClaim(lx, p) { SearchIsMembership(lx, p); }
  }
}
