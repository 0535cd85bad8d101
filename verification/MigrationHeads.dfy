/** Deriving the head of the migration history from the revision files. */
module MigrationHeads {
  import opened Basics

  /** What the two regular expressions find in a file; the inner None is down_revision = None. */
  datatype File = File(name: string, revision: Option<string>, down: Option<Option<string>>)

  datatype Failure = MissingRevision(name: string) | MissingDown(name: string) | NotOneHead | UnexpectedHead
    | ReadinessMissing | ReadinessStale

  type Revisions = map<string, Option<string>>

  predicate Skipped(f: File) { f.name == "__init__.py" }

  predicate Complete(f: File) { Skipped(f) || (f.revision.Some? && f.down.Some?) }

  /** The first n files can be read. */
  predicate AllComplete(files: seq<File>, n: nat)
    requires n <= |files|
  {
    forall i :: 0 <= i < n ==> Complete(files[i])
  }

  /** The dictionary after the first n files; a later file with the same revision replaces an earlier one. */
  function Collected(files: seq<File>, n: nat): Revisions
    requires n <= |files| && AllComplete(files, n)
  {
    if n == 0 then map[]
    else
      var f := files[n - 1];
      var before := Collected(files, n - 1);
      if Skipped(f) then before else before[f.revision.value := f.down.value]
  }

  function Heads(m: Revisions): set<string> {
    set r | r in m && forall x :: x in m ==> m[x] != Some(r)
  }

  /** The set difference that the code computes. */
  lemma HeadsByDifference(m: Revisions)
    ensures m.Keys - (set x | x in m && m[x].Some? :: m[x].value) == Heads(m)
  {
  }

  function Complaint(f: File): Failure {
    if f.revision.None? then MissingRevision(f.name) else MissingDown(f.name)
  }

  /** derive_migration_heads: the error is about the first file that cannot be read. */
  method DeriveHeads(files: seq<File>) returns (r: Result<set<string>, Failure>)
    ensures r.Ok? <==> AllComplete(files, |files|)
    ensures r.Ok? ==> r.value == Heads(Collected(files, |files|))
    ensures r.Err? ==>
      exists k :: 0 <= k < |files| && AllComplete(files, k) && !Complete(files[k]) && r.error == Complaint(files[k])
  {
    hide Heads;
    var revisions: Revisions := map[];
    for i := 0 to |files|
      invariant AllComplete(files, i) && revisions == Collected(files, i)
    {
      var f := files[i];
      if !Skipped(f) {
        if f.revision.None? { assert !Complete(files[i]); return Err(MissingRevision(f.name)); }
        if f.down.None? { assert !Complete(files[i]); return Err(MissingDown(f.name)); }
        revisions := revisions[f.revision.value := f.down.value];
      }
    }
    var pointed := set x | x in revisions && revisions[x].Some? :: revisions[x].value;
    HeadsByDifference(revisions);
    r := Ok(revisions.Keys - pointed);
  }

  /** derive_and_validate_migration_head; readiness is the head found in readiness.py. */
  method DeriveAndValidateHead(files: seq<File>, expected: string, readiness: Option<string>)
    returns (r: Result<string, Failure>)
    ensures r.Ok? <==>
      AllComplete(files, |files|) && Heads(Collected(files, |files|)) == {expected} && readiness == Some(expected)
    ensures r.Ok? ==> r.value == expected
  {
    var heads := DeriveHeads(files);
    if heads.Err? { return Err(heads.error); }
    if |heads.value| != 1 { return Err(NotOneHead); }
    var head :| head in heads.value;
    assert heads.value == {head} by { assert |heads.value - {head}| == 0; }
    if head != expected { return Err(UnexpectedHead); }
    if readiness.None? { return Err(ReadinessMissing); }
    if readiness.value != head { return Err(ReadinessStale); }
    r := Ok(head);
  }

  // ---- what the files say ----

  /** File i states revision r, and no later file does. */
  ghost predicate LastStates(files: seq<File>, n: nat, i: nat, r: string)
    requires n <= |files|
  {
    && i < n && files[i].name != "__init__.py" && files[i].revision == Some(r)
    && forall j :: i < j < n && files[j].name != "__init__.py" ==> files[j].revision != Some(r)
  }

  ghost predicate IsStated(files: seq<File>, n: nat, r: string)
    requires n <= |files|
  {
    exists i: nat :: LastStates(files, n, i, r)
  }

  /** The dictionary holds each stated revision with the parent that the last file to state it gives. */
  lemma {:induction false} CollectedExactly(files: seq<File>, n: nat, r: string)
    requires n <= |files| && AllComplete(files, n)
    ensures r in Collected(files, n) <==> IsStated(files, n, r)
    ensures forall i: nat :: LastStates(files, n, i, r) ==>
      r in Collected(files, n) && files[i].down == Some(Collected(files, n)[r])
  {
    if n > 0 {
      var f := files[n - 1];
      CollectedExactly(files, n - 1, r);
      if f.name != "__init__.py" && f.revision == Some(r) {
        assert LastStates(files, n, n - 1, r);
      } else {
        forall i: nat ensures LastStates(files, n, i, r) <==> LastStates(files, n - 1, i, r) {}
        if IsStated(files, n - 1, r) {
          var i: nat :| LastStates(files, n - 1, i, r);
          assert LastStates(files, n, i, r);
        }
      }
    }
  }

  /** The last statement of some revision names r as its parent. */
  ghost predicate IsNamed(files: seq<File>, n: nat, r: string)
    requires n <= |files|
  {
    exists i: nat, x :: LastStates(files, n, i, x) && files[i].down == Some(Some(r))
  }

  /** The heads are the stated revisions that no last statement names as its parent. */
  lemma HeadsExactly(files: seq<File>, r: string)
    requires AllComplete(files, |files|)
    ensures r in Heads(Collected(files, |files|)) <==>
      IsStated(files, |files|, r) && !IsNamed(files, |files|, r)
  {
    var n := |files|;
    var m := Collected(files, n);
    CollectedExactly(files, n, r);
    if exists x :: x in m && m[x] == Some(r) {
      var x :| x in m && m[x] == Some(r);
      CollectedExactly(files, n, x);
      hide Collected;
      var i: nat :| LastStates(files, n, i, x);
      assert IsNamed(files, n, r);
    }
    if IsNamed(files, n, r) {
      var i: nat, x :| LastStates(files, n, i, x) && files[i].down == Some(Some(r));
      CollectedExactly(files, n, x);
      hide Collected;
      assert x in m && m[x] == Some(r);
    }
    hide Collected, IsStated, IsNamed, LastStates;
  }

  /** The complaint about an unreadable file: its missing revision, or else its missing down_revision. */
  lemma ComplaintExactly(f: File)
    ensures Complete(f) <==> f.name == "__init__.py" || (f.revision.Some? && f.down.Some?)
    ensures !Complete(f) ==>
      (Complaint(f) == MissingRevision(f.name) <==> f.revision == None)
      && (Complaint(f) == MissingDown(f.name) <==> f.revision != None)
  {
  }

  // ---- the shape of the history ----

  /** Each revision names the next one as its down_revision. */
  ghost predicate Path(m: Revisions, p: seq<string>) {
    && p != []
    && (forall i :: 0 <= i < |p| ==> p[i] in m)
    && (forall i :: 0 <= i < |p| - 1 ==> m[p[i]] == Some(p[i + 1]))
  }

  ghost predicate Acyclic(m: Revisions) {
    forall p :: Path(m, p) && |p| > 1 ==> p[0] != p[|p| - 1]
  }

  /** The chain of all revisions, from the newest to one whose down_revision is None or unknown. */
  ghost predicate IsHistory(m: Revisions, p: seq<string>) {
    && Path(m, p) && AllDistinct(p)
    && (forall r :: r in m ==> r in p)
    && (m[p[|p| - 1]].Some? ==> m[p[|p| - 1]].value !in m)
  }

  lemma PathDistinct(m: Revisions, p: seq<string>)
    requires Acyclic(m) && Path(m, p)
    ensures AllDistinct(p) && |p| <= |m|
  {
    forall i, j | 0 <= i < j < |p| ensures p[i] != p[j] {
      assert Path(m, p[i..j + 1]);
    }
    DistinctBySize(p);
    SubsetSize((set x | x in p), m.Keys);
  }

  /** Following children upward from any revision ends at a head. */
  lemma {:induction false} ClimbToHead(m: Revisions, p: seq<string>) returns (q: seq<string>)
    requires Acyclic(m) && Path(m, p)
    ensures Path(m, q) && q[0] in Heads(m) && q[|q| - 1] == p[|p| - 1]
    decreases |m| - |p|
  {
    if p[0] in Heads(m) {
      q := p;
    } else {
      var c :| c in m && m[c] == Some(p[0]);
      assert Path(m, [c] + p);
      PathDistinct(m, [c] + p);
      q := ClimbToHead(m, [c] + p);
    }
  }

  lemma {:induction false} DescendToBase(m: Revisions, p: seq<string>) returns (q: seq<string>)
    requires Acyclic(m) && Path(m, p)
    ensures Path(m, q) && q[0] == p[0] && (m[q[|q| - 1]].Some? ==> m[q[|q| - 1]].value !in m)
    decreases |m| - |p|
  {
    var down := m[p[|p| - 1]];
    if down.Some? && down.value in m {
      assert Path(m, p + [down.value]);
      PathDistinct(m, p + [down.value]);
      q := DescendToBase(m, p + [down.value]);
    } else {
      q := p;
    }
  }

  /** Each revision has one down_revision, so paths from the same start agree. */
  lemma {:induction false} PathsAgree(m: Revisions, p: seq<string>, q: seq<string>, i: nat)
    requires Path(m, p) && Path(m, q) && p[0] == q[0] && i < |p| && i < |q|
    ensures p[i] == q[i]
  {
    if i > 0 { PathsAgree(m, p, q, i - 1); }
  }

  /** A nonempty acyclic set of revisions has a head. */
  lemma AcyclicHasHead(m: Revisions)
    requires Acyclic(m) && m != map[]
    ensures Heads(m) != {}
  {
    var r :| r in m;
    assert Path(m, [r]);
    var q := ClimbToHead(m, [r]);
  }

  lemma OneHeadMakesHistory(m: Revisions, h: string) returns (p: seq<string>)
    requires Heads(m) == {h} && Acyclic(m)
    ensures IsHistory(m, p) && p[0] == h
  {
    assert h in Heads(m);
    assert Path(m, [h]);
    p := DescendToBase(m, [h]);
    PathDistinct(m, p);
    forall r | r in m ensures r in p {
      assert Path(m, [r]);
      var q := ClimbToHead(m, [r]);
      assert q[0] == h;
      assert |q| > |p| ==> m[q[|p| - 1]] == Some(q[|p|]) && q[|p|] in m;
      if |q| <= |p| {
        PathsAgree(m, p, q, |q| - 1);
      } else {
        PathsAgree(m, p, q, |p| - 1);
        assert false;
      }
    }
  }

  lemma HistoryIsAcyclic(m: Revisions, p: seq<string>)
    requires IsHistory(m, p)
    ensures Acyclic(m)
  {
    forall c | Path(m, c) && |c| > 1 ensures c[0] != c[|c| - 1] {
      assert c[0] in m;
      var i :| 0 <= i < |p| && p[i] == c[0];
      PathStaysInHistory(m, p, c, i);
    }
  }

  /** A path from p[i] runs along the history, so it never comes back. */
  lemma PathStaysInHistory(m: Revisions, p: seq<string>, c: seq<string>, i: nat)
    requires IsHistory(m, p) && Path(m, c) && |c| > 1 && i < |p| && p[i] == c[0]
    ensures c[0] != c[|c| - 1]
  {
    var rest := p[i..];
    assert Path(m, rest) && rest[|rest| - 1] == p[|p| - 1];
    assert |c| > |rest| ==> m[c[|rest| - 1]] == Some(c[|rest|]) && c[|rest|] in m;
    if |c| <= |rest| {
      PathsAgree(m, c, rest, |c| - 1);
      assert c[|c| - 1] == p[i + |c| - 1];
    } else {
      PathsAgree(m, c, rest, |rest| - 1);
      assert false;
    }
  }

  /**
   What one head proves: the history is a single chain from it if and only if the
   revisions are acyclic. The check itself does not look for cycles.
   */
  lemma OneHeadIsLinearExactlyIfAcyclic(m: Revisions, h: string)
    requires Heads(m) == {h}
    ensures Acyclic(m) <==> exists p :: IsHistory(m, p) && p[0] == h
  {
    if Acyclic(m) {
      var p := OneHeadMakesHistory(m, h);
    }
    if exists p :: IsHistory(m, p) && p[0] == h {
      var p :| IsHistory(m, p) && p[0] == h;
      HistoryIsAcyclic(m, p);
    }
  }

  /** In a history no revision has two children, and only the last one lacks a parent. */
  lemma HistoryDoesNotBranch(m: Revisions, p: seq<string>, x: string, y: string)
    requires IsHistory(m, p) && x in m && y in m
    ensures m[x].Some? && m[x].value in m && m[x] == m[y] ==> x == y
    ensures (m[x].None? || m[x].value !in m) && (m[y].None? || m[y].value !in m) ==> x == y
  {
    var i :| 0 <= i < |p| && p[i] == x;
    var j :| 0 <= j < |p| && p[j] == y;
    assert i < |p| - 1 ==> m[x] == Some(p[i + 1]) && p[i + 1] in m;
    assert j < |p| - 1 ==> m[y] == Some(p[j + 1]) && p[j + 1] in m;
    if i < |p| - 1 && j < |p| - 1 && p[i + 1] == p[j + 1] {
      assert i + 1 == j + 1;
    }
  }

  const LOOPED: Revisions := map["a" := None, "b" := Some("c"), "c" := Some("b")]

  /** One head does not make a history: two revisions that name each other stay unseen. */
  lemma OneHeadBesideCycle()
    ensures Heads(LOOPED) == {"a"} && !exists p :: IsHistory(LOOPED, p)
  {
    assert LOOPED["b"] == Some("c") && LOOPED["c"] == Some("b");
    forall r ensures r in Heads(LOOPED) <==> r == "a" {
      if r == "b" { assert LOOPED["c"] == Some(r); }
      if r == "c" { assert LOOPED["b"] == Some(r); }
    }
    assert Path(LOOPED, ["b", "c", "b"]);
    assert !Acyclic(LOOPED);
    forall p | IsHistory(LOOPED, p) ensures false { HistoryIsAcyclic(LOOPED, p); }
  }
}
