/** The safety test on tar member names. */
module TarNames {

  function Normalized(name: string): (r: string)
    ensures |r| == |name| && forall i :: 0 <= i < |r| ==> r[i] == if name[i] == '\\' then '/' else name[i]
  {
    seq(|name|, i requires 0 <= i < |name| => if name[i] == '\\' then '/' else name[i])
  }

  predicate StartsWith(s: string, t: string) { |t| <= |s| && s[..|t|] == t }

  predicate EndsWith(s: string, t: string) { |t| <= |s| && s[|s| - |t|..] == t }

  predicate OccursAt(s: string, t: string, i: nat) { i + |t| <= |s| && s[i..i + |t|] == t }

  predicate Contains(s: string, t: string) { exists i | 0 <= i <= |s| :: OccursAt(s, t, i) }

  function FirstSlash(s: string): (k: nat)
    ensures k <= |s| && (forall i :: 0 <= i < k ==> s[i] != '/') && (k < |s| ==> s[k] == '/')
  {
    if s == "" || s[0] == '/' then 0 else 1 + FirstSlash(s[1..])
  }

  /** s.split("/") */
  function Split(s: string): (parts: seq<string>)
    ensures parts != []
    decreases |s|
  {
    var k := FirstSlash(s);
    if k == |s| then [s] else [s[..k]] + Split(s[k + 1..])
  }

  /** is_unsafe_tar_member */
  predicate Unsafe(name: string) {
    var n := Normalized(name);
    || StartsWith(n, "/") || StartsWith(n, "../") || Contains(n, "/../")
    || n == ".." || EndsWith(n, "/..")
    || ':' in Split(n)[0]
  }

  /** ".." stands between separators at i. */
  ghost predicate ParentAt(s: string, i: int) {
    && 0 <= i <= |s| - 2 && s[i] == '.' && s[i + 1] == '.'
    && (i == 0 || s[i - 1] == '/') && (i == |s| - 2 || s[i + 2] == '/')
  }

  ghost predicate HasParent(s: string) { exists i :: ParentAt(s, i) }

  /** A parent component before the first separator, or one after it. */
  lemma ParentSplits(s: string, k: nat)
    requires k == FirstSlash(s) < |s|
    ensures HasParent(s) <==> s[..k] == ".." || HasParent(s[k + 1..])
  {
    var rest := s[k + 1..];
    if s[..k] == ".." { assert s[0] == s[..k][0] && s[1] == s[..k][1] && ParentAt(s, 0); }
    if HasParent(rest) {
      var i :| ParentAt(rest, i);
      assert ParentAt(s, k + 1 + i);
    }
    if HasParent(s) {
      var i :| ParentAt(s, i);
      if i <= k {
        assert i == 0 && k == 2;
        assert s[..k] == "..";
      } else {
        assert ParentAt(rest, i - k - 1);
      }
    }
  }

  lemma ParentAlone(s: string)
    requires FirstSlash(s) == |s|
    ensures HasParent(s) <==> s == ".."
  {
    if s == ".." { assert ParentAt(s, 0); }
  }

  lemma {:induction false} ParentIsComponent(s: string)
    ensures ".." in Split(s) <==> HasParent(s)
    decreases |s|
  {
    var k := FirstSlash(s);
    hide FirstSlash, HasParent;
    if k == |s| {
      ParentAlone(s);
      assert Split(s) == [s];
    } else {
      ParentSplits(s, k);
      ParentIsComponent(s[k + 1..]);
      assert Split(s) == [s[..k]] + Split(s[k + 1..]);
      hide Split;
    }
  }

  /** The four textual tests together find every ".." component. */
  lemma TestsFindParents(s: string)
    ensures (StartsWith(s, "../") || Contains(s, "/../") || s == ".." || EndsWith(s, "/..")) <==> HasParent(s)
  {
    if StartsWith(s, "../") {
      assert s[0] == s[..3][0] && s[1] == s[..3][1] && s[2] == s[..3][2];
      assert ParentAt(s, 0);
    }
    if Contains(s, "/../") {
      var i :| 0 <= i <= |s| && OccursAt(s, "/../", i);
      assert s[i] == s[i..i + 4][0] && s[i + 1] == s[i..i + 4][1] && s[i + 2] == s[i..i + 4][2]
        && s[i + 3] == s[i..i + 4][3];
      assert ParentAt(s, i + 1);
    }
    if s == ".." { assert ParentAt(s, 0); }
    if EndsWith(s, "/..") {
      var e := s[|s| - 3..];
      assert s[|s| - 3] == e[0] && s[|s| - 2] == e[1] && s[|s| - 1] == e[2];
      assert ParentAt(s, |s| - 2);
    }
    if HasParent(s) {
      var i :| ParentAt(s, i);
      if i == 0 && |s| == 2 {
        assert s == "..";
      } else if i == 0 {
        assert s[..3] == "../";
      } else if i == |s| - 2 {
        assert s[|s| - 3..] == "/..";
      } else {
        assert s[i - 1..i - 1 + 4] == "/../";
        assert OccursAt(s, "/../", i - 1);
      }
    }
  }

  /**
   A member name is refused exactly if, with backslashes read as separators, it is absolute,
   has a parent component, or has a colon in its first component.
   */
  lemma UnsafeExactly(name: string)
    ensures Unsafe(name) <==>
      var parts := Split(Normalized(name));
      (|parts| > 1 && parts[0] == "") || ".." in parts || ':' in parts[0]
  {
    var n := Normalized(name);
    TestsFindParents(n);
    ParentIsComponent(n);
    if n != "" { assert StartsWith(n, "/") <==> n[0] == '/' by { assert n[..1] == [n[0]]; } }
    assert FirstSlash(n) == 0 <==> n == "" || n[0] == '/';
  }
}
