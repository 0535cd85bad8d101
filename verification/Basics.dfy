/** Result types and the few text tests that several components share. */
module Basics {
  datatype Option<+T> = None | Some(value: T)

  datatype Result<+T, +E> = Ok(value: T) | Err(error: E)

  /** The characters that Python's str.isspace accepts, which str.strip removes. */
  predicate IsSpace(c: char) {
    || '\t' <= c <= '\r'
    || '\U{1c}' <= c <= ' '
    || c == '\U{85}' || c == '\U{a0}' || c == '\U{1680}'
    || '\U{2000}' <= c <= '\U{200a}'
    || c == '\U{2028}' || c == '\U{2029}' || c == '\U{202f}' || c == '\U{205f}' || c == '\U{3000}'
  }

  /** not value.strip() */
  predicate Blank(s: string) {
    forall i :: 0 <= i < |s| ==> IsSpace(s[i])
  }

  /** value == value.strip() for a value that is not blank */
  predicate Trimmed(s: string) {
    s != "" ==> !IsSpace(s[0]) && !IsSpace(s[|s| - 1])
  }

  function LeftStripped(s: string): (r: string)
    ensures r == "" || !IsSpace(r[0])
  {
    if s != "" && IsSpace(s[0]) then LeftStripped(s[1..]) else s
  }

  function RightStripped(s: string): (r: string)
    ensures r <= s && (r == "" || !IsSpace(r[|r| - 1]))
  {
    if s != "" && IsSpace(s[|s| - 1]) then RightStripped(s[..|s| - 1]) else s
  }

  /** str.strip() */
  function Stripped(s: string): string { RightStripped(LeftStripped(s)) }

  predicate AllDistinct<T(==)>(s: seq<T>) {
    forall i, j :: 0 <= i < j < |s| ==> s[i] != s[j]
  }

  /** PostgreSQL's one-argument btrim removes the space character only. */
  predicate BtrimEmpty(s: string) {
    forall i :: 0 <= i < |s| ==> s[i] == ' '
  }

  lemma {:induction false} SubsetSize<T>(a: set<T>, b: set<T>)
    requires a <= b
    ensures |a| <= |b|
  {
    if a != {} {
      var x :| x in a;
      SubsetSize(a - {x}, b - {x});
    }
  }

  /** len(xs) == len(set(xs)) tests that xs has no duplicates. */
  lemma {:induction false} DistinctBySize<T>(s: seq<T>)
    ensures |(set x | x in s)| <= |s|
    ensures |(set x | x in s)| == |s| <==> AllDistinct(s)
  {
    if s != [] {
      var last, rest := s[|s| - 1], s[..|s| - 1];
      DistinctBySize(rest);
      var all, some := set x | x in s, set x | x in rest;
      assert s == rest + [last];
      assert all == some + {last};
      if last in rest {
        var i :| 0 <= i < |rest| && rest[i] == last;
        assert all == some && s[i] == s[|s| - 1];
      } else {
        assert |all| == |some| + 1;
        if AllDistinct(rest) {
          forall i, j | 0 <= i < j < |s| ensures s[i] != s[j] { assert s[i] == rest[i]; }
        } else {
          var i, j :| 0 <= i < j < |rest| && rest[i] == rest[j];
          assert s[i] == s[j];
        }
      }
    }
  }
}
