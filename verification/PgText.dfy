/** Text tests that the PostgreSQL constraints share. */
module PgText {
  import opened Basics

  /** ^[a-z][a-z0-9._-]{0,63}$ */
  predicate IsIdentifier(s: string) {
    && 1 <= |s| <= 64
    && 'a' <= s[0] <= 'z'
    && forall i :: 0 <= i < |s| ==> IdentifierChar(s[i])
  }

  predicate IdentifierChar(c: char) {
    ('a' <= c <= 'z') || ('0' <= c <= '9') || c == '.' || c == '_' || c == '-'
  }

  /** [[:cntrl:]], taken as the C0 and C1 control characters. */
  predicate HasControl(s: string) {
    exists i :: 0 <= i < |s| && (s[i] < ' ' || '\U{7f}' <= s[i] <= '\U{9f}')
  }

  /** s = btrim(s) */
  predicate BtrimStable(s: string) { s != "" ==> s[0] != ' ' && s[|s| - 1] != ' ' }

  predicate IsSha256Hex(s: string) {
    |s| == 64 && forall i :: 0 <= i < |s| ==> ('0' <= s[i] <= '9') || ('a' <= s[i] <= 'f')
  }
}
