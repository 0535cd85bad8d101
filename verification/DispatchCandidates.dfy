/**
 The candidate-listing functions over the outbox and the two workflow intent tables, which
 share one query: filter, UNION ALL, group by tenant with MIN, order, limit. Tenants and
 timestamps are ordered like integers; FINISHED stands for PUBLISHED and DELIVERED.
 */
module DispatchCandidates {
  import opened Basics

  datatype RowStatus = Pending | Claimed | Finished | Quarantined

  datatype Row = Row(tenant: nat, status: RowStatus, availableAt: int, claimedUntil: Option<int>)

  datatype Candidate = Candidate(tenant: nat, at: int)

  datatype Refusal = LimitOutOfRange | AsOfMissing

  /** The row occurs in one branch of the UNION ALL, with this eligible_at. */
  predicate Eligible(r: Row, asOf: int, at: int) {
    || (r.status.Pending? && at == r.availableAt && at <= asOf)
    || (r.status.Claimed? && r.claimedUntil == Some(at) && at <= asOf)
  }

  /** ORDER BY MIN(eligible_at) ASC, tenant_id ASC */
  predicate Before(x: Candidate, y: Candidate) { x.at < y.at || (x.at == y.at && x.tenant < y.tenant) }

  // ---- the declarative listing ----

  ghost predicate Occurs(rows: seq<Row>, asOf: int, tenant: nat, at: int) {
    exists r :: r in rows && r.tenant == tenant && Eligible(r, asOf, at)
  }

  /** c.at is the true minimum over the tenant's eligible rows. */
  ghost predicate IsCandidate(rows: seq<Row>, asOf: int, c: Candidate) {
    Occurs(rows, asOf, c.tenant, c.at) && forall at :: Occurs(rows, asOf, c.tenant, at) ==> c.at <= at
  }

  ghost predicate Ascending(s: seq<Candidate>) { forall i, j :: 0 <= i < j < |s| ==> Before(s[i], s[j]) }

  /** The first limit candidates in order; whoever is missing comes after a full page. */
  ghost predicate IsListing(rows: seq<Row>, asOf: int, limit: nat, s: seq<Candidate>) {
    && Ascending(s) && |s| <= limit
    && (forall i :: 0 <= i < |s| ==> IsCandidate(rows, asOf, s[i]))
    && (forall c :: IsCandidate(rows, asOf, c) && c !in s ==>
          |s| == limit && forall i :: 0 <= i < |s| ==> Before(s[i], c))
  }

  // ---- the query ----

  /** The group table after some rows: the least eligible time of every tenant seen. */
  ghost predicate Grouped(rows: seq<Row>, asOf: int, best: map<nat, int>) {
    && (forall t :: t in best ==> IsCandidate(rows, asOf, Candidate(t, best[t])))
    && (forall t, at :: Occurs(rows, asOf, t, at) ==> t in best)
  }

  function Merge(best: map<nat, int>, tenant: nat, at: int): map<nat, int> {
    if tenant in best && best[tenant] <= at then best else best[tenant := at]
  }

  lemma OccursInLonger(rows: seq<Row>, i: nat, asOf: int, tenant: nat, at: int)
    requires i < |rows|
    ensures Occurs(rows[..i + 1], asOf, tenant, at) <==>
      Occurs(rows[..i], asOf, tenant, at) || (rows[i].tenant == tenant && Eligible(rows[i], asOf, at))
  {
    assert rows[..i + 1] == rows[..i] + [rows[i]];
  }

  /** One more row: what occurs, and so who is a candidate, in terms of what occurred before. */
  lemma CandidateInLonger(rows: seq<Row>, i: nat, asOf: int, c: Candidate)
    requires i < |rows|
    requires Occurs(rows[..i], asOf, c.tenant, c.at) || (rows[i].tenant == c.tenant && Eligible(rows[i], asOf, c.at))
    requires forall at :: Occurs(rows[..i], asOf, c.tenant, at) ==> c.at <= at
    requires forall at :: rows[i].tenant == c.tenant && Eligible(rows[i], asOf, at) ==> c.at <= at
    ensures IsCandidate(rows[..i + 1], asOf, c)
  {
    OccursInLonger(rows, i, asOf, c.tenant, c.at);
    var next := rows[..i + 1];
    forall at | Occurs(next, asOf, c.tenant, at) ensures c.at <= at {
      OccursInLonger(rows, i, asOf, c.tenant, at);
    }
  }

  lemma MergeKeepsGrouped(rows: seq<Row>, i: nat, asOf: int, best: map<nat, int>, at: int)
    requires i < |rows| && Grouped(rows[..i], asOf, best) && Eligible(rows[i], asOf, at)
    ensures Grouped(rows[..i + 1], asOf, Merge(best, rows[i].tenant, at))
  {
    var n := Merge(best, rows[i].tenant, at);
    forall t | t in n ensures IsCandidate(rows[..i + 1], asOf, Candidate(t, n[t])) {
      if t in best { assert IsCandidate(rows[..i], asOf, Candidate(t, best[t])); }
      CandidateInLonger(rows, i, asOf, Candidate(t, n[t]));
    }
    var next := rows[..i + 1];
    forall t: nat, a | Occurs(next, asOf, t, a) ensures t in n { OccursInLonger(rows, i, asOf, t, a); }
  }

  lemma SkipKeepsGrouped(rows: seq<Row>, i: nat, asOf: int, best: map<nat, int>)
    requires i < |rows| && Grouped(rows[..i], asOf, best) && forall at :: !Eligible(rows[i], asOf, at)
    ensures Grouped(rows[..i + 1], asOf, best)
  {
    forall t | t in best ensures IsCandidate(rows[..i + 1], asOf, Candidate(t, best[t])) {
      assert IsCandidate(rows[..i], asOf, Candidate(t, best[t]));
      CandidateInLonger(rows, i, asOf, Candidate(t, best[t]));
    }
    var next := rows[..i + 1];
    forall t: nat, a | Occurs(next, asOf, t, a) ensures t in best { OccursInLonger(rows, i, asOf, t, a); }
  }

  method Group(rows: seq<Row>, asOf: int) returns (best: map<nat, int>)
    ensures Grouped(rows, asOf, best)
  {
    best := map[];
    for i := 0 to |rows|
      invariant Grouped(rows[..i], asOf, best)
    {
      var r := rows[i];
      if r.status.Pending? && r.availableAt <= asOf {
        MergeKeepsGrouped(rows, i, asOf, best, r.availableAt);
        best := Merge(best, r.tenant, r.availableAt);
      } else if r.status.Claimed? && r.claimedUntil.Some? && r.claimedUntil.value <= asOf {
        MergeKeepsGrouped(rows, i, asOf, best, r.claimedUntil.value);
        best := Merge(best, r.tenant, r.claimedUntil.value);
      } else {
        SkipKeepsGrouped(rows, i, asOf, best);
      }
    }
    assert rows[..|rows|] == rows;
  }

  /** Insertion at the place the order gives. */
  method Insert(s: seq<Candidate>, c: Candidate) returns (r: seq<Candidate>)
    requires Ascending(s) && forall i :: 0 <= i < |s| ==> s[i].tenant != c.tenant
    ensures Ascending(r) && |r| == |s| + 1 && forall x :: x in r <==> x in s || x == c
  {
    var i := 0;
    while i < |s| && Before(s[i], c)
      invariant 0 <= i <= |s| && forall j :: 0 <= j < i ==> Before(s[j], c)
    {
      i := i + 1;
    }
    if i < |s| { LaterComeAfter(s, c, i); }
    hide Before;
    r := s[..i] + [c] + s[i..];
    assert s == s[..i] + s[i..];
  }

  lemma LaterComeAfter(s: seq<Candidate>, c: Candidate, i: nat)
    requires Ascending(s) && i < |s| && s[i].tenant != c.tenant && !Before(s[i], c)
    ensures forall j :: i <= j < |s| ==> Before(c, s[j])
  {
    forall j | i <= j < |s| ensures Before(c, s[j]) { assert j == i || Before(s[i], s[j]); }
  }

  method Sort(best: map<nat, int>) returns (s: seq<Candidate>)
    ensures Ascending(s) && forall c :: c in s <==> c.tenant in best && best[c.tenant] == c.at
  {
    s := [];
    var left := best.Keys;
    while left != {}
      invariant left <= best.Keys && Ascending(s)
      invariant forall c :: c in s <==> c.tenant in best && c.tenant !in left && best[c.tenant] == c.at
      decreases |left|
    {
      var t :| t in left;
      forall i | 0 <= i < |s| ensures s[i].tenant != t { assert s[i] in s; }
      s := Insert(s, Candidate(t, best[t]));
      left := left - {t};
    }
  }

  /** list_outbox_dispatch_candidates and its two workflow twins. */
  method ListCandidates(rows: seq<Row>, limit: Option<int>, asOf: Option<int>)
    returns (r: Result<seq<Candidate>, Refusal>)
    ensures r == Err(LimitOutOfRange) <==> limit.None? || !(1 <= limit.value <= 1000)
    ensures r == Err(AsOfMissing) <==> limit.Some? && 1 <= limit.value <= 1000 && asOf.None?
    ensures r.Ok? ==> IsListing(rows, asOf.value, limit.value, r.value)
  {
    if limit.None? || limit.value < 1 || limit.value > 1000 { return Err(LimitOutOfRange); }
    if asOf.None? { return Err(AsOfMissing); }
    var best := Group(rows, asOf.value);
    var all := Sort(best);
    var page := if |all| <= limit.value then all else all[..limit.value];
    forall i | 0 <= i < |page| ensures IsCandidate(rows, asOf.value, page[i]) { assert all[i] in all; }
    forall c | IsCandidate(rows, asOf.value, c) && c !in page
      ensures |page| == limit.value && forall i :: 0 <= i < |page| ==> Before(page[i], c)
    {
      assert c.tenant in best && IsCandidate(rows, asOf.value, Candidate(c.tenant, best[c.tenant]));
      assert c in all;
      var m :| 0 <= m < |all| && all[m] == c;
      assert m >= |page|;
    }
    r := Ok(page);
  }

  // ---- what the listing determines ----

  /** A later clock only adds candidates, and only later ones. */
  lemma LaterClock(rows: seq<Row>, a: int, b: int, c: Candidate)
    requires a <= b
    ensures IsCandidate(rows, a, c) <==> IsCandidate(rows, b, c) && c.at <= a
  {
    forall at ensures Occurs(rows, a, c.tenant, at) <==> Occurs(rows, b, c.tenant, at) && at <= a {
      if Occurs(rows, b, c.tenant, at) && at <= a {
        var r :| r in rows && r.tenant == c.tenant && Eligible(r, b, at);
        assert Eligible(r, a, at);
      }
      if Occurs(rows, a, c.tenant, at) {
        var r :| r in rows && r.tenant == c.tenant && Eligible(r, a, at);
        assert Eligible(r, b, at);
      }
    }
  }

  lemma NextAgrees(rows: seq<Row>, a: int, b: int, la: nat, lb: nat, x: seq<Candidate>, y: seq<Candidate>, i: nat)
    requires a <= b && la <= lb && IsListing(rows, a, la, x) && IsListing(rows, b, lb, y)
    requires i < |x| && i <= |y| && x[..i] == y[..i]
    ensures i < |y| && x[i] == y[i]
  {
    var c := x[i];
    LaterClock(rows, a, b, c);
    hide IsCandidate;
    assert forall j :: 0 <= j < i ==> x[j] == x[..i][j] == y[..i][j] == y[j];
    assert c !in x[..i];
    if i == |y| { assert false; }
    var d := y[i];
    if Before(d, c) {
      LaterClock(rows, a, b, d);
      NotBetween(x, y, i, d);
      assert false;
    }
    if Before(c, d) {
      NotBetween(y, x, i, c);
      assert false;
    }
  }

  /** An element between the common part and s[i] is not in s. */
  lemma NotBetween(s: seq<Candidate>, o: seq<Candidate>, i: nat, c: Candidate)
    requires Ascending(s) && Ascending(o) && i < |s| && i < |o| && s[..i] == o[..i] && o[i] == c && Before(c, s[i])
    ensures c !in s
  {
    forall j | 0 <= j < |s| ensures s[j] != c {
      if j < i {
        assert s[j] == s[..i][j] == o[..i][j] == o[j];
        assert Before(o[j], o[i]);
      } else if j > i {
        assert Before(s[i], s[j]);
      }
    }
  }

  lemma {:induction false} PrefixUpTo(rows: seq<Row>, a: int, b: int, la: nat, lb: nat, x: seq<Candidate>,
    y: seq<Candidate>, i: nat)
    requires a <= b && la <= lb && IsListing(rows, a, la, x) && IsListing(rows, b, lb, y) && i <= |x|
    ensures i <= |y| && x[..i] == y[..i]
  {
    if i > 0 {
      PrefixUpTo(rows, a, b, la, lb, x, y, i - 1);
      NextAgrees(rows, a, b, la, lb, x, y, i - 1);
      assert x[..i] == x[..i - 1] + [x[i - 1]] && y[..i] == y[..i - 1] + [y[i - 1]];
    }
  }

  /** On a fixed table, an earlier clock or a smaller limit gives a prefix. */
  lemma EarlierIsPrefix(rows: seq<Row>, a: int, b: int, la: nat, lb: nat, x: seq<Candidate>, y: seq<Candidate>)
    requires a <= b && la <= lb && IsListing(rows, a, la, x) && IsListing(rows, b, lb, y)
    ensures x <= y
  {
    PrefixUpTo(rows, a, b, la, lb, x, y, |x|);
    assert x[..|x|] == x;
  }

  /** The listing is determined by the set of rows, whatever their order and multiplicity. */
  lemma ListingUnique(rows: seq<Row>, rows': seq<Row>, asOf: int, limit: nat, x: seq<Candidate>, y: seq<Candidate>)
    requires forall r :: r in rows <==> r in rows'
    requires IsListing(rows, asOf, limit, x) && IsListing(rows', asOf, limit, y)
    ensures x == y
  {
    forall t, at ensures Occurs(rows, asOf, t, at) <==> Occurs(rows', asOf, t, at) {}
    SameOccurrences(rows, rows', asOf, limit, y);
    EarlierIsPrefix(rows, asOf, asOf, limit, limit, x, y);
    EarlierIsPrefix(rows, asOf, asOf, limit, limit, y, x);
  }

  lemma SameOccurrences(rows: seq<Row>, rows': seq<Row>, asOf: int, limit: nat, s: seq<Candidate>)
    requires forall t, at :: Occurs(rows, asOf, t, at) <==> Occurs(rows', asOf, t, at)
    ensures IsListing(rows, asOf, limit, s) <==> IsListing(rows', asOf, limit, s)
  {
    hide Occurs;
    forall c ensures IsCandidate(rows, asOf, c) <==> IsCandidate(rows', asOf, c) {}
  }

  /** The rows that the candidate-reader policy admits. */
  function Admitted(rows: seq<Row>): seq<Row> {
    if rows == [] then []
    else (if rows[0].status.Pending? || rows[0].status.Claimed? then [rows[0]] else []) + Admitted(rows[1..])
  }

  lemma {:induction false} AdmittedRows(rows: seq<Row>)
    ensures forall r :: r in Admitted(rows) <==> r in rows && (r.status.Pending? || r.status.Claimed?)
  {
    if rows != [] {
      AdmittedRows(rows[1..]);
      assert forall r :: r in rows <==> r == rows[0] || r in rows[1..];
    }
  }

  /** Row security does not change the answer: the policy admits every row the query uses. */
  lemma PolicyIsTransparent(rows: seq<Row>, asOf: int, limit: nat, s: seq<Candidate>)
    ensures IsListing(Admitted(rows), asOf, limit, s) <==> IsListing(rows, asOf, limit, s)
  {
    AdmittedRows(rows);
    forall t, at ensures Occurs(rows, asOf, t, at) <==> Occurs(Admitted(rows), asOf, t, at) {
      if Occurs(rows, asOf, t, at) {
        var r :| r in rows && r.tenant == t && Eligible(r, asOf, at);
        assert r in Admitted(rows);
      }
    }
    SameOccurrences(rows, Admitted(rows), asOf, limit, s);
  }

  // ---- how many and whom ----

  /** All candidates, as a finite set. */
  ghost function Candidates(rows: seq<Row>, asOf: int): (all: set<Candidate>)
    ensures forall c :: c in all <==> IsCandidate(rows, asOf, c)
  {
    var times :=
      (set i | 0 <= i < |rows| :: rows[i].availableAt)
      + (set i | 0 <= i < |rows| && rows[i].claimedUntil.Some? :: rows[i].claimedUntil.value);
    var tenants := set i | 0 <= i < |rows| :: rows[i].tenant;
    var all := set t, at | t in tenants && at in times && IsCandidate(rows, asOf, Candidate(t, at)) :: Candidate(t, at);
    assert forall c :: IsCandidate(rows, asOf, c) ==> c in all by {
      forall c | IsCandidate(rows, asOf, c) ensures c in all {
        var r :| r in rows && r.tenant == c.tenant && Eligible(r, asOf, c.at);
        var i :| 0 <= i < |rows| && rows[i] == r;
        assert rows[i].tenant in tenants && c.at in times;
      }
    }
    all
  }

  /** A page holds min(limit, number of candidate tenants) entries, and entry i has exactly i candidates before it. */
  lemma PageIsFirst(rows: seq<Row>, asOf: int, limit: nat, s: seq<Candidate>, i: nat)
    requires IsListing(rows, asOf, limit, s)
    ensures |s| == if |Candidates(rows, asOf)| <= limit then |Candidates(rows, asOf)| else limit
    ensures i < |s| ==> |(set c | c in Candidates(rows, asOf) && Before(c, s[i]))| == i
  {
    var all := Candidates(rows, asOf);
    assert forall c :: c in all <==> IsCandidate(rows, asOf, c);
    hide Candidates, IsCandidate;
    SetOfAscending(s);
    var listed := set c | c in s;
    if listed != all {
      assert listed < all;
      var c :| c in all && c !in listed;
      assert |s| == limit;
      SubsetSize(listed, all - {c});
    }
    if i < |s| {
      EarlierAreListed(all, s, limit, i);
      SetOfAscending(s[..i]);
    }
  }

  lemma EarlierAreListed(all: set<Candidate>, s: seq<Candidate>, limit: nat, i: nat)
    requires Ascending(s) && i < |s|
    requires forall j :: 0 <= j < |s| ==> s[j] in all
    requires forall c :: c in all && c !in s ==> forall j :: 0 <= j < |s| ==> Before(s[j], c)
    ensures (set c | c in all && Before(c, s[i])) == set c | c in s[..i]
  {
    forall c | c in all && Before(c, s[i]) ensures c in s[..i] {
      assert c !in s ==> Before(s[i], c);
      var m :| 0 <= m < |s| && s[m] == c;
      assert s[..i][m] == c;
    }
  }

  lemma {:induction false} SetOfAscending(s: seq<Candidate>)
    requires Ascending(s)
    ensures |(set c | c in s)| == |s|
  {
    if s != [] {
      var rest, last := s[..|s| - 1], s[|s| - 1];
      SetOfAscending(rest);
      assert s == rest + [last];
      assert (set c | c in s) == (set c | c in rest) + {last};
      assert last !in rest;
    }
  }

  // ---- the listing on the columns ----

  /** A row whose time has come: pending and available, or claimed with a lease that has ended. */
  ghost predicate IsDue(r: Row, asOf: int) {
    || (r.status == Pending && r.availableAt <= asOf)
    || (r.status == Claimed && r.claimedUntil.Some? && r.claimedUntil.value <= asOf)
  }

  /** Since when: the available time of a pending row, the end of a claimed row's lease. */
  ghost function DueSince(r: Row): int
    requires r.status == Pending || r.claimedUntil.Some?
  {
    if r.status == Pending then r.availableAt else r.claimedUntil.value
  }

  /** at is the least time since which a row of the tenant is due. */
  ghost predicate EarliestDue(rows: seq<Row>, asOf: int, tenant: nat, at: int) {
    && (exists r :: r in rows && r.tenant == tenant && IsDue(r, asOf) && DueSince(r) == at)
    && (forall r :: r in rows && r.tenant == tenant && IsDue(r, asOf) ==> at <= DueSince(r))
  }

  lemma EligibleMeans(r: Row, asOf: int, at: int)
    ensures Eligible(r, asOf, at) <==> IsDue(r, asOf) && DueSince(r) == at
  {
  }

  lemma CandidateMeans(rows: seq<Row>, asOf: int, c: Candidate)
    ensures IsCandidate(rows, asOf, c) <==> EarliestDue(rows, asOf, c.tenant, c.at)
  {
    forall r, at ensures Eligible(r, asOf, at) <==> IsDue(r, asOf) && DueSince(r) == at { EligibleMeans(r, asOf, at); }
    hide Eligible, IsDue, DueSince;
    if IsCandidate(rows, asOf, c) {
      forall r | r in rows && r.tenant == c.tenant && IsDue(r, asOf) ensures c.at <= DueSince(r) {
        assert Eligible(r, asOf, DueSince(r));
        assert Occurs(rows, asOf, c.tenant, DueSince(r));
      }
    }
  }

  lemma {:induction false} HasEarliest(rows: seq<Row>, asOf: int, tenant: nat) returns (at: int)
    requires exists r :: r in rows && r.tenant == tenant && IsDue(r, asOf)
    ensures EarliestDue(rows, asOf, tenant, at)
  {
    var rest, first := rows[1..], rows[0];
    assert forall r :: r in rows <==> r == first || r in rest;
    if exists r :: r in rest && r.tenant == tenant && IsDue(r, asOf) {
      at := HasEarliest(rest, asOf, tenant);
      if first.tenant == tenant && IsDue(first, asOf) && DueSince(first) < at { at := DueSince(first); }
    } else {
      at := DueSince(first);
    }
  }

  /**
   What a page says, told by statuses and columns: each entry is a tenant with its least due
   time, ordered by time and then tenant; a tenant appears on a page that is not full exactly
   if one of its rows is due, and a tenant that a full page leaves out comes later.
   */
  lemma PageOnColumns(rows: seq<Row>, asOf: int, limit: nat, s: seq<Candidate>, tenant: nat)
    requires IsListing(rows, asOf, limit, s)
    ensures forall i :: 0 <= i < |s| ==> EarliestDue(rows, asOf, s[i].tenant, s[i].at)
    ensures forall i, j :: 0 <= i < j < |s| ==>
      s[i].at < s[j].at || (s[i].at == s[j].at && s[i].tenant < s[j].tenant)
    ensures (exists i :: 0 <= i < |s| && s[i].tenant == tenant) ==>
      exists r :: r in rows && r.tenant == tenant && IsDue(r, asOf)
    ensures |s| < limit && (exists r :: r in rows && r.tenant == tenant && IsDue(r, asOf)) ==>
      exists i :: 0 <= i < |s| && s[i].tenant == tenant
    ensures forall i, at :: 0 <= i < |s| && EarliestDue(rows, asOf, tenant, at) && Candidate(tenant, at) !in s ==>
      |s| == limit && (s[i].at < at || (s[i].at == at && s[i].tenant < tenant))
  {
    forall c ensures IsCandidate(rows, asOf, c) <==> EarliestDue(rows, asOf, c.tenant, c.at) {
      CandidateMeans(rows, asOf, c);
    }
    hide IsCandidate, IsDue, DueSince;
    if exists r :: r in rows && r.tenant == tenant && IsDue(r, asOf) {
      var at := HasEarliest(rows, asOf, tenant);
      assert IsCandidate(rows, asOf, Candidate(tenant, at));
    }
  }

  /** A tenant all of whose rows are finished, quarantined, not yet available or under a running lease is not listed. */
  lemma RunningLeaseIsNotListed(rows: seq<Row>, asOf: int, limit: nat, s: seq<Candidate>, tenant: nat)
    requires IsListing(rows, asOf, limit, s)
    requires forall r :: r in rows && r.tenant == tenant ==>
      match r.status
      case Pending => r.availableAt > asOf
      case Claimed => r.claimedUntil.None? || r.claimedUntil.value > asOf
      case _ => true
    ensures forall at :: Candidate(tenant, at) !in s
  {
    PageOnColumns(rows, asOf, limit, s, tenant);
  }
}
