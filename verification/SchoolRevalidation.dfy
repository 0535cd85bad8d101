/** Valid arguments state coherent facts, and coherent facts validate to themselves; hence what each setter does. */
module SchoolRevalidation {
  import opened Basics
  import opened SchoolFacts

  // ---- valid arguments state coherent facts ----

  ghost predicate LabelledBy(labels: map<string, string>, r: string, s: seq<(Raw, Raw)>, i: nat) {
    i < |s| && DefinedRef(s[i]) == r && r in labels && labels[r] == TextOf(s[i].1)
  }

  /** The dict holds the label of each definition, and nothing else. */
  lemma {:induction false} LabelsAt(s: seq<(Raw, Raw)>)
    requires DefinitionsOk(s)
    ensures forall i :: 0 <= i < |s| ==> LabelledBy(Labels(s), DefinedRef(s[i]), s, i)
    ensures forall r :: r in Labels(s) ==> exists i: nat :: LabelledBy(Labels(s), r, s, i)
  {
    if s != [] {
      var n := |s| - 1;
      var front := s[..n];
      forall i | 0 <= i < n ensures DefinitionOk(front, i) { assert DefinitionOk(s, i); }
      LabelsAt(front);
      assert DefinitionOk(s, n);
      hide DefinitionOk, DefinitionsOk, DefinedRef;
      forall i | 0 <= i <= n ensures LabelledBy(Labels(s), DefinedRef(s[i]), s, i) {
        if i < n {
          assert LabelledBy(Labels(front), DefinedRef(front[i]), front, i);
          assert DefinedRef(s[i]) != DefinedRef(s[n]) by { assert NewAt(DefinedRef, s, n); }
        }
      }
      forall r | r in Labels(s) ensures exists i: nat :: LabelledBy(Labels(s), r, s, i) {
        if r == DefinedRef(s[n]) {
          assert LabelledBy(Labels(s), r, s, n);
        } else {
          var i: nat :| LabelledBy(Labels(front), r, front, i);
          assert LabelledBy(Labels(s), r, s, i);
        }
      }
    }
  }

  lemma LabelsStated(s: seq<(Raw, Raw)>)
    requires DefinitionsOk(s)
    ensures GoodLabels(Labels(s), Map(DefinedRef, s))
  {
    LabelsAt(s);
    var l, order := Labels(s), Map(DefinedRef, s);
    forall i | 0 <= i < |s| ensures order[i] in l && forall j :: 0 <= j < i ==> order[j] != order[i] {
      assert LabelledBy(l, order[i], s, i) && DefinitionOk(s, i);
      hide Labels;
    }
    forall r | r in l ensures r in order && GoodRef(r) && !Blank(l[r]) {
      var i: nat :| LabelledBy(l, r, s, i);
      assert DefinitionOk(s, i) && order[i] == r;
      hide Labels, Blank, Trimmed;
    }
    hide Labels, GoodRef, Blank, DefinitionsOk, DefinedRef;
  }

  lemma ScopeStated(s: seq<Raw>, known: map<string, string>)
    requires RefsOk(s, known)
    ensures GoodScope(Map(TextOf, s), known)
  {
    forall i | 0 <= i < |s| ensures TextOf(s[i]) in known && forall j :: 0 <= j < i ==> TextOf(s[j]) != TextOf(s[i]) {
      assert RefOk(s, i, known);
    }
  }

  lemma RosterStated(s: seq<Raw>, known: map<string, string>)
    requires EntriesOk(s, known)
    ensures GoodRoster(Map(MemberOf, s), known)
  {
    forall i | 0 <= i < |s|
      ensures ClassText(s[i]) in known && IsLearnerRef(LearnerOf(s[i]))
      ensures forall j :: 0 <= j < i ==> ClassText(s[j]) != ClassText(s[i])
    {
      assert EntryOk(s, i, known);
    }
  }

  lemma AccessStated(s: seq<Raw>, learners: set<Id>)
    requires LearnersOk(s, learners)
    ensures GoodAccess(Map(IdOf, s), learners)
  {
    forall i | 0 <= i < |s| ensures IdOf(s[i]) in learners && forall j :: 0 <= j < i ==> IdOf(s[j]) != IdOf(s[i]) {
      assert LearnerOk(s, i, learners);
    }
  }

  lemma KeysStated<V, W>(d: Dict<Raw, V>, e: Dict<Id, W>)
    requires KeysOk(d) && |e| == |d| && forall i :: 0 <= i < |d| ==> e[i].0 == IdOf(d[i].0)
    ensures DistinctKeys(e) && Keys(e) == Ids(d)
  {
    forall i, j | 0 <= i < j < |d| ensures e[i].0 != e[j].0 {
      assert KeyOk(d, j);
      assert KeyId(d[i]) != KeyId(d[j]);
    }
    forall x ensures x in Keys(e) <==> x in Ids(d) {
      if x in Keys(e) { var i :| 0 <= i < |e| && e[i].0 == x; assert IdOf(d[i].0) == x; }
      if x in Ids(d) { var i :| 0 <= i < |d| && IdOf(d[i].0) == x; assert e[i].0 == x; }
    }
  }

  lemma ScopesStated(d: Dict<Raw, seq<Raw>>, known: map<string, string>)
    requires ScopesOk(d, known)
    ensures GoodScopes(Map(ScopeOf, d), known)
  {
    KeysStated(d, Map(ScopeOf, d));
    forall i | 0 <= i < |d| ensures GoodScope(Map(TextOf, d[i].1), known) { ScopeStated(d[i].1, known); }
    hide RefsOk, GoodScope, KeysOk, DistinctKeys;
  }

  lemma RostersStated(d: Dict<Raw, seq<Raw>>, known: map<string, string>)
    requires RostersOk(d, known)
    ensures GoodRosters(Map(RosterOf, d), known) && Keys(Map(RosterOf, d)) == Ids(d)
  {
    KeysStated(d, Map(RosterOf, d));
    forall i | 0 <= i < |d| ensures GoodRoster(Map(MemberOf, d[i].1), known) { RosterStated(d[i].1, known); }
    hide EntriesOk, GoodRoster, KeysOk, DistinctKeys;
  }

  lemma AccessesStated(d: Dict<Raw, seq<Raw>>, learners: set<Id>)
    requires AccessesOk(d, learners)
    ensures GoodAccesses(Map(AccessOf, d), learners)
  {
    KeysStated(d, Map(AccessOf, d));
    forall i | 0 <= i < |d| ensures GoodAccess(Map(IdOf, d[i].1), learners) { AccessStated(d[i].1, learners); }
    hide LearnersOk, GoodAccess, KeysOk, DistinctKeys;
  }

  /** Whatever validation lets through satisfies the provider's invariant. */
  lemma StatedIsCoherent(a: Args)
    requires Valid(a)
    ensures Coherent(Stated(a))
  {
    LabelsStated(a.definitions);
    ScopesStated(a.teachers, Labels(a.definitions));
    RostersStated(a.learners, Labels(a.definitions));
    ScopesStated(a.principals, Labels(a.definitions));
    AccessesStated(a.adults, Ids(a.learners));
    hide DefinitionsOk, ScopesOk, RostersOk, AccessesOk, GoodLabels, GoodScopes, GoodRosters, GoodAccesses;
    hide Keys, Ids, Labels;
  }

  // ---- coherent facts are valid arguments that state themselves ----

  lemma RawKeysOk<V, W>(d: Dict<Id, V>, e: Dict<Raw, W>)
    requires DistinctKeys(d) && |e| == |d| && forall i :: 0 <= i < |d| ==> e[i].0 == Uuid(d[i].0)
    ensures KeysOk(e) && Ids(e) == Keys(d)
  {
    forall i | 0 <= i < |d| ensures KeyOk(e, i) {}
    forall x ensures x in Keys(d) <==> x in Ids(e) {
      if x in Keys(d) { var i :| 0 <= i < |d| && d[i].0 == x; assert IdOf(e[i].0) == x; }
      if x in Ids(e) { var i :| 0 <= i < |e| && IdOf(e[i].0) == x; assert d[i].0 == x; }
    }
  }

  lemma DefinitionsRestated(labels: map<string, string>, order: seq<string>)
    requires GoodLabels(labels, order)
    ensures DefinitionsOk(RawDefinitions(labels, order))
    ensures Labels(RawDefinitions(labels, order)) == labels && Map(DefinedRef, RawDefinitions(labels, order)) == order
  {
    var d := RawDefinitions(labels, order);
    assert Map(DefinedRef, d) == order;
    assert DefinitionsOk(d) by {
      hide Blank, Trimmed;
      forall i | 0 <= i < |d| ensures DefinitionOk(d, i) {}
    }
    hide GoodRef, Blank, DefinitionOk, DefinitionsOk, Labels;
    LabelsAt(d);
    SameLabels(labels, order, Labels(d));
  }

  lemma SameLabels(labels: map<string, string>, order: seq<string>, l: map<string, string>)
    requires GoodLabels(labels, order)
    requires var d := RawDefinitions(labels, order);
      (forall i :: 0 <= i < |d| ==> LabelledBy(l, DefinedRef(d[i]), d, i))
      && (forall r :: r in l ==> exists i: nat :: LabelledBy(l, r, d, i))
    ensures l == labels
  {
    hide GoodRef, Blank;
    var d := RawDefinitions(labels, order);
    forall r | r in labels ensures r in l && l[r] == labels[r] {
      var i :| 0 <= i < |order| && order[i] == r;
      assert LabelledBy(l, DefinedRef(d[i]), d, i);
    }
    forall r | r in l ensures r in labels {
      var i: nat :| LabelledBy(l, r, d, i);
      assert r == order[i];
    }
  }

  lemma ScopeRestated(refs: seq<string>, labels: map<string, string>, order: seq<string>)
    requires GoodLabels(labels, order) && GoodScope(refs, labels)
    ensures RefsOk(Map(RawText, refs), labels) && Map(TextOf, Map(RawText, refs)) == refs
  {
    forall i | 0 <= i < |refs| ensures RefOk(Map(RawText, refs), i, labels) { assert GoodRef(refs[i]); }
  }

  lemma RosterRestated(items: seq<Member>, labels: map<string, string>, order: seq<string>)
    requires GoodLabels(labels, order) && GoodRoster(items, labels)
    ensures EntriesOk(Map(RawMember, items), labels) && Map(MemberOf, Map(RawMember, items)) == items
  {
    forall i | 0 <= i < |items| ensures EntryOk(Map(RawMember, items), i, labels) { assert GoodRef(items[i].classRef); }
  }

  lemma AccessRestated(ids: seq<Id>, learners: set<Id>)
    requires GoodAccess(ids, learners)
    ensures LearnersOk(Map(RawId, ids), learners) && Map(IdOf, Map(RawId, ids)) == ids
  {
    forall i | 0 <= i < |ids| ensures LearnerOk(Map(RawId, ids), i, learners) {}
  }

  lemma ScopesRestated(d: Dict<Id, seq<string>>, labels: map<string, string>, order: seq<string>)
    requires GoodLabels(labels, order) && GoodScopes(d, labels)
    ensures ScopesOk(Map(RawScope, d), labels) && Map(ScopeOf, Map(RawScope, d)) == d
  {
    RawKeysOk(d, Map(RawScope, d));
    forall i | 0 <= i < |d|
      ensures RefsOk(Map(RawText, d[i].1), labels) && Map(TextOf, Map(RawText, d[i].1)) == d[i].1
    {
      ScopeRestated(d[i].1, labels, order);
    }
    hide RefsOk, GoodScope, GoodLabels, KeysOk, DistinctKeys;
  }

  lemma RostersRestated(d: Dict<Id, seq<Member>>, labels: map<string, string>, order: seq<string>)
    requires GoodLabels(labels, order) && GoodRosters(d, labels)
    ensures RostersOk(Map(RawRoster, d), labels) && Map(RosterOf, Map(RawRoster, d)) == d
    ensures Ids(Map(RawRoster, d)) == Keys(d)
  {
    RawKeysOk(d, Map(RawRoster, d));
    forall i | 0 <= i < |d|
      ensures EntriesOk(Map(RawMember, d[i].1), labels) && Map(MemberOf, Map(RawMember, d[i].1)) == d[i].1
    {
      RosterRestated(d[i].1, labels, order);
    }
    hide EntriesOk, GoodRoster, GoodLabels, KeysOk, DistinctKeys;
  }

  lemma AccessesRestated(d: Dict<Id, seq<Id>>, learners: set<Id>)
    requires GoodAccesses(d, learners)
    ensures AccessesOk(Map(RawAccess, d), learners) && Map(AccessOf, Map(RawAccess, d)) == d
  {
    RawKeysOk(d, Map(RawAccess, d));
    forall i | 0 <= i < |d|
      ensures LearnersOk(Map(RawId, d[i].1), learners) && Map(IdOf, Map(RawId, d[i].1)) == d[i].1
    {
      AccessRestated(d[i].1, learners);
    }
    hide LearnersOk, GoodAccess, KeysOk, DistinctKeys;
  }

  /** Validating the provider's own facts again is the identity. */
  lemma RevalidationIsIdentity(f: Facts)
    requires Coherent(f)
    ensures Valid(Exported(f)) && Stated(Exported(f)) == f
  {
    DefinitionsRestated(f.labels, f.order);
    ScopesRestated(f.teachers, f.labels, f.order);
    RostersRestated(f.learners, f.labels, f.order);
    ScopesRestated(f.principals, f.labels, f.order);
    AccessesRestated(f.adults, Keys(f.learners));
    hide DefinitionsOk, ScopesOk, RostersOk, AccessesOk, GoodLabels, GoodScopes, GoodRosters, GoodAccesses, Keys, Ids;
    hide Labels, ScopeOf, RosterOf, AccessOf, RawScope, RawRoster, RawAccess, DefinedRef;
  }

  // ---- one entry replaced ----

  lemma PutKeys<V>(d: Dict<Raw, V>, id: Id, v: V)
    requires KeysOk(d)
    ensures KeysOk(Put(d, Uuid(id), v)) && Ids(Put(d, Uuid(id), v)) == Ids(d) + {id}
    ensures Put(d, Uuid(id), v) != []
  {
    var e := Put(d, Uuid(id), v);
    var at := Find(d, Uuid(id));
    forall i | 0 <= i < |e| ensures KeyOk(e, i) {
      if i < |d| { assert KeyOk(d, i); assert forall j :: 0 <= j < i ==> KeyId(d[j]) != KeyId(d[i]); }
      forall j | 0 <= j < i ensures KeyId(e[j]) != KeyId(e[i]) {
        assert KeyOk(d, j) && e[i].0.Uuid? && e[j].0.Uuid?;
      }
    }
    forall x ensures x in Ids(e) <==> x in Ids(d) || x == id {
      if x in Ids(e) { var i :| 0 <= i < |e| && IdOf(e[i].0) == x; if i < |d| { assert IdOf(d[i].0) == x; } }
      if x in Ids(d) { var i :| 0 <= i < |d| && IdOf(d[i].0) == x; assert IdOf(e[i].0) == x; }
      if x == id { var k := if at.Some? then at.value else |d|; assert IdOf(e[k].0) == id; }
    }
  }

  lemma PutImage<V, W>(d: Dict<Raw, V>, id: Id, v: V, image: ((Raw, V)) -> (Id, W))
    requires KeysOk(d) && forall r, x :: image((r, x)).0 == IdOf(r)
    ensures Map(image, Put(d, Uuid(id), v)) == Put(Map(image, d), id, image((Uuid(id), v)).1)
  {
    var m := Map(image, d);
    var at, im := Find(d, Uuid(id)), Find(m, id);
    forall i | 0 <= i < |d| ensures m[i].0 == id <==> d[i].0 == Uuid(id) {
      assert KeyOk(d, i);
      assert d[i] == (d[i].0, d[i].1);
    }
    assert forall j, k :: 0 <= j < k < |d| ==> m[j].0 != m[k].0 by {
      forall j, k | 0 <= j < k < |d| ensures m[j].0 != m[k].0 {
        assert KeyOk(d, k);
        assert KeyId(d[j]) != KeyId(d[k]);
        assert d[j] == (d[j].0, d[j].1) && d[k] == (d[k].0, d[k].1);
      }
    }
    assert at.Some? <==> im.Some? by {
      if at.Some? { assert m[at.value].0 == id; }
      if im.Some? { assert d[im.value].0 == Uuid(id); }
    }
    assert image((Uuid(id), v)) == (id, image((Uuid(id), v)).1);
  }

  lemma PutEntries<V>(d: Dict<Raw, V>, id: Id, v: V)
    ensures exists k :: 0 <= k < |Put(d, Uuid(id), v)| && Put(d, Uuid(id), v)[k].1 == v
    ensures forall k :: 0 <= k < |Put(d, Uuid(id), v)| ==>
      Put(d, Uuid(id), v)[k].1 == v || (k < |d| && Put(d, Uuid(id), v)[k].1 == d[k].1)
  {
    var p := Find(d, Uuid(id));
    assert Put(d, Uuid(id), v)[if p.Some? then p.value else |d|].1 == v;
  }

  lemma ScopesPut(d: Dict<Raw, seq<Raw>>, id: Id, refs: seq<Raw>, known: map<string, string>)
    requires ScopesOk(d, known)
    ensures ScopesOk(Put(d, Uuid(id), refs), known) <==> RefsOk(refs, known)
    ensures Map(ScopeOf, Put(d, Uuid(id), refs)) == Put(Map(ScopeOf, d), id, Map(TextOf, refs))
  {
    PutKeys(d, id, refs);
    PutEntries(d, id, refs);
    PutImage(d, id, refs, ScopeOf);
    hide RefsOk, Put, KeysOk;
  }

  lemma RostersPut(d: Dict<Raw, seq<Raw>>, id: Id, items: seq<Raw>, known: map<string, string>)
    requires RostersOk(d, known)
    ensures RostersOk(Put(d, Uuid(id), items), known) <==> EntriesOk(items, known)
    ensures Map(RosterOf, Put(d, Uuid(id), items)) == Put(Map(RosterOf, d), id, Map(MemberOf, items))
    ensures Ids(Put(d, Uuid(id), items)) == Ids(d) + {id}
  {
    PutKeys(d, id, items);
    PutEntries(d, id, items);
    PutImage(d, id, items, RosterOf);
    hide EntriesOk, Put, KeysOk, Ids;
  }

  lemma AccessesPut(d: Dict<Raw, seq<Raw>>, id: Id, ids: seq<Raw>, learners: set<Id>)
    requires AccessesOk(d, learners)
    ensures AccessesOk(Put(d, Uuid(id), ids), learners) <==> LearnersOk(ids, learners)
    ensures Map(AccessOf, Put(d, Uuid(id), ids)) == Put(Map(AccessOf, d), id, Map(IdOf, ids))
  {
    PutKeys(d, id, ids);
    PutEntries(d, id, ids);
    PutImage(d, id, ids, AccessOf);
    hide LearnersOk, Put, KeysOk;
  }

  /** More learners never invalidate an access list. */
  lemma AccessesGrow(d: Dict<Raw, seq<Raw>>, few: set<Id>, many: set<Id>)
    requires AccessesOk(d, few) && few <= many
    ensures AccessesOk(d, many)
  {
    forall i | 0 <= i < |d| ensures LearnersOk(d[i].1, many) {
      assert LearnersOk(d[i].1, few);
      forall k | 0 <= k < |d[i].1| ensures LearnerOk(d[i].1, k, many) { assert LearnerOk(d[i].1, k, few); }
    }
  }

  // ---- the four replacements ----

  function WithTeacher(f: Facts, id: Id, refs: seq<Raw>): Args
    requires Coherent(f)
  {
    var a := Exported(f);
    a.(teachers := Put(a.teachers, Uuid(id), refs))
  }

  function WithLearner(f: Facts, id: Id, items: seq<Raw>): Args
    requires Coherent(f)
  {
    var a := Exported(f);
    a.(learners := Put(a.learners, Uuid(id), items))
  }

  function WithPrincipal(f: Facts, id: Id, refs: seq<Raw>): Args
    requires Coherent(f)
  {
    var a := Exported(f);
    a.(principals := Put(a.principals, Uuid(id), refs))
  }

  function WithAdult(f: Facts, id: Id, ids: seq<Raw>): Args
    requires Coherent(f)
  {
    var a := Exported(f);
    a.(adults := Put(a.adults, Uuid(id), ids))
  }

  lemma ExportedParts(f: Facts)
    requires Coherent(f)
    ensures Valid(Exported(f)) && Stated(Exported(f)) == f
    ensures Labels(Exported(f).definitions) == f.labels && Ids(Exported(f).learners) == Keys(f.learners)
  {
    RevalidationIsIdentity(f);
    DefinitionsRestated(f.labels, f.order);
    RostersRestated(f.learners, f.labels, f.order);
  }

  /** Re-validating everything after one entry is replaced checks that entry alone, and changes that entry alone. */
  lemma TeacherReplaced(f: Facts, id: Id, refs: seq<Raw>)
    requires Coherent(f)
    ensures Valid(WithTeacher(f, id, refs)) <==> RefsOk(refs, f.labels)
    ensures Stated(WithTeacher(f, id, refs)) == f.(teachers := Put(f.teachers, id, Map(TextOf, refs)))
  {
    ExportedParts(f);
    ScopesPut(Exported(f).teachers, id, refs, f.labels);
    hide Put, Exported, RefsOk, DefinitionsOk, ScopesOk, RostersOk, AccessesOk, Ids, Labels, Coherent;
  }

  lemma PrincipalReplaced(f: Facts, id: Id, refs: seq<Raw>)
    requires Coherent(f)
    ensures Valid(WithPrincipal(f, id, refs)) <==> RefsOk(refs, f.labels)
    ensures Stated(WithPrincipal(f, id, refs)) == f.(principals := Put(f.principals, id, Map(TextOf, refs)))
  {
    ExportedParts(f);
    ScopesPut(Exported(f).principals, id, refs, f.labels);
    hide Put, Exported, RefsOk, DefinitionsOk, ScopesOk, RostersOk, AccessesOk, Ids, Labels, Coherent;
  }

  /** A learner's memberships can be replaced without looking at the adults: no learner ever disappears. */
  lemma LearnerReplaced(f: Facts, id: Id, items: seq<Raw>)
    requires Coherent(f)
    ensures Valid(WithLearner(f, id, items)) <==> EntriesOk(items, f.labels)
    ensures Stated(WithLearner(f, id, items)) == f.(learners := Put(f.learners, id, Map(MemberOf, items)))
  {
    ExportedParts(f);
    RostersPut(Exported(f).learners, id, items, f.labels);
    AccessesGrow(Exported(f).adults, Keys(f.learners), Keys(f.learners) + {id});
    hide Put, Exported, EntriesOk, DefinitionsOk, ScopesOk, RostersOk, AccessesOk, Ids, Keys, Labels, Coherent;
  }

  lemma AdultReplaced(f: Facts, id: Id, ids: seq<Raw>)
    requires Coherent(f)
    ensures Valid(WithAdult(f, id, ids)) <==> LearnersOk(ids, Keys(f.learners))
    ensures Stated(WithAdult(f, id, ids)) == f.(adults := Put(f.adults, id, Map(IdOf, ids)))
  {
    ExportedParts(f);
    AccessesPut(Exported(f).adults, id, ids, Keys(f.learners));
    hide Put, Exported, LearnersOk, DefinitionsOk, ScopesOk, RostersOk, AccessesOk, Ids, Keys, Labels, Coherent;
  }
}
