/** The validation loops and the provider object. None is a raised fixture error. */
module SchoolProvider {
  import opened Basics
  import opened SchoolFacts
  import opened SchoolRevalidation

  /** _unique_class_refs */
  method UniqueClassRefs(values: seq<Raw>, known: map<string, string>) returns (r: Option<seq<string>>)
    ensures r.Some? <==> RefsOk(values, known)
    ensures r.Some? ==> r.value == Map(TextOf, values)
  {
    hide GoodRef;
    var seen: set<string> := {};
    var ordered: seq<string> := [];
    for k := 0 to |values|
      invariant forall i :: 0 <= i < k ==> RefOk(values, i, known)
      invariant |ordered| == k && forall i :: 0 <= i < k ==> ordered[i] == TextOf(values[i])
      invariant seen == set x | x in ordered
    {
      var raw := values[k];
      if !IsClassRef(raw) || raw.text !in known { assert !RefOk(values, k, known); return None; }
      if raw.text in seen {
        var i :| 0 <= i < k && ordered[i] == raw.text;
        assert TextOf(values[i]) == TextOf(values[k]);
        assert !RefOk(values, k, known);
        return None;
      }
      seen := seen + {raw.text};
      ordered := ordered + [raw.text];
    }
    r := Some(ordered);
  }

  /** The loop over class_definitions. */
  method Define(definitions: seq<(Raw, Raw)>) returns (r: Option<(map<string, string>, seq<string>)>)
    ensures r.Some? <==> DefinitionsOk(definitions)
    ensures r.Some? ==> r.value == (Labels(definitions), Map(DefinedRef, definitions))
  {
    hide GoodRef, Blank;
    var labels: map<string, string> := map[];
    var order: seq<string> := [];
    for k := 0 to |definitions|
      invariant forall i :: 0 <= i < k ==> DefinitionOk(definitions, i)
      invariant |order| == k && forall i :: 0 <= i < k ==> order[i] == DefinedRef(definitions[i])
      invariant labels == Labels(definitions[..k]) && labels.Keys == set x | x in order
    {
      var ref, shown := definitions[k].0, definitions[k].1;
      if !IsClassRef(ref) || !IsLabel(shown) { assert !DefinitionOk(definitions, k); return None; }
      if ref.text in labels {
        var i :| 0 <= i < k && order[i] == ref.text;
        assert DefinedRef(definitions[i]) == DefinedRef(definitions[k]);
        assert !DefinitionOk(definitions, k);
        return None;
      }
      assert definitions[..k + 1][..k] == definitions[..k];
      labels := labels[ref.text := shown.text];
      order := order + [ref.text];
    }
    assert definitions[..|definitions|] == definitions;
    assert order == Map(DefinedRef, definitions);
    r := Some((labels, order));
  }

  /** The inner loop over one learner's memberships. */
  method Enrol(items: seq<Raw>, known: map<string, string>) returns (r: Option<seq<Member>>)
    ensures r.Some? <==> EntriesOk(items, known)
    ensures r.Some? ==> r.value == Map(MemberOf, items)
  {
    hide GoodRef;
    var seen: set<string> := {};
    var members: seq<Member> := [];
    for k := 0 to |items|
      invariant forall i :: 0 <= i < k ==> EntryOk(items, i, known)
      invariant |members| == k && forall i :: 0 <= i < k ==> members[i] == MemberOf(items[i])
      invariant forall x :: x in seen <==> exists i :: 0 <= i < k && members[i].classRef == x
    {
      var item := items[k];
      if !IsEntry(item) || !IsClassRef(ClassOf(item)) || ClassText(item) !in known {
        assert !EntryOk(items, k, known);
        return None;
      }
      if ClassText(item) in seen {
        var i :| 0 <= i < k && members[i].classRef == ClassText(item);
        assert ClassText(items[i]) == ClassText(items[k]);
        assert !EntryOk(items, k, known);
        return None;
      }
      seen := seen + {ClassText(item)};
      if !IsLearnerRef(LearnerOf(item)) { assert !EntryOk(items, k, known); return None; }
      assert EntryOk(items, k, known) by {
        forall i | 0 <= i < k ensures ClassText(items[i]) != ClassText(items[k]) {
          assert members[i].classRef == ClassText(items[i]);
        }
      }
      members := members + [MemberOf(item)];
    }
    r := Some(members);
  }

  /** The inner loop over one adult's learners. */
  method Authorize(values: seq<Raw>, learners: set<Id>) returns (r: Option<seq<Id>>)
    ensures r.Some? <==> LearnersOk(values, learners)
    ensures r.Some? ==> r.value == Map(IdOf, values)
  {
    var seen: set<Id> := {};
    var ids: seq<Id> := [];
    for k := 0 to |values|
      invariant forall i :: 0 <= i < k ==> LearnerOk(values, i, learners)
      invariant |ids| == k && forall i :: 0 <= i < k ==> ids[i] == IdOf(values[i])
      invariant seen == set x | x in ids
    {
      var raw := values[k];
      if !raw.Uuid? || raw.id !in learners { assert !LearnerOk(values, k, learners); return None; }
      if raw.id in seen {
        var i :| 0 <= i < k && ids[i] == raw.id;
        assert IdOf(values[i]) == IdOf(values[k]);
        assert !LearnerOk(values, k, learners);
        return None;
      }
      seen := seen + {raw.id};
      ids := ids + [raw.id];
    }
    r := Some(ids);
  }

  /** A key that validation may add: a UUID that is not in the dictionary built so far. */
  lemma NewKey<V, W>(d: Dict<Raw, V>, built: Dict<Id, W>, k: nat)
    requires k < |d| && |built| == k && forall i :: 0 <= i < k ==> built[i].0 == IdOf(d[i].0)
    ensures KeyOk(d, k) <==> d[k].0.Uuid? && Find(built, IdOf(d[k].0)).None?
  {
    assert forall i :: 0 <= i < k ==> KeyId(d[i]) == built[i].0;
    var p := Find(built, IdOf(d[k].0));
    if p.Some? { assert KeyId(d[p.value]) == KeyId(d[k]); }
  }

  method ValidateScopes(d: Dict<Raw, seq<Raw>>, known: map<string, string>) returns (r: Option<Dict<Id, seq<string>>>)
    ensures r.Some? <==> ScopesOk(d, known)
    ensures r.Some? ==> r.value == Map(ScopeOf, d)
  {
    hide RefsOk, KeyOk;
    var built: Dict<Id, seq<string>> := [];
    for k := 0 to |d|
      invariant forall i :: 0 <= i < k ==> KeyOk(d, i) && RefsOk(d[i].1, known)
      invariant |built| == k && forall i :: 0 <= i < k ==> built[i] == ScopeOf(d[i])
    {
      NewKey(d, built, k);
      if !d[k].0.Uuid? || Find(built, d[k].0.id).Some? { assert !KeyOk(d, k); return None; }
      var refs := UniqueClassRefs(d[k].1, known);
      if refs.None? { return None; }
      built := Put(built, d[k].0.id, refs.value);
    }
    r := Some(built);
  }

  method ValidateRosters(d: Dict<Raw, seq<Raw>>, known: map<string, string>) returns (r: Option<Dict<Id, seq<Member>>>)
    ensures r.Some? <==> RostersOk(d, known)
    ensures r.Some? ==> r.value == Map(RosterOf, d)
  {
    hide EntriesOk, KeyOk;
    var built: Dict<Id, seq<Member>> := [];
    for k := 0 to |d|
      invariant forall i :: 0 <= i < k ==> KeyOk(d, i) && EntriesOk(d[i].1, known)
      invariant |built| == k && forall i :: 0 <= i < k ==> built[i] == RosterOf(d[i])
    {
      NewKey(d, built, k);
      if !d[k].0.Uuid? || Find(built, d[k].0.id).Some? { assert !KeyOk(d, k); return None; }
      var items := Enrol(d[k].1, known);
      if items.None? { return None; }
      built := Put(built, d[k].0.id, items.value);
    }
    r := Some(built);
  }

  method ValidateAccesses(d: Dict<Raw, seq<Raw>>, learners: set<Id>) returns (r: Option<Dict<Id, seq<Id>>>)
    ensures r.Some? <==> AccessesOk(d, learners)
    ensures r.Some? ==> r.value == Map(AccessOf, d)
  {
    hide LearnersOk, KeyOk;
    var built: Dict<Id, seq<Id>> := [];
    for k := 0 to |d|
      invariant forall i :: 0 <= i < k ==> KeyOk(d, i) && LearnersOk(d[i].1, learners)
      invariant |built| == k && forall i :: 0 <= i < k ==> built[i] == AccessOf(d[i])
    {
      NewKey(d, built, k);
      if !d[k].0.Uuid? || Find(built, d[k].0.id).Some? { assert !KeyOk(d, k); return None; }
      var ids := Authorize(d[k].1, learners);
      if ids.None? { return None; }
      built := Put(built, d[k].0.id, ids.value);
    }
    r := Some(built);
  }

  /** _validated_facts: it returns exactly if the arguments are valid, and then what they state. */
  method ValidatedFacts(a: Args) returns (r: Option<Facts>)
    ensures r.Some? <==> Valid(a)
    ensures r.Some? ==> r.value == Stated(a) && Coherent(r.value)
  {
    hide *;
    assert Valid(a) <==>
      a.tenant.Uuid? && DefinitionsOk(a.definitions) && ScopesOk(a.teachers, Labels(a.definitions))
      && RostersOk(a.learners, Labels(a.definitions)) && ScopesOk(a.principals, Labels(a.definitions))
      && AccessesOk(a.adults, Ids(a.learners)) by { ValidMeans(a); }
    if !a.tenant.Uuid? { return None; }
    var definitions := Define(a.definitions);
    if definitions.None? { return None; }
    var known := definitions.value.0;
    var teachers := ValidateScopes(a.teachers, known);
    if teachers.None? { return None; }
    var learners := ValidateRosters(a.learners, known);
    if learners.None? { return None; }
    RostersStated(a.learners, known);
    var principals := ValidateScopes(a.principals, known);
    if principals.None? { return None; }
    var adults := ValidateAccesses(a.adults, Keys(learners.value));
    if adults.None? { return None; }
    var facts := Facts(a.tenant.id, known, definitions.value.1, teachers.value, learners.value, principals.value,
      adults.value);
    assert facts == Stated(a) by { StatedMeans(a); }
    StatedIsCoherent(a);
    r := Some(facts);
  }

  lemma ValidMeans(a: Args)
    ensures Valid(a) <==>
      a.tenant.Uuid? && DefinitionsOk(a.definitions) && ScopesOk(a.teachers, Labels(a.definitions))
      && RostersOk(a.learners, Labels(a.definitions)) && ScopesOk(a.principals, Labels(a.definitions))
      && AccessesOk(a.adults, Ids(a.learners))
  {
    hide DefinitionsOk, ScopesOk, RostersOk, AccessesOk, Labels, Ids;
  }

  lemma StatedMeans(a: Args)
    requires a.tenant.Uuid?
    ensures Stated(a) == Facts(a.tenant.id, Labels(a.definitions), Map(DefinedRef, a.definitions),
      Map(ScopeOf, a.teachers), Map(RosterOf, a.learners), Map(ScopeOf, a.principals), Map(AccessOf, a.adults))
  {
  }

  /** The reader contract that a call came through. */
  datatype Port = Teacher | Learner | Principal | Adult

  /** One line of the call log. */
  datatype Call = Call(port: Port, tenant: Id, actor: Id)

  datatype Labelled = Labelled(classRef: string, displayLabel: string)

  function WithLabels(refs: seq<string>, labels: map<string, string>): (r: seq<Labelled>)
    requires forall i :: 0 <= i < |refs| ==> refs[i] in labels
    ensures |r| == |refs| && forall i :: 0 <= i < |r| ==> r[i] == Labelled(refs[i], labels[refs[i]])
  {
    seq(|refs|, i requires 0 <= i < |refs| => Labelled(refs[i], labels[refs[i]]))
  }

  /** Every class that a lookup in a coherent dictionary returns has a label. */
  lemma LookupIsLabelled(d: Dict<Id, seq<string>>, labels: map<string, string>, actor: Id)
    requires GoodScopes(d, labels)
    ensures GoodScope(Lookup(d, actor, []), labels)
  {
  }

  class Provider {
    var facts: Facts
    var callCount: nat
    var calls: seq<Call>

    predicate Valid()
      reads this
    {
      Coherent(facts) && |calls| <= callCount
    }

    constructor (f: Facts)
      requires Coherent(f)
      ensures Valid() && facts == f && callCount == 0 && calls == []
    {
      facts, callCount, calls := f, 0, [];
    }

    /** The Python constructor: no object exists unless the arguments are valid. */
    static method Create(a: Args) returns (p: Provider?)
      ensures p != null <==> SchoolFacts.Valid(a)
      ensures p != null ==> fresh(p) && p.Valid() && p.facts == Stated(a) && p.callCount == 0 && p.calls == []
    {
      var f := ValidatedFacts(a);
      if f.None? { return null; }
      p := new Provider(f.value);
    }

    /** _replace; on failure nothing has been assigned. */
    method Replace(a: Args) returns (ok: bool)
      requires Valid()
      modifies this`facts
      ensures Valid() && ok == SchoolFacts.Valid(a)
      ensures facts == if ok then Stated(a) else old(facts)
    {
      var f := ValidatedFacts(a);
      if f.None? { return false; }
      facts := f.value;
      ok := true;
    }

    /** Succeeds exactly on a UUID and known, unrepeated class references; then that teacher's entry alone changes. */
    method SetTeacherClassAuthority(teacher: Raw, refs: seq<Raw>) returns (ok: bool)
      requires Valid()
      modifies this`facts
      ensures Valid() && ok == (teacher.Uuid? && RefsOk(refs, old(facts).labels))
      ensures facts ==
        if ok then old(facts).(teachers := Put(old(facts).teachers, teacher.id, Map(TextOf, refs))) else old(facts)
    {
      if !teacher.Uuid? { return false; }
      TeacherReplaced(facts, teacher.id, refs);
      hide *;
      ok := Replace(WithTeacher(facts, teacher.id, refs));
    }

    method SetLearnerMembership(learner: Raw, memberships: seq<Raw>) returns (ok: bool)
      requires Valid()
      modifies this`facts
      ensures Valid() && ok == (learner.Uuid? && EntriesOk(memberships, old(facts).labels))
      ensures facts ==
        if ok then old(facts).(learners := Put(old(facts).learners, learner.id, Map(MemberOf, memberships)))
          else old(facts)
    {
      if !learner.Uuid? { return false; }
      LearnerReplaced(facts, learner.id, memberships);
      hide *;
      ok := Replace(WithLearner(facts, learner.id, memberships));
    }

    method SetPrincipalClassScope(principal: Raw, refs: seq<Raw>) returns (ok: bool)
      requires Valid()
      modifies this`facts
      ensures Valid() && ok == (principal.Uuid? && RefsOk(refs, old(facts).labels))
      ensures facts ==
        if ok then old(facts).(principals := Put(old(facts).principals, principal.id, Map(TextOf, refs)))
          else old(facts)
    {
      if !principal.Uuid? { return false; }
      PrincipalReplaced(facts, principal.id, refs);
      hide *;
      ok := Replace(WithPrincipal(facts, principal.id, refs));
    }

    method SetAdultLearnerAccess(adult: Raw, learners: seq<Raw>) returns (ok: bool)
      requires Valid()
      modifies this`facts
      ensures Valid() && ok == (adult.Uuid? && LearnersOk(learners, Keys(old(facts).learners)))
      ensures facts ==
        if ok then old(facts).(adults := Put(old(facts).adults, adult.id, Map(IdOf, learners))) else old(facts)
    {
      if !adult.Uuid? { return false; }
      AdultReplaced(facts, adult.id, learners);
      hide *;
      ok := Replace(WithAdult(facts, adult.id, learners));
    }

    /** _note: every call is counted, only well-formed ones are logged. */
    method Note(port: Port, tenant: Raw, actor: Raw) returns (ok: bool)
      requires Valid()
      modifies this`callCount, this`calls
      ensures Valid() && ok == (tenant.Uuid? && actor.Uuid?) && callCount == old(callCount) + 1
      ensures calls == if ok then old(calls) + [Call(port, tenant.id, actor.id)] else old(calls)
    {
      callCount := callCount + 1;
      if !tenant.Uuid? { return false; }
      if !actor.Uuid? { return false; }
      calls := calls + [Call(port, tenant.id, actor.id)];
      ok := true;
    }

    /** The label lookup never fails; another tenant or an unknown teacher sees nothing. */
    method ListAssignableClasses(tenant: Raw, teacher: Raw) returns (r: Option<seq<Labelled>>)
      requires Valid()
      modifies this`callCount, this`calls
      ensures Valid() && r.Some? == (tenant.Uuid? && teacher.Uuid?) && callCount == old(callCount) + 1
      ensures r.Some? ==> calls == old(calls) + [Call(Teacher, tenant.id, teacher.id)]
      ensures r.None? ==> calls == old(calls)
      ensures r.Some? ==>
        var refs := if tenant.id == facts.tenant then Lookup(facts.teachers, teacher.id, []) else [];
        GoodScope(refs, facts.labels) && r.value == WithLabels(refs, facts.labels)
    {
      var ok := Note(Teacher, tenant, teacher);
      if !ok { return None; }
      if tenant.id != facts.tenant { return Some([]); }
      LookupIsLabelled(facts.teachers, facts.labels, teacher.id);
      r := Some(WithLabels(Lookup(facts.teachers, teacher.id, []), facts.labels));
    }

    method ListCurrentMemberships(tenant: Raw, learner: Raw) returns (r: Option<seq<Member>>)
      requires Valid()
      modifies this`callCount, this`calls
      ensures Valid() && r.Some? == (tenant.Uuid? && learner.Uuid?) && callCount == old(callCount) + 1
      ensures r.Some? ==> calls == old(calls) + [Call(Learner, tenant.id, learner.id)]
      ensures r.None? ==> calls == old(calls)
      ensures r.Some? ==> r.value == if tenant.id == facts.tenant then Lookup(facts.learners, learner.id, []) else []
    {
      var ok := Note(Learner, tenant, learner);
      if !ok { return None; }
      if tenant.id != facts.tenant { return Some([]); }
      r := Some(Lookup(facts.learners, learner.id, []));
    }

    method ListCurrentAuthorizedClasses(tenant: Raw, principal: Raw) returns (r: Option<seq<Labelled>>)
      requires Valid()
      modifies this`callCount, this`calls
      ensures Valid() && r.Some? == (tenant.Uuid? && principal.Uuid?) && callCount == old(callCount) + 1
      ensures r.Some? ==> calls == old(calls) + [Call(Principal, tenant.id, principal.id)]
      ensures r.None? ==> calls == old(calls)
      ensures r.Some? ==>
        var refs := if tenant.id == facts.tenant then Lookup(facts.principals, principal.id, []) else [];
        GoodScope(refs, facts.labels) && r.value == WithLabels(refs, facts.labels)
    {
      var ok := Note(Principal, tenant, principal);
      if !ok { return None; }
      if tenant.id != facts.tenant { return Some([]); }
      LookupIsLabelled(facts.principals, facts.labels, principal.id);
      r := Some(WithLabels(Lookup(facts.principals, principal.id, []), facts.labels));
    }

    /** Every learner that an adult sees has a membership entry, even an empty one. */
    method ListCurrentAuthorizedLearners(tenant: Raw, adult: Raw) returns (r: Option<seq<Id>>)
      requires Valid()
      modifies this`callCount, this`calls
      ensures Valid() && r.Some? == (tenant.Uuid? && adult.Uuid?) && callCount == old(callCount) + 1
      ensures r.Some? ==> calls == old(calls) + [Call(Adult, tenant.id, adult.id)]
      ensures r.None? ==> calls == old(calls)
      ensures r.Some? ==> r.value == if tenant.id == facts.tenant then Lookup(facts.adults, adult.id, []) else []
      ensures r.Some? ==> forall x :: x in r.value ==> x in Keys(facts.learners)
    {
      var ok := Note(Adult, tenant, adult);
      if !ok { return None; }
      if tenant.id != facts.tenant { return Some([]); }
      r := Some(Lookup(facts.adults, adult.id, []));
      assert GoodAccess(r.value, Keys(facts.learners));
    }
  }
}
