/**
 The fact universe of the development School Context provider: raw facts, when they are valid,
 and what they state.
 */
module SchoolFacts {
  import opened Basics
  import TextRules

  type Id = nat

  /** A Python value handed in from outside, of any type. */
  datatype Raw =
    | Uuid(id: Id)
    | Text(text: string)
    | Absent
    | Membership(classRef: Raw, learnerRef: Raw)
    | Pair(first: Raw, second: Raw)
    | Other

  datatype Member = Member(classRef: string, learnerRef: Option<string>)

  /** The items of a dict, in insertion order. */
  type Dict<K, V> = seq<(K, V)>

  datatype Args = Args(
    tenant: Raw, definitions: seq<(Raw, Raw)>, teachers: Dict<Raw, seq<Raw>>, learners: Dict<Raw, seq<Raw>>,
    principals: Dict<Raw, seq<Raw>>, adults: Dict<Raw, seq<Raw>>)

  datatype Facts = Facts(
    tenant: Id, labels: map<string, string>, order: seq<string>, teachers: Dict<Id, seq<string>>,
    learners: Dict<Id, seq<Member>>, principals: Dict<Id, seq<string>>, adults: Dict<Id, seq<Id>>)

  // ---- single values ----

  predicate GoodRef(s: string) { !Blank(s) && Trimmed(s) }

  /** _require_class_ref */
  predicate IsClassRef(r: Raw) { r.Text? && GoodRef(r.text) }

  /** _require_display_label */
  predicate IsLabel(r: Raw) { r.Text? && !Blank(r.text) }

  /** _require_school_learner_ref */
  predicate IsLearnerRef(r: Raw) { r.Absent? || IsClassRef(r) }

  function TextOf(r: Raw): string { if r.Text? then r.text else "" }

  function IdOf(r: Raw): Id { if r.Uuid? then r.id else 0 }

  predicate IsEntry(r: Raw) { r.Membership? || r.Pair? }

  function ClassOf(r: Raw): Raw {
    match r
    case Membership(c, _) => c
    case Pair(c, _) => c
    case _ => Absent
  }

  function LearnerOf(r: Raw): Raw {
    match r
    case Membership(_, l) => l
    case Pair(_, l) => l
    case _ => Absent
  }

  function ClassText(r: Raw): string { TextOf(ClassOf(r)) }

  function MemberOf(r: Raw): Member {
    Member(ClassText(r), if LearnerOf(r).Absent? then None else Some(TextOf(LearnerOf(r))))
  }

  function Map<A, B>(f: A -> B, s: seq<A>): (r: seq<B>)
    ensures |r| == |s| && forall i :: 0 <= i < |s| ==> r[i] == f(s[i])
  {
    seq(|s|, i requires 0 <= i < |s| => f(s[i]))
  }

  // ---- validity, stated element by element ----

  /** No earlier element has the same image. */
  predicate NewAt<A, B(==)>(f: A -> B, s: seq<A>, i: nat)
    requires i < |s|
  {
    forall j :: 0 <= j < i ==> f(s[j]) != f(s[i])
  }

  predicate RefOk(s: seq<Raw>, i: nat, known: map<string, string>)
    requires i < |s|
  {
    IsClassRef(s[i]) && TextOf(s[i]) in known && NewAt(TextOf, s, i)
  }

  /** Known class references without repetition. */
  predicate RefsOk(s: seq<Raw>, known: map<string, string>) { forall i :: 0 <= i < |s| ==> RefOk(s, i, known) }

  predicate EntryOk(s: seq<Raw>, i: nat, known: map<string, string>)
    requires i < |s|
  {
    && IsEntry(s[i]) && IsClassRef(ClassOf(s[i])) && ClassText(s[i]) in known
    && NewAt(ClassText, s, i) && IsLearnerRef(LearnerOf(s[i]))
  }

  predicate EntriesOk(s: seq<Raw>, known: map<string, string>) { forall i :: 0 <= i < |s| ==> EntryOk(s, i, known) }

  predicate LearnerOk(s: seq<Raw>, i: nat, learners: set<Id>)
    requires i < |s|
  {
    s[i].Uuid? && IdOf(s[i]) in learners && NewAt(IdOf, s, i)
  }

  predicate LearnersOk(s: seq<Raw>, learners: set<Id>) { forall i :: 0 <= i < |s| ==> LearnerOk(s, i, learners) }

  function KeyId<V>(entry: (Raw, V)): Id { IdOf(entry.0) }

  predicate KeyOk<V>(d: Dict<Raw, V>, i: nat)
    requires i < |d|
  {
    d[i].0.Uuid? && NewAt(KeyId, d, i)
  }

  predicate KeysOk<V>(d: Dict<Raw, V>) { forall i :: 0 <= i < |d| ==> KeyOk(d, i) }

  predicate ScopesOk(d: Dict<Raw, seq<Raw>>, known: map<string, string>) {
    KeysOk(d) && forall i :: 0 <= i < |d| ==> RefsOk(d[i].1, known)
  }

  predicate RostersOk(d: Dict<Raw, seq<Raw>>, known: map<string, string>) {
    KeysOk(d) && forall i :: 0 <= i < |d| ==> EntriesOk(d[i].1, known)
  }

  predicate AccessesOk(d: Dict<Raw, seq<Raw>>, learners: set<Id>) {
    KeysOk(d) && forall i :: 0 <= i < |d| ==> LearnersOk(d[i].1, learners)
  }

  function DefinedRef(definition: (Raw, Raw)): string { TextOf(definition.0) }

  predicate DefinitionOk(s: seq<(Raw, Raw)>, i: nat)
    requires i < |s|
  {
    IsClassRef(s[i].0) && IsLabel(s[i].1) && NewAt(DefinedRef, s, i)
  }

  predicate DefinitionsOk(s: seq<(Raw, Raw)>) { forall i :: 0 <= i < |s| ==> DefinitionOk(s, i) }

  /** The definitions as a dict of display labels. */
  function Labels(s: seq<(Raw, Raw)>): map<string, string> {
    if s == [] then map[]
    else Labels(s[..|s| - 1])[DefinedRef(s[|s| - 1]) := TextOf(s[|s| - 1].1)]
  }

  function Ids<V>(d: Dict<Raw, V>): set<Id> { set i | 0 <= i < |d| :: IdOf(d[i].0) }

  function Keys<K, V>(d: Dict<K, V>): set<K> { set i | 0 <= i < |d| :: d[i].0 }

  /** Every argument is well formed and refers only to what the others define. */
  predicate Valid(a: Args) {
    && a.tenant.Uuid? && DefinitionsOk(a.definitions)
    && ScopesOk(a.teachers, Labels(a.definitions))
    && RostersOk(a.learners, Labels(a.definitions))
    && ScopesOk(a.principals, Labels(a.definitions))
    && AccessesOk(a.adults, Ids(a.learners))
  }

  function ScopeOf(entry: (Raw, seq<Raw>)): (Id, seq<string>) { (IdOf(entry.0), Map(TextOf, entry.1)) }

  function RosterOf(entry: (Raw, seq<Raw>)): (Id, seq<Member>) { (IdOf(entry.0), Map(MemberOf, entry.1)) }

  function AccessOf(entry: (Raw, seq<Raw>)): (Id, seq<Id>) { (IdOf(entry.0), Map(IdOf, entry.1)) }

  /** The facts that valid arguments state. */
  function Stated(a: Args): Facts {
    Facts(IdOf(a.tenant), Labels(a.definitions), Map(DefinedRef, a.definitions),
      Map(ScopeOf, a.teachers), Map(RosterOf, a.learners), Map(ScopeOf, a.principals), Map(AccessOf, a.adults))
  }

  // ---- coherent facts ----

  predicate DistinctKeys<K(==), V>(d: Dict<K, V>) {
    forall i, j :: 0 <= i < j < |d| ==> d[i].0 != d[j].0
  }

  predicate GoodScope(refs: seq<string>, labels: map<string, string>) {
    AllDistinct(refs) && forall i :: 0 <= i < |refs| ==> refs[i] in labels
  }

  predicate GoodScopes(d: Dict<Id, seq<string>>, labels: map<string, string>) {
    DistinctKeys(d) && forall i :: 0 <= i < |d| ==> GoodScope(d[i].1, labels)
  }

  predicate GoodRoster(items: seq<Member>, labels: map<string, string>) {
    && (forall i, j :: 0 <= i < j < |items| ==> items[i].classRef != items[j].classRef)
    && (forall i :: 0 <= i < |items| ==>
          items[i].classRef in labels && (items[i].learnerRef.Some? ==> GoodRef(items[i].learnerRef.value)))
  }

  predicate GoodRosters(d: Dict<Id, seq<Member>>, labels: map<string, string>) {
    DistinctKeys(d) && forall i :: 0 <= i < |d| ==> GoodRoster(d[i].1, labels)
  }

  predicate GoodAccess(ids: seq<Id>, learners: set<Id>) {
    AllDistinct(ids) && forall i :: 0 <= i < |ids| ==> ids[i] in learners
  }

  predicate GoodAccesses(d: Dict<Id, seq<Id>>, learners: set<Id>) {
    DistinctKeys(d) && forall i :: 0 <= i < |d| ==> GoodAccess(d[i].1, learners)
  }

  predicate GoodLabels(labels: map<string, string>, order: seq<string>) {
    && AllDistinct(order)
    && (forall i :: 0 <= i < |order| ==> order[i] in labels)
    && (forall r :: r in labels ==> r in order && GoodRef(r) && !Blank(labels[r]))
  }

  /** The invariant of the provider's state. */
  predicate Coherent(f: Facts) {
    && GoodLabels(f.labels, f.order)
    && GoodScopes(f.teachers, f.labels)
    && GoodRosters(f.learners, f.labels)
    && GoodScopes(f.principals, f.labels)
    && GoodAccesses(f.adults, Keys(f.learners))
  }

  // ---- the state handed back to validation ----

  function RawText(s: string): Raw { Text(s) }

  function RawId(i: Id): Raw { Uuid(i) }

  function RawMember(m: Member): Raw {
    Membership(Text(m.classRef), if m.learnerRef.None? then Absent else Text(m.learnerRef.value))
  }

  function RawScope(entry: (Id, seq<string>)): (Raw, seq<Raw>) { (Uuid(entry.0), Map(RawText, entry.1)) }

  function RawRoster(entry: (Id, seq<Member>)): (Raw, seq<Raw>) { (Uuid(entry.0), Map(RawMember, entry.1)) }

  function RawAccess(entry: (Id, seq<Id>)): (Raw, seq<Raw>) { (Uuid(entry.0), Map(RawId, entry.1)) }

  function RawDefinitions(labels: map<string, string>, order: seq<string>): (r: seq<(Raw, Raw)>)
    requires forall i :: 0 <= i < |order| ==> order[i] in labels
    ensures |r| == |order| && forall i :: 0 <= i < |r| ==> r[i] == (Text(order[i]), Text(labels[order[i]]))
  {
    seq(|order|, i requires 0 <= i < |order| => (Text(order[i]), Text(labels[order[i]])))
  }

  /** The payload that _replace builds from the current facts. */
  function Exported(f: Facts): Args
    requires GoodLabels(f.labels, f.order)
  {
    Args(Uuid(f.tenant), RawDefinitions(f.labels, f.order), Map(RawScope, f.teachers), Map(RawRoster, f.learners),
      Map(RawScope, f.principals), Map(RawAccess, f.adults))
  }

  // ---- dict access ----

  /** The position of a key. */
  function Find<K(==), V>(d: Dict<K, V>, k: K): (p: Option<nat>)
    ensures p.Some? ==> p.value < |d| && d[p.value].0 == k
    ensures p.None? ==> forall i :: 0 <= i < |d| ==> d[i].0 != k
  {
    if d == [] then None
    else if d[|d| - 1].0 == k then Some(|d| - 1)
    else Find(d[..|d| - 1], k)
  }

  /** d[k] = v */
  function Put<K(==), V>(d: Dict<K, V>, k: K, v: V): Dict<K, V> {
    var p := Find(d, k);
    if p.Some? then d[p.value := (k, v)] else d + [(k, v)]
  }

  /** d.get(k, default) */
  function Lookup<K(==), V>(d: Dict<K, V>, k: K, default: V): V {
    var p := Find(d, k);
    if p.Some? then d[p.value].1 else default
  }

  /** Setting one key changes that entry and no other. */
  lemma LookupOfPut<K, V>(d: Dict<K, V>, k: K, v: V, x: K, default: V)
    requires DistinctKeys(d)
    ensures DistinctKeys(Put(d, k, v))
    ensures Lookup(Put(d, k, v), x, default) == if x == k then v else Lookup(d, x, default)
  {
    var e := Put(d, k, v);
    var at := Find(d, k);
    assert at.Some? ==> e[at.value].0 == k;
    assert at.None? ==> e[|d|].0 == k;
    var was := Find(d, x);
    assert was.Some? ==> e[was.value].0 == x;
  }

  // ---- single values against what they are for ----

  /** A pair states the same membership as an object with these two attributes. */
  lemma PairIsMembership(c: Raw, l: Raw)
    ensures MemberOf(Pair(c, l)) == MemberOf(Membership(c, l))
    ensures ClassOf(Pair(c, l)) == c && LearnerOf(Pair(c, l)) == l && IsEntry(Pair(c, l)) && IsEntry(Membership(c, l))
  {
  }

  /** A reference is a text that stripping neither empties nor changes; a label is one that stripping does not empty. */
  lemma TextsExactly(s: string)
    ensures IsClassRef(Text(s)) <==> s != "" && Stripped(s) == s
    ensures IsLabel(Text(s)) <==> Stripped(s) != ""
    ensures IsLearnerRef(Text(s)) <==> s != "" && Stripped(s) == s
    ensures IsLearnerRef(Absent) && !IsClassRef(Absent) && !IsLabel(Absent)
  {
    TextRules.StripExactly(s);
    hide Stripped;
    if Stripped(s) == s && s != "" { assert !Blank(s); }
  }
}
