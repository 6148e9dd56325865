/**
 * The singleton lookup: an unmodifiable lookup holding one member and an optional
 * persistent id for it.
 */
module SingletonLookup {
  import opened Wrappers
  import opened Types
  import opened Items
  import opened LookupApi
  import opened Lookups
  import SimpleLookup

  datatype SingletonLookup = SingletonLookup(member: Instance, id: Option<string>)

  /** `SingletonLookup(member, id_)`: ValueError when the member is None. */
  function NewSingletonLookup(member: Option<Instance>, id: Option<string>): (r: Result<SingletonLookup>)
    ensures r.Failure? <==> member.None?
    ensures r.Failure? ==> r.error == ValueError
    ensures r.Success? ==> r.value.member == member.value && r.value.id == id
  {
    if member.None? then Failure(ValueError) else Success(SingletonLookup(member.value, id))
  }

  /** `isinstance(member, cls)`: the member's class is `cls` or a subclass of it. */
  predicate Matches(s: SingletonLookup, cls: TypeTag) {
    IsSubtype(s.member.typ, cls)
  }

  /** `lookup(cls)`: the member when it is an instance of `cls`. */
  function Lookup(s: SingletonLookup, cls: TypeTag): (r: Option<Instance>)
    ensures r.Some? <==> IsSubtype(s.member.typ, cls)
    ensures r.Some? ==> r.value == s.member
  {
    if Matches(s, cls) then Some(s.member) else None
  }

  /** `lookup_item(cls)`: an item of the member carrying the persistent id, when the member matches. */
  function LookupItem(s: SingletonLookup, cls: TypeTag): (r: Option<Pair>)
    ensures r.Some? <==> IsSubtype(s.member.typ, cls)
    ensures r.Some? ==> PairInstance(r.value) == s.member && PairType(r.value) == s.member.typ && r.value.Direct? && r.value.id == s.id
  {
    if Matches(s, cls) then Some(Direct(s.member, s.id)) else None
  }

  /** `lookup_all(cls)`: the member alone, or nothing. */
  function LookupAll(s: SingletonLookup, cls: TypeTag): (r: seq<Instance>)
    ensures |r| <= 1
    ensures forall x :: x in r <==> x == s.member && IsSubtype(s.member.typ, cls)
  {
    if Matches(s, cls) then [s.member] else []
  }

  /** `lookup_result(cls)`: a result of the member's item, or else the empty lookup's shared result. */
  function LookupResult(s: SingletonLookup, cls: TypeTag): (r: FixedResult)
    ensures IsSubtype(s.member.typ, cls) ==> r.AllItems() == [Direct(s.member, s.id)] && r.AllClasses() == {s.member.typ}
    ensures !IsSubtype(s.member.typ, cls) ==> r == NO_RESULT
  {
    match LookupItem(s, cls)
    case Some(item) => SingletonResult(item)
    case None => EmptyLookup.EmptyLookup.LookupResult(cls)
  }

  /**
   * The singleton's own `lookup`, `lookup_item` and `lookup_all` answer what the
   * defaults derived from `lookup_result(cls)` would: its first item, that item's
   * instance, and its instances. A match's result has the member's class as its
   * only class; otherwise the result is the shared empty one.
   */
  lemma OverridesAgreeWithResult(s: SingletonLookup, cls: TypeTag)
    ensures LookupItem(s, cls) == DefaultLookupItem(LookupResult(s, cls).AllItems())
    ensures Lookup(s, cls) == if LookupItem(s, cls).Some? then Some(PairInstance(LookupItem(s, cls).value)) else None
    ensures LookupAll(s, cls) == LookupResult(s, cls).AllInstances()
    ensures Matches(s, cls) ==> LookupResult(s, cls).AllClasses() == {s.member.typ}
    ensures Matches(s, cls) ==> LookupResult(s, cls).AllItems() == [Direct(s.member, s.id)]
    ensures !Matches(s, cls) ==> LookupResult(s, cls) == NO_RESULT
  {
  }

  /**
   * A singleton answers `lookup` and `lookup_item` as a simple lookup over its one
   * member does, up to the persistent id, which a simple lookup's items lack. For
   * `lookup_all` they agree except on a falsy member, which the simple lookup's
   * result drops and the singleton keeps.
   */
  lemma AgreesWithSimpleLookup(s: SingletonLookup, cls: TypeTag)
    ensures var simple := SimpleLookup.NewSimpleLookup([s.member]);
      && Lookup(s, cls) == SimpleLookup.Lookup(simple, cls)
      && LookupItem(SingletonLookup(s.member, None), cls) == DefaultLookupItem(SimpleLookup.Matching(simple.allItems, cls))
      && (LookupAll(s, cls) == SimpleLookup.TruthyInstances(SimpleLookup.Matching(simple.allItems, cls))
          <==> s.member.truthy || !Matches(s, cls))
  {
    var simple := SimpleLookup.NewSimpleLookup([s.member]);
    assert simple.allItems == [Direct(s.member, None)];
    assert simple.allItems[1..] == [];
  }
}
