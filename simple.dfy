/**
 * The simple lookup: a fixed list of instances, queried by class, whose results
 * compute their matching items once and keep them.
 */
module SimpleLookup {
  import opened Wrappers
  import opened Types
  import opened Items
  import opened LookupApi
  import opened Lookups

  /** The fixed lookup over the items of its constructor's instances, in order. */
  datatype SimpleLookup = SimpleLookup(allItems: seq<Pair>)

  /** `SimpleLookup(*instances)`: one item without persistent id per instance, in order. */
  function NewSimpleLookup(instances: seq<Instance>): (l: SimpleLookup)
    ensures |l.allItems| == |instances|
    ensures forall i :: 0 <= i < |instances| ==> l.allItems[i].Direct? && PairInstance(l.allItems[i]) == instances[i]
    ensures forall i :: 0 <= i < |instances| ==> PairType(l.allItems[i]) == instances[i].typ
  {
    SimpleLookup(seq(|instances|, i requires 0 <= i < |instances| => Direct(instances[i], None)))
  }

  /** The items of type `cls` or a subclass of it, in their order, duplicates kept. */
  function Matching(items: seq<Pair>, cls: TypeTag): (r: seq<Pair>)
    ensures forall p :: p in r <==> p in items && IsSubtype(PairType(p), cls)
  {
    if items == [] then []
    else (if IsSubtype(PairType(items[0]), cls) then [items[0]] else []) + Matching(items[1..], cls)
  }

  /** Each matching item occurs as often among the matches as among the items: duplicates are kept. */
  lemma {:induction false} MatchingKeepsDuplicates(items: seq<Pair>, cls: TypeTag)
    ensures forall p :: multiset(Matching(items, cls))[p] == if IsSubtype(PairType(p), cls) then multiset(items)[p] else 0
  {
    if items != [] {
      MatchingKeepsDuplicates(items[1..], cls);
      assert items == [items[0]] + items[1..];
    }
  }

  /** Filtering keeps order: the matches of a concatenation are the matches of each part, in turn. */
  lemma {:induction false} MatchingSplits(a: seq<Pair>, b: seq<Pair>, cls: TypeTag)
    ensures Matching(a + b, cls) == Matching(a, cls) + Matching(b, cls)
  {
    if a == [] {
      assert a + b == b;
    } else {
      assert (a + b)[0] == a[0] && (a + b)[1..] == a[1..] + b;
      MatchingSplits(a[1..], b, cls);
    }
  }

  /** The instances of the items with the falsy ones dropped, in order. */
  function TruthyInstances(items: seq<Pair>): (r: seq<Instance>)
    ensures |r| <= |items|
    ensures forall x :: x in r ==> x.truthy
    ensures forall i :: 0 <= i < |items| && PairInstance(items[i]).truthy ==> PairInstance(items[i]) in r
  {
    if items == [] then []
    else
      var rest := TruthyInstances(items[1..]);
      assert forall i :: 1 <= i < |items| ==> items[i] == items[1..][i - 1];
      if PairInstance(items[0]).truthy then [PairInstance(items[0])] + rest else rest
  }

  /** The instances of some items, in order. */
  function InstancesIn(items: seq<Pair>): (r: seq<Instance>)
    ensures |r| == |items| && forall i :: 0 <= i < |items| ==> r[i] == PairInstance(items[i])
  {
    seq(|items|, i requires 0 <= i < |items| => PairInstance(items[i]))
  }

  /** Dropping the falsy instances keeps order: it works piecewise over a concatenation. */
  lemma {:induction false} TruthyInstancesSplits(a: seq<Pair>, b: seq<Pair>)
    ensures TruthyInstances(a + b) == TruthyInstances(a) + TruthyInstances(b)
  {
    if a == [] {
      assert a + b == b;
    } else {
      assert (a + b)[0] == a[0] && (a + b)[1..] == a[1..] + b;
      TruthyInstancesSplits(a[1..], b);
    }
  }

  /** Each truthy instance occurs as often as among all the items' instances; no falsy one is left. */
  lemma {:induction false} TruthyInstancesCounts(items: seq<Pair>)
    ensures forall x :: multiset(TruthyInstances(items))[x] == if x.truthy then multiset(InstancesIn(items))[x] else 0
  {
    if items != [] {
      TruthyInstancesCounts(items[1..]);
      assert InstancesIn(items) == [PairInstance(items[0])] + InstancesIn(items[1..]);
    }
  }

  /** The instance of the first item, in order, of type `cls` or a subclass of it. */
  function FirstInstance(items: seq<Pair>, cls: TypeTag): (r: Option<Instance>)
    ensures r.None? <==> forall i :: 0 <= i < |items| ==> !IsSubtype(PairType(items[i]), cls)
    ensures r.Some? ==>
      exists i ::
        && 0 <= i < |items| && IsSubtype(PairType(items[i]), cls) && r.value == PairInstance(items[i])
        && forall j :: 0 <= j < i ==> !IsSubtype(PairType(items[j]), cls)
  {
    if items == [] then None
    else if IsSubtype(PairType(items[0]), cls) then Some(PairInstance(items[0]))
    else
      var r := FirstInstance(items[1..], cls);
      assert forall i :: 1 <= i < |items| ==> items[i] == items[1..][i - 1];
      if r.None? then r
      else
        var i :| && 0 <= i < |items[1..]| && IsSubtype(PairType(items[1..][i]), cls) && r.value == PairInstance(items[1..][i])
                 && forall j :: 0 <= j < i ==> !IsSubtype(PairType(items[1..][j]), cls);
        assert forall j :: 0 <= j < i + 1 ==> !IsSubtype(PairType(items[j]), cls);
        r
  }

  /**
   * `lookup(cls)`: the instance of the first matching item, in constructor order;
   * nothing exactly when no item matches.
   */
  function Lookup(l: SimpleLookup, cls: TypeTag): (r: Option<Instance>)
    ensures r.None? <==> Matching(l.allItems, cls) == []
    ensures r.Some? ==> r.value == PairInstance(Matching(l.allItems, cls)[0])
  {
    LookupIsFirstOfResult(l.allItems, cls);
    FirstInstance(l.allItems, cls)
  }

  /**
   * `lookup(cls)` answers the instance of the first item of `lookup_result(cls)`,
   * and nothing exactly when that result has no item.
   */
  lemma {:induction false} LookupIsFirstOfResult(items: seq<Pair>, cls: TypeTag)
    ensures FirstInstance(items, cls) ==
      match DefaultLookupItem(Matching(items, cls))
      case None => None
      case Some(p) => Some(PairInstance(p))
  {
    if items != [] && !IsSubtype(PairType(items[0]), cls) {
      LookupIsFirstOfResult(items[1..], cls);
    }
  }

  /**
   * A simple lookup's result: the lookup and class it was made for, and the cache
   * of its matching items, filled on first use.
   */
  class SimpleResult {
    const lookup: SimpleLookup
    const cls: TypeTag
    var items: Option<seq<Pair>>

    /** A filled cache holds exactly the matching items. */
    ghost predicate Valid()
      reads this
    {
      items.Some? ==> items.value == Matching(lookup.allItems, cls)
    }

    constructor (lookup: SimpleLookup, cls: TypeTag)
      ensures Valid() && this.lookup == lookup && this.cls == cls && items == None
    {
      this.lookup := lookup;
      this.cls := cls;
      items := None;
    }

    /** `add_lookup_listener`: the content never changes, so nobody needs telling. */
    method AddLookupListener(listener: ListenerId)
    {
    }

    /** `remove_lookup_listener`: nothing to undo. */
    method RemoveLookupListener(listener: ListenerId)
    {
    }

    /**
     * `all_items()`: the lookup's items of type `cls` or a subclass, in order,
     * duplicates kept; computed on the first call and then returned from cache.
     */
    method AllItems() returns (r: seq<Pair>)
      requires Valid()
      modifies this
      ensures Valid() && items == Some(r)
      ensures old(items).Some? ==> r == old(items).value
      ensures r == Matching(lookup.allItems, cls)
    {
      if items.None? {
        items := Some(Matching(lookup.allItems, cls));
      }
      r := items.value;
    }

    /** `all_classes()`: the types of the matching items. */
    method AllClasses() returns (classes: set<TypeTag>)
      requires Valid()
      modifies this
      ensures Valid() && items == Some(Matching(lookup.allItems, cls))
      ensures forall t :: t in classes <==> exists p :: p in lookup.allItems && IsSubtype(PairType(p), cls) && PairType(p) == t
    {
      var all := AllItems();
      classes := set p | p in all :: PairType(p);
    }

    /** `all_instances()`: the instances of the matching items, falsy ones dropped. */
    method AllInstances() returns (instances: seq<Instance>)
      requires Valid()
      modifies this
      ensures Valid() && items == Some(Matching(lookup.allItems, cls))
      ensures instances == TruthyInstances(Matching(lookup.allItems, cls))
    {
      var all := AllItems();
      instances := TruthyInstances(all);
    }
  }

  /** `lookup_result(cls)`: a new result on every call. */
  method LookupResult(l: SimpleLookup, cls: TypeTag) returns (r: SimpleResult)
    ensures fresh(r) && r.Valid() && r.lookup == l && r.cls == cls && r.items == None
  {
    r := new SimpleResult(l, cls);
  }

  /** The inherited `lookup_item(cls)`: the first item of a new result, which agrees with `lookup(cls)`. */
  method LookupItem(l: SimpleLookup, cls: TypeTag) returns (item: Option<Pair>)
    ensures item == DefaultLookupItem(Matching(l.allItems, cls))
    ensures item.None? <==> Lookup(l, cls).None?
    ensures item.Some? ==> Lookup(l, cls) == Some(PairInstance(item.value))
  {
    var r := LookupResult(l, cls);
    var items := r.AllItems();
    item := DefaultLookupItem(items);
    LookupIsFirstOfResult(l.allItems, cls);
  }

  /** The inherited `lookup_all(cls)`: the instances of a new result. */
  method LookupAll(l: SimpleLookup, cls: TypeTag) returns (instances: seq<Instance>)
    ensures instances == TruthyInstances(Matching(l.allItems, cls))
  {
    var r := LookupResult(l, cls);
    instances := r.AllInstances();
  }

  /** A simple lookup over no instance answers every query as the empty lookup does. */
  lemma EmptySimpleLookupIsEmpty(e: EmptyLookup, cls: TypeTag)
    ensures Lookup(NewSimpleLookup([]), cls) == e.Lookup(cls)
    ensures DefaultLookupItem(Matching(NewSimpleLookup([]).allItems, cls)) == e.LookupItem(cls)
    ensures TruthyInstances(Matching(NewSimpleLookup([]).allItems, cls)) == e.LookupAll(cls)
  {
  }
}
