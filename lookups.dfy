/**
 * The results of the fixed lookups and the empty lookup: the shared empty result,
 * and the one-item result a singleton lookup hands out.
 */
module Lookups {
  import opened Wrappers
  import opened Types
  import opened Items
  import opened LookupApi

  /**
   * A result whose content never changes: `NoResult`, with nothing in it, or a
   * singleton lookup's result holding one item. Registering or removing a
   * listener on either does nothing, so neither keeps any listener state.
   */
  datatype FixedResult = NoResult | SingletonResult(item: Pair)
  {
    /** `all_classes()`: the types of the items. */
    function AllClasses(): (classes: set<TypeTag>)
      ensures forall t :: t in classes <==> exists p :: p in AllItems() && PairType(p) == t
    {
      match this
      case NoResult => {}
      case SingletonResult(item) => {PairType(item)}
    }

    /** `all_instances()`: the instances of the items, in order; a singleton's item always has one. */
    function AllInstances(): (instances: seq<Instance>)
      ensures |instances| == |AllItems()|
      ensures forall i :: 0 <= i < |instances| ==> instances[i] == PairInstance(AllItems()[i])
    {
      match this
      case NoResult => []
      case SingletonResult(item) => [PairInstance(item)]
    }

    /** `all_items()`: nothing, or the singleton's one item. */
    function AllItems(): (items: seq<Pair>)
      ensures |items| <= 1
      ensures items == [] <==> this == NoResult
    {
      match this
      case NoResult => []
      case SingletonResult(item) => [item]
    }
  }

  /** The empty lookup's shared result, `EmptyLookup.NO_RESULT`. */
  const NO_RESULT: FixedResult := NoResult

  /** The lookup that never finds anything. */
  datatype EmptyLookup = EmptyLookup
  {
    /** `lookup(cls)`. */
    function Lookup(cls: TypeTag): (r: Option<Instance>)
      ensures r.None?
    {
      None
    }

    /** `lookup_result(cls)`: the shared empty result, whatever the class. */
    function LookupResult(cls: TypeTag): (r: FixedResult)
      ensures r.AllClasses() == {} && r.AllInstances() == [] && r.AllItems() == []
    {
      NO_RESULT
    }

    /** The inherited `lookup_item(cls)`: the first item of `lookup_result(cls)`. */
    function LookupItem(cls: TypeTag): (r: Option<Pair>)
      ensures r.None?
    {
      DefaultLookupItem(LookupResult(cls).AllItems())
    }

    /** The inherited `lookup_all(cls)`: the instances of `lookup_result(cls)`. */
    function LookupAll(cls: TypeTag): (r: seq<Instance>)
      ensures r == []
    {
      LookupResult(cls).AllInstances()
    }
  }

  /**
   * The empty lookup finds nothing by any query, and every class gets the one
   * shared result, which has no class, instance or item.
   */
  lemma EmptyLookupFindsNothing(e: EmptyLookup, cls: TypeTag, other: TypeTag)
    ensures e.Lookup(cls) == None && e.LookupItem(cls) == None && e.LookupAll(cls) == []
    ensures e.LookupResult(cls) == e.LookupResult(other) == NO_RESULT
    ensures NO_RESULT.AllClasses() == {} && NO_RESULT.AllInstances() == [] && NO_RESULT.AllItems() == []
  {
  }
}
