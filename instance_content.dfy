/**
 * The instance content, through which an owner adds plain instances or keys with a
 * convertor, and the converting item, which produces its instance on demand and
 * keeps it only as long as something else holds it.
 */
module InstanceContent {
  import opened Wrappers
  import opened Types
  import opened Items
  import opened Sets = SetStorage
  import opened GenericLookup

  /**
   * A converting item: a key, its convertor, and a weak reference to the instance
   * last converted (None once that instance has been collected). The ghost counter
   * records the calls to `convert`.
   */
  class ConvertingItem {
    const key: Instance
    const convertor: Convertor
    var ref: Option<Instance>
    ghost var convertCalls: nat

    /** A live converted value is what the convertor makes of the key. */
    ghost predicate Valid()
      reads this
    {
      ref.Some? ==> ref.value == convertor.Convert(key)
    }

    constructor (key: Instance, convertor: Convertor)
      ensures Valid()
      ensures this.key == key && this.convertor == convertor
      ensures ref == None && convertCalls == 0
    {
      this.key := key;
      this.convertor := convertor;
      ref := None;
      convertCalls := 0;
    }

    /** The item as the storage files it. */
    function ToPair(): (p: Pair)
      ensures Id(p) == ConvertingId(key) && PairType(p) == convertor.TypeOf(key)
      ensures PairInstance(p) == convertor.Convert(key)
    {
      Converting(key, convertor)
    }

    /** `get_display_name()`: asks the convertor, never converts. */
    function GetDisplayName(): (name: string)
      ensures name == convertor.Entry(key).displayName
    {
      convertor.DisplayNameOf(key)
    }

    /** `get_id()`: asks the convertor, never converts. */
    function GetId(): (id: string)
      ensures id == convertor.Entry(key).id
    {
      convertor.IdOf(key)
    }

    /**
     * `get_instance()`: the live converted value when there is one; otherwise
     * `convert(key)`, which is then referenced.
     */
    method GetInstance() returns (instance: Instance)
      requires Valid()
      modifies this
      ensures Valid()
      ensures instance == convertor.Convert(key) && ref == Some(instance)
      ensures old(ref).Some? ==> convertCalls == old(convertCalls)
      ensures old(ref).None? ==> convertCalls == old(convertCalls) + 1
    {
      if ref.Some? {
        return ref.value;
      }
      instance := convertor.Convert(key);
      convertCalls := convertCalls + 1;
      ref := Some(instance);
    }

    /** The converted value is collected once nothing else holds it. */
    method Collect()
      modifies this
      ensures Valid() && ref == None && convertCalls == old(convertCalls)
    {
      ref := None;
    }

    /**
     * `get_type()`: the class of the live converted value if there is one, otherwise
     * what the convertor announces. It reads the item only, so it never converts.
     */
    function GetType(): (t: TypeTag)
      reads this
      ensures t == LiveType(ToPair(), ref)
      ensures ref.None? ==> t == PairType(ToPair())
    {
      if ref.Some? then ref.value.typ else convertor.TypeOf(key)
    }

    /** `__eq__`: equal keys, whatever the convertors. */
    predicate Equals(other: ConvertingItem)
      ensures Equals(other) <==> Items.Equals(ToPair(), other.ToPair())
    {
      key == other.key
    }

    /** `__hash__`: the key's hash. */
    function Hash(): (h: int)
      ensures h == Items.Hash(ToPair())
    {
      KeyHash(key)
    }
  }

  /**
   * For a convertor that keeps its own contract, the type `get_type()` answers is
   * at or below the type the storage filed the item under, converted or not.
   */
  lemma GetTypeRefinesFiledType(item: ConvertingItem)
    requires item.Valid() && item.convertor.Consistent()
    ensures IsSubtype(item.GetType(), PairType(item.ToPair()))
    ensures item.ref.None? ==> item.GetType() == PairType(item.ToPair())
  {
    if item.ref.Some? {
      assert IsSubtype(item.convertor.Entry(item.key).value.typ, item.convertor.Entry(item.key).typ);
    }
  }

  /** Two converting items with the same key are equal and hash alike, whatever their convertors. */
  lemma EqualKeysMakeEqualItems(a: ConvertingItem, b: ConvertingItem)
    requires a.key == b.key
    ensures a.Equals(b) && b.Equals(a) && a.Hash() == b.Hash()
    ensures Id(a.ToPair()) == Id(b.ToPair())
  {
  }

  /** `ConvertingItem(key, convertor)`: ValueError for a None key. */
  method NewConvertingItem(key: Option<Instance>, convertor: Convertor) returns (r: Result<ConvertingItem>)
    ensures r.Failure? <==> key.None?
    ensures r.Failure? ==> r.error == ValueError
    ensures r.Success? ==> fresh(r.value) && r.value.Valid() && r.value.ref == None
    ensures r.Success? ==> r.value.ToPair() == MakePair(key, Some(convertor)).value
  {
    if key.None? {
      return Failure(ValueError);
    }
    var item := new ConvertingItem(key.value, convertor);
    r := Success(item);
  }

  /**
   * `add(instance, convertor)`: the instance as a direct item, or as a converting
   * item keyed by it, added through the content.
   */
  method Add(content: Content, instance: Option<Instance>, convertor: Option<Convertor>) returns (r: Result<bool>)
    requires content.Valid()
    modifies content.Repr()
    ensures content.Valid() && content.lookup == old(content.lookup)
    ensures instance.None? ==> r == Failure(ValueError) && content.earlyPairs == old(content.earlyPairs)
    ensures instance.None? && content.lookup != null ==> content.lookup.Content() == old(content.lookup.Content())
    ensures instance.Some? && content.lookup == null ==>
      && content.earlyPairs == old(content.earlyPairs) + [MakePair(instance, convertor).value]
      && r == Success(exists q :: q in old(content.earlyPairs) && Id(q) == Id(MakePair(instance, convertor).value))
    ensures instance.Some? && content.lookup != null && !old(content.lookup.storageIsUsed) ==>
      && r == Success(Id(MakePair(instance, convertor).value) !in old(content.lookup.Content()))
      && content.lookup.Content() == Insert(old(content.lookup.Content()), MakePair(instance, convertor).value)
    ensures content.lookup != null && old(content.lookup.CachesAgree()) ==> content.lookup.CachesAgree()
  {
    var pair := MakePair(instance, convertor);
    if pair.Failure? {
      return Failure(pair.error);
    }
    r := content.AddPair(pair.value);
  }

  /** `remove(instance, convertor)`: removes the item that `add` with the same arguments made. */
  method Remove(content: Content, instance: Option<Instance>, convertor: Option<Convertor>) returns (r: Outcome)
    requires content.Valid()
    modifies content.Repr()
    ensures content.Valid() && content.lookup == old(content.lookup)
    ensures instance.None? ==> r == Fail(ValueError) && content.earlyPairs == old(content.earlyPairs)
    ensures instance.None? && content.lookup != null ==> content.lookup.Content() == old(content.lookup.Content())
    ensures instance.Some? && content.lookup == null ==>
      var removed := RemoveFirst(old(content.earlyPairs), MakePair(instance, convertor).value);
      && r == (if removed.Some? then Pass else Fail(ValueError))
      && content.earlyPairs == (if removed.Some? then removed.value else old(content.earlyPairs))
    ensures instance.Some? && content.lookup != null && !old(content.lookup.storageIsUsed) ==>
      && r == (if Id(MakePair(instance, convertor).value) in old(content.lookup.Content()) then Pass else Fail(KeyError))
      && content.lookup.Content() == old(content.lookup.Content()) - {Id(MakePair(instance, convertor).value)}
    ensures content.lookup != null && old(content.lookup.CachesAgree()) ==>
      (instance.Some? && Id(MakePair(instance, convertor).value) in old(content.lookup.Content()) ==>
        PairType(old(content.lookup.Content())[Id(MakePair(instance, convertor).value)]) == PairType(MakePair(instance, convertor).value)) ==>
          content.lookup.CachesAgree()
  {
    var pair := MakePair(instance, convertor);
    if pair.Failure? {
      return Fail(pair.error);
    }
    r := content.RemovePair(pair.value);
  }

  /**
   * `set(instances, convertor)`: one item of the same kind per instance, installed in
   * a single `_set_pairs`; a None instance raises ValueError before anything changes.
   */
  method Set(content: Content, instances: seq<Option<Instance>>, convertor: Option<Convertor>) returns (r: Outcome)
    requires content.Valid()
    modifies content.Repr()
    ensures content.Valid() && content.lookup == old(content.lookup)
    ensures MakePairs(instances, convertor).Failure? ==> r == Fail(ValueError) && content.earlyPairs == old(content.earlyPairs)
    ensures MakePairs(instances, convertor).Failure? && content.lookup != null ==>
      content.lookup.Content() == old(content.lookup.Content())
    ensures MakePairs(instances, convertor).Success? && content.lookup == null ==>
      r == Pass && content.earlyPairs == MakePairs(instances, convertor).value
    ensures MakePairs(instances, convertor).Success? && content.lookup != null && !old(content.lookup.storageIsUsed) ==>
      r == Pass && content.lookup.Content() == SetOf(MakePairs(instances, convertor).value)
    ensures content.lookup != null && old(content.lookup.CachesAgree()) ==>
      (MakePairs(instances, convertor).Success? ==>
        var installed := SetOf(MakePairs(instances, convertor).value);
        forall id :: id in old(content.lookup.Content()) && id in installed ==> old(content.lookup.Content())[id] == installed[id]) ==>
          content.lookup.CachesAgree()
  {
    var pairs := MakePairs(instances, convertor);
    if pairs.Failure? {
      return Fail(pairs.error);
    }
    r := content.SetPairs(pairs.value);
  }
}
