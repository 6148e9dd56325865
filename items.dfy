/**
 * Lookup members and the pairs that a generic lookup stores: direct items, which
 * wrap an instance, and converting items, which wrap a key and a convertor and
 * produce their instance on demand.
 */
module Items {
  import opened Wrappers
  import opened Types

  /** A Python object: its identity, its runtime class and its truth value. */
  datatype Instance = Instance(ref: nat, typ: TypeTag, truthy: bool)

  /** What a convertor answers for one key. */
  datatype Conversion = Conversion(value: Instance, typ: TypeTag, id: string, displayName: string)

  /**
   * A convertor: four pure functions over keys (`convert`, `type`, `id`,
   * `display_name`), given as a finite table with an entry for every other key.
   */
  datatype Convertor = Convertor(ref: nat, table: map<Instance, Conversion>, otherwise: Conversion)
  {
    function Entry(key: Instance): Conversion {
      if key in table then table[key] else otherwise
    }
    function Convert(key: Instance): Instance { Entry(key).value }
    function TypeOf(key: Instance): TypeTag { Entry(key).typ }
    function IdOf(key: Instance): string { Entry(key).id }
    function DisplayNameOf(key: Instance): string { Entry(key).displayName }

    /** The convertor's own contract: `type(key)` is the class, or a superclass, of `convert(key)`. */
    ghost predicate Consistent() {
      forall key :: IsSubtype(Entry(key).value.typ, Entry(key).typ)
    }

    /** A convertor whose `type(key)` is exactly the class of `convert(key)`. */
    ghost predicate Exact() {
      forall key :: Entry(key).value.typ == Entry(key).typ
    }
  }

  /**
   * A pair as stored by a generic lookup. `Direct` is the item made for a plain
   * instance (an optional persistent id is carried for the fixed lookups);
   * `Converting` is a key plus the convertor that produces the instance.
   */
  datatype Pair =
    | Direct(instance: Instance, id: Option<string>)
    | Converting(key: Instance, convertor: Convertor)

  /** What `__eq__` and `__hash__` of a pair look at. */
  datatype PairId = DirectId(instance: Instance) | ConvertingId(key: Instance)

  function Id(p: Pair): PairId {
    match p
    case Direct(i, _) => DirectId(i)
    case Converting(k, _) => ConvertingId(k)
  }

  /**
   * The type a pair is filed under: a direct item's class, and for a converting
   * pair `convertor.type(key)`. That is `get_type()` while no converted value is
   * alive; `LiveType` is `get_type()` in general.
   */
  function PairType(p: Pair): TypeTag {
    match p
    case Direct(i, _) => i.typ
    case Converting(k, c) => c.TypeOf(k)
  }

  /**
   * `get_type()` of a pair when `live` is its converted value still referenced, if
   * any: the class of that value, otherwise the filed type.
   */
  function LiveType(p: Pair, live: Option<Instance>): (t: TypeTag)
    ensures p.Direct? || live.None? ==> t == PairType(p)
  {
    match p
    case Direct(i, _) => i.typ
    case Converting(k, c) => if live.Some? then live.value.typ else c.TypeOf(k)
  }

  /** `get_instance()`: a converting pair yields `convertor.convert(key)`. */
  function PairInstance(p: Pair): Instance {
    match p
    case Direct(i, _) => i
    case Converting(k, c) => c.Convert(k)
  }

  /**
   * `__eq__`: a converting item equals another converting item with an equal key,
   * whatever their convertors; a direct item equals the item of the same instance.
   */
  predicate Equals(a: Pair, b: Pair)
    ensures a.Converting? ==> (Equals(a, b) <==> b.Converting? && a.key == b.key)
    ensures a.Direct? ==> (Equals(a, b) <==> b.Direct? && a.instance == b.instance)
  {
    Id(a) == Id(b)
  }

  /** Python's `hash` of an object key: derived from its identity. */
  function KeyHash(key: Instance): int { key.ref }

  /** `__hash__`: a converting item hashes as its key. */
  function Hash(p: Pair): (h: int)
    ensures p.Converting? ==> h == KeyHash(p.key)
  {
    match p
    case Direct(i, _) => KeyHash(i)
    case Converting(k, _) => KeyHash(k)
  }

  /** Equal pairs hash alike, and pair equality is an equivalence. */
  lemma EqualsIsConsistentWithHash(a: Pair, b: Pair, c: Pair)
    ensures Equals(a, a)
    ensures Equals(a, b) ==> Equals(b, a) && Hash(a) == Hash(b)
    ensures Equals(a, b) && Equals(b, c) ==> Equals(a, c)
  {
  }

  /**
   * The pair `InstanceContent` builds for one member: a direct item without a
   * convertor, a converting item with one. A None member or key is rejected.
   */
  function MakePair(member: Option<Instance>, convertor: Option<Convertor>): (r: Result<Pair>)
    ensures r.Failure? <==> member.None?
    ensures r.Failure? ==> r.error == ValueError
    ensures r.Success? && convertor.None? ==> r.value == Direct(member.value, None)
    ensures r.Success? && convertor.Some? ==> r.value == Converting(member.value, convertor.value)
  {
    match member
    case None => Failure(ValueError)
    case Some(m) =>
      match convertor
      case None => Success(Direct(m, None))
      case Some(c) => Success(Converting(m, c))
  }

  /** The pairs for `set(instances, convertor)`: one per member, in order; any None member raises. */
  function MakePairs(members: seq<Option<Instance>>, convertor: Option<Convertor>): (r: Result<seq<Pair>>)
    ensures r.Failure? <==> exists i :: 0 <= i < |members| && members[i].None?
    ensures r.Failure? ==> r.error == ValueError
    ensures r.Success? ==> |r.value| == |members|
    ensures r.Success? ==> forall i :: 0 <= i < |members| ==> MakePair(members[i], convertor) == Success(r.value[i])
  {
    if members == [] then Success([])
    else
      match MakePair(members[0], convertor)
      case Failure(e) => Failure(e)
      case Success(p) =>
        match MakePairs(members[1..], convertor)
        case Failure(e) => Failure(e)
        case Success(ps) => Success([p] + ps)
  }
}
