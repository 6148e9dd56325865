/**
 * The set algebra of the transactional pair storage and its transaction object.
 *
 * A Python set of pairs compares pairs with `__eq__`, so it is modelled as a map
 * from the pair's identity (`Items.Id`) to the pair actually kept. Python's
 * `set.add` keeps the element already there, and so does `set(iterable)` for later
 * duplicates; `Insert` and `SetOf` do the same.
 */
module SetStorage {
  import opened Wrappers
  import opened Types
  import opened Items

  /** A set of pairs under pair equality. */
  type PairSet = map<PairId, Pair>

  /** Every pair is filed under its own identity. */
  ghost predicate WellKeyed(m: PairSet) {
    forall id :: id in m ==> Id(m[id]) == id
  }

  /** `s.add(p)`: nothing changes when an equal pair is already there. */
  function Insert(m: PairSet, p: Pair): PairSet {
    if Id(p) in m then m else m[Id(p) := p]
  }

  /** Index of the first pair of `ps` equal to `ps[i]` is `i` itself. */
  ghost predicate FirstOfItsId(ps: seq<Pair>, i: int)
    requires 0 <= i < |ps|
  {
    forall j :: 0 <= j < i ==> Id(ps[j]) != Id(ps[i])
  }

  /** `set(pairs)`: one pair per identity, the first one met in `ps`. */
  function SetOf(ps: seq<Pair>): (m: PairSet)
    ensures WellKeyed(m)
    ensures forall p :: p in ps ==> Id(p) in m
    ensures forall id :: id in m ==> m[id] in ps
  {
    if ps == [] then map[]
    else Insert(SetOf(ps[..|ps| - 1]), ps[|ps| - 1])
  }

  /** Of several equal pairs in `ps`, `set(ps)` keeps the first. */
  lemma {:induction false} SetOfKeepsFirst(ps: seq<Pair>, i: int)
    requires 0 <= i < |ps| && FirstOfItsId(ps, i)
    ensures SetOf(ps)[Id(ps[i])] == ps[i]
  {
    var front := ps[..|ps| - 1];
    if i < |ps| - 1 {
      assert FirstOfItsId(front, i) by {
        forall j | 0 <= j < i ensures Id(front[j]) != Id(front[i]) {
          assert front[j] == ps[j] && front[i] == ps[i];
        }
      }
      SetOfKeepsFirst(front, i);
      assert front[i] == ps[i];
    } else {
      forall id | id in SetOf(front) ensures id != Id(ps[i]) {
        var k :| 0 <= k < |front| && front[k] == SetOf(front)[id];
        assert ps[k] == front[k];
      }
    }
  }

  /** `a.symmetric_difference(b)`: the pairs of either set with no equal pair in the other. */
  function SymDiff(a: PairSet, b: PairSet): (d: PairSet)
    ensures d.Keys == (a.Keys - b.Keys) + (b.Keys - a.Keys)
  {
    map id | id in (a.Keys - b.Keys) + (b.Keys - a.Keys) :: if id in a then a[id] else b[id]
  }

  /** `a.update(b)`: adds the pairs of `b` that have no equal pair in `a`. */
  function Update(a: PairSet, b: PairSet): (u: PairSet)
    ensures u.Keys == a.Keys + b.Keys
    ensures forall id :: id in a ==> u[id] == a[id]
  {
    map id | id in a.Keys + b.Keys :: if id in a then a[id] else b[id]
  }

  /** What `lookup(cls)` yields: the stored pairs whose type is `cls` or a subclass of it. */
  function Matching(m: PairSet, cls: TypeTag): set<Pair> {
    set id | id in m && IsSubtype(PairType(m[id]), cls) :: m[id]
  }

  /** The registered query types that a change to `changes` concerns. */
  function Affected(registered: set<TypeTag>, changes: set<Pair>): set<TypeTag> {
    set t | t in registered && exists p :: p in changes && IsSubtype(PairType(p), t)
  }

  /**
   * Matching is covariant: a stored pair answers a query for its own class and for
   * every superclass of it, and never a query for a proper subclass of its class.
   */
  lemma MatchingIsCovariant(m: PairSet, p: Pair, cls: TypeTag)
    requires WellKeyed(m) && Id(p) in m && m[Id(p)] == p
    ensures IsSubtype(PairType(p), cls) <==> p in Matching(m, cls)
    ensures forall sub :: IsSubtype(sub, PairType(p)) && sub != PairType(p) ==> p !in Matching(m, sub)
  {
  }

  /**
   * Every identity whose binding differs between `before` and `after` is in
   * `changes`, filed with a pair of the same type as the one that came or went.
   */
  ghost predicate Explains(before: PairSet, after: PairSet, changes: PairSet) {
    && (forall id :: id in before && (id !in after || after[id] != before[id]) ==>
          id in changes && PairType(changes[id]) == PairType(before[id]))
    && (forall id :: id in after && (id !in before || before[id] != after[id]) ==>
          id in changes && PairType(changes[id]) == PairType(after[id]))
  }

  /**
   * What a query for `cls` yields when each converting pair is typed by `get_type()`
   * with the converted values still referenced in `live`.
   */
  function LiveMatching(m: PairSet, live: map<PairId, Instance>, cls: TypeTag): set<Pair> {
    set id | id in m && IsSubtype(LiveType(m[id], if id in live then Some(live[id]) else None), cls) :: m[id]
  }

  /** Every referenced value is the conversion of its stored pair. */
  ghost predicate LiveValuesConverted(m: PairSet, live: map<PairId, Instance>) {
    forall id :: id in live && id in m ==> m[id].Converting? && live[id] == PairInstance(m[id])
  }

  /**
   * With exact convertors, typing a pair by its live value or by the filed type is
   * the same: a query answers alike whatever values happen to be referenced.
   */
  lemma ExactConvertorsMakeLiveTypingStatic(m: PairSet, live: map<PairId, Instance>, cls: TypeTag)
    requires LiveValuesConverted(m, live)
    requires forall id :: id in m && m[id].Converting? ==> m[id].convertor.Exact()
    ensures LiveMatching(m, live, cls) == Matching(m, cls)
  {
    forall id | id in m
      ensures LiveType(m[id], if id in live then Some(live[id]) else None) == PairType(m[id])
    {
      if id in live {
        var p := m[id];
        assert p.convertor.Entry(p.key).value.typ == p.convertor.Entry(p.key).typ;
      }
    }
  }

  /**
   * A convertor that keeps its contract but announces a superclass of what it
   * converts to: once the value is referenced, a query for its own class finds the
   * pair, which the filed type does not.
   */
  lemma LooseConvertorTypesLiveValueLower()
    ensures exists m: PairSet, live: map<PairId, Instance>, cls: TypeTag ::
      && LiveValuesConverted(m, live)
      && (forall id :: id in m && m[id].Converting? ==> m[id].convertor.Consistent())
      && LiveMatching(m, live, cls) != Matching(m, cls)
  {
    var key := Instance(0, [1], true);
    var value := Instance(1, [1, 2], true);
    var c := Convertor(0, map[], Conversion(value, [1], "", ""));
    var p := Converting(key, c);
    var m: PairSet := map[ConvertingId(key) := p];
    var live := map[ConvertingId(key) := value];
    assert c.Consistent() by {
      forall k ensures IsSubtype(c.Entry(k).value.typ, c.Entry(k).typ) {
        assert [1] <= [1, 2];
      }
    }
    assert LiveValuesConverted(m, live);
    assert p in LiveMatching(m, live, [1, 2]) by {
      var id := ConvertingId(key);
      assert id in m && id in live && m[id] == p;
      assert LiveType(p, Some(value)) == [1, 2];
      assert IsSubtype([1, 2], [1, 2]);
    }
    assert p !in Matching(m, [1, 2]) by {
      assert !([1, 2] <= [1]);
    }
  }

  /**
   * A result whose queried type is not concerned by any changed pair sees exactly
   * the pairs it saw before: not notifying it loses nothing.
   */
  lemma UnaffectedResultSeesNoChange(before: PairSet, after: PairSet, changes: PairSet, cls: TypeTag)
    requires Explains(before, after, changes)
    requires cls !in Affected({cls}, changes.Values)
    ensures Matching(after, cls) == Matching(before, cls)
  {
    forall id | id in changes ensures !IsSubtype(PairType(changes[id]), cls) {
      assert changes[id] in changes.Values;
    }
    forall p | p in Matching(after, cls) ensures p in Matching(before, cls) {
      var id :| id in after && IsSubtype(PairType(after[id]), cls) && after[id] == p;
      assert id in before && before[id] == p;
    }
    forall p | p in Matching(before, cls) ensures p in Matching(after, cls) {
      var id :| id in before && IsSubtype(PairType(before[id]), cls) && before[id] == p;
      assert id in after && after[id] == p;
    }
  }

  /** An `add` records the pair as changed exactly when it was absent. */
  lemma InsertIsExplained(m: PairSet, p: Pair)
    ensures Explains(m, Insert(m, p), if Id(p) in m then map[] else map[Id(p) := p])
  {
  }

  /**
   * A `remove` with a pair of the same type as the stored one (the same convertor
   * it was added with) records what went away.
   */
  lemma RemoveIsExplained(m: PairSet, p: Pair)
    requires Id(p) in m && PairType(m[Id(p)]) == PairType(p)
    ensures Explains(m, m - {Id(p)}, map[Id(p) := p])
  {
  }

  /**
   * A `set_all` whose new pairs rebind no identity to a different pair records every
   * pair that came or went: the symmetric difference.
   */
  lemma SetAllIsExplained(m: PairSet, ps: seq<Pair>)
    requires WellKeyed(m)
    requires forall id :: id in m && id in SetOf(ps) ==> m[id] == SetOf(ps)[id]
    ensures Explains(m, SetOf(ps), Update(map[], SymDiff(SetOf(ps), m)))
  {
  }

  /**
   * A transaction: a working copy of the storage's set and the set of pairs it
   * changed. Each method is one step the generic lookup takes inside `with`.
   */
  class SetTransaction {
    var newList: PairSet
    var changed: PairSet

    /** The working set never holds two equal pairs. */
    ghost predicate Valid()
      reads this
    {
      WellKeyed(newList)
    }

    /** Starts from a copy of the current content and no changes. */
    constructor (current: PairSet)
      requires WellKeyed(current)
      ensures Valid()
      ensures newList == current && changed == map[]
    {
      newList := current;
      changed := map[];
    }

    /** The content to install and the pairs that changed. */
    method NewContent() returns (content: PairSet, changes: PairSet)
      ensures content == newList && changes == changed
    {
      content, changes := newList, changed;
    }

    /**
     * Adds `p`; answers whether no equal pair was there. Only a pair that was absent
     * is recorded as changed; an equal pair already there stays.
     */
    method Add(p: Pair) returns (notPresent: bool)
      requires Valid()
      modifies this
      ensures Valid()
      ensures notPresent <==> Id(p) !in old(newList)
      ensures Id(p) in newList
      ensures newList == Insert(old(newList), p)
      ensures changed == if notPresent then Insert(old(changed), p) else old(changed)
    {
      notPresent := Id(p) !in newList;
      if notPresent {
        changed := Insert(changed, p);
      }
      newList := Insert(newList, p);
    }

    /**
     * Records `p` as changed, then removes the equal pair; raises KeyError when there
     * is none (the change record is already made, but the transaction is abandoned).
     */
    method Remove(p: Pair) returns (r: Outcome)
      requires Valid()
      modifies this
      ensures Valid()
      ensures changed == Insert(old(changed), p)
      ensures r == if Id(p) in old(newList) then Pass else Fail(KeyError)
      ensures newList == old(newList) - {Id(p)}
    {
      changed := Insert(changed, p);
      if Id(p) !in newList {
        return Fail(KeyError);
      }
      newList := newList - {Id(p)};
      r := Pass;
    }

    /** Replaces the working set by `set(ps)` and records the symmetric difference as changed. */
    method SetAll(ps: seq<Pair>)
      requires Valid()
      modifies this
      ensures Valid()
      ensures newList == SetOf(ps)
      ensures changed == Update(old(changed), SymDiff(SetOf(ps), old(newList)))
    {
      var pairs := SetOf(ps);
      changed := Update(changed, SymDiff(pairs, newList));
      newList := pairs;
    }
  }
}
