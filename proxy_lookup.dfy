/**
 * The union lookup: a list of backing lookups queried in order, and union results
 * that keep, per backing lookup, that lookup's result for the queried class, and
 * forward changes to their own listeners.
 */
module ProxyLookup {
  import opened Wrappers
  import opened Types
  import opened Items
  import opened LookupApi

  /**
   * An insertion-ordered dictionary from backing lookup to that lookup's result:
   * its keys in insertion order, and the value of each key at the same position.
   */
  datatype Dict = Dict(keys: seq<LookupRef>, values: seq<ResultRef>)
  {
    /** Positions line up and each key occurs once. */
    predicate WellFormed() {
      |keys| == |values| && NoDuplicates(keys)
    }
  }

  /** `d[l]`, or None where Python raises KeyError. */
  function Get(d: Dict, l: LookupRef): (r: Option<ResultRef>)
    requires |d.keys| == |d.values|
    ensures r.Some? <==> l in d.keys
  {
    if l in d.keys then Some(d.values[IndexOf(d.keys, l)]) else None
  }

  /** `d[l] = r`: an existing key keeps its place, a new key goes last. */
  function Put(d: Dict, l: LookupRef, r: ResultRef): (out: Dict)
    requires |d.keys| == |d.values|
    ensures |out.keys| == |out.values|
    ensures l in d.keys ==> out.keys == d.keys
    ensures l !in d.keys ==> out == Dict(d.keys + [l], d.values + [r])
    ensures d.WellFormed() ==> out.WellFormed()
  {
    if l in d.keys then Dict(d.keys, d.values[IndexOf(d.keys, l) := r])
    else Dict(d.keys + [l], d.values + [r])
  }

  /** `del d[l]` for a present key; the other entries keep their order. */
  function Del(d: Dict, l: LookupRef): (out: Dict)
    requires |d.keys| == |d.values| && l in d.keys
    ensures |out.keys| == |out.values|
    ensures out.keys == RemoveFirstOf(d.keys, l)
    ensures d.WellFormed() ==> out.WellFormed() && l !in out.keys
  {
    var i := IndexOf(d.keys, l);
    if d.WellFormed() then RemoveFirstOfUnique(d.keys, l); Dict(d.keys[..i] + d.keys[i + 1..], d.values[..i] + d.values[i + 1..])
    else Dict(d.keys[..i] + d.keys[i + 1..], d.values[..i] + d.values[i + 1..])
  }

  /** After `d[l] = r`, `d[l]` is `r` and every other key answers as before. */
  lemma PutThenGet(d: Dict, l: LookupRef, r: ResultRef, k: LookupRef)
    requires |d.keys| == |d.values|
    ensures Get(Put(d, l, r), k) == if k == l then Some(r) else Get(d, k)
  {
    var out := Put(d, l, r);
    if l !in d.keys && k in d.keys {
      var j := IndexOf(d.keys, k);
      assert out.keys[..j] == d.keys[..j];
      IndexOfIsUnique(out.keys, k, j);
    } else if l !in d.keys && k == l {
      assert out.keys[..|d.keys|] == d.keys;
      IndexOfIsUnique(out.keys, l, |d.keys|);
    }
  }

  /** After `del d[l]`, `d[l]` raises and every other key answers as before. */
  lemma DelThenGet(d: Dict, l: LookupRef, k: LookupRef)
    requires d.WellFormed() && l in d.keys
    ensures Get(Del(d, l), k) == if k == l then None else Get(d, k)
  {
    var out := Del(d, l);
    var i := IndexOf(d.keys, l);
    if k != l && k in d.keys {
      var j := IndexOf(d.keys, k);
      if j < i {
        assert out.keys[..j] == d.keys[..j];
        IndexOfIsUnique(out.keys, k, j);
      } else {
        assert out.keys[j - 1] == k;
        assert k !in out.keys[..j - 1] by {
          forall n | 0 <= n < j - 1 ensures out.keys[n] != k {
            if n < i { assert d.keys[..j][n] == d.keys[n]; } else { assert d.keys[..j][n + 1] == d.keys[n + 1]; }
          }
        }
        IndexOfIsUnique(out.keys, k, j - 1);
      }
    }
  }

  /** Deleting a key takes its result, once, out of the dictionary's values. */
  lemma DelDropsItsResult(d: Dict, l: LookupRef)
    requires |d.keys| == |d.values| && l in d.keys
    ensures multiset(Del(d, l).values) == multiset(d.values) - multiset{Get(d, l).value}
  {
    var i := IndexOf(d.keys, l);
    var (before, after) := (d.values[..i], d.values[i + 1..]);
    assert Del(d, l).values == before + after;
    assert d.values == before + [d.values[i]] + after;
    assert multiset(d.values) == multiset(before) + multiset{d.values[i]} + multiset(after);
  }

  /** The dictionary `{l: lookup_result(l) for l in lookups}`. */
  function Build(env: Backing, cls: TypeTag, ls: seq<LookupRef>): (d: Dict)
    ensures d.WellFormed()
    ensures forall l :: l in d.keys <==> l in ls
    ensures NoDuplicates(ls) ==> d.keys == ls
    ensures forall i :: 0 <= i < |d.values| ==> d.values[i] == env.lookupResult(d.keys[i], cls)
  {
    if ls == [] then Dict([], [])
    else
      var front := Build(env, cls, ls[..|ls| - 1]);
      var l := ls[|ls| - 1];
      assert ls == ls[..|ls| - 1] + [l];
      Put(front, l, env.lookupResult(l, cls))
  }

  /** `chain(*(f(r) for r in d.values()))`: the answers of the results, in dictionary order. */
  function Chain<T(!new)>(f: ResultRef -> seq<T>, rs: seq<ResultRef>): (r: seq<T>)
    ensures forall x :: x in r <==> exists q :: q in rs && x in f(q)
  {
    if rs == [] then []
    else
      assert forall q :: q in rs <==> q == rs[0] || q in rs[1..];
      f(rs[0]) + Chain(f, rs[1..])
  }

  /** Chaining distributes over concatenation. */
  lemma {:induction false} ChainSplits<T(!new)>(f: ResultRef -> seq<T>, a: seq<ResultRef>, b: seq<ResultRef>)
    ensures Chain(f, a + b) == Chain(f, a) + Chain(f, b)
  {
    if a == [] {
      assert a + b == b;
    } else {
      assert (a + b)[1..] == a[1..] + b;
      ChainSplits(f, a[1..], b);
    }
  }

  /** The union of the classes of the results. */
  function ClassesOver(f: ResultRef -> set<TypeTag>, rs: seq<ResultRef>): (classes: set<TypeTag>)
    ensures forall t :: t in classes <==> exists r :: r in rs && t in f(r)
  {
    set r, t | r in rs && t in f(r) :: t
  }

  /**
   * A lookup new to the dictionary contributes its instances and items after all
   * the others, and its classes.
   */
  lemma AddedLookupAnswersLast(env: Backing, d: Dict, l: LookupRef, r: ResultRef)
    requires |d.keys| == |d.values| && l !in d.keys
    ensures Chain(env.allInstances, Put(d, l, r).values) == Chain(env.allInstances, d.values) + env.allInstances(r)
    ensures Chain(env.allItems, Put(d, l, r).values) == Chain(env.allItems, d.values) + env.allItems(r)
    ensures ClassesOver(env.allClasses, Put(d, l, r).values) == ClassesOver(env.allClasses, d.values) + env.allClasses(r)
  {
    ChainSplits(env.allInstances, d.values, [r]);
    ChainSplits(env.allItems, d.values, [r]);
  }

  /**
   * Removing a lookup drops exactly its result's instances and items from the
   * chained answers, and keeps the others in order.
   */
  lemma RemovedLookupAnswersDrop<T(!new)>(f: ResultRef -> seq<T>, d: Dict, l: LookupRef)
    requires |d.keys| == |d.values| && l in d.keys
    ensures var i := IndexOf(d.keys, l);
      && Chain(f, d.values) == Chain(f, d.values[..i]) + f(d.values[i]) + Chain(f, d.values[i + 1..])
      && Chain(f, Del(d, l).values) == Chain(f, d.values[..i]) + Chain(f, d.values[i + 1..])
  {
    var i := IndexOf(d.keys, l);
    var (before, after) := (d.values[..i], d.values[i + 1..]);
    assert d.values == before + ([d.values[i]] + after);
    assert Del(d, l).values == before + after;
    ChainSplits(f, before, [d.values[i]] + after);
    ChainSplits(f, [d.values[i]], after);
    ChainSplits(f, before, after);
  }

  /**
   * A lookup added twice and then removed once stays in the list, yet has lost its
   * entry in every result that existed: the dictionary records it once.
   */
  lemma DuplicateLookupLosesItsEntry(ls: seq<LookupRef>, d: Dict, l: LookupRef, r: ResultRef)
    requires d.WellFormed() && d.keys == ls && l in ls
    ensures l in RemoveFirstOf(ls + [l], l)
    ensures l !in Del(Put(d, l, r), l).keys
  {
    var i := IndexOf(ls, l);
    assert (ls + [l])[..i] == ls[..i];
    IndexOfIsUnique(ls + [l], l, i);
    assert RemoveFirstOf(ls + [l], l)[|ls| - 1] == l;
  }

  /** What `_lookup_added` makes the listeners and the new result see. */
  function AddedEvents(listeners: seq<ListenerId>, r: ResultRef, env: Backing): seq<Event> {
    if listeners == [] then []
    else (if env.allClasses(r) != {} then Fire(listeners) else []) + [Subscribed(r)]
  }

  /** What `_lookup_removed` makes the old result and the listeners see. */
  function RemovedEvents(listeners: seq<ListenerId>, r: ResultRef, env: Backing): seq<Event> {
    if listeners == [] then []
    else [Unsubscribed(r)] + (if env.allClasses(r) != {} then Fire(listeners) else [])
  }

  /** One subscription, or one unsubscription, of the forwarding listener per result. */
  function Subscriptions(rs: seq<ResultRef>): seq<Event> {
    seq(|rs|, i requires 0 <= i < |rs| => Subscribed(rs[i]))
  }
  function Unsubscriptions(rs: seq<ResultRef>): seq<Event> {
    seq(|rs|, i requires 0 <= i < |rs| => Unsubscribed(rs[i]))
  }

  /** The subscriptions standing are one per result while there are listeners, none otherwise. */
  ghost predicate BalancedState(subscribed: multiset<ResultRef>, listeners: seq<ListenerId>, d: Dict) {
    subscribed == if listeners == [] then multiset{} else multiset(d.values)
  }

  /**
   * A union result for `cls`: its dictionary from backing lookup to that lookup's
   * result, and its own listeners. The ghost log records the listener calls and
   * the (un)subscriptions of the forwarding listener, in order; the ghost multiset
   * counts the subscriptions still standing.
   */
  class PLResult {
    const cls: TypeTag
    var results: Dict
    var listeners: seq<ListenerId>
    ghost var log: seq<Event>
    ghost var subscribed: multiset<ResultRef>

    ghost predicate Valid()
      reads this
    {
      results.WellFormed()
    }

    /**
     * The forwarding listener is subscribed once to each backing result while this
     * result has listeners, and to none otherwise.
     */
    ghost predicate Balanced()
      reads this
    {
      BalancedState(subscribed, listeners, results)
    }

    /** Asks every backing lookup for its result for `cls`. */
    constructor (cls: TypeTag, lookups: seq<LookupRef>, env: Backing)
      ensures Valid() && Balanced() && this.cls == cls
      ensures results == Build(env, cls, lookups) && listeners == [] && log == [] && subscribed == multiset{}
    {
      this.cls := cls;
      results := Build(env, cls, lookups);
      listeners := [];
      log := [];
      subscribed := multiset{};
    }

    /**
     * `_lookup_added(l)`: files the lookup's result; with listeners, fires them first
     * when that result has some class, then subscribes to it.
     */
    method LookupAdded(l: LookupRef, env: Backing)
      requires Valid()
      modifies this
      ensures Valid()
      ensures AddedTo(this, old(results), old(listeners), old(log), old(subscribed), l, env)
    {
      var result := env.lookupResult(l, cls);
      results := Put(results, l, result);
      if listeners != [] {
        if env.allClasses(result) != {} {
          log := log + Fire(listeners);
        }
        log := log + [Subscribed(result)];
        subscribed := subscribed + multiset{result};
      }
    }

    /**
     * `_lookup_removed(l)`: KeyError when the lookup has no entry; otherwise, with
     * listeners, unsubscribes from its result and then fires them when that result
     * has some class; the entry goes in all cases.
     */
    method LookupRemoved(l: LookupRef, env: Backing) returns (r: Outcome)
      requires Valid()
      modifies this
      ensures Valid() && listeners == old(listeners)
      ensures l !in old(results.keys) ==> r == Fail(KeyError) && unchanged(this)
      ensures l in old(results.keys) ==> r == Pass && RemovedFrom(this, old(results), old(log), old(subscribed), l, env)
    {
      var found := Get(results, l);
      if found.None? {
        return Fail(KeyError);
      }
      var result := found.value;
      if listeners != [] {
        log := log + [Unsubscribed(result)];
        subscribed := subscribed - multiset{result};
        if env.allClasses(result) != {} {
          log := log + Fire(listeners);
          assert log == old(log) + ([Unsubscribed(result)] + Fire(listeners));
        }
      }
      results := Del(results, l);
      r := Pass;
    }

    /** Subscribes the forwarding listener to every backing result, in dictionary order. */
    method SubscribeAll()
      modifies this
      ensures results == old(results) && listeners == old(listeners)
      ensures log == old(log) + Subscriptions(results.values)
      ensures subscribed == old(subscribed) + multiset(results.values)
    {
      var rs := results.values;
      var i := 0;
      while i < |rs|
        invariant 0 <= i <= |rs|
        invariant results == old(results) && listeners == old(listeners)
        invariant log == old(log) + Subscriptions(rs[..i])
        invariant subscribed == old(subscribed) + multiset(rs[..i])
      {
        assert Subscriptions(rs[..i + 1]) == Subscriptions(rs[..i]) + [Subscribed(rs[i])];
        assert rs[..i + 1] == rs[..i] + [rs[i]];
        log := log + [Subscribed(rs[i])];
        subscribed := subscribed + multiset{rs[i]};
        i := i + 1;
      }
      assert rs[..i] == rs;
    }

    /**
     * Unsubscribes the forwarding listener from every backing result, in dictionary
     * order; from a balanced count this leaves no subscription standing.
     */
    method UnsubscribeAll()
      modifies this
      ensures results == old(results) && listeners == old(listeners)
      ensures log == old(log) + Unsubscriptions(results.values)
      ensures old(subscribed) == multiset(results.values) ==> subscribed == multiset{}
    {
      var rs := results.values;
      var i := 0;
      assert rs[i..] == rs;
      while i < |rs|
        invariant 0 <= i <= |rs|
        invariant results == old(results) && listeners == old(listeners)
        invariant log == old(log) + Unsubscriptions(rs[..i])
        invariant old(subscribed) == multiset(rs) ==> subscribed == multiset(rs[i..])
      {
        assert Unsubscriptions(rs[..i + 1]) == Unsubscriptions(rs[..i]) + [Unsubscribed(rs[i])];
        assert rs[i..] == [rs[i]] + rs[i + 1..];
        log := log + [Unsubscribed(rs[i])];
        subscribed := subscribed - multiset{rs[i]};
        i := i + 1;
      }
      assert rs[..i] == rs;
    }

    /** `add_lookup_listener`: the first listener subscribes to every backing result. */
    method AddLookupListener(listener: ListenerId)
      modifies this
      ensures results == old(results) && listeners == old(listeners) + [listener]
      ensures log == old(log) + (if old(listeners) == [] then Subscriptions(results.values) else [])
      ensures old(Balanced()) ==> Balanced()
    {
      if listeners == [] {
        SubscribeAll();
      }
      listeners := listeners + [listener];
    }

    /**
     * `remove_lookup_listener`: ValueError for a listener not registered; the last
     * listener to go unsubscribes from every backing result.
     */
    method RemoveLookupListener(listener: ListenerId) returns (r: Outcome)
      modifies this
      ensures results == old(results)
      ensures listener !in old(listeners) ==> r == Fail(ValueError) && unchanged(this)
      ensures listener in old(listeners) ==>
        && r == Pass
        && listeners == RemoveFirstOf(old(listeners), listener)
        && log == old(log) + (if listeners == [] then Unsubscriptions(results.values) else [])
      ensures old(Balanced()) ==> Balanced()
    {
      if listener !in listeners {
        return Fail(ValueError);
      }
      listeners := RemoveFirstOf(listeners, listener);
      if listeners == [] {
        UnsubscribeAll();
      }
      r := Pass;
    }

    /**
     * A listener nobody holds any more drops out of the list through its weak
     * reference's callback. Nothing is unsubscribed, even when the list empties:
     * the forwarding listener stays subscribed to every backing result.
     */
    method ListenerCollected(listener: ListenerId)
      modifies this
      ensures results == old(results) && log == old(log) && subscribed == old(subscribed)
      ensures listeners == Without(old(listeners), listener)
      ensures old(Balanced()) && old(listeners) != [] ==> subscribed == multiset(results.values)
    {
      listeners := Without(listeners, listener);
    }

    /** `_proxy_listener`: a backing result changed; every listener is called with this result. */
    method ProxyListener()
      modifies this
      ensures results == old(results) && listeners == old(listeners) && subscribed == old(subscribed)
      ensures log == old(log) + Fire(listeners)
    {
      log := log + Fire(listeners);
    }

    /** `all_classes()`: the union of the backing results' classes. */
    function AllClasses(env: Backing): (classes: set<TypeTag>)
      reads this
      ensures forall t :: t in classes <==> exists r :: r in results.values && t in env.allClasses(r)
    {
      ClassesOver(env.allClasses, results.values)
    }

    /** `all_instances()`: the backing results' instances, chained in dictionary order. */
    function AllInstances(env: Backing): (instances: seq<Instance>)
      reads this
      ensures forall x :: x in instances <==> exists r :: r in results.values && x in env.allInstances(r)
    {
      Chain(env.allInstances, results.values)
    }

    /** `all_items()`: the backing results' items, chained in dictionary order. */
    function AllItems(env: Backing): (items: seq<Pair>)
      reads this
      ensures forall p :: p in items <==> exists r :: r in results.values && p in env.allItems(r)
    {
      Chain(env.allItems, results.values)
    }
  }

  /** What `_lookup_added(l)` did to `r`, given the state `r` had before. */
  ghost predicate AddedTo(r: PLResult, d0: Dict, listeners0: seq<ListenerId>, log0: seq<Event>,
                          subscribed0: multiset<ResultRef>, l: LookupRef, env: Backing)
    reads r
  {
    var result := env.lookupResult(l, r.cls);
    && |d0.keys| == |d0.values|
    && r.listeners == listeners0
    && r.results == Put(d0, l, result)
    && r.log == log0 + AddedEvents(listeners0, result, env)
    && r.subscribed == subscribed0 + if listeners0 == [] then multiset{} else multiset{result}
  }

  /** What `_lookup_removed(l)` did to `r` when `l` had an entry, given the state `r` had before. */
  ghost predicate RemovedFrom(r: PLResult, d0: Dict, log0: seq<Event>,
                              subscribed0: multiset<ResultRef>, l: LookupRef, env: Backing)
    reads r
  {
    && |d0.keys| == |d0.values| && l in d0.keys
    && var result := Get(d0, l).value;
    && r.results == Del(d0, l)
    && r.log == log0 + RemovedEvents(r.listeners, result, env)
    && r.subscribed == subscribed0 - if r.listeners == [] then multiset{} else multiset{result}
  }

  /**
   * `_lookup_added` for a lookup with no entry yet keeps the forwarding listener
   * subscribed once to each result exactly while there are listeners.
   */
  lemma AddingKeepsBalance(r: PLResult, d0: Dict, listeners0: seq<ListenerId>, log0: seq<Event>,
                           subscribed0: multiset<ResultRef>, l: LookupRef, env: Backing)
    requires AddedTo(r, d0, listeners0, log0, subscribed0, l, env)
    requires BalancedState(subscribed0, listeners0, d0) && l !in d0.keys
    ensures r.Balanced()
  {
  }

  /** `_lookup_removed` keeps the forwarding listener subscribed once to each remaining result. */
  lemma RemovingKeepsBalance(r: PLResult, d0: Dict, log0: seq<Event>,
                             subscribed0: multiset<ResultRef>, l: LookupRef, env: Backing)
    requires RemovedFrom(r, d0, log0, subscribed0, l, env)
    requires BalancedState(subscribed0, r.listeners, d0)
    ensures r.Balanced()
  {
    DelDropsItsResult(d0, l);
  }

  /**
   * The union lookup: its backing lookups in order, and the live union results,
   * one per queried class.
   */
  class ProxyLookup {
    var lookups: seq<LookupRef>
    var results: map<TypeTag, PLResult>

    /** Each result is filed under its class. */
    ghost predicate Valid()
      reads this, results.Values
    {
      forall t :: t in results ==> results[t].cls == t && results[t].Valid()
    }

    /** Every result has one entry per backing lookup, in list order. */
    ghost predicate Synced()
      reads this, results.Values
    {
      NoDuplicates(lookups) && forall t :: t in results ==> results[t].results.keys == lookups
    }

    constructor (lookups: seq<LookupRef>)
      ensures Valid() && Synced() == NoDuplicates(lookups)
      ensures this.lookups == lookups && results == map[]
    {
      this.lookups := lookups;
      results := map[];
    }

    /** `add_lookup(l)`: appends `l` and tells every live result. */
    method AddLookup(l: LookupRef, env: Backing)
      requires Valid()
      modifies this, results.Values
      ensures Valid() && results == old(results) && lookups == old(lookups) + [l]
      ensures forall r :: r in results.Values ==>
        AddedTo(r, old(r.results), old(r.listeners), old(r.log), old(r.subscribed), l, env)
      ensures old(Synced()) && l !in old(lookups) ==> Synced()
    {
      lookups := lookups + [l];
      AddToEach(results.Values, l, env);
      if old(Synced()) && l !in old(lookups) {
        forall t | t in results
          ensures results[t].results.keys == lookups
        {
          assert results[t] in results.Values;
        }
      }
    }

    /** The loop of `add_lookup`: `_lookup_added(l)` on each live result, in no particular order. */
    static method AddToEach(rs: set<PLResult>, l: LookupRef, env: Backing)
      requires forall r :: r in rs ==> r.Valid()
      modifies rs
      ensures forall r :: r in rs ==> r.Valid()
      ensures forall r :: r in rs ==>
        AddedTo(r, old(r.results), old(r.listeners), old(r.log), old(r.subscribed), l, env)
    {
      var pending := rs;
      while pending != {}
        invariant pending <= rs
        invariant forall r :: r in rs ==> r.Valid()
        invariant forall r :: r in pending ==> unchanged(r)
        invariant forall r :: r in rs && r !in pending ==>
          AddedTo(r, old(r.results), old(r.listeners), old(r.log), old(r.subscribed), l, env)
        decreases pending
      {
        var r :| r in pending;
        r.LookupAdded(l, env);
        pending := pending - {r};
      }
    }

    /**
     * `remove_lookup(l)`: ValueError, with nothing changed, for a lookup not in the
     * list; otherwise removes its first occurrence and tells every live result, and
     * stops at the first result with no entry for it (KeyError).
     */
    method RemoveLookup(l: LookupRef, env: Backing) returns (o: Outcome)
      requires Valid()
      modifies this, results.Values
      ensures Valid() && results == old(results)
      ensures l !in old(lookups) ==>
        o == Fail(ValueError) && lookups == old(lookups) && forall r :: r in results.Values ==> unchanged(r)
      ensures l in old(lookups) ==> lookups == RemoveFirstOf(old(lookups), l)
      ensures l in old(lookups) ==>
        (o == Pass <==> forall r :: r in results.Values ==> l in old(r.results.keys))
      ensures o.Fail? ==> o.error == ValueError || o.error == KeyError
      ensures o == Pass ==> forall r :: r in results.Values ==>
        RemovedFrom(r, old(r.results), old(r.log), old(r.subscribed), l, env)
      ensures old(Synced()) && l in old(lookups) ==> o == Pass && Synced()
    {
      if l !in lookups {
        return Fail(ValueError);
      }
      ghost var synced := Synced();
      if synced {
        EveryResultHas(results, lookups, l);
        RemoveFirstOfUnique(lookups, l);
      }
      lookups := RemoveFirstOf(lookups, l);
      o := RemoveFromEach(results.Values, l, env);
      if synced {
        forall t | t in results
          ensures results[t].results.keys == lookups
        {
          assert results[t] in results.Values;
        }
      }
    }

    /** Results synchronised with the list all have an entry for each listed lookup. */
    static lemma EveryResultHas(results: map<TypeTag, PLResult>, lookups: seq<LookupRef>, l: LookupRef)
      requires forall t :: t in results ==> results[t].results.keys == lookups
      requires l in lookups
      ensures forall r :: r in results.Values ==> l in r.results.keys
    {
      forall r | r in results.Values
        ensures l in r.results.keys
      {
        var t :| t in results && results[t] == r;
      }
    }

    /**
     * The loop of `remove_lookup`: `_lookup_removed(l)` on each live result, in no
     * particular order, stopping at the first KeyError.
     */
    static method RemoveFromEach(rs: set<PLResult>, l: LookupRef, env: Backing) returns (o: Outcome)
      requires forall r :: r in rs ==> r.Valid()
      modifies rs
      ensures forall r :: r in rs ==> r.Valid() && r.listeners == old(r.listeners)
      ensures o.Fail? ==> o.error == KeyError
      ensures o == Pass <==> forall r :: r in rs ==> l in old(r.results.keys)
      ensures o == Pass ==> forall r :: r in rs ==>
        RemovedFrom(r, old(r.results), old(r.log), old(r.subscribed), l, env)
    {
      var pending := rs;
      while pending != {}
        invariant pending <= rs
        invariant forall r :: r in rs ==> r.Valid() && r.listeners == old(r.listeners)
        invariant forall r :: r in pending ==> unchanged(r)
        invariant forall r :: r in rs && r !in pending ==>
          RemovedFrom(r, old(r.results), old(r.log), old(r.subscribed), l, env)
        decreases pending
      {
        var r :| r in pending;
        var step := r.LookupRemoved(l, env);
        if step.Fail? {
          return step;
        }
        pending := pending - {r};
      }
      o := Pass;
    }

    /** `lookup(cls)`: the answer of the first backing lookup, in list order, that has one. */
    method Lookup(cls: TypeTag, env: Backing) returns (instance: Option<Instance>)
      ensures instance.None? <==> forall i :: 0 <= i < |lookups| ==> env.lookup(lookups[i], cls).None?
      ensures instance.Some? ==>
        exists i ::
          && 0 <= i < |lookups| && env.lookup(lookups[i], cls) == instance
          && forall j :: 0 <= j < i ==> env.lookup(lookups[j], cls).None?
    {
      var i := 0;
      while i < |lookups|
        invariant 0 <= i <= |lookups|
        invariant forall j :: 0 <= j < i ==> env.lookup(lookups[j], cls).None?
      {
        var answer := env.lookup(lookups[i], cls);
        if answer.Some? {
          return answer;
        }
        i := i + 1;
      }
      instance := None;
    }

    /** `lookup_item(cls)`: the item of the first backing lookup, in list order, that has one. */
    method LookupItem(cls: TypeTag, env: Backing) returns (item: Option<Pair>)
      ensures item.None? <==> forall i :: 0 <= i < |lookups| ==> env.lookupItem(lookups[i], cls).None?
      ensures item.Some? ==>
        exists i ::
          && 0 <= i < |lookups| && env.lookupItem(lookups[i], cls) == item
          && forall j :: 0 <= j < i ==> env.lookupItem(lookups[j], cls).None?
    {
      var i := 0;
      while i < |lookups|
        invariant 0 <= i <= |lookups|
        invariant forall j :: 0 <= j < i ==> env.lookupItem(lookups[j], cls).None?
      {
        var answer := env.lookupItem(lookups[i], cls);
        if answer.Some? {
          return answer;
        }
        i := i + 1;
      }
      item := None;
    }

    /** `lookup_result(cls)`: the live result for `cls`, or a new one asking every backing lookup. */
    method LookupResult(cls: TypeTag, env: Backing) returns (r: PLResult)
      requires Valid()
      modifies this
      ensures Valid() && lookups == old(lookups)
      ensures cls in results && r == results[cls]
      ensures cls in old(results) ==> r == old(results[cls]) && results == old(results)
      ensures cls !in old(results) ==>
        && fresh(r) && results == old(results)[cls := r]
        && r.results == Build(env, cls, lookups) && r.listeners == [] && r.log == []
      ensures old(Synced()) ==> Synced()
    {
      if cls in results {
        return results[cls];
      }
      r := new PLResult(cls, lookups, env);
      results := results[cls := r];
    }

    /** A union result nobody holds any more leaves the weak registry. */
    method DropResult(cls: TypeTag)
      requires Valid()
      modifies this
      ensures Valid() && lookups == old(lookups) && results == old(results) - {cls}
      ensures old(Synced()) ==> Synced()
    {
      results := results - {cls};
    }

    /** The inherited `lookup_all(cls)`: the union result's instances. */
    method LookupAll(cls: TypeTag, env: Backing) returns (instances: seq<Instance>)
      requires Valid()
      modifies this
      ensures Valid() && lookups == old(lookups) && cls in results
      ensures instances == Chain(env.allInstances, results[cls].results.values)
      ensures cls !in old(results) ==> instances == Chain(env.allInstances, Build(env, cls, lookups).values)
      ensures old(Synced()) ==> Synced() && results[cls].results.keys == lookups
    {
      var r := LookupResult(cls, env);
      instances := r.AllInstances(env);
    }
  }
}
