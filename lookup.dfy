/**
 * The lookup API: what the composition lookups know of the lookups and results
 * they are built on, the default query methods every lookup inherits, listener
 * events, and the resolution of the system-wide default lookup.
 */
module LookupApi {
  import opened Wrappers
  import opened Types
  import opened Items

  /** Identities of lookups, results, listeners and lookup providers outside this model. */
  type LookupRef = nat
  type ResultRef = nat
  type ListenerId = nat
  type ProviderRef = nat

  /**
   * The answers, at one moment, of lookups and results that are not modelled here:
   * `lookup(cls)`, `lookup_item(cls)` and `lookup_result(cls)` of each lookup, and the
   * three queries of each result.
   */
  datatype Backing = Backing(
    lookup: (LookupRef, TypeTag) -> Option<Instance>,
    lookupItem: (LookupRef, TypeTag) -> Option<Pair>,
    lookupResult: (LookupRef, TypeTag) -> ResultRef,
    allClasses: ResultRef -> set<TypeTag>,
    allInstances: ResultRef -> seq<Instance>,
    allItems: ResultRef -> seq<Pair>)

  /** The inherited `lookup_item(cls)`: the first item of `lookup_result(cls)`, if it has one. */
  function DefaultLookupItem(items: seq<Pair>): (r: Option<Pair>)
    ensures r.None? <==> items == []
    ensures r.Some? ==> r.value in items && r.value == items[0]
  {
    if items == [] then None else Some(items[0])
  }

  /** Position of the first occurrence of `x` in `xs`. */
  function IndexOf<T(==)>(xs: seq<T>, x: T): (i: nat)
    requires x in xs
    ensures i < |xs| && xs[i] == x && x !in xs[..i]
  {
    if xs[0] == x then 0
    else
      var j := IndexOf(xs[1..], x);
      assert xs[..j + 1] == [xs[0]] + xs[1..][..j];
      j + 1
  }

  /** The first occurrence is the only index holding `x` with no `x` before it. */
  lemma IndexOfIsUnique<T>(xs: seq<T>, x: T, i: int)
    requires 0 <= i < |xs| && xs[i] == x && x !in xs[..i]
    ensures IndexOf(xs, x) == i
  {
  }

  /** `list.remove(x)`: the list without its first occurrence of `x`. */
  function RemoveFirstOf<T(==)>(xs: seq<T>, x: T): (r: seq<T>)
    requires x in xs
    ensures |r| == |xs| - 1
  {
    xs[..IndexOf(xs, x)] + xs[IndexOf(xs, x) + 1..]
  }

  /**
   * `list.remove(x)` drops exactly the first `x`: the elements before and after it
   * keep their order, and one occurrence of `x` is gone.
   */
  lemma RemoveFirstOfDropsFirst<T>(xs: seq<T>, x: T)
    requires x in xs
    ensures exists i :: 0 <= i < |xs| && xs[i] == x && x !in xs[..i] && RemoveFirstOf(xs, x) == xs[..i] + xs[i + 1..]
    ensures multiset(RemoveFirstOf(xs, x)) == multiset(xs)[x := multiset(xs)[x] - 1]
  {
    var i := IndexOf(xs, x);
    assert xs == xs[..i] + [x] + xs[i + 1..];
  }

  /** No element occurs twice. */
  predicate NoDuplicates<T(==)>(xs: seq<T>) {
    forall i, j :: 0 <= i < j < |xs| ==> xs[i] != xs[j]
  }

  /** Removing from a list without duplicates leaves one without duplicates, and without `x`. */
  lemma RemoveFirstOfUnique<T>(xs: seq<T>, x: T)
    requires x in xs && NoDuplicates(xs)
    ensures NoDuplicates(RemoveFirstOf(xs, x))
    ensures x !in RemoveFirstOf(xs, x)
    ensures forall y :: y != x ==> (y in RemoveFirstOf(xs, x) <==> y in xs)
  {
    var i := IndexOf(xs, x);
    var r := RemoveFirstOf(xs, x);
    assert forall k :: 0 <= k < |r| ==> r[k] == if k < i then xs[k] else xs[k + 1];
    assert xs == xs[..i] + [x] + xs[i + 1..];
  }

  /** One listener callback, or one (un)subscription of a forwarding listener to a result. */
  datatype Event =
    | Subscribed(result: ResultRef)
    | Unsubscribed(result: ResultRef)
    | Called(listener: ListenerId)

  /** Calling every listener once, in registration order. */
  function Fire(listeners: seq<ListenerId>): (es: seq<Event>)
    ensures |es| == |listeners|
    ensures forall i :: 0 <= i < |listeners| ==> es[i] == Called(listeners[i])
  {
    if listeners == [] then [] else [Called(listeners[0])] + Fire(listeners[1..])
  }

  /** The list without any occurrence of `x`; every other element keeps all its occurrences. */
  function Without(xs: seq<ListenerId>, x: ListenerId): (r: seq<ListenerId>)
    ensures forall y :: y in r <==> y in xs && y != x
    ensures multiset(r) == multiset(xs)[x := 0]
  {
    if xs == [] then []
    else
      assert xs == [xs[0]] + xs[1..];
      if xs[0] == x then Without(xs[1..], x)
      else [xs[0]] + Without(xs[1..], x)
  }

  /** Dropping `x` keeps the order of the rest: it works piecewise over a concatenation. */
  lemma {:induction false} WithoutSplits(a: seq<ListenerId>, b: seq<ListenerId>, x: ListenerId)
    ensures Without(a + b, x) == Without(a, x) + Without(b, x)
  {
    if a == [] {
      assert a + b == b;
    } else {
      assert (a + b)[0] == a[0] && (a + b)[1..] == a[1..] + b;
      WithoutSplits(a[1..], b, x);
    }
  }

  /**
   * The default lookup once chosen: a lookup found among the plugins (or handed out
   * by the recorded provider), a delegating lookup over a discovered provider, or
   * the union lookup over the plugin lookup itself.
   */
  datatype DefaultLookup =
    | Existing(ref: LookupRef)
    | DelegatedTo(provider: ProviderRef)
    | ProxyOverEntryPoints

  /**
   * What plugin discovery yields: a lookup, and whether that lookup is also a
   * lookup provider; and a lookup provider, asked for only when no lookup is found.
   */
  datatype Discovery = Discovery(lookup: Option<LookupRef>, lookupIsProvider: bool, provider: Option<ProviderRef>)

  /** The two recorded class attributes. */
  datatype DefaultState = DefaultState(lookup: Option<DefaultLookup>, provider: Option<ProviderRef>)

  /**
   * `Lookup.get_default()` from a state, a discovery, and what the recorded provider's
   * `get_lookup()` answers: the new state, whether discovery ran, and the lookup
   * returned.
   */
  function Resolve(s: DefaultState, found: Discovery, providerAnswer: Option<LookupRef>): (r: (DefaultState, bool, Option<DefaultLookup>))
    ensures s.lookup.Some? || s.provider.Some? ==> r.0 == s && !r.1
    ensures s.lookup.None? && s.provider.None? ==> r.1 && r.0.lookup.Some? && (r.2).Some?
    ensures s.lookup.None? && s.provider.None? && found.lookup.Some? ==>
      && r.0.lookup == Some(Existing(found.lookup.value))
      && r.0.provider == (if found.lookupIsProvider then Some(found.lookup.value) else None)
    ensures s.lookup.None? && s.provider.None? && found.lookup.None? && found.provider.Some? ==>
      r.0 == DefaultState(Some(DelegatedTo(found.provider.value)), None) && r.2 == r.0.lookup
    ensures s.lookup.None? && s.provider.None? && found.lookup.None? && found.provider.None? ==>
      r.0 == DefaultState(Some(ProxyOverEntryPoints), None) && r.2 == r.0.lookup
    ensures r.0.provider.Some? && providerAnswer.Some? ==> r.2 == Some(Existing(providerAnswer.value))
    ensures !(r.0.provider.Some? && providerAnswer.Some?) ==> r.2 == r.0.lookup
  {
    if s.lookup.Some? || s.provider.Some? then
      if s.provider.Some? && providerAnswer.Some? then (s, false, Some(Existing(providerAnswer.value)))
      else (s, false, s.lookup)
    else if found.lookup.Some? then
      var l := found.lookup.value;
      if found.lookupIsProvider then
        var t := DefaultState(Some(Existing(l)), Some(l));
        if providerAnswer.Some? then (t, true, Some(Existing(providerAnswer.value))) else (t, true, t.lookup)
      else (DefaultState(Some(Existing(l)), None), true, Some(Existing(l)))
    else if found.provider.Some? then
      var t := DefaultState(Some(DelegatedTo(found.provider.value)), None);
      (t, true, t.lookup)
    else
      var t := DefaultState(Some(ProxyOverEntryPoints), None);
      (t, true, t.lookup)
  }

  /**
   * Once resolved, the default is settled: later calls run no discovery, keep the
   * state, and return the same lookup unless the recorded provider hands out one.
   */
  lemma ResolveIsSettled(s: DefaultState, f1: Discovery, a1: Option<LookupRef>, f2: Discovery, a2: Option<LookupRef>)
    ensures var (s1, _, r1) := Resolve(s, f1, a1);
            var (s2, discovered, r2) := Resolve(s1, f2, a2);
            && s2 == s1 && !discovered
            && (s1.provider.None? || a2.None? ==> r2 == s1.lookup)
            && (a1 == a2 ==> r2 == r1)
  {
  }

  /**
   * The class attributes behind `get_default()`. The ghost counter records plugin
   * discoveries.
   */
  class DefaultRegistry {
    var defaultLookup: Option<DefaultLookup>
    var defaultProvider: Option<ProviderRef>
    ghost var discoveries: nat

    constructor ()
      ensures defaultLookup == None && defaultProvider == None && discoveries == 0
    {
      defaultLookup := None;
      defaultProvider := None;
      discoveries := 0;
    }

    /** `Lookup.get_default()`; `found` is what discovery would yield, `providerAnswer` the recorded provider's `get_lookup()`. */
    method GetDefault(found: Discovery, providerAnswer: Option<LookupRef>) returns (r: Option<DefaultLookup>)
      modifies this
      ensures var (s, discovered, answer) := Resolve(old(DefaultState(defaultLookup, defaultProvider)), found, providerAnswer);
              && DefaultState(defaultLookup, defaultProvider) == s
              && r == answer
              && discoveries == old(discoveries) + (if discovered then 1 else 0)
    {
      if defaultLookup.Some? || defaultProvider.Some? {
        if defaultProvider.Some? && providerAnswer.Some? {
          return Some(Existing(providerAnswer.value));
        }
        return defaultLookup;
      }
      discoveries := discoveries + 1;
      if found.lookup.Some? {
        defaultLookup := Some(Existing(found.lookup.value));
        if found.lookupIsProvider {
          defaultProvider := Some(found.lookup.value);
          if providerAnswer.Some? {
            return Some(Existing(providerAnswer.value));
          }
        }
        return defaultLookup;
      }
      if found.provider.Some? {
        defaultLookup := Some(DelegatedTo(found.provider.value));
        return defaultLookup;
      }
      defaultLookup := Some(ProxyOverEntryPoints);
      r := defaultLookup;
    }
  }
}
