/**
 * The delegating lookup: forwards every query to a delegate lookup that a lookup
 * provider may replace, and hands its live results, with their listener
 * subscriptions, over to the new delegate.
 */
module DelegatedLookup {
  import opened Wrappers
  import opened Types
  import opened Items
  import opened LookupApi

  /**
   * What re-pointing a result from `before` to `after` makes the underlying
   * results and the listeners see: nothing when the result is the same or nobody
   * listens; otherwise the old result loses the forwarding listener, the listeners
   * are called when either side has some class, and the new result gains it.
   */
  function SwapEvents(listeners: seq<ListenerId>, before: ResultRef, after: ResultRef, env: Backing): seq<Event> {
    if before == after || listeners == [] then []
    else
      [Unsubscribed(before)]
      + (if env.allClasses(before) != {} || env.allClasses(after) != {} then Fire(listeners) else [])
      + [Subscribed(after)]
  }

  /** The forwarding listener stands on the current underlying result exactly while there are listeners. */
  ghost predicate BalancedOn(subscribed: multiset<ResultRef>, listeners: seq<ListenerId>, delegate: ResultRef) {
    subscribed == if listeners == [] then multiset{} else multiset{delegate}
  }

  /**
   * A delegating result for `cls`: the current underlying result and its own
   * listeners. The ghost log records listener calls and (un)subscriptions of the
   * forwarding listener; the ghost multiset counts the subscriptions standing.
   */
  class DelegatedResult {
    const cls: TypeTag
    var delegate: ResultRef
    var listeners: seq<ListenerId>
    ghost var log: seq<Event>
    ghost var subscribed: multiset<ResultRef>

    ghost predicate Balanced()
      reads this
    {
      BalancedOn(subscribed, listeners, delegate)
    }

    /** Asks the owning lookup's current delegate for its result for `cls`. */
    constructor (cls: TypeTag, lookupDelegate: LookupRef, env: Backing)
      ensures this.cls == cls && delegate == env.lookupResult(lookupDelegate, cls)
      ensures listeners == [] && log == [] && subscribed == multiset{} && Balanced()
    {
      this.cls := cls;
      delegate := env.lookupResult(lookupDelegate, cls);
      listeners := [];
      log := [];
      subscribed := multiset{};
    }

    /**
     * `lookup_updated()`: asks the owning lookup's (new) delegate for its result;
     * when that is another result, switches to it, moving the forwarding listener
     * and calling the listeners if either side has some class.
     */
    method LookupUpdated(lookupDelegate: LookupRef, env: Backing)
      modifies this
      ensures Swapped(this, old(delegate), old(listeners), old(log), old(subscribed), lookupDelegate, env)
      ensures old(Balanced()) ==> Balanced()
    {
      var result := env.lookupResult(lookupDelegate, cls);
      if result != delegate {
        var oldResult := delegate;
        delegate := result;
        if listeners != [] {
          log := log + [Unsubscribed(oldResult)];
          if env.allClasses(oldResult) != {} || env.allClasses(result) != {} {
            log := log + Fire(listeners);
          }
          log := log + [Subscribed(result)];
          subscribed := subscribed - multiset{oldResult} + multiset{result};
        }
      }
    }

    /** `add_lookup_listener`: the first listener subscribes the forwarding listener to the underlying result. */
    method AddLookupListener(listener: ListenerId)
      modifies this
      ensures delegate == old(delegate) && listeners == old(listeners) + [listener]
      ensures log == old(log) + (if old(listeners) == [] then [Subscribed(delegate)] else [])
      ensures old(Balanced()) ==> Balanced()
    {
      if listeners == [] {
        log := log + [Subscribed(delegate)];
        subscribed := subscribed + multiset{delegate};
      }
      listeners := listeners + [listener];
    }

    /**
     * `remove_lookup_listener`: ValueError for a listener not registered; the last
     * listener to go unsubscribes the forwarding listener.
     */
    method RemoveLookupListener(listener: ListenerId) returns (r: Outcome)
      modifies this
      ensures delegate == old(delegate)
      ensures listener !in old(listeners) ==> r == Fail(ValueError) && unchanged(this)
      ensures listener in old(listeners) ==>
        && r == Pass
        && listeners == RemoveFirstOf(old(listeners), listener)
        && log == old(log) + (if listeners == [] then [Unsubscribed(delegate)] else [])
      ensures old(Balanced()) ==> Balanced()
    {
      if listener !in listeners {
        return Fail(ValueError);
      }
      listeners := RemoveFirstOf(listeners, listener);
      if listeners == [] {
        log := log + [Unsubscribed(delegate)];
        subscribed := subscribed - multiset{delegate};
      }
      r := Pass;
    }

    /**
     * A listener nobody holds any more drops out through its weak reference's
     * callback; the forwarding listener stays subscribed even when none is left.
     */
    method ListenerCollected(listener: ListenerId)
      modifies this
      ensures delegate == old(delegate) && log == old(log) && subscribed == old(subscribed)
      ensures listeners == Without(old(listeners), listener)
      ensures old(Balanced()) && old(listeners) != [] ==> subscribed == multiset{delegate}
    {
      listeners := Without(listeners, listener);
    }

    /** `_proxy_listener`: the underlying result changed; every listener is called with this result. */
    method ProxyListener()
      modifies this
      ensures delegate == old(delegate) && listeners == old(listeners) && subscribed == old(subscribed)
      ensures log == old(log) + Fire(listeners)
    {
      log := log + Fire(listeners);
    }

    /** `all_classes()`, `all_instances()` and `all_items()` are those of the underlying result. */
    function AllClasses(env: Backing): set<TypeTag>
      reads this
    {
      env.allClasses(delegate)
    }

    function AllInstances(env: Backing): seq<Instance>
      reads this
    {
      env.allInstances(delegate)
    }

    function AllItems(env: Backing): seq<Pair>
      reads this
    {
      env.allItems(delegate)
    }
  }

  /**
   * What `lookup_updated()` did to `r` when its owning lookup delegates to `d`,
   * given the state `r` had before.
   */
  ghost predicate Swapped(r: DelegatedResult, delegate0: ResultRef, listeners0: seq<ListenerId>, log0: seq<Event>,
                          subscribed0: multiset<ResultRef>, d: LookupRef, env: Backing)
    reads r
  {
    var result := env.lookupResult(d, r.cls);
    && r.listeners == listeners0
    && r.delegate == result
    && r.log == log0 + SwapEvents(listeners0, delegate0, result, env)
    && r.subscribed == if delegate0 == result || listeners0 == [] then subscribed0
                       else subscribed0 - multiset{delegate0} + multiset{result}
  }

  /**
   * Swapping keeps the forwarding listener subscribed to exactly the current
   * underlying result while there are listeners; the listeners are called at most
   * once, and only between the unsubscription and the subscription.
   */
  lemma SwapKeepsBalance(r: DelegatedResult, delegate0: ResultRef, listeners0: seq<ListenerId>, log0: seq<Event>,
                         subscribed0: multiset<ResultRef>, d: LookupRef, env: Backing)
    requires Swapped(r, delegate0, listeners0, log0, subscribed0, d, env)
    requires BalancedOn(subscribed0, listeners0, delegate0)
    ensures r.Balanced()
    ensures var es := r.log[|log0|..];
      && (es == [] <==> delegate0 == r.delegate || listeners0 == [])
      && (es != [] ==> es[0] == Unsubscribed(delegate0) && es[|es| - 1] == Subscribed(r.delegate))
      && (es != [] ==> (|es| == 2 <==> env.allClasses(delegate0) == {} && env.allClasses(r.delegate) == {}))
      && (|es| > 2 ==> es[1..|es| - 1] == Fire(listeners0))
  {
    var es := r.log[|log0|..];
    assert es == SwapEvents(listeners0, delegate0, r.delegate, env);
  }

  /**
   * The delegating lookup: its provider, the delegate the provider last handed
   * out, and the live delegating results, one per queried class. The ghost counter
   * records the calls to the provider's `get_lookup()`.
   */
  class DelegatedLookup {
    const provider: ProviderRef
    var delegate: LookupRef
    var results: map<TypeTag, DelegatedResult>
    ghost var providerCalls: nat

    /** Each result is filed under its class. */
    ghost predicate Valid()
      reads this, results.Values
    {
      forall t :: t in results ==> results[t].cls == t
    }

    /** Every live result wraps the current delegate's result for its class. */
    ghost predicate Tracks(env: Backing)
      reads this, results.Values
    {
      forall t :: t in results ==> results[t].delegate == env.lookupResult(delegate, t)
    }

    /** Asks the provider once; `answer` is what its `get_lookup()` returns. */
    constructor (provider: ProviderRef, answer: LookupRef)
      ensures Valid() && this.provider == provider && delegate == answer
      ensures results == map[] && providerCalls == 1
    {
      this.provider := provider;
      delegate := answer;
      results := map[];
      providerCalls := 1;
    }

    /**
     * `lookup_updated()`: asks the provider again (`answer`); a different lookup
     * becomes the delegate and every live result is re-pointed to it. The same
     * lookup changes nothing.
     */
    method LookupUpdated(answer: LookupRef, env: Backing)
      requires Valid()
      modifies this, results.Values
      ensures Valid() && results == old(results) && delegate == answer
      ensures providerCalls == old(providerCalls) + 1
      ensures answer == old(delegate) ==> forall r :: r in results.Values ==> unchanged(r)
      ensures answer != old(delegate) ==> forall r :: r in results.Values ==>
        Swapped(r, old(r.delegate), old(r.listeners), old(r.log), old(r.subscribed), answer, env)
      ensures answer != old(delegate) || old(Tracks(env)) ==> Tracks(env)
      ensures forall r :: r in results.Values && old(r.Balanced()) ==> r.Balanced()
      ensures forall cls :: Lookup(cls, env) == env.lookup(answer, cls)
    {
      providerCalls := providerCalls + 1;
      if delegate != answer {
        delegate := answer;
        SwapEach(results.Values, answer, env);
        forall t | t in results
          ensures results[t].delegate == env.lookupResult(delegate, t)
        {
          assert results[t] in results.Values;
        }
      }
    }

    /** The loop of `lookup_updated()`: re-points each live result, in no particular order. */
    static method SwapEach(rs: set<DelegatedResult>, d: LookupRef, env: Backing)
      modifies rs
      ensures forall r :: r in rs ==>
        Swapped(r, old(r.delegate), old(r.listeners), old(r.log), old(r.subscribed), d, env)
      ensures forall r :: r in rs && old(r.Balanced()) ==> r.Balanced()
    {
      var pending := rs;
      while pending != {}
        invariant pending <= rs
        invariant forall r :: r in pending ==> unchanged(r)
        invariant forall r :: r in rs && r !in pending ==>
          Swapped(r, old(r.delegate), old(r.listeners), old(r.log), old(r.subscribed), d, env)
        invariant forall r :: r in rs && r !in pending && old(r.Balanced()) ==> r.Balanced()
        decreases pending
      {
        var r :| r in pending;
        r.LookupUpdated(d, env);
        pending := pending - {r};
      }
    }

    /** `lookup(cls)`: the delegate's answer. */
    function Lookup(cls: TypeTag, env: Backing): Option<Instance>
      reads this
    {
      env.lookup(delegate, cls)
    }

    /**
     * While the results track the delegate, the live result for a class answers
     * `all_classes`, `all_instances` and `all_items` as the current delegate's own
     * result for that class does.
     */
    lemma LiveResultAnswersAsDelegate(cls: TypeTag, env: Backing)
      requires Tracks(env) && cls in results
      ensures results[cls].AllClasses(env) == env.allClasses(env.lookupResult(delegate, cls))
      ensures results[cls].AllInstances(env) == env.allInstances(env.lookupResult(delegate, cls))
      ensures results[cls].AllItems(env) == env.allItems(env.lookupResult(delegate, cls))
    {
    }

    /**
     * `lookup_result(cls)`: the live result for `cls`, the same object across
     * delegate swaps, or a new one wrapping the delegate's result.
     */
    method LookupResult(cls: TypeTag, env: Backing) returns (r: DelegatedResult)
      requires Valid()
      modifies this
      ensures Valid() && delegate == old(delegate) && providerCalls == old(providerCalls)
      ensures cls in results && r == results[cls]
      ensures cls in old(results) ==> r == old(results[cls]) && results == old(results)
      ensures cls !in old(results) ==>
        && fresh(r) && results == old(results)[cls := r]
        && r.listeners == [] && r.log == [] && r.Balanced()
      ensures old(Tracks(env)) ==> Tracks(env) && r.delegate == env.lookupResult(delegate, cls)
    {
      if cls in results {
        return results[cls];
      }
      r := new DelegatedResult(cls, delegate, env);
      results := results[cls := r];
    }

    /** A delegating result nobody holds any more leaves the weak registry. */
    method DropResult(cls: TypeTag, env: Backing)
      requires Valid()
      modifies this
      ensures Valid() && delegate == old(delegate) && results == old(results) - {cls}
      ensures old(Tracks(env)) ==> Tracks(env)
    {
      results := results - {cls};
    }

    /**
     * The inherited `lookup_item(cls)`: the first item of the live result; while
     * the results track the delegate, the first item of the delegate's result.
     */
    method LookupItem(cls: TypeTag, env: Backing) returns (item: Option<Pair>)
      requires Valid()
      modifies this
      ensures Valid() && delegate == old(delegate) && cls in results
      ensures item == DefaultLookupItem(results[cls].AllItems(env))
      ensures old(Tracks(env)) ==> Tracks(env)
      ensures old(Tracks(env)) ==>
        var items := env.allItems(env.lookupResult(delegate, cls));
        && (item.None? <==> items == [])
        && (item.Some? ==> item.value == items[0])
    {
      var r := LookupResult(cls, env);
      item := DefaultLookupItem(r.AllItems(env));
    }

    /**
     * The inherited `lookup_all(cls)`: the live result's instances; while the
     * results track the delegate, exactly the delegate's instances.
     */
    method LookupAll(cls: TypeTag, env: Backing) returns (instances: seq<Instance>)
      requires Valid()
      modifies this
      ensures Valid() && delegate == old(delegate) && cls in results
      ensures instances == results[cls].AllInstances(env)
      ensures old(Tracks(env)) ==> Tracks(env) && instances == env.allInstances(env.lookupResult(delegate, cls))
    {
      var r := LookupResult(cls, env);
      instances := r.AllInstances(env);
    }
  }
}
