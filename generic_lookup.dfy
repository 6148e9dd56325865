/**
 * The generic lookup engine: the set storage with its registry of live results,
 * the results with their caches, the lookup with its lazily created storage and
 * its single-writer flag, and the `Content` through which an owner fills it.
 *
 * The storage, the results and the lookup refer to each other, so they share
 * this module; the set algebra they use is module `SetStorage`.
 */
module GenericLookup {
  import opened Wrappers
  import opened Types
  import opened Items
  import opened Sets = SetStorage

  /**
   * One hand-off of a changed result to its listeners: `viaExecutor` when it went
   * through the content's executor, and whether the lookup was still refusing
   * modifications at that moment.
   */
  datatype Notification = Notification(result: GLResult, viaExecutor: bool, lookupBusy: bool)

  /**
   * `log` hands each result of `rs` to its listeners exactly once, by the given
   * route, while the lookup accepts modifications again.
   */
  ghost predicate DispatchedOnce(log: seq<Notification>, rs: set<GLResult>, viaExecutor: bool) {
    && (forall i, j :: 0 <= i < j < |log| ==> log[i].result != log[j].result)
    && (forall i :: 0 <= i < |log| ==> log[i].result in rs)
    && (forall i :: 0 <= i < |log| ==> log[i].viaExecutor == viaExecutor && !log[i].lookupBusy)
    && (forall r :: r in rs ==> exists i :: 0 <= i < |log| && log[i].result == r)
  }

  /** `items` lists the pairs of `m` that answer a query for `cls`, each once. */
  ghost predicate Enumerates(items: seq<Pair>, m: PairSet, cls: TypeTag) {
    && (forall i, j :: 0 <= i < j < |items| ==> items[i] != items[j])
    && (forall p :: p in items <==> p in Matching(m, cls))
  }

  /** The classes represented by some items. */
  function TypesOf(items: seq<Pair>): set<TypeTag> {
    set p | p in items :: PairType(p)
  }

  /** The instances of the items whose type is a subtype of `cls`, in order. */
  function InstancesOf(items: seq<Pair>, cls: TypeTag): (r: seq<Instance>)
    ensures |r| <= |items|
    ensures forall x :: x in r ==> exists p :: p in items && IsSubtype(PairType(p), cls) && PairInstance(p) == x
  {
    if items == [] then []
    else
      var rest := InstancesOf(items[1..], cls);
      if IsSubtype(PairType(items[0]), cls) then [PairInstance(items[0])] + rest else rest
  }

  /** The instances of the pairs of `m` that answer a query for `cls`. */
  ghost function InstancesMatching(m: PairSet, cls: TypeTag): set<Instance> {
    set p | p in Matching(m, cls) :: PairInstance(p)
  }

  /** When every item matches `cls`, the filter of `all_instances` keeps them all. */
  lemma {:induction false} InstancesOfKeepsMatchingItems(items: seq<Pair>, cls: TypeTag)
    requires forall p :: p in items ==> IsSubtype(PairType(p), cls)
    ensures |InstancesOf(items, cls)| == |items|
    ensures forall i :: 0 <= i < |items| ==> InstancesOf(items, cls)[i] == PairInstance(items[i])
  {
    if items != [] {
      assert forall p :: p in items[1..] ==> p in items;
      InstancesOfKeepsMatchingItems(items[1..], cls);
    }
  }

  /** The instances `all_instances` lists from an enumeration are exactly those of the matching pairs. */
  lemma InstancesOfEnumeration(items: seq<Pair>, m: PairSet, cls: TypeTag)
    requires Enumerates(items, m, cls)
    ensures forall x :: x in InstancesOf(items, cls) <==> x in InstancesMatching(m, cls)
  {
    InstancesOfKeepsMatchingItems(items, cls);
    forall x | x in InstancesMatching(m, cls) ensures x in InstancesOf(items, cls) {
      var p :| p in Matching(m, cls) && PairInstance(p) == x;
      var i :| 0 <= i < |items| && items[i] == p;
      assert InstancesOf(items, cls)[i] == x;
    }
  }

  /** The classes of an enumeration are exactly the classes of the matching pairs, all below `cls`. */
  lemma TypesOfEnumeration(items: seq<Pair>, m: PairSet, cls: TypeTag)
    requires Enumerates(items, m, cls)
    ensures TypesOf(items) == set p | p in Matching(m, cls) :: PairType(p)
    ensures forall t :: t in TypesOf(items) ==> IsSubtype(t, cls)
  {
    forall t | t in TypesOf(items) ensures IsSubtype(t, cls) {
      var p :| p in items && PairType(p) == t;
      assert p in Matching(m, cls);
    }
  }

  /**
   * The storage: the current set of pairs and the registry of live results keyed by
   * their queried class. A result nobody holds any more leaves the registry through
   * `Evict`.
   */
  class SetStorage {
    var content: PairSet
    var results: map<TypeTag, GLResult>

    /** The content is a set, and each result is filed under the class it answers. */
    ghost predicate Valid()
      reads this
    {
      && WellKeyed(content)
      && (forall t :: t in results ==> results[t].cls == t)
    }

    constructor ()
      ensures Valid()
      ensures content == map[] && results == map[]
    {
      content := map[];
      results := map[];
    }

    /** The registered results whose class is one of `types`. */
    ghost function ResultsFor(types: set<TypeTag>): set<GLResult>
      reads this
    {
      set t | t in types && t in results :: results[t]
    }

    /** A transaction starting from the current content. */
    method BeginTransaction() returns (tx: SetTransaction)
      requires Valid()
      ensures fresh(tx) && tx.Valid()
      ensures tx.newList == content && tx.changed == map[]
    {
      tx := new SetTransaction(content);
    }

    /**
     * Installs the transaction's set and answers the registered results whose class
     * is a superclass of a changed pair's class; exactly those have their caches
     * cleared.
     */
    method EndTransaction(tx: SetTransaction) returns (toNotify: set<GLResult>)
      requires Valid() && tx.Valid()
      modifies this, results.Values
      ensures Valid()
      ensures content == tx.newList && results == old(results)
      ensures toNotify == ResultsFor(Affected(results.Keys, tx.changed.Values))
      ensures forall r :: r in toNotify ==> r.Cleared()
      ensures forall r :: r in results.Values && r !in toNotify ==> unchanged(r)
    {
      var changes;
      content, changes := tx.NewContent();
      var pairs := changes.Values;
      toNotify := {};
      ghost var done: set<Pair> := {};
      var todo := pairs;
      while todo != {}
        invariant todo <= pairs && done == pairs - todo
        invariant Valid() && content == tx.newList && results == old(results)
        invariant toNotify == ResultsFor(Affected(results.Keys, done))
        invariant forall r :: r in toNotify ==> r.Cleared()
        invariant forall r :: r in results.Values && r !in toNotify ==> unchanged(r)
        decreases todo
      {
        var p :| p in todo;
        var cleared := ClearAbove(PairType(p));
        toNotify := toNotify + cleared;
        AffectedGrows(results.Keys, done, p);
        done := done + {p};
        todo := todo - {p};
      }
    }

    /** Clears the caches of the results registered for a superclass of `cls`, and answers them. */
    method ClearAbove(cls: TypeTag) returns (cleared: set<GLResult>)
      requires Valid()
      modifies results.Values
      ensures cleared == ResultsFor(Above(results.Keys, cls))
      ensures forall r :: r in cleared ==> r.Cleared()
      ensures forall r :: r in results.Values && r !in cleared ==> unchanged(r)
    {
      cleared := {};
      var pending := results.Keys;
      while pending != {}
        invariant pending <= results.Keys
        invariant cleared == ResultsFor(Above(results.Keys - pending, cls))
        invariant forall r :: r in cleared ==> r.Cleared()
        invariant forall r :: r in results.Values && r !in cleared ==> unchanged(r)
        decreases pending
      {
        var t :| t in pending;
        if IsSubtype(cls, t) {
          var r := results[t];
          r.ClearCache();
          cleared := cleared + {r};
        }
        assert Above(results.Keys - (pending - {t}), cls)
            == Above(results.Keys - pending, cls) + (if IsSubtype(cls, t) then {t} else {});
        pending := pending - {t};
      }
    }

    /** The pairs answering a query for `cls`, each once, in the set's iteration order. */
    method Lookup(cls: TypeTag) returns (pairs: seq<Pair>)
      requires Valid()
      ensures Enumerates(pairs, content, cls)
    {
      pairs := [];
      var remaining := content.Keys;
      while remaining != {}
        invariant remaining <= content.Keys
        invariant forall i, j :: 0 <= i < j < |pairs| ==> pairs[i] != pairs[j]
        invariant forall i :: 0 <= i < |pairs| ==> Id(pairs[i]) !in remaining
        invariant forall p :: p in pairs <==> p in MatchingAmong(content, content.Keys - remaining, cls)
        decreases remaining
      {
        var id :| id in remaining;
        var p := content[id];
        if IsSubtype(PairType(p), cls) {
          pairs := pairs + [p];
        }
        remaining := remaining - {id};
      }
      assert content.Keys - remaining == content.Keys;
    }

    /** Files `r` under its class, replacing any result filed there. */
    method RegisterResult(r: GLResult)
      requires Valid()
      modifies this
      ensures Valid()
      ensures content == old(content) && results == old(results)[r.cls := r]
    {
      results := results[r.cls := r];
    }

    /** The result filed under exactly `cls`, if any. */
    method FindResult(cls: TypeTag) returns (r: Option<GLResult>)
      requires Valid()
      ensures r.Some? <==> cls in results
      ensures r.Some? ==> r.value == results[cls] && r.value.cls == cls
    {
      r := if cls in results then Some(results[cls]) else None;
    }

    /** The registry only holds results weakly: one nobody holds is dropped. */
    method Evict(cls: TypeTag)
      requires Valid()
      modifies this
      ensures Valid()
      ensures content == old(content) && results == old(results) - {cls}
    {
      results := results - {cls};
    }
  }

  /** The registered classes that are superclasses of `cls`. */
  function Above(types: set<TypeTag>, cls: TypeTag): set<TypeTag> {
    set t | t in types && IsSubtype(cls, t)
  }

  /** The matching pairs among the entries of `m` under `ids`. */
  function MatchingAmong(m: PairSet, ids: set<PairId>, cls: TypeTag): set<Pair> {
    set id | id in ids && id in m && IsSubtype(PairType(m[id]), cls) :: m[id]
  }

  /** One more changed pair concerns the superclasses of its class in addition. */
  lemma AffectedGrows(types: set<TypeTag>, done: set<Pair>, p: Pair)
    ensures Affected(types, done + {p}) == Affected(types, done) + Above(types, PairType(p))
  {
  }

  /**
   * A live result of a query for `cls`, with its three caches. The classes cache is
   * trusted whenever it is set; the items and instances caches only when non-empty.
   */
  class GLResult {
    const lookup: GenericLookup
    const cls: TypeTag
    var classesCache: Option<set<TypeTag>>
    var itemsCache: Option<seq<Pair>>
    var instancesCache: Option<seq<Instance>>

    /** The items cache is trusted only when it holds some items. */
    static predicate ItemsCached(cache: Option<seq<Pair>>) {
      cache.Some? && cache.value != []
    }

    /** Likewise the instances cache. */
    static predicate InstancesCached(cache: Option<seq<Instance>>) {
      cache.Some? && cache.value != []
    }

    ghost predicate Cleared()
      reads this
    {
      classesCache.None? && itemsCache.None? && instancesCache.None?
    }

    /**
     * The trusted caches say what a query for `cls` over `m` answers: the classes of
     * the matching pairs, an enumeration of them, and their instances.
     */
    ghost predicate AgreesWith(m: PairSet)
      reads this
    {
      && (classesCache.Some? ==> classesCache.value == set p | p in Matching(m, cls) :: PairType(p))
      && (ItemsCached(itemsCache) ==> Enumerates(itemsCache.value, m, cls))
      && (InstancesCached(instancesCache) ==> forall x :: x in instancesCache.value <==> x in InstancesMatching(m, cls))
    }

    /** This result is the one the lookup's storage files under its class. */
    ghost predicate Registered()
      reads this, lookup, lookup.storage
    {
      lookup.storage != null && cls in lookup.storage.results && lookup.storage.results[cls] == this
    }

    constructor (lookup: GenericLookup, cls: TypeTag)
      ensures this.lookup == lookup && this.cls == cls && Cleared()
    {
      this.lookup := lookup;
      this.cls := cls;
      classesCache, itemsCache, instancesCache := None, None, None;
    }

    /** Called when a transaction changed what this result answers. */
    method ClearCache()
      modifies this
      ensures Cleared()
    {
      classesCache, itemsCache, instancesCache := None, None, None;
    }

    /** The items, from the cache when it holds some, otherwise enumerated afresh and cached. */
    method ItemsWithoutBeforeLookup() returns (items: seq<Pair>)
      requires lookup.Valid()
      modifies this, lookup
      ensures lookup.storageIsUsed == old(lookup.storageIsUsed) && lookup.notifications == old(lookup.notifications)
      ensures lookup.Valid() && lookup.queries == old(lookup.queries)
      ensures classesCache == old(classesCache) && instancesCache == old(instancesCache)
      ensures itemsCache == Some(items)
      ensures ItemsCached(old(itemsCache)) ==> items == old(itemsCache).value && lookup.storage == old(lookup.storage)
      ensures !ItemsCached(old(itemsCache)) ==>
        lookup.StorageKept(old(lookup.storage)) && Enumerates(items, lookup.storage.content, cls)
      ensures lookup.Content() == old(lookup.Content()) && (Registered() <==> old(Registered()))
      ensures old(lookup.CachesAgree()) ==> lookup.CachesAgree()
      ensures old(lookup.CachesAgree() && Registered()) ==> Enumerates(items, lookup.Content(), cls)
    {
      if ItemsCached(itemsCache) {
        return itemsCache.value;
      }
      var storage := lookup.StorageForLookup();
      items := storage.Lookup(cls);
      itemsCache := Some(items);
    }

    /** `all_items()`: a query, then the items. */
    method AllItems() returns (items: seq<Pair>)
      requires lookup.Valid()
      modifies this, lookup
      ensures lookup.storageIsUsed == old(lookup.storageIsUsed) && lookup.notifications == old(lookup.notifications)
      ensures lookup.Valid() && lookup.queries == old(lookup.queries) + [cls]
      ensures classesCache == old(classesCache) && instancesCache == old(instancesCache)
      ensures itemsCache == Some(items)
      ensures ItemsCached(old(itemsCache)) ==> items == old(itemsCache).value && lookup.storage == old(lookup.storage)
      ensures !ItemsCached(old(itemsCache)) ==>
        lookup.StorageKept(old(lookup.storage)) && Enumerates(items, lookup.storage.content, cls)
      ensures lookup.Content() == old(lookup.Content()) && (Registered() <==> old(Registered()))
      ensures old(lookup.CachesAgree()) ==> lookup.CachesAgree()
      ensures old(lookup.CachesAgree() && Registered()) ==> Enumerates(items, lookup.Content(), cls)
    {
      lookup.BeforeLookup(cls);
      items := ItemsWithoutBeforeLookup();
    }

    /** `all_classes()`: the cached set whenever there is one, else the classes of the items. */
    method AllClasses() returns (classes: set<TypeTag>)
      requires lookup.Valid()
      modifies this, lookup
      ensures lookup.storageIsUsed == old(lookup.storageIsUsed) && lookup.notifications == old(lookup.notifications)
      ensures lookup.Valid() && lookup.queries == old(lookup.queries) + [cls]
      ensures instancesCache == old(instancesCache)
      ensures old(classesCache).Some? ==>
        classes == old(classesCache).value && itemsCache == old(itemsCache) && lookup.storage == old(lookup.storage)
      ensures old(classesCache).None? ==>
        && classesCache == Some(classes)
        && itemsCache.Some? && classes == TypesOf(itemsCache.value)
        && (ItemsCached(old(itemsCache)) ==> itemsCache == old(itemsCache) && lookup.storage == old(lookup.storage))
        && (!ItemsCached(old(itemsCache)) ==>
              lookup.StorageKept(old(lookup.storage)) && Enumerates(itemsCache.value, lookup.storage.content, cls))
      ensures lookup.Content() == old(lookup.Content()) && (Registered() <==> old(Registered()))
      ensures old(lookup.CachesAgree()) ==> lookup.CachesAgree()
      ensures old(lookup.CachesAgree() && Registered()) ==>
        classes == set p | p in Matching(lookup.Content(), cls) :: PairType(p)
    {
      lookup.BeforeLookup(cls);
      if classesCache.Some? {
        return classesCache.value;
      }
      var items := ItemsWithoutBeforeLookup();
      classes := TypesOf(items);
      if Enumerates(items, lookup.Content(), cls) {
        TypesOfEnumeration(items, lookup.Content(), cls);
      }
      classesCache := Some(classes);
    }

    /**
     * `all_instances()`: the cached instances when there are some, else the instances
     * of the matching items, which are then cached.
     */
    method AllInstances() returns (instances: seq<Instance>)
      requires lookup.Valid()
      modifies this, lookup
      ensures lookup.storageIsUsed == old(lookup.storageIsUsed) && lookup.notifications == old(lookup.notifications)
      ensures lookup.Valid() && lookup.queries == old(lookup.queries) + [cls]
      ensures classesCache == old(classesCache)
      ensures InstancesCached(old(instancesCache)) ==>
        instances == old(instancesCache).value && itemsCache == old(itemsCache) && lookup.storage == old(lookup.storage)
      ensures !InstancesCached(old(instancesCache)) ==>
        && instancesCache == Some(instances)
        && itemsCache.Some? && instances == InstancesOf(itemsCache.value, cls)
        && (ItemsCached(old(itemsCache)) ==> itemsCache == old(itemsCache) && lookup.storage == old(lookup.storage))
        && (!ItemsCached(old(itemsCache)) ==>
              lookup.StorageKept(old(lookup.storage)) && Enumerates(itemsCache.value, lookup.storage.content, cls))
      ensures lookup.Content() == old(lookup.Content()) && (Registered() <==> old(Registered()))
      ensures old(lookup.CachesAgree()) ==> lookup.CachesAgree()
      ensures old(lookup.CachesAgree() && Registered()) ==>
        forall x :: x in instances <==> x in InstancesMatching(lookup.Content(), cls)
    {
      lookup.BeforeLookup(cls);
      if InstancesCached(instancesCache) {
        return instancesCache.value;
      }
      var items := ItemsWithoutBeforeLookup();
      instances := InstancesOf(items, cls);
      if Enumerates(items, lookup.Content(), cls) {
        InstancesOfEnumeration(items, lookup.Content(), cls);
      }
      instancesCache := Some(instances);
    }
  }

  /**
   * The lookup. Its storage is created on first use, when the initialisation hook
   * runs. `storageIsUsed` is the single-writer flag. The ghost fields count the
   * initialisations and record the queries announced to `_before_lookup` and the
   * notifications handed out.
   */
  class GenericLookup {
    var storage: SetStorage?
    var storageIsUsed: bool
    ghost var initialisations: nat
    ghost var queries: seq<TypeTag>
    ghost var notifications: seq<Notification>

    ghost function Repr(): set<object>
      reads this, storage
    {
      {this} + (if storage == null then {} else {storage} + storage.results.Values)
    }

    /**
     * The hook has run once exactly when the storage exists; the flag is only ever
     * raised on an existing storage; every registered result belongs to this lookup.
     */
    ghost predicate Valid()
      reads this, storage
    {
      && initialisations == (if storage == null then 0 else 1)
      && (storageIsUsed ==> storage != null)
      && (storage != null ==>
            && storage.Valid()
            && forall t :: t in storage.results ==> storage.results[t].lookup == this)
    }

    /** Every registered result's trusted caches agree with the content. */
    ghost predicate CachesAgree()
      reads this, storage, Repr()
    {
      storage != null ==> forall t :: t in storage.results ==> storage.results[t].AgreesWith(storage.content)
    }

    /** What the lookup holds: nothing before the storage exists. */
    ghost function Content(): PairSet
      reads this, storage
    {
      if storage == null then map[] else storage.content
    }

    /** The storage exists, and it is the one there was before, if there was one. */
    ghost predicate StorageKept(previous: SetStorage?)
      reads this
    {
      storage != null && (previous != null ==> storage == previous)
    }

    /** The results registered for the classes a set of changed pairs concerns. */
    ghost function NotifiedBy(changes: PairSet): set<GLResult>
      reads this, storage
      requires storage != null
    {
      storage.ResultsFor(Affected(storage.results.Keys, changes.Values))
    }

    constructor ()
      ensures Valid()
      ensures storage == null && !storageIsUsed
      ensures queries == [] && notifications == []
    {
      storage := null;
      storageIsUsed := false;
      initialisations := 0;
      queries := [];
      notifications := [];
    }

    /** `_before_lookup(cls)`: the hook that announces a query. */
    ghost method BeforeLookup(cls: TypeTag)
      modifies this
      ensures queries == old(queries) + [cls]
      ensures storage == old(storage) && storageIsUsed == old(storageIsUsed)
      ensures initialisations == old(initialisations) && notifications == old(notifications)
    {
      queries := queries + [cls];
    }

    /** `_initialise()`: the hook that runs when the storage comes into being. */
    ghost method Initialise()
      modifies this
      ensures initialisations == old(initialisations) + 1
      ensures storage == old(storage) && storageIsUsed == old(storageIsUsed)
      ensures queries == old(queries) && notifications == old(notifications)
    {
      initialisations := initialisations + 1;
    }

    /** `_storage_for_lookup()`: the storage, created empty on first use. */
    method StorageForLookup() returns (s: SetStorage)
      requires Valid()
      modifies this
      ensures Valid() && s == storage && StorageKept(old(storage))
      ensures old(storage) == null ==> fresh(s) && s.content == map[] && s.results == map[]
      ensures storageIsUsed == old(storageIsUsed)
      ensures queries == old(queries) && notifications == old(notifications)
    {
      if storage == null {
        storage := new SetStorage();
        Initialise();
      }
      s := storage;
    }

    /**
     * Entering `_storage_for_modification`: refuses with RuntimeError while the flag
     * is raised, otherwise raises it and begins a transaction on the current content.
     */
    method BeginModification() returns (r: Result<SetTransaction>)
      requires Valid()
      modifies this
      ensures Valid() && StorageKept(old(storage)) && storageIsUsed
      ensures old(storage) == null ==> fresh(storage) && storage.content == map[] && storage.results == map[]
      ensures r.Failure? <==> old(storageIsUsed)
      ensures r.Failure? ==> r.error == RuntimeError
      ensures r.Success? ==> fresh(r.value) && r.value.Valid() && r.value.newList == storage.content && r.value.changed == map[]
      ensures queries == old(queries) && notifications == old(notifications)
    {
      var s := StorageForLookup();
      if storageIsUsed {
        return Failure(RuntimeError);
      }
      storageIsUsed := true;
      var tx := s.BeginTransaction();
      r := Success(tx);
    }

    /**
     * Leaving `_storage_for_modification`. When the body completed, the transaction
     * is installed; the flag is lowered in every case; only then, and only when the
     * body completed, the affected results are handed to their listeners.
     */
    method EndModification(tx: SetTransaction, bodyRaised: bool, viaExecutor: bool) returns (ghost log: seq<Notification>)
      requires Valid() && storage != null && storageIsUsed && tx.Valid()
      modifies this, storage, storage.results.Values
      ensures Valid() && !storageIsUsed
      ensures storage == old(storage) && storage.results == old(storage.results)
      ensures initialisations == old(initialisations) && queries == old(queries)
      ensures notifications == old(notifications) + log
      ensures bodyRaised ==> storage.content == old(storage.content) && log == []
      ensures bodyRaised ==> forall r :: r in storage.results.Values ==> unchanged(r)
      ensures !bodyRaised ==> storage.content == tx.newList
      ensures !bodyRaised ==> DispatchedOnce(log, NotifiedBy(tx.changed), viaExecutor)
      ensures !bodyRaised ==> forall r :: r in NotifiedBy(tx.changed) ==> r.Cleared()
      ensures !bodyRaised ==> forall r :: r in storage.results.Values && r !in NotifiedBy(tx.changed) ==> unchanged(r)
      ensures bodyRaised && old(CachesAgree()) ==> CachesAgree()
      ensures !bodyRaised && old(CachesAgree()) && Explains(old(storage.content), tx.newList, tx.changed) ==> CachesAgree()
    {
      log := [];
      if bodyRaised {
        storageIsUsed := false;
        return;
      }
      ghost var before := storage.content;
      var toNotify := storage.EndTransaction(tx);
      storageIsUsed := false;
      if old(CachesAgree()) && Explains(before, tx.newList, tx.changed) {
        forall t | t in storage.results ensures storage.results[t].AgreesWith(storage.content) {
          var r := storage.results[t];
          if r !in toNotify {
            assert t !in Affected(storage.results.Keys, tx.changed.Values);
            UnaffectedResultSeesNoChange(before, storage.content, tx.changed, t);
          }
        }
      }
      log := NotifyIn(viaExecutor, toNotify);
    }

    /** `_notify_in`: hands each result to its listeners, directly or through the executor. */
    method NotifyIn(viaExecutor: bool, toNotify: set<GLResult>) returns (ghost log: seq<Notification>)
      modifies this
      ensures storage == old(storage) && storageIsUsed == old(storageIsUsed)
      ensures initialisations == old(initialisations) && queries == old(queries)
      ensures notifications == old(notifications) + log
      ensures !storageIsUsed ==> DispatchedOnce(log, toNotify, viaExecutor)
    {
      log := [];
      var pending := toNotify;
      while pending != {}
        invariant pending <= toNotify
        invariant storage == old(storage) && storageIsUsed == old(storageIsUsed)
        invariant initialisations == old(initialisations) && queries == old(queries)
        invariant notifications == old(notifications) + log
        invariant forall i, j :: 0 <= i < j < |log| ==> log[i].result != log[j].result
        invariant forall i :: 0 <= i < |log| ==> log[i].result in toNotify - pending
        invariant forall i :: 0 <= i < |log| ==> log[i].viaExecutor == viaExecutor && log[i].lookupBusy == storageIsUsed
        invariant forall r :: r in toNotify - pending ==> exists i :: 0 <= i < |log| && log[i].result == r
        decreases pending
      {
        var r :| r in pending;
        var n := Notification(r, viaExecutor, storageIsUsed);
        notifications := notifications + [n];
        ghost var before, wasPending := log, pending;
        log := log + [n];
        pending := pending - {r};
        forall q | q in toNotify - pending ensures exists i :: 0 <= i < |log| && log[i].result == q {
          if q == r {
            assert log[|log| - 1].result == q;
          } else {
            assert q in toNotify - wasPending;
            var i :| 0 <= i < |before| && before[i].result == q;
            assert log[i].result == q;
          }
        }
      }
      assert toNotify - pending == toNotify;
    }

    /**
     * `_add_pair`: true when no equal pair was stored; the pair is then stored and the
     * results it concerns are notified once each. Queries are not announced.
     */
    method AddPair(p: Pair, viaExecutor: bool) returns (r: Result<bool>, ghost log: seq<Notification>)
      requires Valid()
      modifies Repr()
      ensures Valid() && StorageKept(old(storage))
      ensures storage.results == old(if storage == null then map[] else storage.results)
      ensures queries == old(queries) && notifications == old(notifications) + log
      ensures old(storageIsUsed) ==> r == Failure(RuntimeError) && storageIsUsed && log == []
      ensures old(storageIsUsed) ==> storage.content == old(Content())
      ensures !old(storageIsUsed) ==> !storageIsUsed && r == Success(Id(p) !in old(Content()))
      ensures !old(storageIsUsed) ==> storage.content == Insert(old(Content()), p)
      ensures !old(storageIsUsed) ==>
        DispatchedOnce(log, NotifiedBy(if Id(p) in old(Content()) then map[] else map[Id(p) := p]), viaExecutor)
      ensures old(CachesAgree()) ==> CachesAgree()
    {
      log := [];
      var begun := BeginModification();
      if begun.Failure? {
        return Failure(begun.error), log;
      }
      var tx := begun.value;
      ghost var before := storage.content;
      var added := tx.Add(p);
      InsertIsExplained(before, p);
      log := EndModification(tx, false, viaExecutor);
      r := Success(added);
    }

    /**
     * `_remove_pair`: removes the equal pair and notifies the results it concerns;
     * KeyError, with nothing changed and nobody notified, when there is none.
     */
    method RemovePair(p: Pair, viaExecutor: bool) returns (r: Outcome, ghost log: seq<Notification>)
      requires Valid()
      modifies Repr()
      ensures Valid() && StorageKept(old(storage))
      ensures storage.results == old(if storage == null then map[] else storage.results)
      ensures queries == old(queries) && notifications == old(notifications) + log
      ensures old(storageIsUsed) ==> r == Fail(RuntimeError) && storageIsUsed && log == []
      ensures old(storageIsUsed) ==> storage.content == old(Content())
      ensures !old(storageIsUsed) ==> !storageIsUsed
      ensures !old(storageIsUsed) ==> r == if Id(p) in old(Content()) then Pass else Fail(KeyError)
      ensures !old(storageIsUsed) && r.Fail? ==> storage.content == old(Content()) && log == []
      ensures !old(storageIsUsed) && r.Pass? ==> storage.content == old(Content()) - {Id(p)}
      ensures !old(storageIsUsed) && r.Pass? ==> DispatchedOnce(log, NotifiedBy(map[Id(p) := p]), viaExecutor)
      ensures old(CachesAgree()) && (Id(p) in old(Content()) ==> PairType(old(Content())[Id(p)]) == PairType(p)) ==>
        CachesAgree()
    {
      log := [];
      var begun := BeginModification();
      if begun.Failure? {
        return Fail(begun.error), log;
      }
      var tx := begun.value;
      ghost var before := storage.content;
      r := tx.Remove(p);
      if Id(p) in before && PairType(before[Id(p)]) == PairType(p) {
        RemoveIsExplained(before, p);
      }
      log := EndModification(tx, r.Fail?, viaExecutor);
    }

    /**
     * `_set_pairs`: the content becomes `set(ps)` and the results concerned by a pair
     * that came or went are notified once each.
     */
    method SetPairs(ps: seq<Pair>, viaExecutor: bool) returns (r: Outcome, ghost log: seq<Notification>)
      requires Valid()
      modifies Repr()
      ensures Valid() && StorageKept(old(storage))
      ensures storage.results == old(if storage == null then map[] else storage.results)
      ensures queries == old(queries) && notifications == old(notifications) + log
      ensures old(storageIsUsed) ==> r == Fail(RuntimeError) && storageIsUsed && log == []
      ensures old(storageIsUsed) ==> storage.content == old(Content())
      ensures !old(storageIsUsed) ==> !storageIsUsed && r == Pass
      ensures !old(storageIsUsed) ==> storage.content == SetOf(ps)
      ensures !old(storageIsUsed) ==> DispatchedOnce(log, NotifiedBy(SymDiff(SetOf(ps), old(Content()))), viaExecutor)
      ensures old(CachesAgree()) && (forall id :: id in old(Content()) && id in SetOf(ps) ==> old(Content())[id] == SetOf(ps)[id]) ==>
        CachesAgree()
    {
      log := [];
      var begun := BeginModification();
      if begun.Failure? {
        return Fail(begun.error), log;
      }
      var tx := begun.value;
      ghost var before := storage.content;
      tx.SetAll(ps);
      assert tx.changed == SymDiff(SetOf(ps), before);
      if forall id :: id in before && id in SetOf(ps) ==> before[id] == SetOf(ps)[id] {
        SetAllIsExplained(before, ps);
      }
      log := EndModification(tx, false, viaExecutor);
      r := Pass;
    }

    /** `lookup_item(cls)`: announces the query, then the first pair the storage yields, if any. */
    method LookupItem(cls: TypeTag) returns (item: Option<Pair>)
      requires Valid()
      modifies this
      ensures Valid() && StorageKept(old(storage))
      ensures queries == old(queries) + [cls]
      ensures storageIsUsed == old(storageIsUsed) && notifications == old(notifications)
      ensures item.None? <==> Matching(Content(), cls) == {}
      ensures item.Some? ==> item.value in Matching(Content(), cls)
      ensures Content() == old(Content()) && (old(CachesAgree()) ==> CachesAgree())
    {
      BeforeLookup(cls);
      var s := StorageForLookup();
      var pairs := s.Lookup(cls);
      if pairs == [] {
        assert forall p :: p !in Matching(Content(), cls);
        item := None;
      } else {
        assert pairs[0] in pairs;
        item := Some(pairs[0]);
      }
    }

    /** `lookup(cls)`: the instance of the first matching pair, if any. */
    method Lookup(cls: TypeTag) returns (instance: Option<Instance>)
      requires Valid()
      modifies this
      ensures Valid() && StorageKept(old(storage))
      ensures queries == old(queries) + [cls]
      ensures storageIsUsed == old(storageIsUsed) && notifications == old(notifications)
      ensures instance.None? <==> Matching(Content(), cls) == {}
      ensures instance.Some? ==> exists p :: p in Matching(Content(), cls) && PairInstance(p) == instance.value
      ensures Content() == old(Content()) && (old(CachesAgree()) ==> CachesAgree())
    {
      var item := LookupItem(cls);
      instance := if item.Some? then Some(PairInstance(item.value)) else None;
    }

    /** Calling the lookup is `lookup(cls)`. */
    method Call(cls: TypeTag) returns (instance: Option<Instance>)
      requires Valid()
      modifies this
      ensures Valid() && StorageKept(old(storage))
      ensures queries == old(queries) + [cls]
      ensures storageIsUsed == old(storageIsUsed) && notifications == old(notifications)
      ensures instance.None? <==> Matching(Content(), cls) == {}
      ensures instance.Some? ==> exists p :: p in Matching(Content(), cls) && PairInstance(p) == instance.value
      ensures Content() == old(Content()) && (old(CachesAgree()) ==> CachesAgree())
    {
      instance := Lookup(cls);
    }

    /**
     * `lookup_result(cls)`: the result registered for `cls` when there is one,
     * otherwise a new one, registered.
     */
    method LookupResult(cls: TypeTag) returns (r: GLResult)
      requires Valid()
      modifies this, storage
      ensures Valid() && StorageKept(old(storage))
      ensures queries == old(queries) + [cls]
      ensures storageIsUsed == old(storageIsUsed) && notifications == old(notifications)
      ensures r.cls == cls && r.lookup == this
      ensures storage.content == old(Content())
      ensures old(storage) != null && cls in old(storage.results) ==> r == old(storage.results[cls]) && storage.results == old(storage.results)
      ensures !(old(storage) != null && cls in old(storage.results)) ==>
        fresh(r) && r.Cleared() && storage.results == old(if storage == null then map[] else storage.results)[cls := r]
      ensures r.Registered() && (old(CachesAgree()) ==> CachesAgree())
    {
      BeforeLookup(cls);
      var s := StorageForLookup();
      var found := s.FindResult(cls);
      if found.Some? {
        return found.value;
      }
      r := new GLResult(this, cls);
      s.RegisterResult(r);
    }

    /** The default `lookup_all(cls)`: `lookup_result(cls).all_instances()`. */
    method LookupAll(cls: TypeTag) returns (instances: seq<Instance>)
      requires Valid()
      modifies Repr()
      ensures Valid() && StorageKept(old(storage))
      ensures queries == old(queries) + [cls, cls]
      ensures storageIsUsed == old(storageIsUsed) && notifications == old(notifications)
      ensures storage.content == old(Content())
      ensures old(storage) == null || cls !in old(storage.results) || old(storage.results[cls].Cleared()) ==>
        forall x :: x in instances <==> exists p :: p in Matching(old(Content()), cls) && PairInstance(p) == x
      ensures old(CachesAgree()) ==>
        CachesAgree() && forall x :: x in instances <==> x in InstancesMatching(old(Content()), cls)
    {
      var r := LookupResult(cls);
      ghost var wasCleared := r.Cleared();
      instances := r.AllInstances();
      if wasCleared {
        var items := r.itemsCache.value;
        assert Enumerates(items, storage.content, cls);
        InstancesOfKeepsMatchingItems(items, cls);
        forall x | exists p :: p in Matching(storage.content, cls) && PairInstance(p) == x
          ensures x in instances
        {
          var p :| p in Matching(storage.content, cls) && PairInstance(p) == x;
          var i :| 0 <= i < |items| && items[i] == p;
          assert instances[i] == x;
        }
      }
    }
  }

  /** `list.remove(p)`: drops the first pair equal to `p`; None when there is none. */
  function RemoveFirst(ps: seq<Pair>, p: Pair): (r: Option<seq<Pair>>)
    ensures r.None? <==> forall q :: q in ps ==> Id(q) != Id(p)
    ensures r.Some? ==> |r.value| == |ps| - 1
  {
    if ps == [] then None
    else if Id(ps[0]) == Id(p) then Some(ps[1..])
    else
      assert forall q :: q in ps <==> q == ps[0] || q in ps[1..];
      match RemoveFirst(ps[1..], p)
      case None => None
      case Some(rest) => Some([ps[0]] + rest)
  }

  /** The pair dropped is the first equal one, and the others keep their order. */
  lemma {:induction false} RemoveFirstDropsFirstEqual(ps: seq<Pair>, p: Pair, i: int)
    requires 0 <= i < |ps| && Id(ps[i]) == Id(p)
    requires forall j :: 0 <= j < i ==> Id(ps[j]) != Id(p)
    ensures RemoveFirst(ps, p) == Some(ps[..i] + ps[i + 1..])
  {
    if i > 0 {
      RemoveFirstDropsFirstEqual(ps[1..], p, i - 1);
      assert [ps[0]] + (ps[1..][..i - 1] + ps[1..][i..]) == ps[..i] + ps[i + 1..];
    } else {
      assert ps[..0] + ps[1..] == ps[1..];
    }
  }

  /**
   * The owner's handle on a lookup. Until a lookup attaches, pairs are buffered in
   * `earlyPairs`; afterwards every call is forwarded with the content's executor.
   */
  class Content {
    var lookup: GenericLookup?
    var earlyPairs: seq<Pair>
    const viaExecutor: bool

    ghost predicate Valid()
      reads this, lookup, if lookup == null then null else lookup.storage
    {
      lookup != null ==> lookup.Valid()
    }

    ghost function Repr(): set<object>
      reads this, lookup, if lookup == null then null else lookup.storage
    {
      {this} + (if lookup == null then {} else lookup.Repr())
    }

    constructor (viaExecutor: bool)
      ensures Valid() && lookup == null && earlyPairs == [] && this.viaExecutor == viaExecutor
    {
      lookup := null;
      earlyPairs := [];
      this.viaExecutor := viaExecutor;
    }

    /**
     * `_attach(gl)`: the first lookup attaches and receives the buffered pairs in one
     * `_set_pairs` (none when the buffer is empty); a second attach is a RuntimeError.
     */
    method Attach(gl: GenericLookup) returns (r: Outcome)
      requires Valid() && gl.Valid()
      modifies this, gl.Repr()
      ensures Valid()
      ensures old(lookup) != null ==> r == Fail(RuntimeError) && lookup == old(lookup) && earlyPairs == old(earlyPairs)
      ensures old(lookup) != null ==> unchanged(gl)
      ensures old(lookup) == null ==> lookup == gl
      ensures old(lookup) == null && old(earlyPairs) == [] ==> r == Pass && earlyPairs == [] && unchanged(gl)
      ensures old(lookup) == null && old(earlyPairs) != [] && !old(gl.storageIsUsed) ==>
        r == Pass && earlyPairs == [] && gl.storage != null && gl.storage.content == SetOf(old(earlyPairs))
      ensures old(lookup) == null && old(earlyPairs) != [] && old(gl.storageIsUsed) ==>
        r == Fail(RuntimeError) && earlyPairs == old(earlyPairs)
    {
      if lookup != null {
        return Fail(RuntimeError);
      }
      lookup := gl;
      if earlyPairs != [] {
        ghost var log;
        r, log := gl.SetPairs(earlyPairs, viaExecutor);
        if r.Fail? {
          return;
        }
        earlyPairs := [];
      }
      r := Pass;
    }

    /**
     * `_add_pair`: forwarded once attached. Before that the pair is appended and the
     * answer is whether an equal pair was already buffered.
     */
    method AddPair(p: Pair) returns (r: Result<bool>)
      requires Valid()
      modifies Repr()
      ensures Valid() && lookup == old(lookup)
      ensures lookup == null ==> earlyPairs == old(earlyPairs) + [p]
      ensures lookup == null ==> r == Success(exists q :: q in old(earlyPairs) && Id(q) == Id(p))
      ensures lookup != null ==> earlyPairs == old(earlyPairs)
      ensures lookup != null && !old(lookup.storageIsUsed) ==>
        r == Success(Id(p) !in old(lookup.Content())) && lookup.storage != null && lookup.storage.content == Insert(old(lookup.Content()), p)
      ensures lookup != null && old(lookup.storageIsUsed) ==> r == Failure(RuntimeError)
      ensures lookup != null && old(lookup.CachesAgree()) ==> lookup.CachesAgree()
    {
      if lookup != null {
        ghost var log;
        r, log := lookup.AddPair(p, viaExecutor);
      } else {
        var present := exists q :: q in earlyPairs && Id(q) == Id(p);
        earlyPairs := earlyPairs + [p];
        r := Success(present);
      }
    }

    /**
     * `_remove_pair`: forwarded once attached. Before that the first equal buffered
     * pair is dropped, and ValueError is raised when there is none.
     */
    method RemovePair(p: Pair) returns (r: Outcome)
      requires Valid()
      modifies Repr()
      ensures Valid() && lookup == old(lookup)
      ensures lookup == null ==> r == (if RemoveFirst(old(earlyPairs), p).Some? then Pass else Fail(ValueError))
      ensures lookup == null && r.Pass? ==> earlyPairs == RemoveFirst(old(earlyPairs), p).value
      ensures lookup == null && r.Fail? ==> earlyPairs == old(earlyPairs)
      ensures lookup != null ==> earlyPairs == old(earlyPairs)
      ensures lookup != null && !old(lookup.storageIsUsed) ==>
        r == (if Id(p) in old(lookup.Content()) then Pass else Fail(KeyError))
      ensures lookup != null && !old(lookup.storageIsUsed) ==>
        lookup.storage != null && lookup.storage.content == old(lookup.Content()) - {Id(p)}
      ensures lookup != null && old(lookup.storageIsUsed) ==> r == Fail(RuntimeError)
      ensures lookup != null && old(lookup.CachesAgree()) ==>
        (Id(p) in old(lookup.Content()) ==> PairType(old(lookup.Content())[Id(p)]) == PairType(p)) ==> lookup.CachesAgree()
    {
      if lookup != null {
        ghost var log;
        r, log := lookup.RemovePair(p, viaExecutor);
      } else {
        match RemoveFirst(earlyPairs, p)
        case None =>
          r := Fail(ValueError);
        case Some(rest) =>
          earlyPairs := rest;
          r := Pass;
      }
    }

    /** `_set_pairs`: forwarded once attached; before that the buffer becomes `ps`. */
    method SetPairs(ps: seq<Pair>) returns (r: Outcome)
      requires Valid()
      modifies Repr()
      ensures Valid() && lookup == old(lookup)
      ensures lookup == null ==> r == Pass && earlyPairs == ps
      ensures lookup != null ==> earlyPairs == old(earlyPairs)
      ensures lookup != null && !old(lookup.storageIsUsed) ==>
        r == Pass && lookup.storage != null && lookup.storage.content == SetOf(ps)
      ensures lookup != null && old(lookup.storageIsUsed) ==> r == Fail(RuntimeError)
      ensures lookup != null && old(lookup.CachesAgree()) ==>
        (forall id :: id in old(lookup.Content()) && id in SetOf(ps) ==> old(lookup.Content())[id] == SetOf(ps)[id]) ==>
          lookup.CachesAgree()
    {
      if lookup != null {
        ghost var log;
        r, log := lookup.SetPairs(ps, viaExecutor);
      } else {
        earlyPairs := ps;
        r := Pass;
      }
    }
  }

  /**
   * `GenericLookup(content)`: a new lookup attached to `content`; RuntimeError when
   * the content already serves another lookup.
   */
  method NewGenericLookup(content: Content) returns (r: Result<GenericLookup>)
    requires content.Valid()
    modifies content, content.Repr()
    ensures content.Valid()
    ensures old(content.lookup) != null <==> r.Failure?
    ensures r.Failure? ==> r.error == RuntimeError && content.lookup == old(content.lookup)
    ensures r.Success? ==> fresh(r.value) && content.lookup == r.value && content.earlyPairs == []
    ensures r.Success? ==> r.value.Content() == (if old(content.earlyPairs) == [] then map[] else SetOf(old(content.earlyPairs)))
    ensures r.Success? && old(content.earlyPairs) == [] ==> r.value.storage == null
  {
    var gl := new GenericLookup();
    var attached := content.Attach(gl);
    if attached.Fail? {
      return Failure(attached.error);
    }
    r := Success(gl);
  }
}
