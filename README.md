# lookups, modelled in Dafny

A model of the core of `lookups`, a Python type-indexed service registry in the
style of the NetBeans Lookup API. Producers put instances (or lazily converted
keys) into a lookup; consumers ask for a class and get the first match, all
matches, or a live result they can listen to.

The model covers:

- **The transactional pair storage** (`set_storage.dfy`, module `SetStorage`).
  The stored set of pairs is a map from a pair's identity to the pair kept.
  That makes Python's set semantics under the items' own `__eq__` exact. A
  transaction works on a copy of that set and a change set. Lemmas show that
  the results the storage invalidates at the end are exactly the ones that
  could see a difference.
- **The generic lookup engine** (`generic_lookup.dfy`, module `GenericLookup`).
  - Class `SetStorage` holds the content and a registry of live results.
  - Class `GLResult` is a live result with its three caches.
  - Class `GenericLookup` creates its storage lazily and guards each
    transaction with a single-writer flag.
  - Class `Content` buffers early pairs until a lookup attaches.
  - Ghost counters and logs record the initialisation hook, the announced
    queries and the notifications. This lets the contracts say "exactly once"
    and "nobody is notified".
  - `GenericLookup.CachesAgree` says that every registered result's trusted
    caches describe the current content. Every query keeps it, and so does
    every modification whose change set accounts for what changed. Under it,
    `lookup_all` and each result query answer exactly the matching pairs.
- **Converting items** (`instance_content.dfy`, module `InstanceContent`).
  - Class `ConvertingItem` has a weak cache of the converted value, and a ghost
    count of calls to `convert`. Its laziness is proved of the item on its own.
  - The storage holds a converting item as a value (`Items.Converting`: key and
    convertor), filed under `convertor.type(key)`; it does not hold the
    `ConvertingItem` object and its cache (see "Left out").
  - `InstanceContent.add`, `remove` and `set` are modelled as methods over a
    `Content`.
- **The union lookup** (`proxy_lookup.dfy`, module `ProxyLookup`).
  - Its results keep an insertion-ordered dictionary from backing lookup to
    that lookup's result.
  - They forward changes to their own listeners.
  - A ghost event log and a multiset of standing subscriptions show that the
    forwarding listener is subscribed exactly while there are listeners.
- **The delegating lookup** (`delegated_lookup.dfy`, module `DelegatedLookup`).
  - It swaps its delegate when its provider hands out another lookup.
  - Each live result is re-pointed, with the same subscription bookkeeping.
- **Default query semantics and the default lookup** (`lookup.dfy`, module
  `LookupApi`).
  - The inherited `lookup_item` and `lookup_all`.
  - The resolution order of `Lookup.get_default()`, with plugin discovery as an
    input.
- **The fixed lookups.**
  - `lookups.dfy` has the empty lookup and the shared empty result.
  - `simple.dfy` has the simple lookup and its cached result.
  - `singleton.dfy` has the singleton lookup and its result.

Python classes become type tags (`types.dfy`). A class is its chain of
ancestors below `object`, and `issubclass(t, u)` holds when `u` is a prefix of
`t`. Items and convertors are values (`items.dfy`). External lookups and
results that a composition lookup is built on are seen through `Backing`: a
snapshot of their answers as functions.

## Model

| member | source | states |
|---|---|---|
| Types.SubtypeIsPreorder | lookups/set_storage.py:43-46 | The subclass relation used for every query is reflexive, transitive and antisymmetric, and `object` is above every class. |
| Items.Equals | lookups/instance_content.py:193-197 | A converting item equals exactly the converting items with an equal key, whatever their convertors. A direct item equals exactly the direct items of the same instance. |
| Items.Hash | lookups/instance_content.py:199-200 | A converting item hashes as its key. |
| Items.EqualsIsConsistentWithHash | lookups/instance_content.py:193-200 | Item equality is an equivalence, and equal items hash alike. |
| Items.MakePair | lookups/instance_content.py:60-63 | The item `add`/`remove` build: ValueError exactly for a None member. Otherwise a direct item without a convertor, and a converting item of the key and convertor with one. |
| Items.MakePairs | lookups/instance_content.py:86-93 | The items `set` builds: ValueError exactly when some member is None. Otherwise one item per member, in order, each as `MakePair` makes it. |
| Items.LiveType | lookups/instance_content.py:185-191 | `get_type()` of a pair given its live converted value: for a direct item, or with no live value, it is the filed type. |
| LookupApi.DefaultLookupItem | lookups/lookup.py:118-129 | The inherited `lookup_item`: None exactly when the result has no item, otherwise its first item. |
| LookupApi.IndexOf | lookups/proxy_lookup.py:53 | The position `list.remove` acts on: it holds the element, and no earlier position does. |
| LookupApi.RemoveFirstOf | lookups/proxy_lookup.py:53 | `list.remove` shortens the list by one. |
| LookupApi.RemoveFirstOfDropsFirst | lookups/proxy_lookup.py:53 | `list.remove(x)` drops exactly the first occurrence of `x`: the elements before and after it keep their order, and the multiset loses one `x`. |
| LookupApi.RemoveFirstOfUnique | lookups/proxy_lookup.py:48-55 | On a list without duplicates, `list.remove(x)` leaves a list without duplicates that lacks `x` and keeps every other element. |
| LookupApi.Fire | lookups/proxy_lookup.py:143-145 | A notification calls every registered listener once, in registration order. |
| LookupApi.Without | lookups/proxy_lookup.py:134 | A collected listener's weak callbacks remove every occurrence of it from the list, and every other listener keeps all its occurrences. |
| LookupApi.WithoutSplits | lookups/proxy_lookup.py:134 | Dropping a listener keeps the others in order: it works piecewise over a concatenation. |
| LookupApi.Resolve | lookups/lookup.py:36-86 | The `get_default` state machine. A recorded default or provider is kept without discovery. With nothing recorded, discovery runs once and yields, in order: a found lookup (also recorded as provider when it is one); a delegating lookup over a found provider; the union lookup over the plugins. A recorded provider's non-None answer is preferred to the recorded lookup. |
| LookupApi.ResolveIsSettled | lookups/lookup.py:56-62 | After one resolution, later calls run no discovery and keep the state. They return the recorded lookup unless the provider answers, and the same answer when the provider does. |
| LookupApi.DefaultRegistry.constructor | lookups/lookup.py:31-32 | No default lookup or provider is recorded, and nothing has been discovered. |
| LookupApi.DefaultRegistry.GetDefault | lookups/lookup.py:36-86 | The class attributes move as `Resolve` says, and the answer is `Resolve`'s. The discovery count grows by one exactly when discovery runs. |
| SetStorage.SetOf | lookups/set_storage.py:76 | `set(pairs)` files every pair under its identity, and keeps only pairs from the input. |
| SetStorage.SetOfKeepsFirst | lookups/set_storage.py:76 | Of several equal pairs, `set(pairs)` keeps the first. |
| SetStorage.SymDiff | lookups/set_storage.py:77 | The symmetric difference holds the identities in exactly one of the two sets. |
| SetStorage.Update | lookups/set_storage.py:77 | `update` adds the identities of the second set and keeps the pairs already there. |
| SetStorage.MatchingIsCovariant | lookups/set_storage.py:43-46 | A stored pair answers a query for a class exactly when its type is that class or a subclass. It never answers a query for a proper subclass of its type. |
| SetStorage.UnaffectedResultSeesNoChange | lookups/set_storage.py:30-41 | A result whose class is above no changed pair's type sees the same matching pairs after the transaction: not notifying it loses nothing. |
| SetStorage.InsertIsExplained | lookups/set_storage.py:64-69 | The change set of an `add` accounts for every difference between the old and new content. |
| SetStorage.RemoveIsExplained | lookups/set_storage.py:71-73 | The change set of a `remove` accounts for the pair that went. |
| SetStorage.SetAllIsExplained | lookups/set_storage.py:75-78 | The symmetric difference recorded by `set_all` accounts for every pair that came or went. |
| SetStorage.ExactConvertorsMakeLiveTypingStatic | lookups/instance_content.py:185-191 | With convertors whose `type(key)` is exactly the class of `convert(key)`, typing stored pairs by `get_type()` with live values gives the same matches as typing them by `convertor.type(key)`. |
| SetStorage.LooseConvertorTypesLiveValueLower | lookups/instance_content.py:112-121 | A convertor that keeps its contract but announces a proper superclass: once the value is converted and referenced, a query for its own class finds the pair, which typing by `convertor.type(key)` does not. |
| SetStorage.SetTransaction.constructor | lookups/set_storage.py:57-59 | A transaction starts from a copy of the current content and an empty change set. |
| SetStorage.SetTransaction.NewContent | lookups/set_storage.py:61-62 | It hands back the working set and the change set. |
| SetStorage.SetTransaction.Add | lookups/set_storage.py:64-69 | Answers true exactly when no equal pair was there. Afterwards the pair is present and the equal pair already there is kept. The change set grows only when the pair was absent. |
| SetStorage.SetTransaction.Remove | lookups/set_storage.py:71-73 | Records the pair as changed and removes the equal pair. KeyError exactly when there is none. |
| SetStorage.SetTransaction.SetAll | lookups/set_storage.py:75-78 | The working set becomes `set(pairs)`, and the symmetric difference with the old working set joins the change set. |
| GenericLookup.InstancesOf | lookups/generic_lookup.py:218-231 | The instances listed by `all_instances` come from items matching the class, and there are no more of them than items. |
| GenericLookup.InstancesOfKeepsMatchingItems | lookups/generic_lookup.py:218-231 | When every item matches, `all_instances` is the items' instances, one per item, in order. |
| GenericLookup.InstancesOfEnumeration | lookups/generic_lookup.py:218-231 | From an enumeration of the matching pairs, `all_instances` lists exactly the instances of the matching pairs. |
| GenericLookup.TypesOfEnumeration | lookups/generic_lookup.py:204-216 | `all_classes` is exactly the set of types of the stored pairs matching the class, all of them at or below it. |
| GenericLookup.AffectedGrows | lookups/set_storage.py:34-39 | Each changed pair adds the registered classes above its type to those notified. |
| GenericLookup.RemoveFirst | lookups/generic_lookup.py:307-316 | Removing from the buffer fails exactly when no equal pair is buffered, and otherwise drops one pair. |
| GenericLookup.RemoveFirstDropsFirstEqual | lookups/generic_lookup.py:307-316 | The pair removed from the buffer is the first equal one, and the others keep their order. |
| GenericLookup.SetStorage.constructor | lookups/set_storage.py:21-25 | A new storage holds no pair and no result. |
| GenericLookup.SetStorage.BeginTransaction | lookups/set_storage.py:27-28 | The transaction starts from the current content with no change. |
| GenericLookup.SetStorage.EndTransaction | lookups/set_storage.py:30-41 | Installs the transaction's set. Answers exactly the registered results whose class is a superclass of a changed pair's type. Clears their caches and leaves every other result untouched. |
| GenericLookup.SetStorage.ClearAbove | lookups/set_storage.py:36-39 | For one changed type: exactly the results registered above it are cleared and answered, and the others are untouched. |
| GenericLookup.SetStorage.Lookup | lookups/set_storage.py:43-46 | Yields each stored pair of the class or a subclass once, and nothing else. |
| GenericLookup.SetStorage.RegisterResult | lookups/set_storage.py:48-49 | Files the result under its class, replacing any result there. |
| GenericLookup.SetStorage.FindResult | lookups/set_storage.py:51-52 | The result filed under exactly that class, or None when there is none. |
| GenericLookup.SetStorage.Evict | lookups/set_storage.py:25 | A result nobody holds leaves the weak registry, and nothing else changes. |
| GenericLookup.GLResult.constructor | lookups/generic_lookup.py:183-190 | A new result for its lookup and class, with all three caches unset. |
| GenericLookup.GLResult.ClearCache | lookups/generic_lookup.py:192-196 | All three caches are unset. |
| GenericLookup.GLResult.ItemsWithoutBeforeLookup | lookups/generic_lookup.py:237-244 | A non-empty items cache is returned as is. Otherwise the matching pairs are enumerated, each once, and cached. An empty cache is recomputed. The content is untouched and `CachesAgree` is kept; for a registered result under it, the answer enumerates the matching pairs. |
| GenericLookup.GLResult.AllItems | lookups/generic_lookup.py:233-235 | As above, after announcing the query once. |
| GenericLookup.GLResult.AllClasses | lookups/generic_lookup.py:204-216 | A set classes cache, even an empty one, is returned without touching the storage. Otherwise the result is the types of the matching pairs, which are then cached. `CachesAgree` is kept; for a registered result under it, the answer is exactly the types of the matching pairs. |
| GenericLookup.GLResult.AllInstances | lookups/generic_lookup.py:218-231 | A non-empty instances cache is returned. Otherwise the result is the instances of the matching items, in the items' order, which are then cached. `CachesAgree` is kept; for a registered result under it, the answer holds exactly the matching pairs' instances. |
| GenericLookup.GenericLookup.constructor | lookups/generic_lookup.py:43-57 | No storage, the flag lowered, no query and no notification yet. |
| GenericLookup.GenericLookup.BeforeLookup | lookups/generic_lookup.py:93-98 | The hook records the query and changes nothing else. |
| GenericLookup.GenericLookup.Initialise | lookups/generic_lookup.py:90-91 | The hook runs once more and changes nothing else. |
| GenericLookup.GenericLookup.StorageForLookup | lookups/generic_lookup.py:59-69 | The storage is created empty on first use, when the hook runs exactly once. Later it is the same storage. |
| GenericLookup.GenericLookup.BeginModification | lookups/generic_lookup.py:71-81 | RuntimeError exactly when the flag is already raised. Otherwise the flag is raised and a transaction begins on the current content. |
| GenericLookup.GenericLookup.EndModification | lookups/generic_lookup.py:80-88 | The flag is lowered in every case. When the body raised, the content and every result are unchanged and nobody is notified. Otherwise the transaction is installed and each affected result, and only those, is cleared and notified once, after the flag is lowered. When the change set accounts for every difference, the registered results' caches still agree with the new content. |
| GenericLookup.GenericLookup.NotifyIn | lookups/generic_lookup.py:132-137 | Each result handed over is notified exactly once, by the chosen route. |
| GenericLookup.GenericLookup.AddPair | lookups/generic_lookup.py:100-110 | RuntimeError while a modification is under way. Otherwise: answers whether no equal pair was stored, the content becomes the set with the pair added, and only the results concerned by a new pair are notified, once each. Queries are not announced. `CachesAgree` is kept. |
| GenericLookup.GenericLookup.RemovePair | lookups/generic_lookup.py:112-120 | RuntimeError while a modification is under way. KeyError, with no change and no notification, when no equal pair is stored. Otherwise the pair goes and the results concerned are notified once each. `CachesAgree` is kept when the stored equal pair has the type of the one given. |
| GenericLookup.GenericLookup.SetPairs | lookups/generic_lookup.py:122-130 | RuntimeError while a modification is under way. Otherwise the content becomes `set(pairs)`, and the results concerned by the symmetric difference are notified once each. `CachesAgree` is kept when no identity is rebound to a different pair. |
| GenericLookup.GenericLookup.LookupItem | lookups/generic_lookup.py:155-161 | Announces the query. None exactly when no stored pair matches, otherwise a matching pair. The content is untouched and `CachesAgree` is kept. |
| GenericLookup.GenericLookup.Lookup | lookups/generic_lookup.py:139-141 | Announces the query. None exactly when nothing matches, otherwise the instance of a matching pair. The content is untouched and `CachesAgree` is kept. |
| GenericLookup.GenericLookup.Call | lookups/lookup.py:102-103 | Calling the lookup answers as `lookup(cls)`. |
| GenericLookup.GenericLookup.LookupResult | lookups/generic_lookup.py:143-153 | Announces the query. The result registered for the class when there is one, so repeated calls give the same object; otherwise a new one, registered. The content is untouched and `CachesAgree` is kept. |
| GenericLookup.GenericLookup.LookupAll | lookups/lookup.py:131-144 | `lookup_result(cls).all_instances()`. Under `CachesAgree`, or from unset caches, it answers exactly the instances of the matching pairs; `CachesAgree` is kept. |
| GenericLookup.Content.constructor | lookups/generic_lookup.py:262-270 | No lookup attached and an empty buffer. |
| GenericLookup.Content.Attach | lookups/generic_lookup.py:272-287 | A second attach is a RuntimeError that changes nothing. The first attach records the lookup. A non-empty buffer is installed with one `_set_pairs` and emptied. An empty buffer leaves the lookup untouched, so no storage is created. |
| GenericLookup.Content.AddPair | lookups/generic_lookup.py:289-305 | Before attach: the pair is appended, duplicates kept, and the answer is whether an equal pair was already buffered. After attach: forwarded with the content's executor, keeping `CachesAgree`. |
| GenericLookup.Content.RemovePair | lookups/generic_lookup.py:307-316 | Before attach: the first equal buffered pair is dropped, and ValueError when there is none. After attach: forwarded, keeping `CachesAgree` as `RemovePair` does. |
| GenericLookup.Content.SetPairs | lookups/generic_lookup.py:318-327 | Before attach: the buffer becomes the pairs. After attach: forwarded, keeping `CachesAgree` as `SetPairs` does. |
| GenericLookup.NewGenericLookup | lookups/generic_lookup.py:43-57 | A new lookup attached to the content, holding `set` of the buffered pairs, with no storage when nothing was buffered. RuntimeError exactly when the content already serves a lookup. |
| InstanceContent.ConvertingItem.constructor | lookups/instance_content.py:154-161 | The key and convertor are kept, with nothing converted yet. |
| InstanceContent.ConvertingItem.ToPair | lookups/instance_content.py:151-200 | The value the model's storage keeps for the item: identified by its key, filed under `convertor.type(key)`, yielding `convertor.convert(key)`. |
| InstanceContent.ConvertingItem.GetDisplayName | lookups/instance_content.py:169-170 | `convertor.display_name(key)`. |
| InstanceContent.ConvertingItem.GetId | lookups/instance_content.py:172-173 | `convertor.id(key)`. |
| InstanceContent.ConvertingItem.GetInstance | lookups/instance_content.py:175-183 | Answers `convert(key)` and keeps it referenced. `convert` is called exactly when no converted value was alive. |
| InstanceContent.ConvertingItem.Collect | lookups/instance_content.py:160-167 | The converted value, once nobody holds it, is gone from the weak reference without any conversion. |
| InstanceContent.ConvertingItem.Equals | lookups/instance_content.py:193-197 | Two converting items are equal exactly when their keys are, whatever their convertors. |
| InstanceContent.ConvertingItem.Hash | lookups/instance_content.py:199-200 | The key's hash. |
| InstanceContent.ConvertingItem.GetType | lookups/instance_content.py:185-191 | `get_type()` is `LiveType` of the item with its live value: the class of that value while one is referenced, otherwise the filed type `convertor.type(key)`. It reads the item only, so it never converts. |
| InstanceContent.GetTypeRefinesFiledType | lookups/instance_content.py:185-191 | `get_type` never converts. With nothing converted it is the filed type. With a live value, for a convertor that keeps its contract, it is at or below the filed type. |
| InstanceContent.EqualKeysMakeEqualItems | lookups/instance_content.py:193-200 | Items with equal keys are equal both ways and hash alike, whatever their convertors. |
| InstanceContent.NewConvertingItem | lookups/instance_content.py:154-161 | ValueError exactly for a None key. Otherwise a new item, not yet converted, filed as `MakePair` says. |
| InstanceContent.Add | lookups/instance_content.py:35-63 | `add`: the direct or converting item for the instance goes through the content's `_add_pair`, with its answer. ValueError for None. `CachesAgree` is kept. |
| InstanceContent.Remove | lookups/instance_content.py:65-75 | `remove`: the same item goes through `_remove_pair`. ValueError for None. `CachesAgree` is kept when the stored item has the type of the one given. |
| InstanceContent.Set | lookups/instance_content.py:77-93 | `set`: one item of the same kind per instance, installed in a single `_set_pairs`. ValueError, with nothing changed, when an instance is None. `CachesAgree` is kept when no key is rebound to another convertor. |
| ProxyLookup.Get | lookups/proxy_lookup.py:115 | `d[l]` answers exactly for the keys present. |
| ProxyLookup.Put | lookups/proxy_lookup.py:103 | `d[l] = r`: an existing key keeps its place, and a new key goes last. No key is ever duplicated. |
| ProxyLookup.Del | lookups/proxy_lookup.py:126 | `del d[l]` removes the key once and keeps the others in order. |
| ProxyLookup.PutThenGet | lookups/proxy_lookup.py:103 | After `d[l] = r`, `d[l]` is `r` and every other key answers as before. |
| ProxyLookup.DelThenGet | lookups/proxy_lookup.py:126 | After `del d[l]`, `d[l]` is absent and every other key answers as before. |
| ProxyLookup.DelDropsItsResult | lookups/proxy_lookup.py:126 | Deleting a key takes its result out of the values exactly once. |
| ProxyLookup.Build | lookups/proxy_lookup.py:96-99 | The dictionary built from the lookup list has each listed lookup once, in list order when the list has no duplicates, each mapped to its result for the class. |
| ProxyLookup.Chain | lookups/proxy_lookup.py:153-163 | The chained answers hold exactly what some result answers. |
| ProxyLookup.ChainSplits | lookups/proxy_lookup.py:153-163 | Chaining the results' answers distributes over concatenation of the results. |
| ProxyLookup.ClassesOver | lookups/proxy_lookup.py:147-151 | The union of the results' classes. |
| ProxyLookup.AddedLookupAnswersLast | lookups/proxy_lookup.py:101-103 | After a new lookup is added, the union result's instances and items are the old ones followed by the new result's, and its classes gain the new result's classes. |
| ProxyLookup.RemovedLookupAnswersDrop | lookups/proxy_lookup.py:114-127 | Removing a lookup drops exactly its result's part from the chained answers and keeps the rest in order. |
| ProxyLookup.DuplicateLookupLosesItsEntry | lookups/proxy_lookup.py:39-55 | A lookup added a second time and then removed once is still in the list, yet every earlier result has lost its entry. |
| ProxyLookup.PLResult.constructor | lookups/proxy_lookup.py:91-99 | A new union result holding each backing lookup's result for the class, with no listener and no subscription. |
| ProxyLookup.PLResult.LookupAdded | lookups/proxy_lookup.py:101-112 | The lookup's result is filed. Without listeners nothing else happens. With listeners, they are called once when that result has some class, and then the forwarding listener is subscribed to it, whether or not they were called. |
| ProxyLookup.PLResult.LookupRemoved | lookups/proxy_lookup.py:114-127 | KeyError, with nothing changed, when the lookup has no entry. With listeners, the forwarding listener is unsubscribed first, then they are called once when the removed result had some class. The entry goes in all cases. |
| ProxyLookup.PLResult.SubscribeAll | lookups/proxy_lookup.py:131-132 | One subscription to each backing result, in dictionary order. |
| ProxyLookup.PLResult.UnsubscribeAll | lookups/proxy_lookup.py:140-141 | One unsubscription from each backing result. From a balanced count, no subscription is left standing. |
| ProxyLookup.PLResult.AddLookupListener | lookups/proxy_lookup.py:129-134 | The listener is appended. Only the first listener subscribes to every backing result. The balance is kept. |
| ProxyLookup.PLResult.RemoveLookupListener | lookups/proxy_lookup.py:136-141 | ValueError, with nothing changed, for a listener not registered. Only the last listener to go unsubscribes from every backing result. The balance is kept. |
| ProxyLookup.PLResult.ListenerCollected | lookups/proxy_lookup.py:134 | A collected listener drops out without any unsubscription. |
| ProxyLookup.PLResult.ProxyListener | lookups/proxy_lookup.py:143-145 | Every listener is called once, in order, and nothing else changes. |
| ProxyLookup.PLResult.AllClasses | lookups/proxy_lookup.py:147-151 | A class is answered exactly when some backing result has it. |
| ProxyLookup.PLResult.AllInstances | lookups/proxy_lookup.py:153-157 | An instance is listed exactly when some backing result lists it; the order is dictionary order (`AddedLookupAnswersLast`, `RemovedLookupAnswersDrop`). |
| ProxyLookup.PLResult.AllItems | lookups/proxy_lookup.py:159-163 | Likewise for items. |
| ProxyLookup.AddingKeepsBalance | lookups/proxy_lookup.py:101-112 | `_lookup_added` keeps the forwarding listener subscribed once to each backing result exactly while there are listeners. |
| ProxyLookup.RemovingKeepsBalance | lookups/proxy_lookup.py:114-127 | `_lookup_removed` does the same for the remaining results. |
| ProxyLookup.ProxyLookup.constructor | lookups/proxy_lookup.py:28-37 | The given lookups in order, and no live result. |
| ProxyLookup.ProxyLookup.AddLookup | lookups/proxy_lookup.py:39-46 | The lookup is appended and every live result is told, as `LookupAdded` says. Results stay in step with the list. |
| ProxyLookup.ProxyLookup.AddToEach | lookups/proxy_lookup.py:45-46 | Every live result receives `_lookup_added`. |
| ProxyLookup.ProxyLookup.RemoveLookup | lookups/proxy_lookup.py:48-55 | ValueError, with no result touched, for a lookup not in the list. Otherwise its first occurrence goes and every live result is told, as `LookupRemoved` says. While results are in step with a list without duplicates, this succeeds and keeps them in step. |
| ProxyLookup.ProxyLookup.EveryResultHas | lookups/proxy_lookup.py:53-55 | Results in step with the list have an entry for every listed lookup. |
| ProxyLookup.ProxyLookup.RemoveFromEach | lookups/proxy_lookup.py:54-55 | Every live result receives `_lookup_removed`. The only failure is a KeyError, exactly when some result lacks the entry. |
| ProxyLookup.ProxyLookup.Lookup | lookups/proxy_lookup.py:57-63 | None exactly when every backing lookup answers None. Otherwise the answer of the first one, in list order, that has one. |
| ProxyLookup.ProxyLookup.LookupItem | lookups/proxy_lookup.py:65-71 | Likewise for items. |
| ProxyLookup.ProxyLookup.LookupResult | lookups/proxy_lookup.py:73-81 | The live result for the class, the same object across `add_lookup`/`remove_lookup`. Otherwise a new one asking every backing lookup, registered. |
| ProxyLookup.ProxyLookup.DropResult | lookups/proxy_lookup.py:35 | A result nobody holds leaves the weak registry. |
| ProxyLookup.ProxyLookup.LookupAll | lookups/proxy_lookup.py:153-157 | The inherited `lookup_all`: the backing results' instances chained in list order, duplicates kept. |
| DelegatedLookup.DelegatedResult.constructor | lookups/delegated_lookup.py:86-95 | Wraps the current delegate's result for the class, with no listener. |
| DelegatedLookup.DelegatedResult.LookupUpdated | lookups/delegated_lookup.py:97-113 | Re-points to the delegate's result. When that result differs and there are listeners: unsubscribe from the old, call the listeners once when either side has some class, subscribe to the new. The balance is kept. |
| DelegatedLookup.DelegatedResult.AddLookupListener | lookups/delegated_lookup.py:115-119 | Only the first listener subscribes to the underlying result. |
| DelegatedLookup.DelegatedResult.RemoveLookupListener | lookups/delegated_lookup.py:121-125 | ValueError for a listener not registered. Only the last one to go unsubscribes. |
| DelegatedLookup.DelegatedResult.ListenerCollected | lookups/delegated_lookup.py:119 | A collected listener drops out without any unsubscription. |
| DelegatedLookup.DelegatedResult.ProxyListener | lookups/delegated_lookup.py:127-129 | Every listener is called once, in order. |
| DelegatedLookup.SwapKeepsBalance | lookups/delegated_lookup.py:97-113 | A swap keeps the forwarding listener on exactly the current underlying result while there are listeners. Nothing happens when the result is the same or nobody listens. Otherwise the old result is unsubscribed first and the new one subscribed last, and the listeners are called once in between, exactly when either side has some class. |
| DelegatedLookup.DelegatedLookup.constructor | lookups/delegated_lookup.py:35-44 | The provider is asked exactly once, and there is no live result yet. |
| DelegatedLookup.DelegatedResult.AllClasses | lookups/delegated_lookup.py:131-132 | The underlying result's classes; no contract of its own. `LiveResultAnswersAsDelegate` states what it answers. |
| DelegatedLookup.DelegatedResult.AllInstances | lookups/delegated_lookup.py:134-135 | Likewise for instances. |
| DelegatedLookup.DelegatedResult.AllItems | lookups/delegated_lookup.py:137-138 | Likewise for items. |
| DelegatedLookup.DelegatedLookup.Lookup | lookups/delegated_lookup.py:64-65 | The current delegate's `lookup(cls)`; no contract of its own. `LookupUpdated` states that after a swap it answers as the new delegate. |
| DelegatedLookup.DelegatedLookup.LiveResultAnswersAsDelegate | lookups/delegated_lookup.py:131-138 | While results track the delegate, the live result for a class answers `all_classes`, `all_instances` and `all_items` as the current delegate's result for that class does. |
| DelegatedLookup.DelegatedLookup.LookupUpdated | lookups/delegated_lookup.py:46-57 | The provider is asked once more. The same lookup changes nothing. A different one becomes the delegate, and every live result is re-pointed to its result for the result's class. Afterwards `lookup` answers as the new delegate. |
| DelegatedLookup.DelegatedLookup.SwapEach | lookups/delegated_lookup.py:56-57 | Every live result receives `lookup_updated()`. |
| DelegatedLookup.DelegatedLookup.LookupResult | lookups/delegated_lookup.py:67-75 | The live result for the class, the same object across swaps. Otherwise a new one wrapping the delegate's result. |
| DelegatedLookup.DelegatedLookup.DropResult | lookups/delegated_lookup.py:44 | A result nobody holds leaves the weak registry. |
| DelegatedLookup.DelegatedLookup.LookupItem | lookups/delegated_lookup.py:131-138 | The inherited `lookup_item`: the first item of the live result. While results track the delegate, that is the first item of the delegate's result. |
| DelegatedLookup.DelegatedLookup.LookupAll | lookups/delegated_lookup.py:131-138 | The inherited `lookup_all`: the live result's instances. While results track the delegate, those are exactly the delegate's instances. |
| Lookups.FixedResult.AllClasses | lookups/singleton.py:74-75 | The classes are exactly the types of the items: none for `NO_RESULT`, the item's type for a singleton. |
| Lookups.FixedResult.AllInstances | lookups/singleton.py:77-82 | One instance per item, in order: the item's instance for a singleton, none for `NO_RESULT`. |
| Lookups.FixedResult.AllItems | lookups/singleton.py:84-85 | At most one item, and none exactly for `NO_RESULT`. |
| Lookups.EmptyLookup.Lookup | lookups/lookups.py:39-40 | Always None. |
| Lookups.EmptyLookup.LookupResult | lookups/lookups.py:42-43 | A result with no class, instance or item. |
| Lookups.EmptyLookup.LookupItem | lookups/lookup.py:118-129 | The inherited `lookup_item` over that result: always None. |
| Lookups.EmptyLookup.LookupAll | lookups/lookup.py:131-144 | The inherited `lookup_all` over that result: always empty. |
| Lookups.EmptyLookupFindsNothing | lookups/lookups.py:35-43 | The empty lookup finds nothing by any query. Every class gets the one shared `NO_RESULT`, which has no class, instance or item. |
| SimpleLookup.NewSimpleLookup | lookups/simple.py:25-32 | One direct item per instance, in order, typed by the instance's class. |
| SimpleLookup.Matching | lookups/simple.py:74-81 | An item is among the matches exactly when it is among the items and of the class or a subclass. |
| SimpleLookup.MatchingKeepsDuplicates | lookups/simple.py:74-81 | Each matching item occurs among the matches as often as among the items. |
| SimpleLookup.MatchingSplits | lookups/simple.py:74-81 | Filtering keeps order: the matches of a concatenation are the matches of each part, in turn. |
| SimpleLookup.TruthyInstances | lookups/simple.py:68-72 | Only truthy instances are kept, and every truthy instance is kept. |
| SimpleLookup.TruthyInstancesSplits | lookups/simple.py:68-72 | Dropping falsy instances keeps order: it works piecewise over a concatenation. |
| SimpleLookup.TruthyInstancesCounts | lookups/simple.py:68-72 | Each truthy instance occurs as often as among all the items' instances, and no falsy one occurs. |
| SimpleLookup.FirstInstance | lookups/simple.py:34-39 | None exactly when no item matches. Otherwise the instance of a matching item with no match before it. |
| SimpleLookup.Lookup | lookups/simple.py:34-39 | None exactly when no item matches; otherwise the instance of the first matching item. |
| SimpleLookup.LookupIsFirstOfResult | lookups/simple.py:34-39 | `lookup` answers the instance of the first item of `lookup_result(cls)`, and None exactly when that result is empty. |
| SimpleLookup.SimpleResult.constructor | lookups/simple.py:52-55 | The lookup and class, with an empty cache. |
| SimpleLookup.SimpleResult.AllItems | lookups/simple.py:74-81 | The matching items, in order, duplicates kept. Computed on the first call, then returned from the cache. |
| SimpleLookup.SimpleResult.AllClasses | lookups/simple.py:63-66 | A class is answered exactly when some item of the lookup matching the query has it. |
| SimpleLookup.SimpleResult.AllInstances | lookups/simple.py:68-72 | The instances of the matching items, falsy ones dropped. |
| SimpleLookup.LookupResult | lookups/simple.py:41-42 | A fresh result on every call. |
| SimpleLookup.LookupItem | lookups/lookup.py:118-129 | The inherited `lookup_item`: the first matching item. It agrees with `lookup`. |
| SimpleLookup.LookupAll | lookups/lookup.py:131-144 | The inherited `lookup_all`: the truthy instances of the matching items. |
| SimpleLookup.EmptySimpleLookupIsEmpty | lookups/simple.py:25-42 | A simple lookup over no instance answers every query as the empty lookup does. |
| SingletonLookup.NewSingletonLookup | lookups/singleton.py:23-32 | ValueError exactly for a None member. Otherwise the member and id are kept. |
| SingletonLookup.Lookup | lookups/singleton.py:34-38 | The member exactly when it is an instance of the class, otherwise None. |
| SingletonLookup.LookupItem | lookups/singleton.py:47-51 | An item exactly when the member is an instance of the class: the member's item, typed by its class and carrying the persistent id. |
| SingletonLookup.LookupAll | lookups/singleton.py:53-57 | At most one instance: the member exactly when it is an instance of the class. |
| SingletonLookup.LookupResult | lookups/singleton.py:40-45 | On a match, a result whose one item is the member's item and whose one class is the member's class; otherwise the shared `NO_RESULT`. |
| SingletonLookup.OverridesAgreeWithResult | lookups/singleton.py:34-85 | `lookup`, `lookup_item` and `lookup_all` answer what the defaults over `lookup_result(cls)` would. On a match, that result's classes are exactly the member's class and its items are exactly the member's item with the id. Otherwise it is the shared `NO_RESULT`. |
| SingletonLookup.AgreesWithSimpleLookup | lookups/singleton.py:34-57 | A singleton answers `lookup` and `lookup_item` (up to the id) as a simple lookup over its member. `lookup_all` agrees exactly when the member is truthy or does not match. |

## Left out

- Locks (`RLock`) and the thread pool behind an executor are concurrency. Everything is sequential. Notification through an executor is recorded as one hand-off per result, with no ordering across threads.
- Weak references and garbage collection are explicit steps:
  - `SetStorage.Evict`, `ProxyLookup.DropResult` and `DelegatedLookup.DropResult` for result registries;
  - `ConvertingItem.Collect` for a converted value;
  - `ListenerCollected` for listeners.
- The listener registry of a generic lookup (`WeakObservable`, and `GLResult.add_lookup_listener`/`remove_lookup_listener`) sits on a third-party observable whose `trigger` is not visible. A notification is recorded as one entry in a ghost log.
- `LookupItem` and `LookupListener` are imported by the source but are not part of this model. A direct item is modelled as its instance plus an optional persistent id.
- Items.MakePair: a None member without a convertor is rejected with ValueError like a None key. What `LookupItem` does with None is not visible.
- Plugin discovery through entry points (`importlib.metadata`) is I/O. `get_default` takes what discovery yields, and what the recorded provider's `get_lookup()` answers, as inputs.
- The delegating lookup's provider is asked through an input, the lookup it answers. The delegating result is given the delegate directly instead of a back-reference to its owning lookup.
- External lookups and results are a `Backing` snapshot of functions. A backing result changing between two calls is modelled through the forwarding listener (`ProxyListener`) only.
- Python's set iteration order is not modelled. `SetStorage.Lookup` promises each matching pair once in some order, and `GenericLookup.LookupItem` promises a matching pair, not a particular one.
- Only single inheritance is modelled: a class is a chain of ancestors.
- A convertor whose `convert` answers None is not modelled: every conversion yields an instance.
- The unused `ensure` argument of `begin_transaction`, all `__str__`/`__repr__` methods, and packaging are left out.
- The fixed results (`NoResult`, `SingletonResult`, `SimpleResult`) keep no listener state, since their listener methods do nothing. `SimpleResult`'s are empty methods; the others have none.
- DelegatedLookup.DelegatedLookup.LookupItem: relates the answer to the live result. It promises that this is the delegate's first item only while results track the delegate.
- The union lookup's dictionary follows the code. A lookup listed twice has one entry per result, so removing one occurrence drops the entry (`ProxyLookup.DuplicateLookupLosesItsEntry`). A later `remove_lookup` of the other occurrence then fails with KeyError.
- LookupApi.RemoveFirstOf: its own contract states only the length. Which occurrence goes, and that the rest keeps its order, is `LookupApi.RemoveFirstOfDropsFirst`.
- SimpleLookup.TruthyInstances: its own contract states membership and a bound. Order is `TruthyInstancesSplits`, and multiplicity is `TruthyInstancesCounts`.
- SetStorage.Lookup, GenericLookup.SetStorage.EndTransaction, GenericLookup.GLResult.AllClasses and InstanceContent.ConvertingItem.ToPair: the storage types a converting pair by `convertor.type(key)` at all times. Python's storage asks `get_type()`, which answers the class of the converted value while one is referenced. The two agree for convertors whose `type(key)` is exactly the class of `convert(key)` (`SetStorage.ExactConvertorsMakeLiveTypingStatic`). For a convertor announcing a proper superclass, a query for the converted value's own class finds the pair in Python only while the value is alive, and never in the model (`SetStorage.LooseConvertorTypesLiveValueLower`); the same goes for which results a change notifies and for `all_classes`.
- InstanceContent.Add, InstanceContent.Set and GenericLookup.GLResult.AllInstances: the storage keeps a converting pair as a value, not the `ConvertingItem` object with its weak cache. So how often `convert` runs across queries of a lookup is not modelled. That `get_display_name`, `get_id` and `get_type` never convert, and that `get_instance` converts only without a live value, is proved of the item alone.
- GenericLookup.GenericLookup.LookupAll: its answer is stated under `CachesAgree`, or from unset caches. `CachesAgree` is kept by every operation except a `remove` that meets a stored item under another convertor and a `set` that rebinds a key to another convertor (see the next line).
- A `set` or `remove` that meets an equal converting item under another convertor follows the code. A `remove` records the item given, not the one stored, so results above only the stored item's type are not notified, though their answer changes. A `set` that keeps a key under a new convertor puts that item in neither side of the symmetric difference, so nothing is recorded for it, though the stored item and its type change. `SetStorage.RemoveIsExplained` and `SetStorage.SetAllIsExplained` require that this case does not arise.
- An `add` of an item equal to a stored one keeps the stored one, as `set.add` does (`SetStorage.Insert`). The docstring of `add` says the new instance replaces the old one. For plain instances the two are the same item, so the difference shows only for a converting item added again under another convertor: the first convertor stays.
- The simple and singleton lookups differ on a falsy member, following the code: the simple result drops it from `all_instances`, and the singleton's `lookup_all` keeps it (`SingletonLookup.AgreesWithSimpleLookup`).
