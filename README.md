# KVObserver in Dafny

A Dafny model of KVObserver, a small Swift library that wraps Key-Value
Observing (KVO). A `KVObserver` registry hands out integer observing ids. Each
id maps to a `KVOContext` that records the observed object (held weakly or as
a raw pointer), the key path, the dispatch policy, the pending-initial flag and
the Core Data context captured for the inferred policies. When a change
arrives, the context decides where the handler runs: in place, on a dispatch
queue, or on a managed object context. The `Observing` mixin lets an owner
register a whole set of observation descriptions at once and stop them
together.

Modules:

- `Wrappers` (`wrappers.dfy`): `Option`.
- `Dispatch` (`dispatch.dfy`): `DispatchType`, the `Action` taken for one
  notification, and the routing decision `Route`. `Route` is a closed match on
  the policy and the initial flag, stated against the policy table.
- `KVO` (`kvobserver.dfy`): objects and their storage, the dedup equality of
  contexts, the class `KVOContext` and the class `KVObserver`:
  - `counter` is `currentObservingId` and `table` is `observingIdToContext`.
  - `log` is a ghost record of the `addObserver` / `removeObserver` calls made
    on the KVO primitive. A context object's identity is the correlation
    token.
  - Bulk teardown is specified against an arbitrary enumeration order, because
    Swift's `Set` and `Dictionary` iteration order is unspecified.
- `ObservingProtocol` (`observing_protocol.dfy`): `ObservationInfos` with its
  `==` and `hash` inputs, and the class `Observing` holding the owned id set.
  `addObservers` is specified as a batch: one new id and one fresh context per
  description, in an unspecified order.
- `Scenarios` (`scenarios.dfy`): client runs whose outcomes follow from the
  contracts, including the direct-observation unit test.

Modelling choices:

- Each object has an identity of its own as well as its address. A later
  object may reuse an address, but never an identity.
- Object lifetime is a set `alive` of the identities of live objects. It is
  passed to every operation that resolves an observed object.
- A weak reference names its object's identity. It resolves only while that
  object is alive, so once zeroed it stays nil, even if a new object reuses the
  address. A pointer always resolves to its address.
- `Thread.isMainThread` is a parameter.
- Queues and managed object contexts are opaque handles.

The equality of contexts follows the code, not the comment above it
(`Sources/KVObserver/KVObserver.swift:156-162`). The comment says contexts
whose object is gone are different. The code compares optional pointers, so
two contexts whose weak references are both gone, with the same key path,
compare equal. This case cannot change the outcome of `observe`: its candidate
is built from a live object, and `KVO.LiveCandidateNeverMatchesDeadWeak`
proves such a candidate never equals an entry whose weak reference is gone.

## Model

| member | source | states |
|---|---|---|
| Dispatch.Route | Sources/KVObserver/KVObserver.swift:201-222 | The handler runs in place exactly for `.direct`, for a pending initial call under a "DirectInitial" policy, and for `.directOrAsyncOnMainQueue` on the main thread. Queue actions use the policy's own queue. Perform actions use the policy's context, or the context captured at init for the inferred policies. The match is total. |
| Dispatch.RouteFollowsPolicyTable | Sources/KVObserver/KVObserver.swift:201-222 | Routing agrees with an independent table of each policy's scheduled form; only a bypassed initial call deviates, and it is inline. |
| Dispatch.InitialFlagOnlyMattersForDirectInitial | Sources/KVObserver/KVObserver.swift:202-210 | The initial flag changes the action only for the six "DirectInitial" policies. For those, the initial call is inline and every later call is not. |
| Dispatch.RouteDependsOnThreadAndInferredOnlyWhereNamed | Sources/KVObserver/KVObserver.swift:211-221 | Only `.directOrAsyncOnMainQueue` looks at the thread. Only the inferred policies look at the captured context. The two facts are separate clauses. |
| Dispatch.DispatchType.IsOnCoreDataInferredContext | Sources/KVObserver/KVObserver.swift:62-67 | Holds for the four inferred Core Data policies. Its property is stated by `Dispatch.InferredPoliciesAreContextlessCoreData`. |
| Dispatch.InferredPoliciesAreContextlessCoreData | Sources/KVObserver/KVObserver.swift:62-67 | A policy is inferred iff its deliveries go to a managed object context and it names no context of its own. |
| KVO.StoresAsPointer | Sources/KVObserver/KVObserver.swift:106 | The object is stored as a pointer iff `keepPointer…` is true, or it is nil and the object is an `NSManagedObject`. |
| KVO.ObservedObject | Sources/KVObserver/KVObserver.swift:165-174 | A stored object resolves iff it is a pointer or a weak reference whose own object is alive, and it resolves to its stored address. `observedObject` and `computedObservedObjectPtr` therefore agree. |
| KVO.ContextsEqual | Sources/KVObserver/KVObserver.swift:161-163 | Equal contexts have equal key paths. When both objects resolve, equality is the same key path on the same address. A resolving context never equals a non-resolving one. Two non-resolving contexts are equal iff their key paths are. |
| KVO.InferredContext | Sources/KVObserver/KVObserver.swift:194-195 | A context is captured exactly for the four inferred policies, and it is the managed object's own context. |
| KVO.KVOContext.constructor | Sources/KVObserver/KVObserver.swift:178-196 | Exactly one storage mode is set, from the given choice. The flag starts as `willCallInitial`. The captured context is present iff the policy is inferred. |
| KVO.KVOContext.CallHandler | Sources/KVObserver/KVObserver.swift:198-222 | The action is `Route` of the policy, the flag before the call, the thread and the captured context. The flag is false afterwards, whichever branch ran. |
| KVO.UnregisterFor | Sources/KVObserver/KVObserver.swift:125 | Tearing down one context issues at most one `Unregister`. It issues one iff the object still resolves, and it carries the context's own address, key path and token. |
| KVO.TeardownEvents | Sources/KVObserver/KVObserver.swift:137-138 | Tearing down contexts in a given order issues only `Unregister` events, and no more events than ids. That each id contributes at most its own `Unregister`, and never twice, is stated by `KVO.TeardownEventsAre` and `KVO.TeardownEventsDistinct`. |
| KVO.TeardownEventsAre | Sources/KVObserver/KVObserver.swift:137-138 | Every teardown event unregisters some listed context. It includes a listed context's `Unregister` iff that context's object resolves. |
| KVO.TeardownEventsDistinct | Sources/KVObserver/KVObserver.swift:137-138 | Teardown never issues the same `Unregister` twice. |
| KVO.InsertKeepsInvariant | Sources/KVObserver/KVObserver.swift:111-114 | Registering a valid context that is new to the table and was never unregistered keeps the registry invariant: keys at most the counter, distinct contexts, every entry registered and not unregistered. |
| KVO.RemoveKeepsInvariant | Sources/KVObserver/KVObserver.swift:122-127 | Tearing down one entry and removing it keeps the registry invariant. |
| KVO.KVObserver.constructor | Sources/KVObserver/KVObserver.swift:239-240 | A new registry has counter 0, an empty table and has issued nothing. |
| KVO.KVObserver.Observe | Sources/KVObserver/KVObserver.swift:104-116 | It returns nil iff re-registration is skipped and an equal context is already in the table; then nothing changes. Otherwise it returns the old counter plus 1. The next id maps to a fresh context built from the arguments, other entries are untouched, and one `Register` with that token is issued. |
| KVO.KVObserver.ObserveAlways | Sources/KVObserver/KVObserver.swift:76-78 | The overload without `skipReRegistration` always registers, so its forced unwrap never fails. |
| KVO.KVObserver.StopObserving | Sources/KVObserver/KVObserver.swift:122-127 | An active id is removed and nothing else changes. The registry issues `Unregister` with the registration's token iff the object resolves. That token was registered and never unregistered before. |
| KVO.KVObserver.StopObservingIds | Sources/KVObserver/KVObserver.swift:133-135 | Exactly the given ids are removed. The events are those of `StopObserving` applied to each id in some enumeration of the set. The counter is kept. |
| KVO.KVObserver.StopObservingEverything | Sources/KVObserver/KVObserver.swift:137-140 | The table is emptied and the counter kept. One `Unregister` is issued per entry whose object resolves, in some enumeration of the ids. On an empty table nothing is issued. |
| KVO.KVObserver.Deinit | Sources/KVObserver/KVObserver.swift:71-73 | Deinit performs the full teardown. |
| KVO.KVObserver.Deliver | Sources/KVObserver/KVObserver.swift:146-150 | A notification for an active token is routed by that token's context, and its initial flag is cleared. |
| KVO.LiveCandidateNeverMatchesDeadWeak | Sources/KVObserver/KVObserver.swift:161-174 | A candidate for a live object never equals an entry whose weak reference is gone. This holds whatever the key paths and addresses, so also when the candidate reuses the dead object's address. |
| KVO.AlreadyRegistered | Sources/KVObserver/KVObserver.swift:109 | `observingIdToContext.values.contains(context)`: some entry equals the candidate. Its meaning is stated by `KVO.AlreadyRegisteredMeansSameObservationActive`. |
| KVO.AlreadyRegisteredMeansSameObservationActive | Sources/KVObserver/KVObserver.swift:109 | For a live candidate, the dedup test holds iff some active entry observes the same key path on the object the candidate resolves to. |
| KVO.StorageModeIrrelevantWhileAlive | Sources/KVObserver/KVObserver.swift:161-174 | While the object lives, weak and pointer storage compare equal. |
| KVO.StalePointerMatchesReusedAddress | Sources/KVObserver/KVObserver.swift:161-174 | After an object is gone, a new object reusing its address counts as already registered by a pointer entry, in either storage mode. It does not count as registered by a weak entry of the dead object. |
| ObservingProtocol.HashFeed | Sources/KVObserver/ObservingProtocol.swift:34-37 | The inputs `hash(into:)` combines: the key path and the object's hash. Its properties are stated by `ObservingProtocol.HashFeedOfBuiltContext`, `ObservingProtocol.HashAgreesWithEquality` and `ObservingProtocol.OptionsAndPolicyAreIgnored`. |
| ObservingProtocol.HashFeedOfBuiltContext | Sources/KVObserver/ObservingProtocol.swift:34-37 | The hasher is fed exactly the key path and object address that the context registered for the description observes. |
| ObservingProtocol.SameObservation | Sources/KVObserver/ObservingProtocol.swift:39-45 | The custom `==`: same key path and same object. Its properties are stated by `ObservingProtocol.SameObservationIsEquivalence`, `ObservingProtocol.HashAgreesWithEquality` and `ObservingProtocol.SameObservationAgreesWithContextsEqual`. |
| ObservingProtocol.SameObservationAgreesWithContextsEqual | Sources/KVObserver/ObservingProtocol.swift:39-45 | For live objects, two descriptions are `==` iff the contexts registered for them are equal under the registry's dedup equality. |
| ObservingProtocol.SameObservationIsEquivalence | Sources/KVObserver/ObservingProtocol.swift:39-45 | The `==` of descriptions is reflexive, symmetric and transitive. |
| ObservingProtocol.HashAgreesWithEquality | Sources/KVObserver/ObservingProtocol.swift:34-45 | Two descriptions are `==` iff they feed the hasher the same key path and object hash. |
| ObservingProtocol.OptionsAndPolicyAreIgnored | Sources/KVObserver/ObservingProtocol.swift:34-45 | Options and dispatch policy take no part in `==` or `hash`. |
| ObservingProtocol.SetInsert | Sources/KVObserver/ObservingProtocol.swift:34-45 | Inserting into a Swift `Set` of descriptions keeps it free of `==` duplicates. Afterwards the set holds a member `==` to the new description. The set grows iff no member was `==` to it before. |
| ObservingProtocol.BatchObservesDistinctPairs | Sources/KVObserver/ObservingProtocol.swift:62-67 | A batch over a set without `==` duplicates never registers the same key path on the same object address twice. |
| ObservingProtocol.Observing.constructor | Sources/KVObserver/ObservingProtocol.swift:50-54 | An owner starts with its registry and descriptions and owns no ids. The descriptions must be a Swift `Set`: no two of them are `==`. |
| ObservingProtocol.Observing.ObserveInfo | Sources/KVObserver/ObservingProtocol.swift:65 | One call of the plain `observe` overload with a description's fields gives the next id. That id maps to a fresh context built from the description, and one `Register` is issued. |
| ObservingProtocol.Observing.AddObservers | Sources/KVObserver/ObservingProtocol.swift:62-69 | With any owned ids, it changes neither the ids nor the registry. From none, each description is registered once, in some order. The owned ids are the new ids, and the table and log grow by exactly those registrations. |
| ObservingProtocol.BatchStep | Sources/KVObserver/ObservingProtocol.swift:64-67 | One more `observe` of a description not yet handled extends the batch by its context, its id and its `Register`. |
| ObservingProtocol.BatchCounts | Sources/KVObserver/ObservingProtocol.swift:64-67 | A finished batch owns as many ids as there are descriptions, and they are the ids after the old counter. It lists each description exactly once. |
| ObservingProtocol.BatchTable | Sources/KVObserver/ObservingProtocol.swift:64-67 | After a finished batch, every owned id is active under the context built for its description, and the entries that were there before are untouched. |
| ObservingProtocol.Observing.StopObserving | Sources/KVObserver/ObservingProtocol.swift:71-74 | All owned ids must be active. They are all stopped, no other entry changes, and the owner then owns nothing. |
| Scenarios.SimpleDirectObservation | Tests/KVObserverTests/KVObserverTests.swift:24-41 | A direct observation gets id 1 and is notified in place. Once stopped, its token is gone from the table, and one `Register` and one `Unregister` were issued. |
| Scenarios.SkipReRegistration | Sources/KVObserver/KVObserver.swift:104-116 | The same object and key path observed twice with `skipReRegistration` registers once. |
| Scenarios.IdsAreNeverReused | Sources/KVObserver/KVObserver.swift:113-127 | After id 1 is stopped, the next observation gets id 2. |
| Scenarios.InitialCallBypassesDispatch | Sources/KVObserver/KVObserver.swift:198-210 | Under `asyncDirectInitial` with `.initial`, the first notification is inline and the next one is queued. |
| Scenarios.TeardownTwice | Sources/KVObserver/KVObserver.swift:137-140 | A second teardown, through `deinit`, issues nothing and keeps the counter. |
| Scenarios.PointerSurvivesDeallocation | Sources/KVObserver/KVObserver.swift:122-127 | After the object is gone, a pointer entry is still unregistered and a weak one is not. |
| Scenarios.MixinLifecycle | Sources/KVObserver/ObservingProtocol.swift:62-74 | `addObservers` owns one id per description. A second call registers nothing more. `stopObserving` leaves the owner without ids and the registry empty. |
| Scenarios.WeakEntryIgnoresReusedAddress | Sources/KVObserver/KVObserver.swift:104-127 | A weak entry whose object is gone does not block `skipReRegistration` for a new object at the same address, which gets id 2. Stopping the old id issues nothing. |
| Scenarios.DuplicateDescriptionsRegisterOnce | Sources/KVObserver/ObservingProtocol.swift:34-69 | Two descriptions that differ only in their options are one element of the owner's set, so `addObservers` registers one id. |

## Left out

- The KVO primitive itself is not modelled: observers are not actually installed or removed, and the runtime does not call `observeValue`. Those calls are ghost `Register` / `Unregister` events, and `Deliver` stands for a notification arriving for an active token.
- `.initial` only sets the pending-initial flag. The notification KVO sends from within `addObserver` is a later `Deliver` in the model. `.new`, `.old` and `.prior` have no effect on the model.
- Handler closures, the change dictionary and the `processChanges` requirement of `Observing` are opaque and not modelled.
- Execution of queued work is not modelled: GCD `sync` / `async`, Core Data `perform` / `performAndWait`, FIFO order and deadlocks. Only the chosen `Action` is. The main queue of `.asyncOnMainQueue` is the separate `AsyncMain` action.
- Threading and thread safety are not modelled. `Thread.isMainThread` is a parameter.
- ARC is not modelled. The caller supplies the set of live object identities. Which addresses the allocator reuses, and when, is not modelled: any object may have any address.
- `Unmanaged` pointer conversions are not modelled. An address is a natural number, and `NSObject.hashValue` is taken to be the address.
- The `Hasher` function itself is not modelled, only the inputs `hash(into:)` feeds it.
- The forced cast and unwrap of the inferred policies are a precondition (a managed object with a context). So are the force-unwrap of `stopObserving(id:)` on an unknown id and the same crash inside `stopObserving(ids:)`. The crash and any teardown already done before it are not modelled.
- The order in which Swift enumerates a `Set` or `Dictionary` is not modelled. Bulk operations return a ghost enumeration order and are specified for any such order.
- `ObservationInfos` is a class in Swift. It is a value here, because the owner only keeps descriptions in a `Set`, which by `Deduplicated` uses their `==` and not their identity.
- ObservingProtocol.Observing.AddObservers: the method's own contract states the batch, not the counts. That every owned id is active and that there are as many owned ids as descriptions follow from `BatchCounts` and `BatchTable`, as `Scenarios.MixinLifecycle` shows.
- The Core Data stack and the auto-observed test fixtures are not modelled, because they depend on runtime deallocation and faulting.
- KVO.KVObserver.Observe: the counter is unbounded. Swift's `currentObservingId` is an `Int`, and its `+= 1` traps at `Int.max`. The model does not reach that trap.
- KVO.KVOContext.CallHandler: the flag is cleared as soon as the action is chosen. In Swift a `defer` clears it only after an inline handler, a `sync` or a `performAndWait` returns. A notification delivered re-entrantly from inside such a handler still sees the flag set, and under a "DirectInitial" policy it runs inline again. Re-entrant delivery is not modelled.
- ObservingProtocol.SameObservation: objects are compared by address. Swift compares them with `NSObject ==`, which is `isEqual(_:)` and may be overridden by a subclass. The model assumes the default identity-based `isEqual(_:)`, with `hashValue` agreeing with it.
- KVO.ContextsEqual: key paths are Dafny strings, compared code point by code point. Swift's `String ==` and `Hasher.combine` use Unicode canonical equivalence, so `"caf\u{E9}"` and `"cafe\u{301}"` are one key path in Swift and two in the model. The same holds for `ObservingProtocol.SameObservation`, `ObservingProtocol.HashFeed` and `KVO.AlreadyRegistered`. Unicode normalisation is not modelled.
