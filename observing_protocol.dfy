/** The `Observing` convenience mixin: an owner describes the observations it
    wants as a set of `ObservationInfos`, registers them all with a shared
    registry and keeps the ids it was given, so that it can stop them all
    later. */
module ObservingProtocol {

  import opened Wrappers
  import opened Dispatch
  import opened KVO

  /** One wanted observation. The object is held strongly, so it is alive
      for as long as the description exists. */
  datatype ObservationInfos = ObservationInfos(observerObject: Object, keyPath: string,
                                               kvoOptions: set<ObservingOption>, dispatchType: DispatchType)

  /** What `hash(into:)` combines: the key path and the object's hash, which
      for an `NSObject` is derived from its address. */
  function HashFeed(i: ObservationInfos): (string, Addr) {
    (i.keyPath, i.observerObject.addr)
  }

  /** The custom `==`: same key path and the very same object (compared by
      address); options and dispatch policy are not compared. */
  predicate SameObservation(a: ObservationInfos, b: ObservationInfos)
  {
    a.keyPath == b.keyPath && a.observerObject.addr == b.observerObject.addr
  }

  /** `==` is an equivalence relation. */
  lemma SameObservationIsEquivalence(a: ObservationInfos, b: ObservationInfos, c: ObservationInfos)
    ensures SameObservation(a, a)
    ensures SameObservation(a, b) ==> SameObservation(b, a)
    ensures SameObservation(a, b) && SameObservation(b, c) ==> SameObservation(a, c)
  {
  }

  /** `hash` agrees with `==` in both directions: equal descriptions feed the
      hasher identical inputs, and identical inputs only come from equal
      descriptions. */
  lemma HashAgreesWithEquality(a: ObservationInfos, b: ObservationInfos)
    ensures SameObservation(a, b) <==> HashFeed(a) == HashFeed(b)
  {
  }

  /** Descriptions differing only in their options or dispatch policy are
      `==` and hash alike, so a Swift `Set` holds at most one of them. */
  lemma OptionsAndPolicyAreIgnored(a: ObservationInfos, opts: set<ObservingOption>, dt: DispatchType)
    ensures SameObservation(a, a.(kvoOptions := opts, dispatchType := dt))
    ensures HashFeed(a) == HashFeed(a.(kvoOptions := opts, dispatchType := dt))
  {
  }

  /** A set of descriptions as a Swift `Set<ObservationInfos>` holds them:
      no two members are `==`. */
  predicate Deduplicated(s: set<ObservationInfos>) {
    forall a, b :: a in s && b in s && SameObservation(a, b) ==> a == b
  }

  /** `Set.insert`: a description `==` to a member is not added. */
  function SetInsert(s: set<ObservationInfos>, x: ObservationInfos): (r: set<ObservationInfos>)
    ensures Deduplicated(s) ==> Deduplicated(r)
    ensures s <= r <= s + {x}
    ensures exists y :: y in r && SameObservation(x, y)
    ensures |r| == |s| <==> exists y :: y in s && SameObservation(x, y)
  {
    if exists y :: y in s && SameObservation(x, y) then s else s + {x}
  }

  /** A description that the registry can observe: a live object, and a
      managed object with a context for the inferred policies. */
  predicate Observable(i: ObservationInfos, alive: set<ObjId>) {
    i.observerObject.id in alive
    && (i.dispatchType.IsOnCoreDataInferredContext() ==> i.observerObject.HasManagedObjectContext())
  }

  /** The context registered for a description through the `observe`
      overload without `skipReRegistration` and with the default storage. */
  ghost predicate BuiltFrom(c: KVOContext, i: ObservationInfos)
    reads c
  {
    && (i.dispatchType.IsOnCoreDataInferredContext() ==> i.observerObject.HasManagedObjectContext())
    && c.storage == Storing(i.observerObject, StoresAsPointer(i.observerObject, None))
    && c.keyPath == i.keyPath && c.dispatchType == i.dispatchType
    && c.inferredContext == InferredContext(i.dispatchType, i.observerObject)
    && c.isInitialCall == (Initial in i.kvoOptions)
  }

  /** The hasher is fed exactly the key path and the object address that the
      context registered for a description observes. */
  lemma HashFeedOfBuiltContext(i: ObservationInfos, c: KVOContext)
    requires BuiltFrom(c, i)
    ensures HashFeed(i) == (c.keyPath, c.storage.addr)
  {
  }

  /** For live objects, the `==` of descriptions agrees with the registry's
      dedup equality of the contexts registered for them. */
  lemma SameObservationAgreesWithContextsEqual(a: ObservationInfos, b: ObservationInfos,
                                               ca: KVOContext, cb: KVOContext, alive: set<ObjId>)
    requires BuiltFrom(ca, a) && BuiltFrom(cb, b)
    requires a.observerObject.id in alive && b.observerObject.id in alive
    ensures SameObservation(a, b) <==> ContextsEqual(ca.keyPath, ca.storage, cb.keyPath, cb.storage, alive)
  {
  }

  /** The elements of a sequence. */
  ghost function Elems<T>(s: seq<T>): set<T> {
    if s == [] then {} else Elems(s[..|s| - 1]) + {s[|s| - 1]}
  }

  /** No element is added twice, each one being new to what was before. */
  ghost predicate NoRepeats<T>(s: seq<T>) {
    s == [] || (NoRepeats(s[..|s| - 1]) && s[|s| - 1] !in Elems(s[..|s| - 1]))
  }

  /** The elements of a sequence are the members of its positions; when
      none repeats there are as many as positions and they are distinct. */
  lemma {:induction false} ElemsCount<T>(s: seq<T>)
    ensures forall x :: x in Elems(s) <==> x in s
    ensures NoRepeats(s) ==> |Elems(s)| == |s| && Distinct(s)
  {
    if s != [] {
      var p, x := s[..|s| - 1], s[|s| - 1];
      ElemsCount(p);
      assert forall i :: 0 <= i < |p| ==> s[i] == p[i];
      assert s == p + [x];
    }
  }

  /** `lo + 1` to `hi` are `hi - lo` ids. */
  lemma {:induction false} IdsAfterCount(lo: nat, hi: nat)
    requires lo <= hi
    ensures |IdsAfter(lo, hi)| == hi - lo
    decreases hi
  {
    if lo < hi {
      IdsAfterCount(lo, hi - 1);
      IdsAfterRange(lo, hi - 1);
    }
  }

  /** The ids `lo + 1` to `hi`. */
  ghost function IdsAfter(lo: nat, hi: nat): set<nat>
    decreases hi
  {
    if hi <= lo then {} else IdsAfter(lo, hi - 1) + {hi}
  }

  /** The table after the contexts `cs` are stored, in order, under the ids
      following `lo`. */
  ghost function Extend(t: map<nat, KVOContext>, lo: nat, cs: seq<KVOContext>): map<nat, KVOContext>
  {
    if cs == [] then t
    else Extend(t, lo, cs[..|cs| - 1])[lo + |cs| := cs[|cs| - 1]]
  }

  /** The `Register` events of the contexts `cs`, in order. */
  ghost function RegistersOf(cs: seq<KVOContext>): seq<Event> {
    if cs == [] then [] else RegistersOf(cs[..|cs| - 1]) + [RegisterOf(cs[|cs| - 1])]
  }

  /** A batch of registrations adds exactly the ids following `lo`. */
  lemma {:induction false} ExtendKeys(t: map<nat, KVOContext>, lo: nat, cs: seq<KVOContext>)
    ensures Extend(t, lo, cs).Keys == t.Keys + IdsAfter(lo, lo + |cs|)
  {
    if cs != [] {
      var n := |cs|;
      ExtendKeys(t, lo, cs[..n - 1]);
      assert IdsAfter(lo, lo + n) == IdsAfter(lo, lo + n - 1) + {lo + n};
    }
  }

  /** A batch of registrations leaves the entries under ids up to `lo` alone. */
  lemma {:induction false} ExtendKeeps(t: map<nat, KVOContext>, lo: nat, cs: seq<KVOContext>, k: nat)
    requires k in t && k <= lo
    ensures k in Extend(t, lo, cs) && Extend(t, lo, cs)[k] == t[k]
  {
    if cs != [] {
      ExtendKeeps(t, lo, cs[..|cs| - 1], k);
    }
  }

  /** The `j`-th context of a batch sits under id `lo + 1 + j`. */
  lemma {:induction false} ExtendPlaces(t: map<nat, KVOContext>, lo: nat, cs: seq<KVOContext>, id: nat)
    requires lo < id <= lo + |cs|
    ensures id in Extend(t, lo, cs) && Extend(t, lo, cs)[id] == cs[id - lo - 1]
  {
    var n := |cs|;
    if id < lo + n {
      var p := cs[..n - 1];
      ExtendPlaces(t, lo, p, id);
      assert p[id - lo - 1] == cs[id - lo - 1];
    }
  }

  /** The ids `lo + 1` to `hi` are exactly the numbers in that range. */
  lemma {:induction false} IdsAfterRange(lo: nat, hi: nat)
    ensures forall id :: id in IdsAfter(lo, hi) <==> lo < id <= hi
    decreases hi
  {
    if lo < hi {
      IdsAfterRange(lo, hi - 1);
    }
  }

  /** Where a batch of registrations stands once the descriptions of
      `order` (the set `done`) are registered, starting from table `t0`,
      counter `lo` and log `log0`: `created` are their contexts, `ids` the
      ids handed out, and `counter`, `table`, `log` the registry now. */
  ghost predicate Batch(t0: map<nat, KVOContext>, lo: nat, log0: seq<Event>,
                        order: seq<ObservationInfos>, created: seq<KVOContext>, done: set<ObservationInfos>,
                        ids: set<nat>, counter: nat, table: map<nat, KVOContext>, log: seq<Event>)
  {
    && Elems(order) == done && NoRepeats(order) && |created| == |order|
    && counter == lo + |order|
    && ids == IdsAfter(lo, counter)
    && table == Extend(t0, lo, created)
    && log == log0 + RegistersOf(created)
  }

  /** One more `observe`, of a description not yet registered, extends the
      batch by its context and its id. */
  lemma BatchStep(t0: map<nat, KVOContext>, lo: nat, log0: seq<Event>,
                  order: seq<ObservationInfos>, created: seq<KVOContext>, done: set<ObservationInfos>,
                  ids: set<nat>, counter: nat, table: map<nat, KVOContext>, log: seq<Event>,
                  info: ObservationInfos, c: KVOContext)
    requires Batch(t0, lo, log0, order, created, done, ids, counter, table, log)
    requires info !in done
    ensures Batch(t0, lo, log0, order + [info], created + [c], done + {info},
                  ids + {counter + 1}, counter + 1, table[counter + 1 := c], log + [RegisterOf(c)])
  {
    assert (created + [c])[..|created|] == created;
    AppendAssociative(log0, RegistersOf(created), [RegisterOf(c)]);
    IdsAfterRange(lo, counter);
    assert (order + [info])[..|order|] == order;
  }

  /** A finished batch hands out one new id per description and lists
      every description exactly once. */
  lemma BatchCounts(t0: map<nat, KVOContext>, lo: nat, log0: seq<Event>,
                    order: seq<ObservationInfos>, created: seq<KVOContext>, infos: set<ObservationInfos>,
                    ids: set<nat>, counter: nat, table: map<nat, KVOContext>, log: seq<Event>)
    requires Batch(t0, lo, log0, order, created, infos, ids, counter, table, log)
    ensures |ids| == |infos| == |order| && counter == lo + |infos|
    ensures Distinct(order) && forall i :: i in infos <==> i in order
    ensures forall id :: id in ids <==> lo < id <= counter
  {
    IdsAfterRange(lo, counter);
    IdsAfterCount(lo, counter);
    ElemsCount(order);
  }

  /** A finished batch, started on a table whose ids are at most `lo`,
      leaves the entries that were there alone and stores the `j`-th
      context under the `j`-th new id, so every owned id is active. */
  lemma BatchTable(t0: map<nat, KVOContext>, lo: nat, log0: seq<Event>,
                   order: seq<ObservationInfos>, created: seq<KVOContext>, infos: set<ObservationInfos>,
                   ids: set<nat>, counter: nat, table: map<nat, KVOContext>, log: seq<Event>)
    requires forall k :: k in t0 ==> k <= lo
    requires Batch(t0, lo, log0, order, created, infos, ids, counter, table, log)
    ensures table.Keys == t0.Keys + ids && ids <= table.Keys
    ensures forall k :: k in t0 ==> table[k] == t0[k]
    ensures forall id :: lo < id <= counter ==> id in table && table[id] == created[id - lo - 1]
  {
    ExtendKeys(t0, lo, created);
    forall k | k in t0 ensures table[k] == t0[k] {
      ExtendKeeps(t0, lo, created, k);
    }
    forall id | lo < id <= counter ensures id in table && table[id] == created[id - lo - 1] {
      ExtendPlaces(t0, lo, created, id);
    }
  }

  /** A finished batch over a deduplicated set observes pairwise different
      (key path, object address) pairs: no two of its registrations are for
      the same observation. */
  lemma BatchObservesDistinctPairs(t0: map<nat, KVOContext>, lo: nat, log0: seq<Event>,
                                   order: seq<ObservationInfos>, created: seq<KVOContext>, infos: set<ObservationInfos>,
                                   ids: set<nat>, counter: nat, table: map<nat, KVOContext>, log: seq<Event>)
    requires Batch(t0, lo, log0, order, created, infos, ids, counter, table, log)
    requires Deduplicated(infos)
    requires forall j :: 0 <= j < |order| ==> BuiltFrom(created[j], order[j])
    ensures forall i, j :: 0 <= i < j < |created| ==>
              (created[i].keyPath, created[i].storage.addr) != (created[j].keyPath, created[j].storage.addr)
  {
    BatchCounts(t0, lo, log0, order, created, infos, ids, counter, table, log);
    forall i, j | 0 <= i < j < |created|
      ensures (created[i].keyPath, created[i].storage.addr) != (created[j].keyPath, created[j].storage.addr)
    {
      assert order[i] != order[j] && order[i] in infos && order[j] in infos;
      assert !SameObservation(order[i], order[j]);
    }
  }

  /** The conforming owner. `observingIds` is the only mutable part. */
  class Observing {
    const kvObserver: KVObserver
    const observingInfos: set<ObservationInfos>
    var observingIds: set<nat>

    /** `observingInfos` is a Swift `Set`, hence deduplicated by `==`. */
    constructor (kvObserver: KVObserver, observingInfos: set<ObservationInfos>)
      requires Deduplicated(observingInfos)
      ensures this.kvObserver == kvObserver && this.observingInfos == observingInfos
      ensures observingIds == {}
    {
      this.kvObserver := kvObserver;
      this.observingInfos := observingInfos;
      observingIds := {};
    }

    /** One registration of `addObservers`: the `observe` overload without
        `skipReRegistration`, with the description's fields and the default
        storage; `c` is the context it builds. */
    method ObserveInfo(info: ObservationInfos, alive: set<ObjId>) returns (id: nat, ghost c: KVOContext)
      requires kvObserver.Valid()
      requires Observable(info, alive)
      modifies kvObserver
      ensures kvObserver.Valid()
      ensures id == old(kvObserver.counter) + 1 && kvObserver.counter == id
      ensures kvObserver.table == old(kvObserver.table)[id := c]
      ensures kvObserver.log == old(kvObserver.log) + [RegisterOf(c)]
      ensures fresh(c) && BuiltFrom(c, info)
    {
      id := kvObserver.ObserveAlways(info.observerObject, info.keyPath, info.kvoOptions, info.dispatchType,
                                     None, alive);
      c := kvObserver.table[id];
    }

    /** `addObservers`: a no-op while ids are owned; otherwise one
        `observe` per description, in the unspecified order `order`, each
        returned id being kept. `created` are the contexts built, one per
        description of `order`. */
    method AddObservers(alive: set<ObjId>) returns (ghost order: seq<ObservationInfos>, ghost created: seq<KVOContext>)
      requires kvObserver.Valid()
      requires Deduplicated(observingInfos)
      requires forall i :: i in observingInfos ==> Observable(i, alive)
      modifies this, kvObserver
      ensures kvObserver.Valid()
      ensures old(observingIds) != {} ==>
                observingIds == old(observingIds) && order == [] && created == []
                && unchanged(kvObserver)
      ensures old(observingIds) == {} ==>
                && Batch(old(kvObserver.table), old(kvObserver.counter), old(kvObserver.log), order, created,
                         observingInfos, observingIds, kvObserver.counter, kvObserver.table, kvObserver.log)
                && (forall j :: 0 <= j < |order| ==> fresh(created[j]) && BuiltFrom(created[j], order[j]))
    {
      order, created := [], [];
      if observingIds != {} {
        return;
      }
      ghost var c0, t0, log0 := kvObserver.counter, kvObserver.table, kvObserver.log;
      var ids: set<nat> := {};
      var remaining := observingInfos;
      ghost var done: set<ObservationInfos> := {};
      while remaining != {}
        invariant remaining <= observingInfos && done == observingInfos - remaining
        invariant Batch(t0, c0, log0, order, created, done, ids, kvObserver.counter, kvObserver.table, kvObserver.log)
        invariant forall j :: 0 <= j < |order| ==> fresh(created[j]) && BuiltFrom(created[j], order[j])
        invariant kvObserver.Valid()
        decreases remaining
      {
        var info :| info in remaining;
        ghost var counter1, t1, log1 := kvObserver.counter, kvObserver.table, kvObserver.log;
        var id, c := ObserveInfo(info, alive);
        BatchStep(t0, c0, log0, order, created, done, ids, counter1, t1, log1, info, c);
        forall j | 0 <= j < |created| ensures fresh(created[j]) && BuiltFrom(created[j], order[j]) {
        }
        ids := ids + {id};
        PickStep(observingInfos, remaining, info);
        order, created := order + [info], created + [c];
        remaining := remaining - {info};
        done := done + {info};
      }
      observingIds := ids;
      assert done == observingInfos;
    }

    /** `stopObserving`: every owned id must be active; all are stopped and
        the set is emptied. */
    method StopObserving(alive: set<ObjId>) returns (ghost order: seq<nat>)
      requires kvObserver.Valid()
      requires observingIds <= kvObserver.table.Keys
      modifies this, kvObserver
      ensures kvObserver.Valid()
      ensures observingIds == {}
      ensures kvObserver.table == old(kvObserver.table) - old(observingIds)
      ensures kvObserver.counter == old(kvObserver.counter)
      ensures Enumerates(order, old(observingIds))
      ensures kvObserver.log == old(kvObserver.log) + TeardownEvents(old(kvObserver.table), order, alive)
    {
      order := kvObserver.StopObservingIds(observingIds, alive);
      observingIds := {};
    }
  }

}
