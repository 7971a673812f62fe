/** Client runs of the registry and the mixin, each one a sequence of calls
    whose outcome follows from the contracts alone: the direct observation
    of the unit tests, dedup, id allocation, the initial-call bypass, repeated
    teardown and the mixin's bookkeeping. */
module Scenarios {

  import opened Wrappers
  import opened Dispatch
  import opened KVO
  import opened ObservingProtocol

  /** A direct observation is notified in place; once stopped, its token has
      left the table, so the primitive has nothing left to deliver to it.
      The registry issued one `Register` and one matching `Unregister`. */
  method SimpleDirectObservation(obj: Object, keyPath: string, onMainThread: bool, alive: set<ObjId>)
    returns (id: nat, a: Action, ghost events: nat, ghost tokenGone: bool)
    requires obj.id in alive
    ensures id == 1 && a == Inline && events == 2 && tokenGone
  {
    var r := new KVObserver();
    id := r.ObserveAlways(obj, keyPath, {}, Direct, None, alive);
    var token := r.table[id];
    a := r.Deliver(token, onMainThread);
    r.StopObserving(id, alive);
    tokenGone := token !in r.table.Values;
    assert r.log == [RegisterOf(token), UnregisterOf(token)];
    events := |r.log|;
  }

  /** Observing the same key path of the same live object twice with
      `skipReRegistration` registers once. */
  method SkipReRegistration(obj: Object, keyPath: string, dt: DispatchType, alive: set<ObjId>)
    returns (first: Option<nat>, second: Option<nat>)
    requires obj.id in alive
    requires dt.IsOnCoreDataInferredContext() ==> obj.HasManagedObjectContext()
    ensures first == Some(1) && second == None
  {
    var r := new KVObserver();
    first := r.Observe(obj, keyPath, {}, dt, true, None, alive);
    var c := r.table[1];
    assert ContextsEqual(c.keyPath, c.storage, keyPath, Storing(obj, StoresAsPointer(obj, None)), alive);
    second := r.Observe(obj, keyPath, {New}, Direct, true, None, alive);
  }

  /** Ids are not reused: an id stopped is gone, and the next observation
      gets the following one. */
  method IdsAreNeverReused(obj: Object, keyPath: string, alive: set<ObjId>)
    returns (first: nat, second: nat, active: set<nat>)
    requires obj.id in alive
    ensures first == 1 && second == 2 && active == {2}
  {
    var r := new KVObserver();
    first := r.ObserveAlways(obj, keyPath, {}, Direct, None, alive);
    r.StopObserving(first, alive);
    second := r.ObserveAlways(obj, keyPath, {}, Direct, None, alive);
    active := r.table.Keys;
  }

  /** With `.initial`, an `asyncDirectInitial` observation runs its first
      notification in place and every later one on its queue. */
  method InitialCallBypassesDispatch(obj: Object, keyPath: string, q: Queue, onMainThread: bool, alive: set<ObjId>)
    returns (initial: Action, later: Action)
    requires obj.id in alive
    ensures initial == Inline && later == AsyncOn(q)
  {
    var r := new KVObserver();
    var id := r.ObserveAlways(obj, keyPath, {Initial, New}, AsyncDirectInitial(q), None, alive);
    var token := r.table[id];
    initial := r.Deliver(token, onMainThread);
    later := r.Deliver(token, onMainThread);
  }

  /** Tearing everything down twice issues nothing the second time, and the
      counter keeps its value, as it also does through `deinit`. */
  method TeardownTwice(obj: Object, keyPath: string, alive: set<ObjId>)
    returns (ghost events: nat, counter: nat, active: nat)
    requires obj.id in alive
    ensures events == 2 && counter == 1 && active == 0
  {
    var r := new KVObserver();
    var id := r.ObserveAlways(obj, keyPath, {}, Direct, None, alive);
    ghost var token := r.table[id];
    var order := r.StopObservingEverything(alive);
    assert order == [1];
    assert r.log == [RegisterOf(token)] + [UnregisterOf(token)];
    var order2 := r.Deinit(alive);
    events := |r.log|;
    counter, active := r.counter, |r.table|;
  }

  /** A pointer-stored observation is torn down even after its object is
      gone, whereas a weakly stored one is not. */
  method PointerSurvivesDeallocation(obj: Object, keyPath: string, alive: set<ObjId>)
    returns (ghost pointerEvents: nat, ghost weakEvents: nat, active: nat)
    requires obj.id in alive
    ensures pointerEvents == 2 && weakEvents == 1 && active == 0
  {
    var p := new KVObserver();
    var id := p.ObserveAlways(obj, keyPath, {}, Direct, Some(true), alive);
    p.StopObserving(id, alive - {obj.id});
    pointerEvents := |p.log|;

    var w := new KVObserver();
    var id2 := w.ObserveAlways(obj, keyPath, {}, Direct, Some(false), alive);
    w.StopObserving(id2, alive - {obj.id});
    weakEvents := |w.log|;
    active := |p.table| + |w.table|;
  }

  /** The mixin registers every description once, owns one id per
      description, ignores a second `addObservers`, and owns nothing after
      `stopObserving`, which leaves the registry as it found it. */
  method MixinLifecycle(infos: set<ObservationInfos>, alive: set<ObjId>)
    returns (owned: nat, counterAfterAdd: nat, counterAfterSecondAdd: nat, ownedAfterStop: nat, active: nat)
    requires Deduplicated(infos)
    requires forall i :: i in infos ==> Observable(i, alive)
    ensures owned == |infos| && counterAfterAdd == |infos| && counterAfterSecondAdd == |infos|
    ensures ownedAfterStop == 0 && active == 0
  {
    var r := new KVObserver();
    var m := new Observing(r, infos);
    var order, created := m.AddObservers(alive);
    BatchCounts(map[], 0, [], order, created, infos, m.observingIds, r.counter, r.table, r.log);
    BatchTable(map[], 0, [], order, created, infos, m.observingIds, r.counter, r.table, r.log);
    owned, counterAfterAdd := |m.observingIds|, r.counter;
    ghost var ids1, c1, t1, log1 := m.observingIds, r.counter, r.table, r.log;
    var order2, created2 := m.AddObservers(alive);
    if ids1 == {} {
      BatchCounts(t1, c1, log1, order2, created2, infos, m.observingIds, r.counter, r.table, r.log);
      assert r.table == t1;
    }
    counterAfterSecondAdd := r.counter;
    assert r.table.Keys == m.observingIds;
    var stopped := m.StopObserving(alive);
    assert r.table.Keys == {};
    ownedAfterStop, active := |m.observingIds|, |r.table|;
  }

  /** A weak entry whose object is gone stays nil even when a new object
      takes over the address: observing the new object with
      `skipReRegistration` registers it under id 2, and stopping the old id
      issues nothing. */
  method WeakEntryIgnoresReusedAddress(o: Object, n: Object, keyPath: string, alive: set<ObjId>)
    returns (second: Option<nat>, ghost events: nat)
    requires o.id in alive && n.id != o.id && n.addr == o.addr
    ensures second == Some(2) && events == 2
  {
    var r := new KVObserver();
    var first := r.ObserveAlways(o, keyPath, {}, Direct, Some(false), alive);
    var later := (alive - {o.id}) + {n.id};
    LiveCandidateNeverMatchesDeadWeak(keyPath, Weak(n.id, n.addr), keyPath, o.id, o.addr, later);
    second := r.Observe(n, keyPath, {}, Direct, true, Some(false), later);
    r.StopObserving(first, later);
    events := |r.log|;
  }

  /** Two descriptions that differ only in their options are one element of
      the owner's set, so `addObservers` registers once. */
  method DuplicateDescriptionsRegisterOnce(obj: Object, keyPath: string, alive: set<ObjId>)
    returns (owned: nat, counter: nat)
    requires obj.id in alive
    ensures owned == 1 && counter == 1
  {
    var a := ObservationInfos(obj, keyPath, {}, Direct);
    var b := ObservationInfos(obj, keyPath, {New}, Direct);
    var infos := SetInsert(SetInsert({}, a), b);
    assert SameObservation(b, a);
    var r := new KVObserver();
    var m := new Observing(r, infos);
    var order, created := m.AddObservers(alive);
    BatchCounts(map[], 0, [], order, created, infos, m.observingIds, r.counter, r.table, r.log);
    owned, counter := |m.observingIds|, r.counter;
  }

}
