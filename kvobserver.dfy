/** The observation registry `KVObserver` and its per-observation record
    `KVOContext`.

    The Key-Value Observing primitive (`addObserver` / `removeObserver`) is
    replaced by a ghost log of `Register` / `Unregister` events, object
    lifetime by the set of identities of live objects given to each operation
    that resolves an observed object, and the handler closure by the `Action`
    the routing decision picks. */
module KVO {

  import opened Wrappers
  import opened Dispatch

  /** An object address, standing for `Unmanaged.passUnretained(o).toOpaque()`. */
  type Addr = nat

  /** The identity of one object over its lifetime. A later object may reuse
      an address, never an identity, so a zeroed weak reference stays nil. */
  type ObjId = nat

  /** Whether an observed object is an `NSManagedObject`, and if so the context
      it belongs to (its `managedObjectContext`, which may be nil). */
  datatype ObjectKind = Plain | Managed(context: Option<ManagedObjectContext>)

  datatype Object = Object(id: ObjId, addr: Addr, kind: ObjectKind) {
    predicate IsManagedObject() { kind.Managed? }
    predicate HasManagedObjectContext() { kind.Managed? && kind.context.Some? }
  }

  /** The flags of `NSKeyValueObservingOptions`. */
  datatype ObservingOption = New | Old | Initial | Prior

  /** How a context holds its observed object: a weak reference to the
      object `target`, which reads as nil once that object is gone, or an
      unmanaged pointer, which always reads as the address it was given. The
      source keeps two optional fields of which its initialiser always sets
      exactly one. */
  datatype Storage = Weak(target: ObjId, addr: Addr) | Ptr(addr: Addr)

  /** What the KVO primitive is asked to do, the context's address being the
      correlation token. */
  datatype Event =
    | Register(obj: Addr, keyPath: string, token: KVOContext)
    | Unregister(obj: Addr, keyPath: string, token: KVOContext)

  /** The storage policy of `observe`: the explicit choice if given, otherwise
      a pointer exactly for managed objects. */
  function StoresAsPointer(obj: Object, keepPointer: Option<bool>): (r: bool)
    ensures r <==> keepPointer == Some(true) || (keepPointer == None && obj.IsManagedObject())
  {
    match keepPointer
    case Some(b) => b
    case None => obj.IsManagedObject()
  }

  function Storing(obj: Object, asPointer: bool): Storage {
    if asPointer then Ptr(obj.addr) else Weak(obj.id, obj.addr)
  }

  /** `observedObject`, and equally `computedObservedObjectPtr`: the live
      pointee of a weak reference, else the stored pointer, else nothing. */
  function ObservedObject(s: Storage, alive: set<ObjId>): (r: Option<Addr>)
    ensures r.Some? ==> r.value == s.addr
    ensures r.Some? <==> s.Ptr? || s.target in alive
  {
    match s
    case Weak(o, a) => if o in alive then Some(a) else None
    case Ptr(a) => Some(a)
  }

  /** `KVOContext.==`: equal key paths and equal (optional) computed pointers. */
  function ContextsEqual(k1: string, s1: Storage, k2: string, s2: Storage, alive: set<ObjId>): (r: bool)
    ensures r ==> k1 == k2
    // both objects resolve: the same key path on the same object
    ensures ObservedObject(s1, alive).Some? && ObservedObject(s2, alive).Some? ==>
              (r <==> k1 == k2 && s1.addr == s2.addr)
    // a resolving context never equals one whose weak reference is gone
    ensures ObservedObject(s1, alive).Some? != ObservedObject(s2, alive).Some? ==> !r
    // two contexts whose weak references are both gone compare as nil == nil
    ensures ObservedObject(s1, alive).None? && ObservedObject(s2, alive).None? ==> (r <==> k1 == k2)
  {
    k1 == k2 && ObservedObject(s1, alive) == ObservedObject(s2, alive)
  }

  /** The context captured at init: the managed object's own context for the
      inferred policies, nil for the others. */
  function InferredContext(dt: DispatchType, obj: Object): (r: Option<ManagedObjectContext>)
    requires dt.IsOnCoreDataInferredContext() ==> obj.HasManagedObjectContext()
    ensures r.Some? <==> dt.IsOnCoreDataInferredContext()
    ensures r.Some? ==> obj.kind.Managed? && obj.kind.context == r
  {
    if dt.IsOnCoreDataInferredContext() then obj.kind.context else None
  }

  /** One observation. The object identity of a context is the correlation
      token handed to the KVO primitive. */
  class KVOContext {
    const storage: Storage
    const keyPath: string
    const dispatchType: DispatchType
    const inferredContext: Option<ManagedObjectContext>
    var isInitialCall: bool

    predicate Valid() {
      inferredContext.Some? <==> dispatchType.IsOnCoreDataInferredContext()
    }

    /** Requires what the forced cast and unwrap of the inferred case need. */
    constructor (obj: Object, storeAsPointer: bool, keyPath: string, dt: DispatchType, willCallInitial: bool)
      requires dt.IsOnCoreDataInferredContext() ==> obj.HasManagedObjectContext()
      ensures Valid()
      ensures storage == Storing(obj, storeAsPointer)
      ensures this.keyPath == keyPath && dispatchType == dt
      ensures inferredContext == InferredContext(dt, obj)
      ensures isInitialCall == willCallInitial
    {
      isInitialCall := willCallInitial;
      storage := Storing(obj, storeAsPointer);
      this.keyPath := keyPath;
      dispatchType := dt;
      inferredContext := InferredContext(dt, obj);
    }

    /** Picks where the handler runs, then clears the initial flag whichever
        branch was taken. */
    method CallHandler(onMainThread: bool) returns (a: Action)
      requires Valid()
      modifies this
      ensures a == Route(dispatchType, old(isInitialCall), onMainThread, inferredContext)
      ensures !isInitialCall
    {
      a := Route(dispatchType, isInitialCall, onMainThread, inferredContext);
      isInitialCall := false;
    }
  }

  function RegisterOf(c: KVOContext): Event {
    Register(c.storage.addr, c.keyPath, c)
  }

  function UnregisterOf(c: KVOContext): Event {
    Unregister(c.storage.addr, c.keyPath, c)
  }

  /** What tearing down one context issues: an `Unregister` with its own token
      and key path when its object still resolves, nothing otherwise. */
  function UnregisterFor(c: KVOContext, alive: set<ObjId>): (r: seq<Event>)
    ensures |r| <= 1
    ensures r != [] <==> ObservedObject(c.storage, alive).Some?
    ensures forall e :: e in r ==> e == UnregisterOf(c)
  {
    if ObservedObject(c.storage, alive).Some? then [UnregisterOf(c)] else []
  }

  /** No two ids share a context. */
  ghost predicate Injective(t: map<nat, KVOContext>) {
    forall i, j :: i in t && j in t && i != j ==> t[i] != t[j]
  }

  /** Whether some entry of the table equals a candidate (the dedup test). */
  predicate AlreadyRegistered(t: map<nat, KVOContext>, keyPath: string, storage: Storage, alive: set<ObjId>) {
    exists id :: id in t && ContextsEqual(t[id].keyPath, t[id].storage, keyPath, storage, alive)
  }

  /** No two positions of `s` hold the same value. */
  ghost predicate Distinct<T>(s: seq<T>) {
    forall i, j :: 0 <= i < j < |s| ==> s[i] != s[j]
  }

  /** `order` lists every member of `ids` exactly once: one of the orders in
      which a Swift `Set` or `Dictionary` may be iterated. */
  ghost predicate Enumerates(order: seq<nat>, ids: set<nat>) {
    Distinct(order) && (forall k :: k in order <==> k in ids)
  }

  lemma EnumeratesStep(order: seq<nat>, done: set<nat>, id: nat)
    requires Enumerates(order, done) && id !in done
    ensures Enumerates(order + [id], done + {id})
  {
  }

  /** The events that tearing down the entries of `t` in the order `order`
      issues: the single-entry teardown of each, one after the other. */
  function TeardownEvents(t: map<nat, KVOContext>, order: seq<nat>, alive: set<ObjId>): (r: seq<Event>)
    requires forall k :: k in order ==> k in t
    ensures |r| <= |order|
    ensures forall i :: 0 <= i < |r| ==> r[i].Unregister?
  {
    if order == [] then []
    else TeardownEvents(t, order[..|order| - 1], alive) + UnregisterFor(t[order[|order| - 1]], alive)
  }

  lemma TeardownSnoc(t: map<nat, KVOContext>, order: seq<nat>, id: nat, alive: set<ObjId>)
    requires forall k :: k in order ==> k in t
    requires id in t
    ensures forall k :: k in order + [id] ==> k in t
    ensures TeardownEvents(t, order + [id], alive) == TeardownEvents(t, order, alive) + UnregisterFor(t[id], alive)
  {
    assert (order + [id])[..|order|] == order;
  }

  /** Each event of a teardown is the `Unregister` of one of the torn-down
      entries, and an entry's `Unregister` is issued exactly when its object
      still resolves. */
  lemma {:induction false} TeardownEventsAre(t: map<nat, KVOContext>, order: seq<nat>, alive: set<ObjId>)
    requires forall k :: k in order ==> k in t
    requires Injective(t)
    ensures forall i :: 0 <= i < |TeardownEvents(t, order, alive)| ==>
              exists k :: k in order && TeardownEvents(t, order, alive)[i] == UnregisterOf(t[k])
    ensures forall k :: k in order ==>
              (UnregisterOf(t[k]) in TeardownEvents(t, order, alive) <==> ObservedObject(t[k].storage, alive).Some?)
  {
    if order != [] {
      var p, last := order[..|order| - 1], order[|order| - 1];
      assert forall k :: k in p ==> k in order;
      TeardownEventsAre(t, p, alive);
      var r, rp, u := TeardownEvents(t, order, alive), TeardownEvents(t, p, alive), UnregisterFor(t[last], alive);
      assert r == rp + u;
      forall i | 0 <= i < |TeardownEvents(t, order, alive)|
        ensures exists k :: k in order && TeardownEvents(t, order, alive)[i] == UnregisterOf(t[k])
      {
        if i < |rp| {
          var k :| k in p && rp[i] == UnregisterOf(t[k]);
          assert k in order && r[i] == UnregisterOf(t[k]);
        } else {
          assert r[i] in u && r[i] == UnregisterOf(t[last]);
          assert last in order;
        }
      }
      forall k | k in order
        ensures UnregisterOf(t[k]) in r <==> ObservedObject(t[k].storage, alive).Some?
      {
        if UnregisterOf(t[k]) in rp {
          var i :| 0 <= i < |rp| && rp[i] == UnregisterOf(t[k]);
          var k' :| k' in p && rp[i] == UnregisterOf(t[k']);
          assert t[k'] == t[k];
        }
        if UnregisterOf(t[k]) in u {
          assert t[k] == t[last];
        }
        if k != last && ObservedObject(t[k].storage, alive).Some? {
          assert k in p;
        }
      }
      assert forall i :: 0 <= i < |TeardownEvents(t, order, alive)| ==>
               exists k :: k in order && TeardownEvents(t, order, alive)[i] == UnregisterOf(t[k]);
    } else {
      assert TeardownEvents(t, order, alive) == [];
    }
  }

  /** Teardown never repeats an event: when the order lists distinct ids of
      a table whose contexts are distinct, the events are distinct. */
  lemma {:induction false} TeardownEventsDistinct(t: map<nat, KVOContext>, order: seq<nat>, alive: set<ObjId>)
    requires forall k :: k in order ==> k in t
    requires Injective(t)
    requires Distinct(order)
    ensures Distinct(TeardownEvents(t, order, alive))
  {
    if order != [] {
      var p, last := order[..|order| - 1], order[|order| - 1];
      assert forall k :: k in p ==> k in order;
      assert Distinct(p);
      TeardownEventsDistinct(t, p, alive);
      TeardownEventsAre(t, p, alive);
      var rp, u := TeardownEvents(t, p, alive), UnregisterFor(t[last], alive);
      assert TeardownEvents(t, order, alive) == rp + u;
      if u != [] {
        forall i | 0 <= i < |rp| ensures rp[i] != u[0] {
          var k :| k in p && rp[i] == UnregisterOf(t[k]);
          assert k != last;
        }
      }
    }
  }

  /** The `Register` events of a log. */
  ghost function Registrations(log: seq<Event>): set<Event> {
    if log == [] then {}
    else Registrations(log[..|log| - 1]) + (if log[|log| - 1].Register? then {log[|log| - 1]} else {})
  }

  /** The tokens a log has unregistered. */
  ghost function Unregistered(log: seq<Event>): set<KVOContext> {
    if log == [] then {}
    else Unregistered(log[..|log| - 1]) + (if log[|log| - 1].Unregister? then {log[|log| - 1].token} else {})
  }

  lemma {:induction false} LogAppend(a: seq<Event>, b: seq<Event>)
    ensures Registrations(a + b) == Registrations(a) + Registrations(b)
    ensures Unregistered(a + b) == Unregistered(a) + Unregistered(b)
    decreases |b|
  {
    if b == [] {
      assert a + b == a;
    } else {
      var b', x := b[..|b| - 1], b[|b| - 1];
      LogAppend(a, b');
      assert (a + b)[..|a + b| - 1] == a + b';
      assert b[..|b| - 1] == b';
    }
  }

  /** Appending a `Register` adds it to the registrations and unregisters nothing. */
  lemma LogAppendRegister(log: seq<Event>, c: KVOContext)
    ensures Registrations(log + [RegisterOf(c)]) == Registrations(log) + {RegisterOf(c)}
    ensures Unregistered(log + [RegisterOf(c)]) == Unregistered(log)
  {
    LogAppend(log, [RegisterOf(c)]);
    assert [RegisterOf(c)][..0] == [];
  }

  /** Appending `Unregister` events registers nothing. */
  lemma LogAppendUnregisters(log: seq<Event>, u: seq<Event>)
    requires |u| <= 1
    requires forall i :: 0 <= i < |u| ==> u[i].Unregister?
    ensures Registrations(log + u) == Registrations(log)
    ensures Unregistered(log + u) == Unregistered(log) + (if u == [] then {} else {u[0].token})
  {
    LogAppend(log, u);
    if u != [] { assert u[..0] == []; }
  }

  /** Moving one id from the pending set to the handled set. */
  lemma PickStep<T>(all: set<T>, remaining: set<T>, id: T)
    requires id in remaining
    ensures all - (remaining - {id}) == (all - remaining) + (if id in all then {id} else {})
  {
  }

  /** Removing ids one at a time from a table. */
  lemma RemoveStep(t: map<nat, KVOContext>, done: set<nat>, id: nat)
    ensures (t - done) - {id} == t - (done + {id})
  {
  }

  lemma AppendAssociative(a: seq<Event>, b: seq<Event>, c: seq<Event>)
    ensures (a + b) + c == a + (b + c)
  {
  }

  /** Every unregistered token comes from an event of the log. */
  lemma {:induction false} UnregisteredFromLog(log: seq<Event>, c: KVOContext)
    requires c in Unregistered(log)
    ensures exists i :: 0 <= i < |log| && log[i].token == c
  {
    var p := log[..|log| - 1];
    if c in Unregistered(p) {
      UnregisteredFromLog(p, c);
      var i :| 0 <= i < |p| && p[i].token == c;
      assert log[i] == p[i];
    } else {
      assert log[|log| - 1].token == c;
    }
  }

  /** The registry's invariant: keys are issued ids; each entry has its own
      context, is registered with the primitive and has not been
      unregistered. */
  ghost predicate RegistryInvariant(counter: nat, table: map<nat, KVOContext>, log: seq<Event>) {
    (forall id :: id in table ==> 1 <= id <= counter)
    && Injective(table)
    && (forall id :: id in table ==> table[id].Valid())
    && (forall id :: id in table ==> RegisterOf(table[id]) in Registrations(log))
    && (forall id :: id in table ==> table[id] !in Unregistered(log))
  }

  /** Registering a new context under the next id keeps the invariant. */
  lemma InsertKeepsInvariant(counter: nat, table: map<nat, KVOContext>, log: seq<Event>, c: KVOContext)
    requires RegistryInvariant(counter, table, log)
    requires c.Valid() && c !in Unregistered(log)
    requires forall id :: id in table ==> table[id] != c
    ensures RegistryInvariant(counter + 1, table[counter + 1 := c], log + [RegisterOf(c)])
  {
    LogAppendRegister(log, c);
  }

  /** Tearing down one entry keeps the invariant. */
  lemma RemoveKeepsInvariant(counter: nat, table: map<nat, KVOContext>, log: seq<Event>, id: nat, alive: set<ObjId>)
    requires RegistryInvariant(counter, table, log)
    requires id in table
    ensures RegistryInvariant(counter, table - {id}, log + UnregisterFor(table[id], alive))
  {
    LogAppendUnregisters(log, UnregisterFor(table[id], alive));
  }

  /** The registry. `counter` is `currentObservingId`, `table` is
      `observingIdToContext`. Not thread-safe; modelled as sequential. */
  class KVObserver {
    var counter: nat
    var table: map<nat, KVOContext>
    ghost var log: seq<Event>

    ghost predicate Valid()
      reads this
    {
      RegistryInvariant(counter, table, log)
    }

    constructor ()
      ensures Valid()
      ensures counter == 0 && table == map[] && log == []
    {
      counter := 0;
      table := map[];
      log := [];
    }

    /** A successful `observe` of `obj` for `keyPath`: the next id, a fresh
        context built from the arguments under exactly that id, one
        `Register` event, and every other entry as it was. */
    twostate predicate ObservedAs(id: nat, obj: Object, keyPath: string, kvoOptions: set<ObservingOption>,
                                  dt: DispatchType, keepPointer: Option<bool>)
      requires dt.IsOnCoreDataInferredContext() ==> obj.HasManagedObjectContext()
      reads this, table.Values
    {
      && id == old(counter) + 1 && counter == id
      && id !in old(table) && id in table
      && table == old(table)[id := table[id]]
      && fresh(table[id])
      && table[id].storage == Storing(obj, StoresAsPointer(obj, keepPointer))
      && table[id].keyPath == keyPath && table[id].dispatchType == dt
      && table[id].inferredContext == InferredContext(dt, obj)
      && table[id].isInitialCall == (Initial in kvoOptions)
      && log == old(log) + [RegisterOf(table[id])]
    }

    /** The full `observe`. Returns None, changing nothing, when
        re-registration is skipped and an equal context is already in the
        table. `obj` is a live object (the caller passes a strong reference). */
    method Observe(obj: Object, keyPath: string, kvoOptions: set<ObservingOption>, dt: DispatchType,
                   skipReRegistration: bool, keepPointer: Option<bool>, alive: set<ObjId>)
      returns (id: Option<nat>)
      requires Valid()
      requires obj.id in alive
      requires dt.IsOnCoreDataInferredContext() ==> obj.HasManagedObjectContext()
      modifies this
      ensures Valid()
      ensures id.None? <==>
                skipReRegistration
                && AlreadyRegistered(old(table), keyPath, Storing(obj, StoresAsPointer(obj, keepPointer)), alive)
      ensures id.None? ==> table == old(table) && counter == old(counter) && log == old(log)
      ensures id.Some? ==> ObservedAs(id.value, obj, keyPath, kvoOptions, dt, keepPointer)
    {
      var context := new KVOContext(obj, StoresAsPointer(obj, keepPointer), keyPath, dt, Initial in kvoOptions);
      assert context !in Unregistered(log) by {
        if context in Unregistered(log) {
          UnregisteredFromLog(log, context);
        }
      }
      if skipReRegistration && AlreadyRegistered(table, context.keyPath, context.storage, alive) {
        return None;
      }
      InsertKeepsInvariant(counter, table, log, context);
      log := log + [RegisterOf(context)];
      counter := counter + 1;
      table := table[counter := context];
      id := Some(counter);
    }

    /** The `observe` overload without `skipReRegistration`: always registers. */
    method ObserveAlways(obj: Object, keyPath: string, kvoOptions: set<ObservingOption>, dt: DispatchType,
                         keepPointer: Option<bool>, alive: set<ObjId>)
      returns (id: nat)
      requires Valid()
      requires obj.id in alive
      requires dt.IsOnCoreDataInferredContext() ==> obj.HasManagedObjectContext()
      modifies this
      ensures Valid()
      ensures ObservedAs(id, obj, keyPath, kvoOptions, dt, keepPointer)
    {
      var r := Observe(obj, keyPath, kvoOptions, dt, false, keepPointer, alive);
      id := r.value;
    }

    /** `stopObserving(id:)`; an id that is not active is a crash in the
        source, hence the precondition. */
    method StopObserving(id: nat, alive: set<ObjId>)
      requires Valid()
      requires id in table
      modifies this
      ensures Valid()
      ensures table == old(table) - {id} && counter == old(counter)
      ensures log == old(log) + UnregisterFor(old(table)[id], alive)
      // the token unregistered is the one registered, and not unregistered before
      ensures RegisterOf(old(table)[id]) in Registrations(old(log))
      ensures old(table)[id] !in Unregistered(old(log))
    {
      var context := table[id];
      LogAppendUnregisters(log, UnregisterFor(context, alive));
      RemoveKeepsInvariant(counter, table, log, id, alive);
      log := log + UnregisterFor(context, alive);
      table := table - {id};
    }

    /** `stopObserving(ids:)`: the single-id operation for each member, in
        the unspecified order `order`; any inactive id is a crash in the
        source. */
    method StopObservingIds(ids: set<nat>, alive: set<ObjId>) returns (ghost order: seq<nat>)
      requires Valid()
      requires ids <= table.Keys
      modifies this
      ensures Valid()
      ensures table == old(table) - ids && counter == old(counter)
      ensures Enumerates(order, ids)
      ensures log == old(log) + TeardownEvents(old(table), order, alive)
    {
      var remaining := ids;
      ghost var t0, log0 := table, log;
      ghost var done: set<nat> := {};
      order := [];
      while remaining != {}
        invariant remaining <= ids && done == ids - remaining
        invariant Enumerates(order, done)
        invariant Valid()
        invariant table == t0 - done && counter == old(counter)
        invariant log == log0 + TeardownEvents(t0, order, alive)
        decreases remaining
      {
        var id :| id in remaining;
        StopObserving(id, alive);
        TeardownSnoc(t0, order, id, alive);
        EnumeratesStep(order, done, id);
        PickStep(ids, remaining, id);
        RemoveStep(t0, done, id);
        AppendAssociative(log0, TeardownEvents(t0, order, alive), UnregisterFor(t0[id], alive));
        order := order + [id];
        remaining := remaining - {id};
        done := done + {id};
      }
      assert done == ids;
    }

    /** `stopObservingEverything`: tears down every entry, in the unspecified
        order `order`, then empties the table; the counter is kept, so ids
        are never reused. */
    method StopObservingEverything(alive: set<ObjId>) returns (ghost order: seq<nat>)
      requires Valid()
      modifies this
      ensures Valid()
      ensures table == map[] && counter == old(counter)
      ensures Enumerates(order, old(table).Keys)
      ensures log == old(log) + TeardownEvents(old(table), order, alive)
      // on an empty table, as after a first call, nothing is issued
      ensures old(table) == map[] ==> log == old(log)
    {
      ghost var t0 := table;
      var remaining := table.Keys;
      ghost var done: set<nat> := {};
      ghost var issued: seq<Event> := [];
      order := [];
      while remaining != {}
        invariant table == t0 && counter == old(counter) && log == old(log)
        invariant remaining <= t0.Keys && done == t0.Keys - remaining
        invariant Enumerates(order, done)
        invariant issued == TeardownEvents(t0, order, alive)
        invariant t0 == map[] ==> order == []
        decreases remaining
      {
        var id :| id in remaining;
        TeardownSnoc(t0, order, id, alive);
        EnumeratesStep(order, done, id);
        PickStep(t0.Keys, remaining, id);
        issued := issued + UnregisterFor(t0[id], alive);
        order := order + [id];
        remaining := remaining - {id};
        done := done + {id};
      }
      assert done == t0.Keys;
      log := log + issued;
      table := map[];
    }

    /** `deinit`: the registry tears everything down before it goes away. */
    method Deinit(alive: set<ObjId>) returns (ghost order: seq<nat>)
      requires Valid()
      modifies this
      ensures Valid()
      ensures table == map[] && counter == old(counter)
      ensures Enumerates(order, old(table).Keys)
      ensures log == old(log) + TeardownEvents(old(table), order, alive)
      ensures old(table) == map[] ==> log == old(log)
    {
      order := StopObservingEverything(alive);
    }

    /** `observeValue`: the primitive hands back a token of an active
        observation, and its context routes the handler. */
    method Deliver(token: KVOContext, onMainThread: bool) returns (a: Action)
      requires Valid()
      requires token in table.Values
      modifies token
      ensures a == Route(token.dispatchType, old(token.isInitialCall), onMainThread, token.inferredContext)
      ensures !token.isInitialCall
    {
      a := token.CallHandler(onMainThread);
    }
  }

  /** A candidate for a live object never equals an entry whose weak
      reference is gone, whatever its key path and address, even when the
      candidate's object sits at the dead object's address. */
  lemma LiveCandidateNeverMatchesDeadWeak(k: string, s: Storage, k2: string, b: ObjId, a: Addr, alive: set<ObjId>)
    requires s.Weak? ==> s.target in alive
    requires b !in alive
    ensures !ContextsEqual(k2, Weak(b, a), k, s, alive)
  {
  }

  /** The dedup test of `observe` for a live candidate: some active entry
      observes the same key path on the object the candidate resolves to. */
  lemma AlreadyRegisteredMeansSameObservationActive(t: map<nat, KVOContext>, keyPath: string, storage: Storage,
                                                    alive: set<ObjId>)
    requires ObservedObject(storage, alive).Some?
    ensures AlreadyRegistered(t, keyPath, storage, alive) <==>
              exists id :: id in t && t[id].keyPath == keyPath && ObservedObject(t[id].storage, alive) == Some(storage.addr)
  {
  }

  /** For a live object the storage mode does not affect dedup. */
  lemma StorageModeIrrelevantWhileAlive(k: string, o: ObjId, a: Addr, alive: set<ObjId>)
    requires o in alive
    ensures ContextsEqual(k, Weak(o, a), k, Ptr(a), alive)
  {
  }

  /** A pointer entry keeps matching its address after its object is gone,
      so a new object `n` at a reused address is taken as already registered,
      in either storage mode; a weak entry of the dead object `o` is not. */
  lemma StalePointerMatchesReusedAddress(k: string, o: ObjId, n: ObjId, a: Addr, alive: set<ObjId>)
    requires o !in alive && n in alive
    ensures ContextsEqual(k, Ptr(a), k, Weak(n, a), alive)
    ensures ContextsEqual(k, Ptr(a), k, Ptr(a), alive)
    ensures !ContextsEqual(k, Weak(o, a), k, Weak(n, a), alive)
    ensures !ContextsEqual(k, Weak(o, a), k, Ptr(a), alive)
  {
  }

}
