/** The dispatch policies of `KVObserver.DispatchType` and the routing decision
    that `KVOContext.callHandler` takes for each delivered notification.

    Queues and Core Data contexts are opaque handles; only the choice of where
    and how the handler runs is modelled, not the execution of queued work. */
module Dispatch {

  import opened Wrappers

  /** An opaque dispatch queue handle. */
  datatype Queue = Queue(id: nat)

  /** An opaque Core Data managed object context handle. */
  datatype ManagedObjectContext = ManagedObjectContext(id: nat)

  /** How the handler of an observation is called when a change is delivered. */
  datatype DispatchType =
    | Direct
    | Async(queue: Queue)
    | AsyncOnMainQueue
    | AsyncDirectInitial(queue: Queue)
    | AsyncOnMainQueueDirectInitial
    | DirectOrAsyncOnMainQueue
    | UnsafeSync(queue: Queue)
    | CoreDataAsync(context: ManagedObjectContext)
    | CoreDataSync(context: ManagedObjectContext)
    | CoreDataAsyncDirectInitial(context: ManagedObjectContext)
    | CoreDataSyncDirectInitial(context: ManagedObjectContext)
    | CoreDataInferredAsync
    | CoreDataInferredSync
    | CoreDataInferredAsyncDirectInitial
    | CoreDataInferredSyncDirectInitial
  {
    /** The four policies whose context is taken from the observed managed
        object when the observation is set up. */
    predicate IsOnCoreDataInferredContext() {
      match this
      case CoreDataInferredSync | CoreDataInferredAsync
        | CoreDataInferredSyncDirectInitial | CoreDataInferredAsyncDirectInitial => true
      case _ => false
    }
  }

  /** What `callHandler` does with the handler: call it in place, or hand it to
      a queue or a managed object context, synchronously or not. */
  datatype Action =
    | Inline
    | SyncOn(queue: Queue)
    | AsyncOn(queue: Queue)
    | AsyncMain
    | PerformAndWait(context: ManagedObjectContext)
    | Perform(context: ManagedObjectContext)

  /** The "DirectInitial" policies: the initial call bypasses dispatch. */
  predicate BypassesInitialCall(dt: DispatchType) {
    dt.AsyncDirectInitial? || dt.AsyncOnMainQueueDirectInitial?
    || dt.CoreDataAsyncDirectInitial? || dt.CoreDataSyncDirectInitial?
    || dt.CoreDataInferredAsyncDirectInitial? || dt.CoreDataInferredSyncDirectInitial?
  }

  /** The routing decision, a closed match on the policy and on whether this
      delivery is the pending initial call. `inferred` is the context captured
      when the observation was built; the inferred policies force-unwrap it. */
  function Route(dt: DispatchType, isInitialCall: bool, onMainThread: bool,
                 inferred: Option<ManagedObjectContext>): (a: Action)
    requires dt.IsOnCoreDataInferredContext() ==> inferred.Some?
    ensures a == Inline <==>
              dt.Direct? || (isInitialCall && BypassesInitialCall(dt))
              || (dt.DirectOrAsyncOnMainQueue? && onMainThread)
    ensures dt.IsOnCoreDataInferredContext() && a != Inline ==>
              a == PerformAndWait(inferred.value) || a == Perform(inferred.value)
    ensures a.SyncOn? || a.AsyncOn? ==> (dt.Async? || dt.AsyncDirectInitial? || dt.UnsafeSync?) && a.queue == dt.queue
    ensures a.PerformAndWait? || a.Perform? ==>
              if dt.IsOnCoreDataInferredContext() then a.context == inferred.value
              else (dt.CoreDataAsync? || dt.CoreDataSync? || dt.CoreDataAsyncDirectInitial?
                    || dt.CoreDataSyncDirectInitial?) && a.context == dt.context
  {
    match (dt, isInitialCall)
    case (Direct, _) => Inline
    case (AsyncDirectInitial(_), true) => Inline
    case (AsyncOnMainQueueDirectInitial, true) => Inline
    case (CoreDataAsyncDirectInitial(_), true) => Inline
    case (CoreDataSyncDirectInitial(_), true) => Inline
    case (CoreDataInferredAsyncDirectInitial, true) => Inline
    case (CoreDataInferredSyncDirectInitial, true) => Inline

    case (UnsafeSync(q), _) => SyncOn(q)
    case (Async(q), _) => AsyncOn(q)
    case (AsyncOnMainQueue, _) => AsyncMain
    case (AsyncDirectInitial(q), false) => AsyncOn(q)
    case (AsyncOnMainQueueDirectInitial, false) => AsyncMain
    case (DirectOrAsyncOnMainQueue, _) => if onMainThread then Inline else AsyncMain

    case (CoreDataSync(c), _) => PerformAndWait(c)
    case (CoreDataSyncDirectInitial(c), false) => PerformAndWait(c)
    case (CoreDataAsync(c), _) => Perform(c)
    case (CoreDataAsyncDirectInitial(c), false) => Perform(c)

    case (CoreDataInferredSync, _) => PerformAndWait(inferred.value)
    case (CoreDataInferredSyncDirectInitial, false) => PerformAndWait(inferred.value)
    case (CoreDataInferredAsync, _) => Perform(inferred.value)
    case (CoreDataInferredAsyncDirectInitial, false) => Perform(inferred.value)
  }

  /** The policy table read column by column: what each policy does with a
      delivery that is not a bypassed initial call. */
  function ScheduledAction(dt: DispatchType, onMainThread: bool,
                           inferred: Option<ManagedObjectContext>): Action
    requires dt.IsOnCoreDataInferredContext() ==> inferred.Some?
  {
    match dt
    case Direct => Inline
    case UnsafeSync(q) => SyncOn(q)
    case Async(q) => AsyncOn(q)
    case AsyncDirectInitial(q) => AsyncOn(q)
    case AsyncOnMainQueue => AsyncMain
    case AsyncOnMainQueueDirectInitial => AsyncMain
    case DirectOrAsyncOnMainQueue => if onMainThread then Inline else AsyncMain
    case CoreDataSync(c) => PerformAndWait(c)
    case CoreDataSyncDirectInitial(c) => PerformAndWait(c)
    case CoreDataAsync(c) => Perform(c)
    case CoreDataAsyncDirectInitial(c) => Perform(c)
    case CoreDataInferredSync => PerformAndWait(inferred.value)
    case CoreDataInferredSyncDirectInitial => PerformAndWait(inferred.value)
    case CoreDataInferredAsync => Perform(inferred.value)
    case CoreDataInferredAsyncDirectInitial => Perform(inferred.value)
  }

  /** Route agrees with the policy table: a "DirectInitial" policy calls the
      pending initial notification inline, and every other delivery gets the
      policy's scheduled form. */
  lemma RouteFollowsPolicyTable(dt: DispatchType, isInitialCall: bool, onMainThread: bool,
                                inferred: Option<ManagedObjectContext>)
    requires dt.IsOnCoreDataInferredContext() ==> inferred.Some?
    ensures Route(dt, isInitialCall, onMainThread, inferred)
            == if isInitialCall && BypassesInitialCall(dt) then Inline
               else ScheduledAction(dt, onMainThread, inferred)
  {
  }

  /** The initial flag only matters for the "DirectInitial" policies, and for
      those the scheduled form is never inline. */
  lemma InitialFlagOnlyMattersForDirectInitial(dt: DispatchType, onMainThread: bool,
                                               inferred: Option<ManagedObjectContext>)
    requires dt.IsOnCoreDataInferredContext() ==> inferred.Some?
    ensures !BypassesInitialCall(dt) ==>
              Route(dt, true, onMainThread, inferred) == Route(dt, false, onMainThread, inferred)
    ensures BypassesInitialCall(dt) ==>
              Route(dt, true, onMainThread, inferred) == Inline
              && Route(dt, false, onMainThread, inferred) != Inline
  {
  }

  /** The thread only matters for `directOrAsyncOnMainQueue`, and the captured
      context only for the inferred policies. */
  lemma RouteDependsOnThreadAndInferredOnlyWhereNamed(
    dt: DispatchType, isInitialCall: bool, m1: bool, m2: bool,
    inf1: Option<ManagedObjectContext>, inf2: Option<ManagedObjectContext>)
    requires dt.IsOnCoreDataInferredContext() ==> inf1.Some? && inf2.Some?
    ensures !dt.DirectOrAsyncOnMainQueue? ==>
              Route(dt, isInitialCall, m1, inf1) == Route(dt, isInitialCall, m2, inf1)
    ensures !dt.IsOnCoreDataInferredContext() ==>
              Route(dt, isInitialCall, m1, inf1) == Route(dt, isInitialCall, m1, inf2)
  {
  }

  /** `isOnCoreDataInferredContext` singles out exactly the Core Data
      policies, those whose deliveries go to a managed object context, that
      name no context of their own. */
  lemma InferredPoliciesAreContextlessCoreData(dt: DispatchType, c: ManagedObjectContext)
    ensures dt.IsOnCoreDataInferredContext() <==>
              (ScheduledAction(dt, false, Some(c)).Perform? || ScheduledAction(dt, false, Some(c)).PerformAndWait?)
              && !(dt.CoreDataAsync? || dt.CoreDataSync? || dt.CoreDataAsyncDirectInitial? || dt.CoreDataSyncDirectInitial?)
  {
  }

}
