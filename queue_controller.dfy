/** The queue status routes: free and busy GPU slots from the semaphore's
    permit count, and the pending-request count read from the application
    state. */
module QueueController {
  import opened Wrappers

  /** What the routes read from the application state; None where an
      attribute is absent. */
  datatype AppState = AppState(
    semaphoreValue: Option<int>,
    maxConcurrency: Option<int>,
    pendingRequests: Option<int>,
    hasPendingLock: bool)

  datatype QueueStatus = QueueStatus(
    maxConcurrency: int, availableSlots: int, requestsInQueue: int, activeRequests: int)

  /** The pending count, 0 when absent; the lock only serialises the read. */
  function Pending(state: AppState): (n: int)
    ensures state.pendingRequests.None? ==> n == 0
    ensures state.pendingRequests.Some? ==> n == state.pendingRequests.value
  {
    if state.hasPendingLock then state.pendingRequests.GetOr(0) else state.pendingRequests.GetOr(0)
  }

  /** queue_status: the capacity (the setting when the state has none), the
      free permits (all of them without a semaphore) and the busy ones. Free
      and busy slots always add up to the capacity. */
  function Status(state: AppState, configuredMax: int): (s: QueueStatus)
    ensures s.maxConcurrency == state.maxConcurrency.GetOr(configuredMax)
    ensures state.semaphoreValue.None? ==> s.availableSlots == s.maxConcurrency && s.activeRequests == 0
    ensures state.semaphoreValue.Some? ==> s.availableSlots == state.semaphoreValue.value
    ensures s.availableSlots + s.activeRequests == s.maxConcurrency
    ensures s.requestsInQueue == Pending(state)
  {
    var maxConcurrency := state.maxConcurrency.GetOr(configuredMax);
    var available := if state.semaphoreValue.Some? then state.semaphoreValue.value else maxConcurrency;
    var active := if state.semaphoreValue.Some? then maxConcurrency - available else 0;
    QueueStatus(maxConcurrency, available, Pending(state), active)
  }

  /** queue_size: the pending count alone. */
  function Size(state: AppState): (n: int)
    ensures n == Status(state, 0).requestsInQueue
  {
    Pending(state)
  }

  /** The lock makes no difference to what is read. */
  lemma LockIrrelevant(state: AppState, configuredMax: int)
    ensures Status(state, configuredMax) == Status(state.(hasPendingLock := !state.hasPendingLock), configuredMax)
    ensures Size(state) == Size(state.(hasPendingLock := !state.hasPendingLock))
  {
  }

  /** For a gate whose free and held permits add up to its capacity, the
      busy slots reported are the held permits and every count lies in range. */
  lemma StatusOfGate(value: int, held: nat, capacity: nat, pending: Option<int>, lock: bool, configuredMax: int)
    requires 0 <= value && value + held == capacity
    ensures var s := Status(AppState(Some(value), Some(capacity), pending, lock), configuredMax);
            && s.activeRequests == held && s.availableSlots == value
            && 0 <= s.activeRequests <= s.maxConcurrency && 0 <= s.availableSlots <= s.maxConcurrency
  {
  }
}
