/**
 * `ImageLoaderEngine`: the target registry (target id -> cache key the target
 * currently wants), the per-uri lock table, the paused flag and the task
 * executor that is recreated lazily after `stop`.
 */
module Engine {
  import opened Common
  import opened Collaborators

  /**
   * The worker pool (`ThreadPoolExecutor`) reduced to what the engine sees:
   * whether it was shut down, and the tasks accepted and not yet taken by a
   * worker. Which worker runs which task, and when, is not modelled.
   */
  class TaskExecutor {
    var isShutdown: bool
    var pending: seq<object>

    constructor ()
      ensures !isShutdown && pending == []
    {
      isShutdown := false;
      pending := [];
    }

    /** `execute(task)`: a shut-down pool rejects the task. */
    method Execute(task: object) returns (accepted: bool)
      modifies this
      ensures accepted == !old(isShutdown)
      ensures isShutdown == old(isShutdown)
      ensures pending == if accepted then old(pending) + [task] else old(pending)
    {
      accepted := !isShutdown;
      if accepted {
        pending := pending + [task];
      }
    }

    /** `shutdownNow()`: refuses further work and hands back the queued tasks. */
    method ShutdownNow() returns (dropped: seq<object>)
      modifies this
      ensures isShutdown && pending == [] && dropped == old(pending)
    {
      dropped := pending;
      isShutdown := true;
      pending := [];
    }
  }

  class ImageLoaderEngine {
    /** `mCacheKeysForImageAwares`: target id -> cache key it should show. */
    var registry: map<int, string>
    /** `mUriLocks`: one lock per uri, created on first request. */
    var uriLocks: map<string, UriLock>
    /** `mPaused` */
    var paused: bool
    /** `mTaskExecutor` */
    var executor: TaskExecutor

    constructor ()
      ensures registry == map[] && uriLocks == map[] && !paused
      ensures fresh(executor) && !executor.isShutdown && executor.pending == []
    {
      registry := map[];
      uriLocks := map[];
      paused := false;
      executor := new TaskExecutor();
    }

    /**
     * `submit`: (on the distributor thread) makes sure a live executor exists
     * and hands it the task, so the engine is usable again after `Stop`.
     */
    method Submit(task: object)
      modifies this, executor
      ensures registry == old(registry) && uriLocks == old(uriLocks) && paused == old(paused)
      ensures !executor.isShutdown
      ensures old(executor.isShutdown) ==> fresh(executor) && executor.pending == [task]
      ensures !old(executor.isShutdown) ==>
                executor == old(executor) && executor.pending == old(executor.pending) + [task]
    {
      InitExecutorsIfNeed();
      var accepted := executor.Execute(task);
      assert accepted;
    }

    /** `initExecutorsIfNeed`: replaces a shut-down executor by a fresh one. */
    method InitExecutorsIfNeed()
      modifies this
      ensures registry == old(registry) && uriLocks == old(uriLocks) && paused == old(paused)
      ensures !executor.isShutdown
      ensures old(executor.isShutdown) ==> fresh(executor) && executor.pending == []
      ensures !old(executor.isShutdown) ==> executor == old(executor)
    {
      if executor.isShutdown {
        executor := new TaskExecutor();
      }
    }

    /** `getLoadingUriForView`: the key registered for the target, or null. */
    function GetLoadingUriForView(id: int): (r: Option<string>)
      reads this
      ensures r.Some? <==> id in registry
      ensures r.Some? ==> r.value == registry[id]
    {
      if id in registry then Some(registry[id]) else None
    }

    /** `prepareDisplayTaskFor`: records the key the target now wants. */
    method PrepareDisplayTaskFor(id: int, key: string)
      modifies this
      ensures registry == old(registry)[id := key]
      ensures GetLoadingUriForView(id) == Some(key)
      ensures forall other :: other != id ==> GetLoadingUriForView(other) == old(GetLoadingUriForView(other))
      ensures uriLocks == old(uriLocks) && paused == old(paused) && executor == old(executor)
    {
      registry := registry[id := key];
    }

    /**
     * `cancelDisplayTaskFor`: forgets the target's key. Both overloads remove
     * an int key: `ImageAware.getId()` or `View.hashCode()`.
     */
    method CancelDisplayTaskFor(id: int)
      modifies this
      ensures registry == old(registry) - {id}
      ensures GetLoadingUriForView(id) == None
      ensures forall other :: other != id ==> GetLoadingUriForView(other) == old(GetLoadingUriForView(other))
      ensures uriLocks == old(uriLocks) && paused == old(paused) && executor == old(executor)
    {
      registry := registry - {id};
    }

    method Pause()
      modifies this
      ensures paused
      ensures registry == old(registry) && uriLocks == old(uriLocks) && executor == old(executor)
    {
      paused := true;
    }

    /**
     * `resume`: clears the flag; the `notifyAll` that wakes paused tasks is
     * the oracle a load task's run is given.
     */
    method Resume()
      modifies this
      ensures !paused
      ensures registry == old(registry) && uriLocks == old(uriLocks) && executor == old(executor)
    {
      paused := false;
    }

    /**
     * `stop`: shuts the executor down (dropping queued tasks) and empties the
     * registry and the lock table; the paused flag is left as it was.
     */
    method Stop()
      modifies this, executor
      ensures executor == old(executor) && executor.isShutdown && executor.pending == []
      ensures registry == map[] && uriLocks == map[]
      ensures paused == old(paused)
    {
      var dropped := executor.ShutdownNow();
      registry := map[];
      uriLocks := map[];
    }

    /**
     * `getLockForUri`: the lock already stored for `uri`, or a new one that
     * is stored first. Repeated calls return the same lock until `Stop`.
     */
    method GetLockForUri(uri: string) returns (lock: UriLock)
      modifies this
      ensures uri in uriLocks && uriLocks[uri] == lock
      ensures uri in old(uriLocks) ==> lock == old(uriLocks[uri]) && uriLocks == old(uriLocks)
      ensures uri !in old(uriLocks) ==>
                fresh(lock) && lock.holds == 0 && uriLocks == old(uriLocks)[uri := lock]
      ensures registry == old(registry) && paused == old(paused) && executor == old(executor)
    {
      if uri in uriLocks {
        lock := uriLocks[uri];
      } else {
        lock := new UriLock();
        uriLocks := uriLocks[uri := lock];
      }
    }
  }
}
