/**
 * `DisplayImageTask`, the last step of a load: on the main thread it paints
 * the bitmap only if the target is alive and still registered for the task's
 * cache key, and then forgets the registration.
 */
module Display {
  import opened Common
  import opened Collaborators
  import opened Engine

  /** A display task; all of its fields are fixed when it is created. */
  datatype DisplayImageTask = DisplayImageTask(
    bitmap: Bitmap,
    cacheKey: string,
    target: ImageAware,
    engine: ImageLoaderEngine)

  /** The main-thread `Handler`: the display tasks posted to it, in order. */
  class MainHandler {
    var posted: seq<DisplayImageTask>

    constructor ()
      ensures posted == []
    {
      posted := [];
    }

    method Post(task: DisplayImageTask)
      modifies this
      ensures posted == old(posted) + [task]
    {
      posted := posted + [task];
    }
  }

  /**
   * `isViewWasReused`: the registry no longer holds `key` for the target,
   * which includes the case where it holds nothing (`equals(null)` is false).
   */
  function IsViewWasReused(registry: map<int, string>, id: int, key: string): (r: bool)
    ensures !r <==> id in registry && registry[id] == key
  {
    !(id in registry && registry[id] == key)
  }

  /** What one run of a display task does: paint or not, and the new registry. */
  datatype DisplayEffect = DisplayEffect(painted: bool, registry: map<int, string>)

  /**
   * The decision of `DisplayImageTask.run` for a target that is `collected`
   * or not, given the registry at the moment the task runs.
   */
  function DisplayStep(collected: bool, registry: map<int, string>, id: int, key: string): (e: DisplayEffect)
    ensures e.painted <==> !collected && id in registry && registry[id] == key
    ensures e.painted ==> e.registry == registry - {id}
    ensures !e.painted ==> e.registry == registry
  {
    if collected then DisplayEffect(false, registry)
    else if IsViewWasReused(registry, id, key) then DisplayEffect(false, registry)
    else DisplayEffect(true, registry - {id})
  }

  /** A display task touches no registry entry but its own target's. */
  lemma DisplayKeepsOtherTargets(collected: bool, registry: map<int, string>, id: int, key: string, other: int)
    requires other != id
    ensures var e := DisplayStep(collected, registry, id, key);
            (other in e.registry <==> other in registry) &&
            (other in registry ==> e.registry[other] == registry[other])
  {
  }

  /**
   * Running the same display task again paints nothing and changes nothing:
   * a successful first run removed the entry it needs.
   */
  lemma SecondDisplayIsNoOp(collected: bool, registry: map<int, string>, id: int, key: string)
    ensures var first := DisplayStep(collected, registry, id, key);
            var second := DisplayStep(collected, first.registry, id, key);
            !second.painted && second.registry == first.registry
  {
  }

  /**
   * `DisplayImageTask.run`: paints through the displayer and cancels the
   * registration exactly when `DisplayStep` says so; it never touches the
   * cache, the lock table or any other target.
   */
  method RunDisplayTask(task: DisplayImageTask)
    modifies task.target, task.engine
    ensures var e := DisplayStep(old(task.target.collected), old(task.engine.registry), task.target.id, task.cacheKey);
            && task.engine.registry == e.registry
            && task.target.image == (if e.painted then Some(task.bitmap) else old(task.target.image))
    ensures task.target.collected == old(task.target.collected)
    ensures task.engine.uriLocks == old(task.engine.uriLocks) && task.engine.paused == old(task.engine.paused)
    ensures task.engine.executor == old(task.engine.executor)
  {
    var target, engine := task.target, task.engine;
    if target.collected {
    } else if IsViewWasReused(engine.registry, target.id, task.cacheKey) {
    } else {
      target.SetImageBitmap(Some(task.bitmap));
      engine.CancelDisplayTaskFor(target.id);
    }
  }
}
