/**
 * `AbstractImageLoadTask`: the worker-side protocol of one load. `run` waits
 * while the engine is paused, checks that the task is still wanted, takes the
 * uri lock, consults the cache, decodes (and optionally shapes) on a miss,
 * re-checks, writes the cache, releases the lock and posts a
 * `DisplayImageTask` to the main thread.
 *
 * Everything a single thread cannot decide is an oracle (`RunEnv`): whether
 * the pause wait is interrupted, what the decoder and the shape factory
 * return, what `Thread.interrupted()` answers, and one event by another
 * thread (a reassignment or cancellation of a registry entry, or the garbage
 * collector reclaiming the target) just before each of the four staleness
 * checkpoints.
 */
module LoadTasks {
  import opened Common
  import opened Collaborators
  import opened Engine
  import opened Display

  /** The subclass that supplies `tryLoadBitmap`; scale factors only size the decode. */
  datatype TaskKind =
    | PictureTask(scaleFactor: int)
    | VideoTask(scaleFactor: int)
    | MusicTask(scaleFactor: int)
    | IconTask

  /** The shape factories the loader installs (`RoundImageFactory`). */
  datatype ShapeFactory = RoundShape

  /** What `AbstractImageLoadTask.Builder` carries; a null cache key is `None`. */
  datatype Builder = Builder(
    uri: string,
    target: ImageAware,
    cacheKey: Option<string>,
    lock: UriLock,
    handler: MainHandler,
    engine: ImageLoaderEngine,
    cache: ImageCache)

  /** Something another thread does while the task runs. */
  datatype Interleaved =
    | Quiet
    | Reassign(id: int, key: string)   // prepareDisplayTaskFor from a new display request
    | Cancel(id: int)                  // cancelDisplayTaskFor, or a display task that painted
    | Reclaim                          // the task's own target is garbage collected

  /** One staleness checkpoint: the event just before it, and `Thread.interrupted()` there. */
  datatype Checkpoint = Checkpoint(event: Interleaved, interrupted: bool)

  /**
   * The oracle of one run. `interrupted` is read only at the two checkpoints
   * that call `checkTaskInterrupted` (after the decode and before unlocking).
   */
  datatype RunEnv = RunEnv(
    waitInterrupted: bool,
    afterWait: Checkpoint,
    afterLock: Checkpoint,
    afterDecode: Checkpoint,
    beforeUnlock: Checkpoint,
    decoded: Produced,
    shaped: Produced)

  /** Where `run` left off. */
  datatype Exit =
    | InterruptedWhilePaused   // InterruptedException in the pause wait
    | StaleAfterWait           // waitIfPaused found the task not actual
    | StaleAfterLock           // first checkTaskNotActual under the lock
    | DecodedNull              // tryLoadBitmap returned null: `return` inside try
    | DecodeFailed             // tryLoadBitmap or the shape factory threw (caught)
    | CancelledAfterDecode     // checks after decoding, before the cache write
    | CancelledBeforeUnlock    // checks just before leaving the try block
    | Completed

  /** The shared state a run's staleness checks read: the registry and the target's liveness. */
  datatype World = World(registry: map<int, string>, collected: bool)

  /**
   * The effect of one run: how it ended, the shared state it ended in, whether
   * it took the uri lock, the bitmap it put in the cache, and the bitmap of
   * the display task it posted.
   */
  datatype Trace = Trace(exit: Exit, world: World, locked: bool, written: Option<Bitmap>, posted: Option<Bitmap>)

  function Happen(w: World, e: Interleaved): World
  {
    match e
    case Quiet => w
    case Reassign(i, k) => w.(registry := w.registry[i := k])
    case Cancel(i) => w.(registry := w.registry - {i})
    case Reclaim => w.(collected := true)
  }

  /** `isTaskNotActual`: the target is collected, or no longer registered for `key`. */
  predicate NotActual(w: World, id: int, key: string)
  {
    w.collected || IsViewWasReused(w.registry, id, key)
  }

  /** A checkpoint that calls both `checkTaskNotActual` and `checkTaskInterrupted` fails. */
  predicate Trips(w: World, id: int, key: string, c: Checkpoint)
  {
    NotActual(w, id, key) || c.interrupted
  }

  /** The last checkpoint (lines 83-84 of the source) and the end of the try block. */
  function Finish(w: World, id: int, key: string, c: Checkpoint, written: Option<Bitmap>, bitmap: Option<Bitmap>): (t: Trace)
    ensures t.locked && t.world == Happen(w, c.event)
    ensures t.exit == Completed <==> !NotActual(t.world, id, key) && !c.interrupted
    ensures t.exit in {CancelledBeforeUnlock, Completed}
    ensures t.written == written && t.posted == bitmap
  {
    var w3 := Happen(w, c.event);
    Trace(if Trips(w3, id, key, c) then CancelledBeforeUnlock else Completed, w3, true, written, bitmap)
  }

  /**
   * The bitmap the miss path holds after decoding and shaping, or `Threw`:
   * the shape factory's output when one is installed, else the decoded one.
   */
  function Shaped(shaping: bool, env: RunEnv): Produced
    requires env.decoded.Made?
  {
    if shaping then env.shaped else env.decoded
  }

  /**
   * The specification of `run` for a task on target `id` with cache key
   * `key`, started when the engine is `paused` or not and the cache holds
   * `cache`; `shaping` says whether a shape factory is installed.
   *
   * The local `bitmap` starts null and is set from the cache lookup; an
   * exception leaves it as it was, so whatever it holds when the try block
   * is left is posted (unless the decoder returned null).
   */
  function LoadRun(w: World, paused: bool, id: int, key: string, cache: map<string, Bitmap>,
                   shaping: bool, env: RunEnv): (t: Trace)
    ensures t.locked <==> !(paused && env.waitInterrupted) && !NotActual(Happen(w, env.afterWait.event), id, key)
    ensures !t.locked ==> t.written == None && t.posted == None
    ensures t.written.Some? ==> t.posted == t.written && t.exit in {CancelledBeforeUnlock, Completed}
  {
    if paused && env.waitInterrupted then Trace(InterruptedWhilePaused, w, false, None, None)
    else
      var w0 := Happen(w, env.afterWait.event);
      if NotActual(w0, id, key) then Trace(StaleAfterWait, w0, false, None, None)
      else Locked(w0, id, key, cache, shaping, env)
  }

  /** The part of `run` between `lock()` and `unlock()`, and the post after it. */
  function Locked(w0: World, id: int, key: string, cache: map<string, Bitmap>, shaping: bool, env: RunEnv): (t: Trace)
    ensures t.locked
    ensures t.exit == StaleAfterLock <==> NotActual(Happen(w0, env.afterLock.event), id, key)
    ensures t.exit == StaleAfterLock ==> t.written == None && t.posted == None
    ensures t.exit != StaleAfterLock && Usable(Lookup(cache, key)) ==>
              && t.exit in {CancelledBeforeUnlock, Completed}
              && t.written == None && t.posted == Lookup(cache, key)
    ensures t.written.Some? ==> t.posted == t.written && !Usable(Lookup(cache, key))
  {
    var w1 := Happen(w0, env.afterLock.event);
    if NotActual(w1, id, key) then Trace(StaleAfterLock, w1, true, None, None)
    else
      var cached := Lookup(cache, key);
      if Usable(cached) then Finish(w1, id, key, env.beforeUnlock, None, cached)
      else Miss(w1, id, key, cached, shaping, env)
  }

  /** The cache-miss path: decode, shape, re-check, write the cache. */
  function Miss(w1: World, id: int, key: string, cached: Option<Bitmap>, shaping: bool, env: RunEnv): (t: Trace)
    ensures t.locked
    ensures t.exit == DecodedNull <==> env.decoded.MadeNull?
    ensures t.exit == DecodedNull ==> t.written == None && t.posted == None
    ensures t.exit == DecodeFailed <==> env.decoded.Threw? || (env.decoded.Made? && Shaped(shaping, env).Threw?)
    ensures t.exit == DecodeFailed ==> t.written == None && t.posted == cached
    ensures t.exit == CancelledAfterDecode ==> t.written == None && t.posted == AsNullable(Shaped(shaping, env))
    ensures t.written.Some? ==> t.posted == t.written && Shaped(shaping, env) == Made(t.written.value)
  {
    if env.decoded.Threw? then Trace(DecodeFailed, w1, true, None, cached)
    else if env.decoded.MadeNull? then Trace(DecodedNull, w1, true, None, None)
    else
      var out := Shaped(shaping, env);
      if out.Threw? then Trace(DecodeFailed, w1, true, None, cached)
      else
        var bitmap := AsNullable(out);
        var w2 := Happen(w1, env.afterDecode.event);
        if Trips(w2, id, key, env.afterDecode) then Trace(CancelledAfterDecode, w2, true, None, bitmap)
        else Finish(w2, id, key, env.beforeUnlock, bitmap, bitmap)
  }

  /** The run gets past the first check under the lock and reaches the cache lookup. */
  predicate ReachesLookup(w: World, paused: bool, id: int, key: string, env: RunEnv)
  {
    && !(paused && env.waitInterrupted)
    && !NotActual(Happen(w, env.afterWait.event), id, key)
    && !NotActual(Happen(Happen(w, env.afterWait.event), env.afterLock.event), id, key)
  }

  /**
   * An interrupted pause wait, or a task found not actual when the wait ends,
   * returns before locking, reading or writing the cache, or posting.
   */
  lemma EarlyExitTouchesNothing(w: World, paused: bool, id: int, key: string, cache: map<string, Bitmap>,
                                shaping: bool, env: RunEnv)
    requires (paused && env.waitInterrupted) || NotActual(Happen(w, env.afterWait.event), id, key)
    ensures var t := LoadRun(w, paused, id, key, cache, shaping, env);
            && t.exit in {InterruptedWhilePaused, StaleAfterWait}
            && (t.exit == InterruptedWhilePaused <==> paused && env.waitInterrupted)
            && !t.locked && t.written == None && t.posted == None
  {
  }

  /** Failing the first check under the lock writes nothing and posts nothing: `bitmap` is still null. */
  lemma StaleUnderLockPostsNothing(w: World, paused: bool, id: int, key: string, cache: map<string, Bitmap>,
                                   shaping: bool, env: RunEnv)
    requires !(paused && env.waitInterrupted)
    requires !NotActual(Happen(w, env.afterWait.event), id, key)
    requires NotActual(Happen(Happen(w, env.afterWait.event), env.afterLock.event), id, key)
    ensures var t := LoadRun(w, paused, id, key, cache, shaping, env);
            t.exit == StaleAfterLock && t.locked && t.written == None && t.posted == None
  {
  }

  /**
   * A usable cache hit never writes the cache, posts the cached bitmap if it
   * is posted at all, and does not depend on what decoding or shaping would
   * have produced (they are skipped).
   */
  lemma CacheHitSkipsDecode(w: World, paused: bool, id: int, key: string, cache: map<string, Bitmap>,
                            shaping: bool, env: RunEnv, otherDecode: Produced, otherShape: Produced)
    requires ReachesLookup(w, paused, id, key, env)
    requires Usable(Lookup(cache, key))
    ensures var t := LoadRun(w, paused, id, key, cache, shaping, env);
            && t.written == None
            && t.posted == Lookup(cache, key)
            && t == LoadRun(w, paused, id, key, cache, shaping, env.(decoded := otherDecode, shaped := otherShape))
  {
  }

  /** On a miss, a null decode result ends the task with no cache write and no display posted. */
  lemma NullDecodeEndsTask(w: World, paused: bool, id: int, key: string, cache: map<string, Bitmap>,
                           shaping: bool, env: RunEnv)
    requires ReachesLookup(w, paused, id, key, env)
    requires !Usable(Lookup(cache, key)) && env.decoded.MadeNull?
    ensures var t := LoadRun(w, paused, id, key, cache, shaping, env);
            t.exit == DecodedNull && t.locked && t.written == None && t.posted == None
  {
  }

  /**
   * The bitmap cached (and then posted) is the shape factory's output when a
   * factory is installed, and the decoded bitmap otherwise.
   */
  lemma CachedBitmapIsShaped(w: World, paused: bool, id: int, key: string, cache: map<string, Bitmap>,
                             shaping: bool, env: RunEnv)
    requires LoadRun(w, paused, id, key, cache, shaping, env).written.Some?
    ensures env.decoded.Made?
    ensures var b := LoadRun(w, paused, id, key, cache, shaping, env).written.value;
            if shaping then env.shaped == Made(b) else env.decoded == Made(b)
  {
  }

  /**
   * The cache is written exactly when the run reaches a miss, decoding and
   * shaping give a bitmap, and the checks after decoding pass.
   */
  lemma CacheWriteIffChecksPass(w: World, paused: bool, id: int, key: string, cache: map<string, Bitmap>,
                                shaping: bool, env: RunEnv)
    ensures LoadRun(w, paused, id, key, cache, shaping, env).written.Some? <==>
            && ReachesLookup(w, paused, id, key, env)
            && !Usable(Lookup(cache, key))
            && env.decoded.Made?
            && Shaped(shaping, env).Made?
            && !Trips(Happen(Happen(Happen(w, env.afterWait.event), env.afterLock.event), env.afterDecode.event),
                      id, key, env.afterDecode)
  {
  }

  /**
   * A staleness or interrupt failure after the bitmap is obtained does not
   * clear it: the cache is not written, but a display task with that bitmap
   * is still posted, leaving the display task's own check as the last guard.
   */
  lemma StaleAfterDecodeStillPosts(w: World, paused: bool, id: int, key: string, cache: map<string, Bitmap>,
                                   shaping: bool, env: RunEnv)
    requires ReachesLookup(w, paused, id, key, env)
    requires !Usable(Lookup(cache, key)) && env.decoded.Made? && Shaped(shaping, env).Made?
    requires Trips(Happen(Happen(Happen(w, env.afterWait.event), env.afterLock.event), env.afterDecode.event),
                   id, key, env.afterDecode)
    ensures var t := LoadRun(w, paused, id, key, cache, shaping, env);
            t.exit == CancelledAfterDecode && t.written == None && t.posted == Some(Shaped(shaping, env).bitmap)
  {
  }

  /** Failing the last checkpoint still posts whatever bitmap the run holds, cached or decoded. */
  lemma CancelledBeforeUnlockStillPosts(w: World, paused: bool, id: int, key: string, cache: map<string, Bitmap>,
                                        shaping: bool, env: RunEnv)
    requires LoadRun(w, paused, id, key, cache, shaping, env).exit == CancelledBeforeUnlock
    ensures var t := LoadRun(w, paused, id, key, cache, shaping, env);
            t.posted == if Usable(Lookup(cache, key)) then Lookup(cache, key) else AsNullable(Shaped(shaping, env))
  {
  }

  /**
   * The task itself never writes the registry or the target's liveness: when
   * no other thread acts, the run ends in the world it started in.
   */
  lemma QuietRunKeepsWorld(w: World, paused: bool, id: int, key: string, cache: map<string, Bitmap>,
                           shaping: bool, env: RunEnv)
    requires env.afterWait.event == Quiet && env.afterLock.event == Quiet
    requires env.afterDecode.event == Quiet && env.beforeUnlock.event == Quiet
    ensures LoadRun(w, paused, id, key, cache, shaping, env).world == w
  {
  }

  /**
   * A run that passes every check leaves the target registered for `key`, so
   * the display task it posted paints when it runs next on the main thread.
   */
  lemma CompletedRunIsPainted(w: World, paused: bool, id: int, key: string, cache: map<string, Bitmap>,
                              shaping: bool, env: RunEnv)
    requires LoadRun(w, paused, id, key, cache, shaping, env).exit == Completed
    ensures var t := LoadRun(w, paused, id, key, cache, shaping, env);
            t.locked && DisplayStep(t.world.collected, t.world.registry, id, key).painted
  {
  }

  /**
   * As written, a recycled cached bitmap stays in `bitmap` when the decoder
   * throws, so a display task is posted with a recycled bitmap.
   */
  lemma RecycledHitPostedWhenDecodeThrows(w: World, paused: bool, id: int, key: string,
                                          cache: map<string, Bitmap>, shaping: bool, env: RunEnv)
    requires ReachesLookup(w, paused, id, key, env)
    requires key in cache && cache[key].recycled && env.decoded.Threw?
    ensures var t := LoadRun(w, paused, id, key, cache, shaping, env);
            t.exit == DecodeFailed && t.posted == Some(cache[key]) && t.posted.value.recycled
  {
  }

  /** The cache as the lookup should see it: recycled bitmaps count as absent. */
  function UsableEntries(cache: map<string, Bitmap>): (u: map<string, Bitmap>)
    ensures forall k :: k in u <==> k in cache && !cache[k].recycled
    ensures forall k :: k in u ==> u[k] == cache[k]
  {
    map k | k in cache && !cache[k].recycled :: cache[k]
  }

  /**
   * The evidently intended run: a recycled cached bitmap is dropped before
   * decoding (as if `bitmap` were reset to null), so a failed decode posts
   * nothing. Everything else is `LoadRun`.
   */
  function LoadRunFixed(w: World, paused: bool, id: int, key: string, cache: map<string, Bitmap>,
                        shaping: bool, env: RunEnv): (t: Trace)
    ensures t.exit == DecodeFailed ==> t.posted == None
  {
    LoadRun(w, paused, id, key, UsableEntries(cache), shaping, env)
  }

  /** Decoders and shape factories hand back fresh, unrecycled bitmaps. */
  predicate FreshOutputs(env: RunEnv)
  {
    (env.decoded.Made? ==> !env.decoded.bitmap.recycled) && (env.shaped.Made? ==> !env.shaped.bitmap.recycled)
  }

  /** With the fix, every posted bitmap can be painted. */
  lemma FixedPostsOnlyUsable(w: World, paused: bool, id: int, key: string, cache: map<string, Bitmap>,
                             shaping: bool, env: RunEnv)
    requires FreshOutputs(env)
    ensures var t := LoadRunFixed(w, paused, id, key, cache, shaping, env);
            t.posted.Some? ==> !t.posted.value.recycled
  {
    var t := LoadRunFixed(w, paused, id, key, cache, shaping, env);
    if t.posted.Some? && ReachesLookup(w, paused, id, key, env) {
      var u := UsableEntries(cache);
      if !Usable(Lookup(u, key)) {
        assert key !in u;
      }
    }
  }

  /** The fix changes nothing unless the cache holds a recycled bitmap for the key. */
  lemma FixedAgreesWithoutRecycledHit(w: World, paused: bool, id: int, key: string, cache: map<string, Bitmap>,
                                      shaping: bool, env: RunEnv)
    requires !(key in cache && cache[key].recycled)
    ensures LoadRunFixed(w, paused, id, key, cache, shaping, env) == LoadRun(w, paused, id, key, cache, shaping, env)
  {
    assert Lookup(UsableEntries(cache), key) == Lookup(cache, key);
  }

  /** An `AbstractImageLoadTask` (any decoder subclass). */
  class LoadTask {
    const uri: string
    const cacheKey: string
    const target: ImageAware
    const lock: UriLock
    const handler: MainHandler
    const engine: ImageLoaderEngine
    const cache: ImageCache
    const kind: TaskKind
    var shape: Option<ShapeFactory>

    /** The builder's fields are copied; a null cache key becomes "". */
    constructor (b: Builder, kind: TaskKind)
      ensures cacheKey == (if b.cacheKey.None? then "" else b.cacheKey.value)
      ensures uri == b.uri && target == b.target && lock == b.lock && handler == b.handler
      ensures engine == b.engine && cache == b.cache && this.kind == kind && shape == None
    {
      uri := b.uri;
      cacheKey := if b.cacheKey.None? then "" else b.cacheKey.value;
      target := b.target;
      lock := b.lock;
      handler := b.handler;
      engine := b.engine;
      cache := b.cache;
      this.kind := kind;
      shape := None;
    }

    method SetShapeFactory(factory: Option<ShapeFactory>)
      modifies this
      ensures shape == factory
    {
      shape := factory;
    }

    /** The shared state the staleness checks read. */
    ghost function WorldNow(): World
      reads engine, target
    {
      World(engine.registry, target.collected)
    }

    /** `isTaskNotActual`: `isViewCollected() || isViewReused()`. */
    function IsTaskNotActual(): (r: bool)
      reads engine, target
      ensures r == NotActual(WorldNow(), target.id, cacheKey)
    {
      target.collected || IsViewWasReused(engine.registry, target.id, cacheKey)
    }

    /** Lets the other thread's event for the next checkpoint happen. */
    method Interleave(e: Interleaved)
      modifies engine, target
      ensures WorldNow() == Happen(old(WorldNow()), e)
      ensures engine.uriLocks == old(engine.uriLocks) && engine.paused == old(engine.paused)
      ensures engine.executor == old(engine.executor) && target.image == old(target.image)
    {
      match e
      case Quiet =>
      case Reassign(i, k) => engine.PrepareDisplayTaskFor(i, k);
      case Cancel(i) => engine.CancelDisplayTaskFor(i);
      case Reclaim => target.Reclaim();
    }

    /**
     * `waitIfPaused`: true when the wait was interrupted or, once it is over,
     * the task is not actual.
     */
    method WaitIfPaused(env: RunEnv) returns (stop: bool)
      modifies engine, target
      ensures (engine.paused && env.waitInterrupted) ==> stop && WorldNow() == old(WorldNow())
      ensures !(engine.paused && env.waitInterrupted) ==>
                WorldNow() == Happen(old(WorldNow()), env.afterWait.event) &&
                stop == NotActual(WorldNow(), target.id, cacheKey)
      ensures engine.uriLocks == old(engine.uriLocks) && engine.paused == old(engine.paused)
      ensures engine.executor == old(engine.executor) && target.image == old(target.image)
    {
      if engine.paused && env.waitInterrupted {
        return true;
      }
      Interleave(env.afterWait.event);
      stop := IsTaskNotActual();
    }

    /**
     * The try block of `run`, entered holding the lock. `bitmap` is the
     * local variable's value when the block is left; `returned` is the
     * `return` taken when the decoder gives null. A recycled lookup result
     * stays in `bitmap` on the miss branch, as in the code.
     */
    method TryBlock(env: RunEnv) returns (exit: Exit, bitmap: Option<Bitmap>, returned: bool)
      modifies engine, target, cache
      ensures var t := Locked(old(WorldNow()), target.id, cacheKey, old(cache.entries), shape.Some?, env);
              && exit == t.exit
              && WorldNow() == t.world
              && cache.entries == (if t.written.Some? then old(cache.entries)[cacheKey := t.written.value]
                                   else old(cache.entries))
              && (returned <==> exit == DecodedNull)
              && (!returned ==> bitmap == t.posted)
      ensures engine.uriLocks == old(engine.uriLocks) && engine.paused == old(engine.paused)
      ensures engine.executor == old(engine.executor) && target.image == old(target.image)
    {
      returned := false;
      bitmap := None;
      Interleave(env.afterLock.event);
      if IsTaskNotActual() {
        return StaleAfterLock, bitmap, returned;
      }
      bitmap := cache.Get(cacheKey);
      if bitmap.None? || bitmap.value.recycled {
        exit, bitmap, returned := LoadOnMiss(env, bitmap);
        return;
      }
      exit := CheckBeforeUnlock(env);
    }

    /** The miss branch of the try block, given the (unusable) cache lookup result. */
    method LoadOnMiss(env: RunEnv, cached: Option<Bitmap>) returns (exit: Exit, bitmap: Option<Bitmap>, returned: bool)
      requires !Usable(cached)
      modifies engine, target, cache
      ensures var t := Miss(old(WorldNow()), target.id, cacheKey, cached, shape.Some?, env);
              && exit == t.exit
              && WorldNow() == t.world
              && cache.entries == (if t.written.Some? then old(cache.entries)[cacheKey := t.written.value]
                                   else old(cache.entries))
              && (returned <==> exit == DecodedNull)
              && (!returned ==> bitmap == t.posted)
      ensures engine.uriLocks == old(engine.uriLocks) && engine.paused == old(engine.paused)
      ensures engine.executor == old(engine.executor) && target.image == old(target.image)
    {
      bitmap, returned := cached, false;
      var temp := env.decoded;
      if temp.Threw? {
        return DecodeFailed, bitmap, returned;
      }
      if temp.MadeNull? {
        return DecodedNull, bitmap, true;
      }
      if shape.Some? {
        if env.shaped.Threw? {
          return DecodeFailed, bitmap, returned;
        }
        bitmap := AsNullable(env.shaped);
      } else {
        bitmap := Some(temp.bitmap);
      }
      Interleave(env.afterDecode.event);
      if IsTaskNotActual() || env.afterDecode.interrupted {
        return CancelledAfterDecode, bitmap, returned;
      }
      if bitmap.Some? {
        cache.Set(cacheKey, bitmap.value);
      }
      exit := CheckBeforeUnlock(env);
    }

    /** The checks at the end of the try block. */
    method CheckBeforeUnlock(env: RunEnv) returns (exit: Exit)
      modifies engine, target
      ensures WorldNow() == Happen(old(WorldNow()), env.beforeUnlock.event)
      ensures exit == if Trips(WorldNow(), target.id, cacheKey, env.beforeUnlock) then CancelledBeforeUnlock else Completed
      ensures engine.uriLocks == old(engine.uriLocks) && engine.paused == old(engine.paused)
      ensures engine.executor == old(engine.executor) && target.image == old(target.image)
    {
      Interleave(env.beforeUnlock.event);
      if IsTaskNotActual() || env.beforeUnlock.interrupted {
        exit := CancelledBeforeUnlock;
      } else {
        exit := Completed;
      }
    }

    /** `run`, proved against `LoadRun`. */
    method Run(env: RunEnv) returns (exit: Exit)
      modifies engine, target, cache, handler, lock
      ensures var t := LoadRun(old(WorldNow()), old(engine.paused), target.id, cacheKey,
                               old(cache.entries), shape.Some?, env);
              && exit == t.exit
              && WorldNow() == t.world
              && cache.entries == (if t.written.Some? then old(cache.entries)[cacheKey := t.written.value]
                                   else old(cache.entries))
              && handler.posted == old(handler.posted) +
                   (if t.posted.Some? then [DisplayImageTask(t.posted.value, cacheKey, target, engine)] else [])
              && lock.holds == old(lock.holds)
              && lock.acquired == old(lock.acquired) + (if t.locked then 1 else 0)
              && lock.released == old(lock.released) + (if t.locked then 1 else 0)
      ensures engine.uriLocks == old(engine.uriLocks) && engine.paused == old(engine.paused)
      ensures engine.executor == old(engine.executor) && target.image == old(target.image)
    {
      var stop := WaitIfPaused(env);
      if stop {
        exit := if engine.paused && env.waitInterrupted then InterruptedWhilePaused else StaleAfterWait;
        return;
      }
      lock.Lock();
      var bitmap, returned;
      exit, bitmap, returned := TryBlock(env);
      lock.Unlock();
      if returned {
        return;
      }
      if bitmap.Some? {
        handler.Post(DisplayImageTask(bitmap.value, cacheKey, target, engine));
      }
    }
  }
}
