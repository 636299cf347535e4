/**
 * `ImageLoader`, the front-end for local pictures, video thumbnails and album
 * art: each request registers the target, then either paints a usable cached
 * bitmap at once or shows the default image and submits exactly one load
 * task. Also the `ImageLoaderBean` request record and the type and shape
 * dispatch it drives.
 */
module ImageLoaders {
  import opened Common
  import opened Collaborators
  import opened Engine
  import opened Display
  import opened LoadTasks

  /** `NONE_DEFAULT_IMAGE`: no placeholder is shown while loading. */
  const NONE_DEFAULT_IMAGE: int := -10000

  const IMAGE_TYPE_PICTURE: int := 0
  const IMAGE_TYPE_VIDEO: int := 1
  const IMAGE_TYPE_MUSIC: int := 2
  const SHAPE_TYPE_NONE: int := 0
  const SHAPE_TYPE_ROUND: int := 1

  /** `ImageLoaderBean`: a display request; its setters are record updates. */
  datatype ImageLoaderBean = ImageLoaderBean(
    uri: string,
    cacheKey: string,
    target: ImageAware,
    drawableId: int,
    scaleFactor: int,
    imageType: int,
    shapeType: int)

  /** The bean's constructor and field initialisers. */
  function NewBean(uri: string, target: ImageAware): (b: ImageLoaderBean)
    ensures b.uri == uri && b.cacheKey == uri && b.target == target
    ensures b.scaleFactor == 1 && b.imageType == IMAGE_TYPE_PICTURE
    ensures b.shapeType == SHAPE_TYPE_NONE && b.drawableId == 0
  {
    ImageLoaderBean(uri, uri, target, 0, 1, IMAGE_TYPE_PICTURE, SHAPE_TYPE_NONE)
  }

  /**
   * The load task the first `switch` of `displayImage(bean)` creates: video
   * and music have their own decoders, every other type value is a picture.
   */
  function TaskKindFor(imageType: int, scaleFactor: int): (k: TaskKind)
    ensures k.VideoTask? <==> imageType == IMAGE_TYPE_VIDEO
    ensures k.MusicTask? <==> imageType == IMAGE_TYPE_MUSIC
    ensures k.PictureTask? <==> imageType != IMAGE_TYPE_VIDEO && imageType != IMAGE_TYPE_MUSIC
    ensures !k.IconTask? && k.scaleFactor == scaleFactor
  {
    if imageType == IMAGE_TYPE_VIDEO then VideoTask(scaleFactor)
    else if imageType == IMAGE_TYPE_MUSIC then MusicTask(scaleFactor)
    else PictureTask(scaleFactor)
  }

  /** The second `switch`: only the round shape installs a factory. */
  function ShapeFor(shapeType: int): (f: Option<ShapeFactory>)
    ensures f.Some? <==> shapeType == SHAPE_TYPE_ROUND
  {
    if shapeType == SHAPE_TYPE_ROUND then Some(RoundShape) else None
  }

  /**
   * The placeholder set on a miss: none for `NONE_DEFAULT_IMAGE`, else what
   * `BitmapFactory.decodeResource` gave (`resource`), null when it threw.
   */
  function DefaultImage(drawableId: int, resource: Produced): (r: Option<Bitmap>)
    ensures drawableId == NONE_DEFAULT_IMAGE ==> r == None
    ensures drawableId != NONE_DEFAULT_IMAGE ==> (r.Some? <==> resource.Made?)
    ensures r.Some? ==> r.value == resource.bitmap
  {
    if drawableId == NONE_DEFAULT_IMAGE || resource.Threw? then None else AsNullable(resource)
  }

  /** The executor took exactly `task` (after being recreated if it had been shut down). */
  twostate predicate SubmittedOnce(e: ImageLoaderEngine, new task: object)
    reads e, e.executor
  {
    && !e.executor.isShutdown
    && (old(e.executor.isShutdown) ==> fresh(e.executor) && e.executor.pending == [task])
    && (!old(e.executor.isShutdown) ==>
          e.executor == old(e.executor) && e.executor.pending == old(e.executor.pending) + [task])
  }

  /** Nothing was submitted. */
  twostate predicate NothingSubmitted(e: ImageLoaderEngine)
    reads e, e.executor
  {
    e.executor == old(e.executor) && e.executor.pending == old(e.executor.pending)
    && e.executor.isShutdown == old(e.executor.isShutdown)
  }

  /**
   * The effect of one display request on a loader's engine and the target:
   * the target is registered under `cacheKey`; a usable cached bitmap is
   * painted at once and nothing is submitted; otherwise the placeholder is
   * shown and exactly `task` is submitted. `task` loads `uri` into `target`
   * under `cacheKey`, holding the lock stored for `uri` (not for the key).
   */
  twostate predicate Requested(engine: ImageLoaderEngine, cache: ImageCache, handler: MainHandler,
                               uri: string, cacheKey: string, target: ImageAware,
                               placeholder: Option<Bitmap>, kind: TaskKind, shape: Option<ShapeFactory>,
                               new task: LoadTask)
    reads engine, engine.executor, cache, target, task
  {
    && engine.registry == old(engine.registry)[target.id := cacheKey]
    && engine.paused == old(engine.paused)
    && uri in engine.uriLocks
    && engine.uriLocks == old(engine.uriLocks)[uri := engine.uriLocks[uri]]
    && (uri in old(engine.uriLocks) ==> engine.uriLocks[uri] == old(engine.uriLocks[uri]))
    && task.uri == uri && task.cacheKey == cacheKey && task.target == target
    && task.lock == engine.uriLocks[uri] && task.kind == kind && task.shape == shape
    && task.engine == engine && task.cache == cache && task.handler == handler
    && cache.entries == old(cache.entries)
    && target.collected == old(target.collected)
    && (if Usable(Lookup(cache.entries, cacheKey))
        then target.image == Lookup(cache.entries, cacheKey) && NothingSubmitted(engine)
        else target.image == placeholder && SubmittedOnce(engine, task))
  }

  class ImageLoader {
    const engine: ImageLoaderEngine
    const cache: ImageCache
    const handler: MainHandler
    /** `mContext` (opaque); `clear()` drops it. */
    var context: object?

    constructor (context: object)
      ensures fresh(engine) && fresh(cache) && fresh(handler) && fresh(engine.executor)
      ensures engine.registry == map[] && engine.uriLocks == map[] && !engine.paused
      ensures !engine.executor.isShutdown && engine.executor.pending == []
      ensures cache.entries == map[] && handler.posted == [] && this.context == context
    {
      engine := new ImageLoaderEngine();
      cache := new ImageCache();
      handler := new MainHandler();
      this.context := context;
    }

    /** `displayImage(uri, imageView)`: key = uri, no placeholder, scale factor 1. */
    method DisplayImage(uri: string, target: ImageAware, resource: Produced) returns (ghost task: LoadTask)
      modifies engine, engine.executor, target
      ensures fresh(task)
      ensures Requested(engine, cache, handler, uri, uri, target, None, PictureTask(1), None, task)
    {
      task := DisplayImageWithDefault(uri, target, NONE_DEFAULT_IMAGE, resource);
    }

    /** `displayImage(uri, imageView, drawableId)`: key = uri, scale factor 1. */
    method DisplayImageWithDefault(uri: string, target: ImageAware, drawableId: int, resource: Produced)
      returns (ghost task: LoadTask)
      modifies engine, engine.executor, target
      ensures fresh(task)
      ensures Requested(engine, cache, handler, uri, uri, target, DefaultImage(drawableId, resource),
                        PictureTask(1), None, task)
    {
      task := DisplayImageScaled(uri, target, drawableId, 1, resource);
    }

    /** `displayImage(uri, imageView, drawableId, scaleFactor)`: key = uri. */
    method DisplayImageScaled(uri: string, target: ImageAware, drawableId: int, scaleFactor: int,
                              resource: Produced) returns (ghost task: LoadTask)
      modifies engine, engine.executor, target
      ensures fresh(task)
      ensures Requested(engine, cache, handler, uri, uri, target, DefaultImage(drawableId, resource),
                        PictureTask(scaleFactor), None, task)
    {
      task := DisplayImageKeyed(uri, uri, target, drawableId, scaleFactor, resource);
    }

    /** `displayImage(uri, cacheKey, imageViewAware, drawableId, scaleFactor)`: a picture task. */
    method DisplayImageKeyed(uri: string, cacheKey: string, target: ImageAware, drawableId: int,
                             scaleFactor: int, resource: Produced) returns (ghost task: LoadTask)
      modifies engine, engine.executor, target
      ensures fresh(task)
      ensures Requested(engine, cache, handler, uri, cacheKey, target, DefaultImage(drawableId, resource),
                        PictureTask(scaleFactor), None, task)
    {
      var lock := engine.GetLockForUri(uri);
      var t := new LoadTask(Builder(uri, target, Some(cacheKey), lock, handler, engine, cache),
                            PictureTask(scaleFactor));
      Show(uri, cacheKey, target, drawableId, resource, t);
      task := t;
    }

    /** `displayImage(bean)`: the task kind and shape come from the bean's type fields. */
    method DisplayImageBean(bean: ImageLoaderBean, resource: Produced) returns (ghost task: LoadTask)
      modifies engine, engine.executor, bean.target
      ensures fresh(task)
      ensures Requested(engine, cache, handler, bean.uri, bean.cacheKey, bean.target,
                        DefaultImage(bean.drawableId, resource),
                        TaskKindFor(bean.imageType, bean.scaleFactor), ShapeFor(bean.shapeType), task)
    {
      var lock := engine.GetLockForUri(bean.uri);
      var t := new LoadTask(Builder(bean.uri, bean.target, Some(bean.cacheKey), lock, handler, engine, cache),
                            TaskKindFor(bean.imageType, bean.scaleFactor));
      if bean.shapeType == SHAPE_TYPE_ROUND {
        t.SetShapeFactory(Some(RoundShape));
      }
      Show(bean.uri, bean.cacheKey, bean.target, bean.drawableId, resource, t);
      task := t;
    }

    /**
     * The private `displayImage`: registers the target under `cacheKey`,
     * then either paints the usable cached bitmap or shows the placeholder
     * and submits `task`.
     */
    method Show(uri: string, cacheKey: string, target: ImageAware, drawableId: int, resource: Produced,
                task: LoadTask)
      modifies engine, engine.executor, target
      ensures engine.registry == old(engine.registry)[target.id := cacheKey]
      ensures engine.paused == old(engine.paused) && engine.uriLocks == old(engine.uriLocks)
      ensures target.collected == old(target.collected)
      ensures Usable(Lookup(cache.entries, cacheKey)) ==>
                target.image == Lookup(cache.entries, cacheKey) && NothingSubmitted(engine)
      ensures !Usable(Lookup(cache.entries, cacheKey)) ==>
                target.image == DefaultImage(drawableId, resource) && SubmittedOnce(engine, task)
    {
      engine.PrepareDisplayTaskFor(target.id, cacheKey);
      var bitmap := cache.Get(cacheKey);
      if bitmap.Some? && !bitmap.value.recycled {
        target.SetImageBitmap(bitmap);
      } else {
        var bm: Option<Bitmap> := None;
        if drawableId != NONE_DEFAULT_IMAGE {
          if !resource.Threw? {
            bm := AsNullable(resource);
          }
        }
        target.SetImageBitmap(bm);
        engine.Submit(task);
      }
    }

    method Pause()
      modifies engine
      ensures engine.paused
      ensures engine.registry == old(engine.registry) && engine.uriLocks == old(engine.uriLocks)
      ensures engine.executor == old(engine.executor)
    {
      engine.Pause();
    }

    method Resume()
      modifies engine
      ensures !engine.paused
      ensures engine.registry == old(engine.registry) && engine.uriLocks == old(engine.uriLocks)
      ensures engine.executor == old(engine.executor)
    {
      engine.Resume();
    }

    /** `stop`: cancels queued tasks and forgets all registrations and locks; the loader stays usable. */
    method Stop()
      modifies engine, engine.executor
      ensures engine.registry == map[] && engine.uriLocks == map[] && engine.paused == old(engine.paused)
      ensures engine.executor == old(engine.executor) && engine.executor.isShutdown
      ensures engine.executor.pending == []
    {
      engine.Stop();
    }

    /** `cancelShowImage(view)`: forgets the view's registration (keyed by its hash code). */
    method CancelShowImage(viewHash: int)
      modifies engine
      ensures engine.registry == old(engine.registry) - {viewHash}
      ensures engine.uriLocks == old(engine.uriLocks) && engine.paused == old(engine.paused)
      ensures engine.executor == old(engine.executor)
    {
      engine.CancelDisplayTaskFor(viewHash);
    }
  }

  /** The static `sInstance` of `ImageLoader`. */
  class ImageLoaderSingleton {
    var instance: ImageLoader?

    constructor ()
      ensures instance == null
    {
      instance := null;
    }

    /** `getInstance(context)`: creates the loader on first use only. */
    method GetInstance(context: object) returns (loader: ImageLoader)
      modifies this
      ensures instance == loader
      ensures old(instance) != null ==> loader == old(instance)
      ensures old(instance) == null ==> fresh(loader) && loader.cache.entries == map[] &&
                                        loader.engine.registry == map[] && loader.context == context
    {
      if instance == null {
        instance := new ImageLoader(context);
      }
      loader := instance;
    }

    /**
     * `clear()`: clears the cache, stops the engine and drops the context of
     * the current instance, then forgets the instance.
     */
    method Clear()
      modifies this
      modifies if instance == null then {} else {instance, instance.cache, instance.engine, instance.engine.executor}
      ensures instance == null
      ensures old(instance) != null ==>
                var l := old(instance);
                && l.cache.entries == map[] && l.context == null
                && l.engine.registry == map[] && l.engine.uriLocks == map[]
                && l.engine.executor == old(l.engine.executor) && l.engine.executor.isShutdown
                && l.engine.executor.pending == [] && l.engine.paused == old(l.engine.paused)
    {
      if instance != null {
        instance.cache.Clear();
        instance.engine.Stop();
        instance.context := null;
      }
      instance := null;
    }
  }
}
