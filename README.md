# u920 image loader, modelled in Dafny

This project models the image-loading core of the u920 Android application:
the loaders that paint pictures, video thumbnails, album art and application
icons into reusable list rows, and the engine and tasks behind them.

- `ImageLoaderEngine` keeps three things. The target registry maps a target's
  id to the cache key the target currently wants. The lock table holds one lock
  per uri. The third is the paused flag. It hands tasks to a worker pool that
  is recreated lazily after `stop`.
- `ImageLoader` and `IconLoader` are the front-ends. A request registers the
  target, then either paints a usable cached bitmap at once, or shows a
  placeholder (or nothing) and submits exactly one load task.
- `AbstractImageLoadTask.run` runs on a worker thread. It waits while the
  engine is paused and checks that the target still wants the key. It takes
  the uri lock and consults the cache. On a miss it decodes and optionally
  shapes the bitmap. It checks again, writes the cache, unlocks, and posts a
  `DisplayImageTask` to the main thread.
- `DisplayImageTask` paints only when the target is alive and still
  registered for the key. Then it forgets the registration.
- `PauseOnScrollListener` pauses and resumes the icon loader as a list scrolls.
- `DataHub` is a take-once key/value box.
- `FileUtils.getFileNameFromUrl` returns the last segment of a path.

Modules, one per source file or group:

- `Common`: `Option`, `Bitmap` and the outcome of a call that can throw.
- `Collaborators`: the target, the uri lock and the memory cache, reduced to
  what the core uses.
- `Engine`, `Display`, `LoadTasks`, `ImageLoaders`, `IconLoaders`,
  `ScrollListeners`, `DataHubs`, `FileUtils`.

Classes whose fields the source updates in place stay classes with
`modifies` frames: the engine, the loaders, their singletons, the task, the
icon loader's client list and `DataHub`. `PauseOnScrollListener` sets its
fields only in its constructor. It stays a class because it holds the icon
loader and changes the engine's paused flag through it.

A load task's `run` is specified by the pure function `LoadTasks.LoadRun`,
which follows the code as written, and the method `LoadTasks.LoadTask.Run`
is proved against it. `LoadTasks.LoadRunFixed` is `LoadRun` with the one
correction described under "Findings".
Other threads cannot be run inside one method, so their effect comes in as an
oracle (`RunEnv`). Just before each of the four staleness checkpoints, one
event can happen: the target is reassigned to another key, its registration
is cancelled, or it is garbage collected. The oracle also gives whether the
pause wait was interrupted, what `Thread.interrupted()` answers at the two
checkpoints that read it, and what the decoder and the shape factory return
(a bitmap, null, or an exception). The lemmas about `LoadRun` state what a
run does for every such schedule.

Two consequences of the code that a reader might not expect:

- Once `bitmap` holds a value, a failed check after decoding, a failed
  check before unlocking, or an exception from the decoder does not clear
  it (AbstractImageLoadTask.java:75-97). A display task with that bitmap is
  still posted, and it is the display task's own check that keeps a stale
  target from being painted (`LoadTasks.StaleAfterDecodeStillPosts`,
  `LoadTasks.CancelledBeforeUnlockStillPosts`, and the finding below).
- The lock table is keyed by uri (ImageLoader.java:108 and 175,
  IconLoader.java:101), so two requests with one uri and different cache
  keys share a lock (`ImageLoaders.Requested`).

## Model

| member | source | states |
|---|---|---|
| Engine.ImageLoaderEngine.constructor | app/src/main/java/com/oy/u920/imageloader/ImageLoaderEngine.java:42-45 | a new engine has an empty registry and lock table, is not paused, and has a live, empty executor |
| Engine.ImageLoaderEngine.Submit | app/src/main/java/com/oy/u920/imageloader/ImageLoaderEngine.java:48-56 | the task is always accepted: it is appended to the live executor's queue, or a shut-down executor is first replaced by a fresh one holding only this task; the registry, locks and flag are untouched |
| Engine.ImageLoaderEngine.InitExecutorsIfNeed | app/src/main/java/com/oy/u920/imageloader/ImageLoaderEngine.java:59-63 | afterwards the executor is live; it is replaced by a fresh empty one exactly when it was shut down |
| Engine.ImageLoaderEngine.GetLoadingUriForView | app/src/main/java/com/oy/u920/imageloader/ImageLoaderEngine.java:74-76 | returns the key registered for the target, and null exactly when none is |
| Engine.ImageLoaderEngine.PrepareDisplayTaskFor | app/src/main/java/com/oy/u920/imageloader/ImageLoaderEngine.java:82-84 | afterwards the target's lookup gives the new key and every other target's lookup is unchanged |
| Engine.ImageLoaderEngine.CancelDisplayTaskFor | app/src/main/java/com/oy/u920/imageloader/ImageLoaderEngine.java:92-98 | afterwards the target has no key and every other target's lookup is unchanged (both overloads remove an int key) |
| Engine.ImageLoaderEngine.Pause | app/src/main/java/com/oy/u920/imageloader/ImageLoaderEngine.java:104-106 | sets the paused flag and nothing else |
| Engine.ImageLoaderEngine.Resume | app/src/main/java/com/oy/u920/imageloader/ImageLoaderEngine.java:109-114 | clears the paused flag and nothing else |
| Engine.ImageLoaderEngine.Stop | app/src/main/java/com/oy/u920/imageloader/ImageLoaderEngine.java:123-127 | the executor is shut down with its queue dropped, the registry and lock table are empty, and the paused flag keeps its value |
| Engine.ImageLoaderEngine.GetLockForUri | app/src/main/java/com/oy/u920/imageloader/ImageLoaderEngine.java:133-140 | returns the stored lock for the uri if there is one, with the table unchanged; otherwise a fresh, unheld lock that is now stored under the uri |
| Display.IsViewWasReused | app/src/main/java/com/oy/u920/imageloader/DisplayImageTask.java:42-45 | false exactly when the target is registered for this key; an unregistered target counts as reused |
| Display.DisplayStep | app/src/main/java/com/oy/u920/imageloader/DisplayImageTask.java:30-39 | paints exactly when the target is alive and registered for the key; painting removes that registration, and not painting leaves the registry as it was |
| Display.DisplayKeepsOtherTargets | app/src/main/java/com/oy/u920/imageloader/DisplayImageTask.java:30-39 | a display task never changes another target's registration |
| Display.SecondDisplayIsNoOp | app/src/main/java/com/oy/u920/imageloader/DisplayImageTask.java:30-39 | running the same display task twice paints at most once and the second run changes nothing |
| Display.RunDisplayTask | app/src/main/java/com/oy/u920/imageloader/DisplayImageTask.java:30-39 | the target's image and the registry change as `DisplayStep` says; liveness, locks, flag and executor are untouched |
| LoadTasks.LoadRun | app/src/main/java/com/oy/u920/imageloader/AbstractImageLoadTask.java:51-99 | the lock is taken exactly when the pause wait is not interrupted and the task is still actual after it; a run that does not lock writes and posts nothing; a run that writes the cache posts that same bitmap and passed the post-decode checks |
| LoadTasks.Locked | app/src/main/java/com/oy/u920/imageloader/AbstractImageLoadTask.java:59-92 | the try block runs under the lock; it stops at the first check exactly when the target is stale after the interleaved event, holding no bitmap; a usable hit writes nothing and holds the cached bitmap to the last checkpoint; a cache write happens only on a miss and the written bitmap is the one held |
| LoadTasks.Miss | app/src/main/java/com/oy/u920/imageloader/AbstractImageLoadTask.java:64-81 | the early return is taken exactly when the decoder gives null, holding nothing; the catch is reached exactly when decoding or shaping throws, and then nothing is written and the lookup result is still held; failing the post-decode checks writes nothing and holds the decoded or shaped bitmap; a written bitmap is the shaped (or decoded) one and is the one held |
| LoadTasks.Finish | app/src/main/java/com/oy/u920/imageloader/AbstractImageLoadTask.java:83-84 | the last checkpoint completes exactly when the target is alive and registered for the key after the interleaved event and the thread was not interrupted; either way it leaves the cache write and the held bitmap as they were |
| LoadTasks.EarlyExitTouchesNothing | app/src/main/java/com/oy/u920/imageloader/AbstractImageLoadTask.java:53-55 | an interrupted pause wait, or a task that is stale when the wait ends, returns before locking, writing the cache or posting; the exit names which happened |
| LoadTasks.StaleUnderLockPostsNothing | app/src/main/java/com/oy/u920/imageloader/AbstractImageLoadTask.java:59-63 | failing the first check under the lock ends the run holding no bitmap: no cache write, nothing posted |
| LoadTasks.CacheHitSkipsDecode | app/src/main/java/com/oy/u920/imageloader/AbstractImageLoadTask.java:63-64 | on a usable cache hit nothing is written, what is posted is the cached bitmap, and the run does not depend on the decoder or the shape factory |
| LoadTasks.NullDecodeEndsTask | app/src/main/java/com/oy/u920/imageloader/AbstractImageLoadTask.java:65-68 | a decoder returning null ends the run after unlocking, with no cache write and nothing posted |
| LoadTasks.CachedBitmapIsShaped | app/src/main/java/com/oy/u920/imageloader/AbstractImageLoadTask.java:69-80 | the bitmap written to the cache is the shape factory's output when one is installed, and the decoder's otherwise |
| LoadTasks.CacheWriteIffChecksPass | app/src/main/java/com/oy/u920/imageloader/AbstractImageLoadTask.java:62-80 | the cache is written if and only if the run reaches the lookup, misses, decoding and shaping give a bitmap, and the checks after decoding pass |
| LoadTasks.StaleAfterDecodeStillPosts | app/src/main/java/com/oy/u920/imageloader/AbstractImageLoadTask.java:75-98 | failing the checks after decoding skips the cache write but still posts the decoded (or shaped) bitmap |
| LoadTasks.CancelledBeforeUnlockStillPosts | app/src/main/java/com/oy/u920/imageloader/AbstractImageLoadTask.java:83-98 | failing the last checkpoint still posts the bitmap the run holds: the cached one on a hit, the decoded or shaped one on a miss |
| LoadTasks.QuietRunKeepsWorld | app/src/main/java/com/oy/u920/imageloader/AbstractImageLoadTask.java:51-99 | the task never changes the registry or the target's liveness itself |
| LoadTasks.CompletedRunIsPainted | app/src/main/java/com/oy/u920/imageloader/AbstractImageLoadTask.java:83-98 | a run that passes every check ends with the target alive and registered for its key, so a display step run on that final state paints (a run whose shape factory returned null completes but posts nothing) |
| LoadTasks.RecycledHitPostedWhenDecodeThrows | app/src/main/java/com/oy/u920/imageloader/AbstractImageLoadTask.java:63-98 | as written, a recycled cached bitmap plus a throwing decoder posts a display task holding the recycled bitmap |
| LoadTasks.UsableEntries | app/src/main/java/com/oy/u920/imageloader/AbstractImageLoadTask.java:63-64 | the cache as the lookup treats it: exactly the entries whose bitmap is not recycled |
| LoadTasks.LoadRunFixed | app/src/main/java/com/oy/u920/imageloader/AbstractImageLoadTask.java:63-98 | the corrected run: a decoder that throws never leaves a bitmap to post |
| LoadTasks.FixedPostsOnlyUsable | app/src/main/java/com/oy/u920/imageloader/AbstractImageLoadTask.java:63-98 | with the recycled lookup result dropped, every posted bitmap is unrecycled |
| LoadTasks.FixedAgreesWithoutRecycledHit | app/src/main/java/com/oy/u920/imageloader/AbstractImageLoadTask.java:63-98 | the corrected run equals the run as written unless the cache holds a recycled bitmap for the key |
| LoadTasks.LoadTask.constructor | app/src/main/java/com/oy/u920/imageloader/AbstractImageLoadTask.java:31-45 | the builder's fields are copied, a null cache key becomes "", and no shape factory is installed |
| LoadTasks.LoadTask.SetShapeFactory | app/src/main/java/com/oy/u920/imageloader/AbstractImageLoadTask.java:47-49 | installs the factory |
| LoadTasks.LoadTask.IsTaskNotActual | app/src/main/java/com/oy/u920/imageloader/AbstractImageLoadTask.java:175-216 | true exactly when the target is collected or not registered for the task's key |
| LoadTasks.LoadTask.WaitIfPaused | app/src/main/java/com/oy/u920/imageloader/AbstractImageLoadTask.java:145-158 | stops at once when paused and the wait is interrupted; otherwise reports whether the task is not actual once the wait is over |
| LoadTasks.LoadTask.TryBlock | app/src/main/java/com/oy/u920/imageloader/AbstractImageLoadTask.java:59-92 | exit, world, cache contents and the bitmap held when leaving are those of `Locked`, including a recycled lookup result kept through a failed decode, and the early `return` is taken exactly on a null decode |
| LoadTasks.LoadTask.LoadOnMiss | app/src/main/java/com/oy/u920/imageloader/AbstractImageLoadTask.java:64-81 | exit, world, cache contents and the bitmap held are those of `Miss` |
| LoadTasks.LoadTask.CheckBeforeUnlock | app/src/main/java/com/oy/u920/imageloader/AbstractImageLoadTask.java:83-84 | cancels exactly when the target is stale or the thread was interrupted |
| LoadTasks.LoadTask.Run | app/src/main/java/com/oy/u920/imageloader/AbstractImageLoadTask.java:51-99 | exit, final world, cache contents and the posted display task are those of `LoadRun`, the code as written; the lock is taken and released once exactly when the run locks, and is never left held |
| ImageLoaders.NewBean | app/src/main/java/com/oy/u920/imageloader/ImageLoader.java:253-274 | a new bean uses the uri as its cache key, scale factor 1, picture type, no shape and drawable 0 |
| ImageLoaders.TaskKindFor | app/src/main/java/com/oy/u920/imageloader/ImageLoader.java:122-132 | video and music types get their own task; every other value, not only the picture type, gets a picture task; the scale factor is carried over |
| ImageLoaders.ShapeFor | app/src/main/java/com/oy/u920/imageloader/ImageLoader.java:134-140 | a shape factory is installed exactly for the round shape type |
| ImageLoaders.DefaultImage | app/src/main/java/com/oy/u920/imageloader/ImageLoader.java:187-195 | no placeholder for `NONE_DEFAULT_IMAGE`; otherwise the decoded resource, or null when decoding returned null or threw |
| ImageLoaders.ImageLoader.constructor | app/src/main/java/com/oy/u920/imageloader/ImageLoader.java:48-55 | a new loader owns a fresh engine, cache and handler, all empty |
| ImageLoaders.ImageLoader.DisplayImage | app/src/main/java/com/oy/u920/imageloader/ImageLoader.java:63-65 | a request keyed by the uri with no placeholder and scale factor 1 |
| ImageLoaders.ImageLoader.DisplayImageWithDefault | app/src/main/java/com/oy/u920/imageloader/ImageLoader.java:74-76 | a request keyed by the uri with the given placeholder and scale factor 1 |
| ImageLoaders.ImageLoader.DisplayImageScaled | app/src/main/java/com/oy/u920/imageloader/ImageLoader.java:86-90 | a request keyed by the uri with the given placeholder and scale factor |
| ImageLoaders.ImageLoader.DisplayImageKeyed | app/src/main/java/com/oy/u920/imageloader/ImageLoader.java:101-112 | registers the target under the key; a usable hit is painted with nothing submitted; otherwise the placeholder is shown and exactly one picture task, holding the uri's lock, is submitted |
| ImageLoaders.ImageLoader.DisplayImageBean | app/src/main/java/com/oy/u920/imageloader/ImageLoader.java:119-144 | as the keyed request, with the task kind chosen by `TaskKindFor` and the shape by `ShapeFor` |
| ImageLoaders.ImageLoader.Show | app/src/main/java/com/oy/u920/imageloader/ImageLoader.java:179-199 | registers the target before the lookup; a usable hit is painted and nothing is submitted; a miss or recycled hit shows `DefaultImage` and submits exactly the given task |
| ImageLoaders.ImageLoader.Pause | app/src/main/java/com/oy/u920/imageloader/ImageLoader.java:206-208 | the engine is paused and nothing else changes |
| ImageLoaders.ImageLoader.Resume | app/src/main/java/com/oy/u920/imageloader/ImageLoader.java:213-215 | the engine is resumed and nothing else changes |
| ImageLoaders.ImageLoader.Stop | app/src/main/java/com/oy/u920/imageloader/ImageLoader.java:223-225 | the engine's registry and locks are empty, its executor is shut down and its queue of scheduled tasks is empty, and the paused flag keeps its value |
| ImageLoaders.ImageLoader.CancelShowImage | app/src/main/java/com/oy/u920/imageloader/ImageLoader.java:230-232 | removes exactly the view's registration |
| ImageLoaders.ImageLoaderSingleton.GetInstance | app/src/main/java/com/oy/u920/imageloader/ImageLoader.java:37-46 | returns the existing instance, or creates and keeps one on first use |
| ImageLoaders.ImageLoaderSingleton.Clear | app/src/main/java/com/oy/u920/imageloader/ImageLoader.java:234-241 | the old instance's cache is empty, its engine stopped and its context dropped, and there is no instance any more |
| IconLoaders.RemoveFirst | app/src/main/java/com/oy/u920/imageloader/IconLoader.java:169 | removing a present client takes exactly one occurrence out of the list's multiset; removing an absent one changes nothing |
| IconLoaders.RemoveFirstOfDistinct | app/src/main/java/com/oy/u920/imageloader/IconLoader.java:145-169 | in a list without duplicates, the removed client is gone, every other client is kept, and the list still has no duplicates |
| IconLoaders.UnbindUndoesBind | app/src/main/java/com/oy/u920/imageloader/IconLoader.java:145-169 | unbinding a client just bound restores the previous client list |
| IconLoaders.IconLoader.constructor | app/src/main/java/com/oy/u920/imageloader/IconLoader.java:66-72 | a new loader owns a fresh engine, cache and handler and has no clients |
| IconLoaders.IconLoader.DisplayImage | app/src/main/java/com/oy/u920/imageloader/IconLoader.java:90-105 | registers the target under the uri; a usable hit is painted with no lock or task created; otherwise the target is cleared and exactly one icon task, keyed by the uri and holding the uri's lock, is submitted |
| IconLoaders.IconLoader.CancelShowImage | app/src/main/java/com/oy/u920/imageloader/IconLoader.java:110-112 | removes exactly the view's registration |
| IconLoaders.IconLoader.Pause | app/src/main/java/com/oy/u920/imageloader/IconLoader.java:119-121 | the engine is paused and nothing else changes |
| IconLoaders.IconLoader.Resume | app/src/main/java/com/oy/u920/imageloader/IconLoader.java:124-126 | the engine is resumed and nothing else changes |
| IconLoaders.IconLoader.Stop | app/src/main/java/com/oy/u920/imageloader/IconLoader.java:135-137 | the engine's registry and locks are empty, its executor is shut down and its queue of scheduled tasks is empty, and the paused flag keeps its value |
| IconLoaders.IconLoader.BindServicer | app/src/main/java/com/oy/u920/imageloader/IconLoader.java:145-153 | null throws IllegalArgumentException, an already bound client throws IllegalStateException, both leaving the list unchanged; otherwise the client is appended; the list never holds a client twice |
| IconLoaders.IconLoader.UnbindServicer | app/src/main/java/com/oy/u920/imageloader/IconLoader.java:161-173 | null throws IllegalArgumentException, an unbound client throws IllegalStateException, both leaving the list unchanged; otherwise the client is removed and is no longer bound, every other client stays bound, and when none are left the singleton is destroyed; the list never holds a client twice |
| IconLoaders.IconLoaderSingleton.IsSingletonInit | app/src/main/java/com/oy/u920/imageloader/IconLoader.java:50-52 | true exactly when an instance exists |
| IconLoaders.IconLoaderSingleton.EnsureInitSingleton | app/src/main/java/com/oy/u920/imageloader/IconLoader.java:39-43 | afterwards an instance exists; an existing one is kept and a new one is made only when there was none |
| IconLoaders.IconLoaderSingleton.GetInstance | app/src/main/java/com/oy/u920/imageloader/IconLoader.java:58-64 | IllegalStateException before initialisation, the instance after |
| IconLoaders.IconLoaderSingleton.DestroySingleton | app/src/main/java/com/oy/u920/imageloader/IconLoader.java:180-187 | the old instance's cache is empty, its engine stopped and its context dropped, and there is no instance any more |
| ScrollListeners.ScrollDecision | app/src/main/java/com/oy/u920/imageloader/PauseOnScrollListener.java:56-70 | resumes exactly in the idle state; pauses exactly on touch scroll with pause-on-scroll or on fling with pause-on-fling; any other state does neither |
| ScrollListeners.IdleAlwaysResumes | app/src/main/java/com/oy/u920/imageloader/PauseOnScrollListener.java:56-70 | over any sequence of state changes: after the list comes to rest, the loader stays running until a state arrives that pauses it, whatever the earlier flag and history |
| ScrollListeners.NoFlagsNeverPause | app/src/main/java/com/oy/u920/imageloader/PauseOnScrollListener.java:56-70 | with both flags off, no scroll state pauses the loader |
| ScrollListeners.PauseOnScrollListener.constructor | app/src/main/java/com/oy/u920/imageloader/PauseOnScrollListener.java:33-52 | keeps the loader, both flags and the optional application listener |
| ScrollListeners.PauseOnScrollListener.OnScrollStateChanged | app/src/main/java/com/oy/u920/imageloader/PauseOnScrollListener.java:55-74 | the engine's paused flag becomes what `ScrollDecision` says and nothing else in the engine changes; a present application listener then receives the same call |
| ScrollListeners.PauseOnScrollListener.OnScroll | app/src/main/java/com/oy/u920/imageloader/PauseOnScrollListener.java:77-81 | a present application listener receives the same call with the same arguments |
| DataHubs.DataHub.Put | app/src/main/java/com/oy/u920/DataHub.java:17-19 | the key now holds the value, replacing any earlier one; other keys are unchanged |
| DataHubs.DataHub.Get | app/src/main/java/com/oy/u920/DataHub.java:21-23 | returns the value held, or null, and removes the key; other keys are unchanged |
| DataHubs.HandOver | app/src/main/java/com/oy/u920/DataHub.java:13-23 | after two puts under one key, a get returns the later value, a second get returns null, and every other key keeps its value |
| FileUtils.LastIndexOf | app/src/main/java/com/oy/u920/FileUtils.java:21 | -1 exactly when the character is absent; otherwise a position holding it with none after it |
| FileUtils.GetFileNameFromUrl | app/src/main/java/com/oy/u920/FileUtils.java:18-25 | "" for null, the path itself when it has no separator, and in every case the longest separator-free suffix of the path |
| FileUtils.NameAfterLastSeparator | app/src/main/java/com/oy/u920/FileUtils.java:21-24 | for any directory part, a separator and a separator-free file part, the result is the file part |
| FileUtils.TrailingSeparatorGivesEmpty | app/src/main/java/com/oy/u920/FileUtils.java:21-24 | a path ending in a separator gives "" |
| FileUtils.NameIsIdempotent | app/src/main/java/com/oy/u920/FileUtils.java:21-24 | applying the function to its own result returns that result |
| FileUtils.GankImageUrl | app/src/test/java/com/oy/u920/FileUtilsTest.java:15-16 | "http://gank.io/api/image/beautifulgirl.jpg" gives "beautifulgirl.jpg" |

## Left out

- Threads are not modelled. The distributor thread, the worker pool's scheduling
  and LIFO order, and the main-thread looper are all left out. A load task's
  run is one sequential method, and other threads act through the oracle
  events before its checkpoints. The pause wait is one `wait` whose outcome
  is the oracle's interrupted flag.
- Icon loader clients are compared by identity. In the code, `bindServicer`
  and `unbindServicer` use `List.contains` and `List.remove`, which call
  `equals()`. The two agree for clients that do not override `equals`, such
  as the activities that bind.
- At most one event is modelled before each checkpoint. Several events
  between two checkpoints are not modelled, but for the task's staleness
  they come to one net event: the last reassignment or cancellation, or a
  collection.
- Engine.ImageLoaderEngine.Submit: the task reaches the executor at once. In
  the code, `submit` only hands a runnable to the distributor thread, which
  later recreates the executor if needed and executes the task.
- `ImageLoaderEngine`'s field `mTaskExecutor` is never null in the model. The
  code's null test in `initExecutorsIfNeed` only matters inside the
  constructor.
- `fireCallback`, `getPause`, `getPauseLock` and `delayIfNeed` are left out.
  The first has no caller in the core. The accessors are the fields read
  directly. `delayIfNeed` always returns false.
- The memory cache is a map with no size bound. The LRU cache with its byte
  budget is not part of this model, so eviction is not modelled.
- The decoders (`PictureLoadTask`, `VideoLoadTask`, `MusicLoadTask`,
  `IconLoadTask`), the round shape factory and `BitmapFactory.decodeResource`
  are oracles. A decoder returns a bitmap, null or an exception. Decoding
  arithmetic such as the division by the scale factor is only visible as one
  of these outcomes.
- `OutOfMemoryError` is treated like any caught exception.
- ImageLoaders.ImageLoader.Show: `decodeResource` failing with an
  `OutOfMemoryError` is not caught at ImageLoader.java:192, so the code leaves
  `displayImage` after registering the target, with no placeholder set and no
  task submitted. The model only has caught failures here: no placeholder, and
  the task is submitted.
- A bitmap is an id plus a recycled flag. Pixels, the displayer and the view
  hierarchy are left out. The target is represented by its id, its image and
  whether it has been garbage collected.
- The lock table is a `WeakHashMap` in the code. It is modelled as a plain map,
  so locks the collector would drop are kept.
- Keys, uris and paths are never null, apart from `getFileNameFromUrl`'s
  null path and a task's null cache key. `DataHub` throws on a null key or
  value, and the front-ends can pass a null key. Neither is modelled.
- The `ImageView` overloads of `displayImage` and `cancelShowImage` are
  merged with the `ImageViewAware` ones. Cancelling by view uses the view's
  hash code as an int key, as the code does.
- `ImageLoaderBean`'s getters and setters are field reads and record updates.
  Its `toString` is left out.
- `ImageLoaderSingleton.GetInstance`'s double-checked locking is a plain
  check, since there are no threads.
- `DataHub` is one instance of a generic class; the static `INSTANCE` is not a
  separate entity.
- The application's own scroll listener is a recorder of the calls it
  receives. The list view passed along is an opaque object.

## Findings

| source | as written | input that shows it | evidently intended | confidence | as-written member | corrected member |
|---|---|---|---|---|---|---|
| app/src/main/java/com/oy/u920/imageloader/AbstractImageLoadTask.java:63-98 | `bitmap` takes the cache lookup result before the recycled test. When the decoder then throws, the catch leaves `bitmap` holding the recycled cached bitmap, and it is posted to the main thread | the cache holds a recycled bitmap for the key; the target stays registered; `tryLoadBitmap` throws | a recycled lookup result is treated as a miss, so a failed decode posts nothing and only unrecycled bitmaps are ever posted (`LoadTasks.FixedPostsOnlyUsable`); nothing else changes (`LoadTasks.FixedAgreesWithoutRecycledHit`) | medium, not executed | LoadTasks.RecycledHitPostedWhenDecodeThrows | LoadTasks.LoadRunFixed |
