/**
 * The objects the loader works with but whose classes are not part of this
 * model: the display target (`ImageAware`/`ImageViewAware`), the per-uri
 * `ReentrantLock` and the memory cache (`IImageCache`). Each is reduced to
 * the state the loader reads or changes.
 */
module Collaborators {
  import opened Common

  /**
   * A display target. `id` is `getId()` (an opaque int), `collected` is the
   * answer `isCollected()` gives (the view was reclaimed by the garbage
   * collector; the environment sets it), and `image` is what the view
   * currently shows (`None` after `setImageBitmap(null)` or
   * `setImageDrawable(null)`).
   */
  class ImageAware {
    const id: int
    var collected: bool
    var image: Option<Bitmap>

    constructor (id: int)
      ensures this.id == id && !collected && image == None
    {
      this.id := id;
      collected := false;
      image := None;
    }

    /** `setImageBitmap`; the `SimpleBitmapDisplayer` paints through it too. */
    method SetImageBitmap(b: Option<Bitmap>)
      modifies this
      ensures image == b && collected == old(collected)
    {
      image := b;
    }

    /** The garbage collector reclaims the wrapped view; it stays reclaimed. */
    method Reclaim()
      modifies this
      ensures collected && image == old(image)
    {
      collected := true;
    }
  }

  /**
   * A `ReentrantLock` as seen by one thread: how many holds it has, and ghost
   * counters of every `lock()` and `unlock()` so that callers can state that
   * each acquisition is matched by exactly one release.
   */
  class UriLock {
    var holds: nat
    ghost var acquired: nat
    ghost var released: nat

    constructor ()
      ensures holds == 0 && acquired == 0 && released == 0
    {
      holds := 0;
      acquired := 0;
      released := 0;
    }

    method Lock()
      modifies this
      ensures holds == old(holds) + 1
      ensures acquired == old(acquired) + 1 && released == old(released)
    {
      holds := holds + 1;
      acquired := acquired + 1;
    }

    /** `unlock()` by the holding thread (an unheld lock would throw). */
    method Unlock()
      requires holds > 0
      modifies this
      ensures holds == old(holds) - 1
      ensures released == old(released) + 1 && acquired == old(acquired)
    {
      holds := holds - 1;
      released := released + 1;
    }
  }

  /**
   * The memory cache as an abstract map from cache key to bitmap. Capacity
   * and eviction belong to `LruImageCache`, which is not part of this model.
   */
  class ImageCache {
    var entries: map<string, Bitmap>

    constructor ()
      ensures entries == map[]
    {
      entries := map[];
    }

    /** `get(key)`: the stored bitmap (possibly recycled), or null. */
    method Get(key: string) returns (b: Option<Bitmap>)
      ensures b.Some? <==> key in entries
      ensures b.Some? ==> b.value == entries[key]
    {
      b := if key in entries then Some(entries[key]) else None;
    }

    method Set(key: string, b: Bitmap)
      modifies this
      ensures entries == old(entries)[key := b]
    {
      entries := entries[key := b];
    }

    method Clear()
      modifies this
      ensures entries == map[]
    {
      entries := map[];
    }
  }

  /** The result `ImageCache.Get` gives for `key` in a cache holding `entries`. */
  function Lookup(entries: map<string, Bitmap>, key: string): Option<Bitmap>
  {
    if key in entries then Some(entries[key]) else None
  }
}
