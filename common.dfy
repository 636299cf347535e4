/** Values shared by every part of the image loader model. */
module Common {

  /** A Java reference that may be null. */
  datatype Option<+T> = None | Some(value: T)

  /**
   * A decoded Android bitmap, reduced to what the loader inspects: its
   * identity and whether `isRecycled()` reports true.
   */
  datatype Bitmap = Bitmap(id: nat, recycled: bool)

  /**
   * What a call into code outside the model produced: a bitmap, a null
   * reference, or an exception (including OutOfMemoryError).
   */
  datatype Produced = Made(bitmap: Bitmap) | MadeNull | Threw

  /** The bitmap a call that did not throw returned, as a nullable reference. */
  function AsNullable(p: Produced): (r: Option<Bitmap>)
    requires !p.Threw?
    ensures r.Some? <==> p.Made?
    ensures p.Made? ==> r.value == p.bitmap
  {
    if p.Made? then Some(p.bitmap) else None
  }

  /** A bitmap the loader may paint: non-null and not recycled. */
  predicate Usable(b: Option<Bitmap>)
  {
    b.Some? && !b.value.recycled
  }
}
