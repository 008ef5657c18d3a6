/** Values shared by the whole model: source handles, the errors a subscriber
    can be told about, and the iteration protocol of a lazily produced list
    of sources. */
module Publishers {

  /** A handle on one source of the race. Only its identity matters here:
      what a source emits once subscribed is outside this model. A Java
      `null` source is the Dafny `null` of type `Publisher?`. */
  class Publisher {
  }

  /** What the subscriber is told when the operation fails before any
      source is subscribed. `Raised` stands for a throwable coming out of a
      foreign call (its wrapping by the error hooks is not modelled);
      `NullPointer` for a `NullPointerException` with its message, the empty
      message standing for none. */
  datatype Error = Raised(cause: string) | NullPointer(message: string)

  const NullIteratorMessage := "The iterator returned is null"
  const NullElementMessage := "The Publisher returned by the iterator is null"
  const SingleNullMessage := "The single source Publisher is null"
  const NullArrayMessage := "array"

  datatype Option<T> = None | Some(value: T)

  datatype Result<T> = Ok(value: T) | Err(error: Error)

  /** One round of the drain loop as the iterator answers it: `hasNext()`
      returned true and `next()` returned `p` (possibly null), or one of
      the two calls threw. */
  datatype Step = Item(p: Publisher?) | HasNextThrows(cause: string) | NextThrows(cause: string)

  /** What `iterable.iterator()` does: it throws, returns null, or returns an
      iterator whose `hasNext()` becomes false once `steps` are used up. */
  datatype Iterable = IteratorThrows(cause: string) | NullIterator | Yields(steps: seq<Step>)
}
