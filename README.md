# MonoFirst: the front half of the first-to-signal operator

`MonoFirst` races several single-value sources and forwards to its subscriber
only the signals of the source that reacts first. This project models the
sequential part of the operator that runs before any race starts:

- the two constructors and their null checks, which leave exactly one of
  the fields `array` and `iterable` set;
- `subscribe`, which takes the sources from the array as they are, or drains
  the iterable into a growable buffer (initial capacity 8, grown to
  `n + (n >> 2)` when full) and aborts with one error on the first failure;
  it then dispatches on the number of sources: 0 completes empty, 1
  subscribes the subscriber directly to it (or reports a null sole source),
  2 or more hand the buffer and the count to the race coordinator;
- `orAdditionalSource`, which builds a new operator over a fresh copy of the
  array with one source appended, and `upstreamCount`.

Files:

- `publishers.dfy` (module `Publishers`): source handles (`Publisher`, with
  Java `null` as Dafny `null`), the errors a subscriber can receive, and the
  iteration protocol: an `Iterable` says what `iterator()` does (throws,
  returns null, or yields a sequence of `Step`s), and each `Step` is one round
  of `hasNext()`/`next()`: an element (possibly null) or a throw from one of
  the two calls. `hasNext()` is false once the steps are used up.
- `collect.dfy` (module `Collect`): `CollectSteps`, the reference definition
  of what draining yields; the drain loop `Drain` over an `array<Publisher?>`,
  proved against it; the growth rule `NewCapacity`; `CopyPrefix` for
  `System.arraycopy`.
- `mono_first.dfy` (module `First`): the class `MonoFirst` with its two final
  fields as constants (`sourceArray` stands for the Java field `array`, a
  Dafny keyword), `Subscribe`, `OrAdditionalSource`, `UpstreamCount`, the
  size dispatch `Dispatch`, and the null-checking factories. `Subscribe`
  returns the `Outcome` the subscriber observes instead of signalling it;
  `Expected` and `IterableSignal` state that outcome as functions.
- `properties.dfy` (module `FirstProperties`): lemmas about the iterable path
  and how it relates to the array path.

Three behaviours of the code that a reader might not expect:

- A null array or null iterable makes the constructor throw
  `NullPointerException` at assembly time; it is not reported to a
  subscriber. The factories `NewWithArray` and `NewWithIterable` return that
  error as a `Result`.
- `orAdditionalSource` dereferences `array` unconditionally, so on an
  iterable-backed operator it throws `NullPointerException` rather than
  producing a new operator.
- The array path does not check elements for null: a null element reaches
  the coordinator when there are two or more sources, and only a null sole
  source is reported.

## Model

| member | source | states |
|---|---|---|
| `Collect.CollectSteps` | src/main/java/reactor/core/publisher/MonoFirst.java:99-138 | draining succeeds exactly when every step yields a non-null source; the result then has one entry per step, in order, all non-null; otherwise the error is that of the first failing step (a throw from `hasNext()` or `next()`, or the null-element error) |
| `Collect.CollectIterable` | src/main/java/reactor/core/publisher/MonoFirst.java:83-138 | a throwing `iterator()` gives that failure, a null iterator the "The iterator returned is null" error, otherwise the drain's result; success only comes from a real iterator and holds no null |
| `Collect.NewCapacity` | src/main/java/reactor/core/publisher/MonoFirst.java:132-133 | the grown capacity `n + (n >> 2)` is never below `n`, and is strictly above it once `n` is at least 4 |
| `Collect.GrowthIsStrict` | src/main/java/reactor/core/publisher/MonoFirst.java:81-137 | from a capacity of at least 8 (the initial one) the next capacity is strictly larger and again at least 8, so a full buffer always gains room for the next write |
| `Collect.CopyPrefix` | src/main/java/reactor/core/publisher/MonoFirst.java:134 | the first `n` slots of the destination take the source's, the rest of the destination is unchanged |
| `Collect.Drain` | src/main/java/reactor/core/publisher/MonoFirst.java:99-138 | the loop yields a newly allocated buffer of capacity at least 8 whose first `n` slots are exactly what `CollectSteps` collects, or aborts with exactly the error `CollectSteps` reports; its invariants keep `n <= a.Length`, `a[0..n)` equal to the yielded sources in order and non-null, and every write in bounds |
| `First.Dispatch` | src/main/java/reactor/core/publisher/MonoFirst.java:145-165 | no sources give completion and nothing else; one null source gives the "The single source Publisher is null" error; one non-null source a direct subscription to it; two or more a hand-off of exactly those sources to one coordinator |
| `First.MonoFirst.WithArray` | src/main/java/reactor/core/publisher/MonoFirst.java:42-45 | the array-backed operator stores the array by reference and no iterable |
| `First.MonoFirst.WithIterable` | src/main/java/reactor/core/publisher/MonoFirst.java:47-50 | the iterable-backed operator stores the iterable and no array |
| `First.NewWithArray` | src/main/java/reactor/core/publisher/MonoFirst.java:42-45 | a null array fails with a null-pointer error whose message is "array"; otherwise a new valid operator over that very array |
| `First.NewWithIterable` | src/main/java/reactor/core/publisher/MonoFirst.java:47-50 | a null iterable fails with a null-pointer error without message; otherwise a new valid operator over that iterable and no array |
| `First.MonoFirst.UpstreamCount` | src/main/java/reactor/core/publisher/MonoFirst.java:69-71 | the array length for an array-backed operator, -1 for an iterable-backed one |
| `First.MonoFirst.Subscribe` | src/main/java/reactor/core/publisher/MonoFirst.java:76-166 | the observed outcome is the one `Expected` specifies; a race gets at least two sources within the buffer's bounds, and on the array path it gets the array itself, not a copy, with `n` its length; on the iterable path it gets a newly allocated buffer |
| `First.MonoFirst.OrAdditionalSource` | src/main/java/reactor/core/publisher/MonoFirst.java:52-60 | on an array-backed operator: a new valid operator over a fresh array holding the old array's elements followed by `other`, with upstream count one more, the original left unmodified; on an iterable-backed operator a null-pointer error |
| `FirstProperties.IterationFailureAborts` | src/main/java/reactor/core/publisher/MonoFirst.java:99-130 | when step `k` is the first failing one, the subscriber receives exactly that step's error and nothing is subscribed |
| `FirstProperties.SubscriptionOnlyWithoutFailure` | src/main/java/reactor/core/publisher/MonoFirst.java:83-130 | a source is subscribed, directly or through a coordinator, if and only if the iterator was obtained, is not null, and every step yielded a non-null source, at least one |
| `FirstProperties.CollectedSourcesInOrder` | src/main/java/reactor/core/publisher/MonoFirst.java:137-165 | after a clean drain, 0 sources complete, 1 subscribes directly to the yielded source, 2 or more hand the coordinator exactly the yielded sources in iteration order |
| `FirstProperties.IterableNeverDispatchesNull` | src/main/java/reactor/core/publisher/MonoFirst.java:125-160 | on the iterable path the "single source is null" error never occurs and a coordinator never receives a null source |
| `FirstProperties.PathsAgree` | src/main/java/reactor/core/publisher/MonoFirst.java:77-143 | an array of non-null sources and an iterable yielding the same sources in the same order lead to the same outcome |
| `FirstProperties.SecondHasNextThrows` | src/main/java/reactor/core/publisher/MonoFirst.java:103-109 | an iterator yielding one valid source and then throwing from `hasNext()` gives that failure; the valid source is never subscribed |

## Left out

- `FluxFirstEmitting.RaceCoordinator` is not part of this model: the winner selection, cancellation of the losing sources and pass-through of the winner are concurrent arbitration, so the hand-off is only the outcome `Race(buffer, n)`.
- `Publisher.subscribe` and the Reactive Streams signals are foreign calls; a direct subscription is the outcome `Direct(p)`.
- `Operators.error`, `Operators.complete` and `Operators.onOperatorError` are signalling plumbing; their effect is the returned outcome, and a throwable from a foreign call is `Raised(cause)` without the error hook's wrapping.
- `upstreams()` is a thin wrapper over `Arrays.asList` and `Iterable.iterator` and is not modelled.
- Java generics, `@SafeVarargs` and exception classes are not modelled; a `NullPointerException` is `NullPointer(message)`, with the empty message for one without message.
- An `Iterable` is a value: every `iterator()` call on it behaves the same, and the iterators it produces are finite. An iterator that never ends, or one whose behaviour changes between subscriptions, is not modelled.
- `Collect.NewCapacity`: integers are unbounded; the Java `int` overflow of `n + (n >> 2)` for more than about 1.7 billion sources (which makes the array allocation throw outside any `try`) is not modelled.
- `First.MonoFirst.OrAdditionalSource`: the Java `int` overflow of `n + 1` for an array of the maximum length is not modelled.
