/** The first-to-signal operator `MonoFirst` up to the point where it hands
    its sources to the race coordinator (MonoFirst.java). */
module First {
  import opened Publishers
  import opened Collect

  /** What the subscriber observes from `subscribe`: an error, an empty
      completion, a direct subscription to the one source, or a race
      coordinator sized and filled with `sources`. */
  datatype Signal =
    | OnError(error: Error)
    | OnComplete
    | SubscribeDirect(source: Publisher)
    | HandOff(sources: seq<Publisher?>)

  /** The same outcomes as `subscribe` produces them: a race is handed the
      buffer itself and the count of its slots in use. */
  datatype Outcome =
    | Error(error: Error)
    | Complete
    | Direct(source: Publisher)
    | Race(buffer: array<Publisher?>, n: nat)

  /** The signal an outcome stands for; a race reads the first `n` slots. */
  function Observe(o: Outcome): Signal
    requires o.Race? ==> o.n <= o.buffer.Length
    reads if o.Race? then {o.buffer} else {}
  {
    match o
    case Error(e) => OnError(e)
    case Complete => OnComplete
    case Direct(p) => SubscribeDirect(p)
    case Race(a, n) => HandOff(a[..n])
  }

  /** The choice made on the number of collected sources. */
  function Dispatch(srcs: seq<Publisher?>): (r: Signal)
    ensures r.OnComplete? <==> |srcs| == 0
    ensures r.OnError? <==> |srcs| == 1 && srcs[0] == null
    ensures r.OnError? ==> r.error == NullPointer(SingleNullMessage)
    ensures r.SubscribeDirect? <==> |srcs| == 1 && srcs[0] != null
    ensures r.SubscribeDirect? ==> srcs == [r.source]
    ensures r.HandOff? <==> 2 <= |srcs|
    ensures r.HandOff? ==> r.sources == srcs
  {
    if |srcs| == 0 then OnComplete
    else if |srcs| == 1 then
      (if srcs[0] == null then OnError(NullPointer(SingleNullMessage)) else SubscribeDirect(srcs[0]))
    else HandOff(srcs)
  }

  /** The iterable path of `subscribe`: any failure while collecting is the
      one signal the subscriber gets; otherwise the collected sources are
      dispatched on their count. */
  function IterableSignal(it: Iterable): Signal {
    match CollectIterable(it)
    case Ok(srcs) => Dispatch(srcs)
    case Err(e) => OnError(e)
  }

  /** The operator. Its two fields (`array` and `iterable` in the source)
      are final, so they are constants here. */
  class MonoFirst {
    const sourceArray: array?<Publisher?>
    const iterable: Option<Iterable>

    /** Exactly one of the two sources of sources is present. */
    predicate Valid() {
      (sourceArray == null) == iterable.Some?
    }

    constructor WithArray(arr: array<Publisher?>)
      ensures Valid() && sourceArray == arr && iterable == None
    {
      sourceArray := arr;
      iterable := None;
    }

    constructor WithIterable(it: Iterable)
      ensures Valid() && sourceArray == null && iterable == Some(it)
    {
      sourceArray := null;
      iterable := Some(it);
    }

    /** `upstreamCount()`: the number of sources when they are known up front,
        and -1 when they come from an iterable. */
    function UpstreamCount(): (c: int)
      requires Valid()
      ensures sourceArray != null ==> c == sourceArray.Length
      ensures iterable.Some? ==> c == -1
    {
      if sourceArray != null then sourceArray.Length else -1
    }

    /** What `subscribe` is specified to deliver: the array path dispatches
        on the array as it is; the iterable path first collects, and any
        failure there is the single signal the subscriber gets. */
    function Expected(): Signal
      requires Valid()
      reads sourceArray
    {
      if sourceArray != null then Dispatch(sourceArray[..])
      else IterableSignal(iterable.value)
    }

    /** `subscribe(s)`: collect the sources, then dispatch on their count. */
    method Subscribe() returns (o: Outcome)
      requires Valid()
      ensures o.Race? ==> 2 <= o.n <= o.buffer.Length
      ensures Observe(o) == Expected()
      ensures sourceArray != null && o.Race? ==> o.buffer == sourceArray && o.n == sourceArray.Length
      ensures sourceArray == null && o.Race? ==> fresh(o.buffer)
    {
      var a: array<Publisher?>;
      var n: nat;
      if sourceArray == null {
        match iterable.value
        case IteratorThrows(c) =>
          return Error(Raised(c));
        case NullIterator =>
          return Error(NullPointer(NullIteratorMessage));
        case Yields(steps) =>
          var d := Drain(steps);
          if d.Aborted? {
            return Error(d.error);
          }
          a, n := d.buffer, d.n;
      } else {
        a, n := sourceArray, sourceArray.Length;
      }
      if n == 0 {
        return Complete;
      }
      if n == 1 {
        var p := a[0];
        if p == null {
          return Error(NullPointer(SingleNullMessage));
        }
        return Direct(p);
      }
      return Race(a, n);
    }

    /** `orAdditionalSource(other)`: a new operator over a fresh copy of the
        array with `other` appended. The array is dereferenced first, so an
        iterable-backed operator fails with a `NullPointerException`. */
    method OrAdditionalSource(other: Publisher?) returns (r: Result<MonoFirst>)
      requires Valid()
      ensures sourceArray == null ==> r == Err(NullPointer(""))
      ensures sourceArray != null ==> r.Ok? && fresh(r.value) && r.value.Valid()
      ensures sourceArray != null ==> r.value.sourceArray != null && fresh(r.value.sourceArray)
      ensures sourceArray != null ==> r.value.sourceArray[..] == sourceArray[..] + [other]
      ensures sourceArray != null ==> r.value.UpstreamCount() == UpstreamCount() + 1
    {
      if sourceArray == null {
        return Err(NullPointer(""));
      }
      var n := sourceArray.Length;
      var newArray := new Publisher?[n + 1];
      CopyPrefix(sourceArray, newArray, n);
      newArray[n] := other;
      var m := new MonoFirst.WithArray(newArray);
      return Ok(m);
    }
  }

  /** The array constructor: `Objects.requireNonNull(array, "array")`. */
  method NewWithArray(arr: array?<Publisher?>) returns (r: Result<MonoFirst>)
    ensures arr == null ==> r == Err(NullPointer(NullArrayMessage))
    ensures arr != null ==> r.Ok? && fresh(r.value) && r.value.Valid()
    ensures arr != null ==> r.value.sourceArray == arr && r.value.iterable == None
  {
    if arr == null {
      return Err(NullPointer(NullArrayMessage));
    }
    var m := new MonoFirst.WithArray(arr);
    return Ok(m);
  }

  /** The iterable constructor: `Objects.requireNonNull(iterable)`, whose
      exception carries no message. */
  method NewWithIterable(it: Option<Iterable>) returns (r: Result<MonoFirst>)
    ensures it.None? ==> r == Err(NullPointer(""))
    ensures it.Some? ==> r.Ok? && fresh(r.value) && r.value.Valid()
    ensures it.Some? ==> r.value.sourceArray == null && r.value.iterable == it
  {
    if it.None? {
      return Err(NullPointer(""));
    }
    var m := new MonoFirst.WithIterable(it.value);
    return Ok(m);
  }
}
