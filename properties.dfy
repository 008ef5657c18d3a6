/** What `subscribe` promises about its iterable path, and how the two
    paths relate, stated over the specification `IterableSignal`. */
module FirstProperties {
  import opened Publishers
  import opened Collect
  import opened First

  /** The first step the drain cannot get past decides the outcome: the
      subscriber gets exactly that step's error and no source is subscribed
      and no coordinator is made. */
  lemma IterationFailureAborts(steps: seq<Step>, k: nat)
    requires k < |steps| && FailsAt(steps, k)
    ensures IterableSignal(Yields(steps)) == OnError(StepError(steps[k]))
  {
  }

  /** A source is subscribed to (directly or through a coordinator) exactly
      when the iterator was obtained, is not null, and every step of it
      yielded a non-null source, at least one of them. */
  lemma SubscriptionOnlyWithoutFailure(it: Iterable)
    ensures (IterableSignal(it).SubscribeDirect? || IterableSignal(it).HandOff?)
        <==> it.Yields? && 1 <= |it.steps| && forall k :: 0 <= k < |it.steps| ==> Good(it.steps[k])
  {
  }

  /** When collecting succeeds, the count picks the outcome and the sources
      go on in the order the iterator yielded them. */
  lemma CollectedSourcesInOrder(steps: seq<Step>)
    requires forall k :: 0 <= k < |steps| ==> Good(steps[k])
    ensures |steps| == 0 ==> IterableSignal(Yields(steps)) == OnComplete
    ensures |steps| == 1 ==> Good(steps[0]) && IterableSignal(Yields(steps)) == SubscribeDirect(steps[0].p)
    ensures 2 <= |steps| ==> IterableSignal(Yields(steps)).HandOff?
    ensures 2 <= |steps| ==> |IterableSignal(Yields(steps)).sources| == |steps|
    ensures 2 <= |steps| ==>
      forall k :: 0 <= k < |steps| ==> IterableSignal(Yields(steps)).sources[k] == steps[k].p
  {
  }

  /** Null elements are rejected while collecting, so an iterable never leads
      to the "single source is null" error, and never hands a null source to
      the coordinator. */
  lemma IterableNeverDispatchesNull(it: Iterable)
    ensures IterableSignal(it) != OnError(NullPointer(SingleNullMessage))
    ensures IterableSignal(it).HandOff? ==>
      forall k :: 0 <= k < |IterableSignal(it).sources| ==> IterableSignal(it).sources[k] != null
  {
  }

  /** The iterator over the sources `srcs`, none of them null. */
  function ItemsOf(srcs: seq<Publisher?>): seq<Step> {
    seq(|srcs|, k requires 0 <= k < |srcs| => Item(srcs[k]))
  }

  /** An array of non-null sources and an iterable yielding the same sources
      in the same order lead to the same outcome. */
  lemma PathsAgree(srcs: seq<Publisher?>)
    requires forall k :: 0 <= k < |srcs| ==> srcs[k] != null
    ensures IterableSignal(Yields(ItemsOf(srcs))) == Dispatch(srcs)
  {
  }

  /** An iterator that yields one valid source and then throws from its
      second `hasNext()`: the subscriber gets that failure and the valid
      source is never subscribed. */
  lemma SecondHasNextThrows(p: Publisher, cause: string)
    ensures IterableSignal(Yields([Item(p), HasNextThrows(cause)])) == OnError(Raised(cause))
  {
    IterationFailureAborts([Item(p), HasNextThrows(cause)], 1);
  }
}
