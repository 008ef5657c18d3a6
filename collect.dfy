/** Draining a lazily produced list of sources into a growable buffer, the
    first half of `MonoFirst.subscribe` (MonoFirst.java). */
module Collect {
  import opened Publishers

  /** A step the drain loop gets past: an element that is not null. */
  predicate Good(s: Step) {
    s.Item? && s.p != null
  }

  /** The error a step that stops the loop reports to the subscriber. */
  function StepError(s: Step): Error
    requires !Good(s)
  {
    match s
    case Item(_) => NullPointer(NullElementMessage)
    case HasNextThrows(c) => Raised(c)
    case NextThrows(c) => Raised(c)
  }

  /** Step `k` is the first one the loop cannot get past. */
  predicate FailsAt(steps: seq<Step>, k: nat)
    requires k < |steps|
  {
    !Good(steps[k]) && forall j :: 0 <= j < k ==> Good(steps[j])
  }

  /** A first failure in the tail is a first failure of the whole. */
  lemma ShiftFailure(steps: seq<Step>, e: Error)
    requires |steps| > 0 && Good(steps[0])
    requires exists k :: 0 <= k < |steps| - 1 && FailsAt(steps[1..], k) && e == StepError(steps[1..][k])
    ensures exists k :: 0 <= k < |steps| && FailsAt(steps, k) && e == StepError(steps[k])
  {
  }

  /** The sources a drain of `steps` collects, or the error it stops with:
      the reference definition the loop in `Drain` is proved against. */
  function CollectSteps(steps: seq<Step>): (r: Result<seq<Publisher?>>)
    ensures r.Ok? <==> forall k :: 0 <= k < |steps| ==> Good(steps[k])
    ensures r.Ok? ==> |r.value| == |steps|
    ensures r.Ok? ==> forall k :: 0 <= k < |steps| ==> r.value[k] == steps[k].p && r.value[k] != null
    ensures r.Err? ==> exists k :: 0 <= k < |steps| && FailsAt(steps, k) && r.error == StepError(steps[k])
  {
    if steps == [] then Ok([])
    else if !Good(steps[0]) then
      assert FailsAt(steps, 0);
      Err(StepError(steps[0]))
    else
      var rest := CollectSteps(steps[1..]);
      if rest.Ok? then Ok([steps[0].p] + rest.value)
      else
        ShiftFailure(steps, rest.error);
        Err(rest.error)
  }

  /** The whole iterable path: obtaining the iterator, then draining it. */
  function CollectIterable(it: Iterable): (r: Result<seq<Publisher?>>)
    ensures it.IteratorThrows? ==> r == Err(Raised(it.cause))
    ensures it.NullIterator? ==> r == Err(NullPointer(NullIteratorMessage))
    ensures it.Yields? ==> r == CollectSteps(it.steps)
    ensures r.Ok? ==> it.Yields? && forall k :: 0 <= k < |r.value| ==> r.value[k] != null
  {
    match it
    case IteratorThrows(c) => Err(Raised(c))
    case NullIterator => Err(NullPointer(NullIteratorMessage))
    case Yields(steps) => CollectSteps(steps)
  }

  /** The capacity a full buffer of length `n` grows to, `n + (n >> 2)`;
      for a non-negative `n` the shift is a floor division by four. */
  function NewCapacity(n: nat): (c: nat)
    ensures n <= c
    ensures 4 <= n ==> n < c
  {
    n + n / 4
  }

  /** Starting from 8, every capacity the buffer ever has stays at least 8,
      and so every growth is a strict one. */
  lemma GrowthIsStrict(n: nat)
    requires 8 <= n
    ensures n < NewCapacity(n) && 8 <= NewCapacity(n)
  {
  }

  /** `System.arraycopy(src, 0, dst, 0, n)`: the first `n` slots of `dst`
      take those of `src`, the rest of `dst` is left alone. */
  method CopyPrefix(src: array<Publisher?>, dst: array<Publisher?>, n: nat)
    requires n <= src.Length && n <= dst.Length
    modifies dst
    ensures dst[..n] == old(src[..n])
    ensures dst[n..] == old(dst[n..])
  {
    ghost var from := src[..n];
    var i := 0;
    while i < n
      invariant 0 <= i <= n
      invariant dst[..i] == from[..i]
      invariant dst[n..] == old(dst[n..])
      invariant src[i..n] == from[i..]
    {
      dst[i] := src[i];
      i := i + 1;
    }
  }

  /** The outcome of the drain loop: a buffer whose first `n` slots hold the
      collected sources, or the error the loop stopped with. */
  datatype DrainResult = Drained(buffer: array<Publisher?>, n: nat) | Aborted(error: Error)

  /** The `for (;;)` loop of `subscribe`: ask `hasNext()`, then `next()`,
      reject a null element, grow the buffer when it is full, then store the
      element. The iterator's position is the number of sources stored. */
  method Drain(steps: seq<Step>) returns (r: DrainResult)
    ensures r.Drained? ==> fresh(r.buffer)
    ensures r.Drained? ==> 8 <= r.buffer.Length && r.n <= r.buffer.Length
    ensures r.Drained? ==> CollectSteps(steps) == Ok(r.buffer[..r.n])
    ensures r.Aborted? ==> CollectSteps(steps) == Err(r.error)
  {
    var a := new Publisher?[8];
    var n := 0;
    while true
      invariant fresh(a)
      invariant 8 <= a.Length && n <= a.Length && n <= |steps|
      invariant forall k :: 0 <= k < n ==> Good(steps[k]) && a[k] == steps[k].p
      decreases |steps| - n
    {
      // hasNext()
      if n == |steps| {
        break;
      }
      if steps[n].HasNextThrows? {
        assert FailsAt(steps, n);
        return Aborted(Raised(steps[n].cause));
      }
      // next()
      if steps[n].NextThrows? {
        assert FailsAt(steps, n);
        return Aborted(Raised(steps[n].cause));
      }
      var p := steps[n].p;
      if p == null {
        assert FailsAt(steps, n);
        return Aborted(NullPointer(NullElementMessage));
      }
      if n == a.Length {
        GrowthIsStrict(n);
        var c := new Publisher?[NewCapacity(n)];
        CopyPrefix(a, c, n);
        a := c;
      }
      a[n] := p;
      n := n + 1;
    }
    var collected := CollectSteps(steps);
    assert collected.value == a[..n];
    return Drained(a, n);
  }
}
