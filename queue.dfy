/** The FIFO queue of core/queue.hh, single-threaded: the mutex that guards every operation is left out. */
module TaskQueue {
  import opened Wrappers

  class Queue<T> {
    /** The elements of the underlying std::queue, front first. */
    var contents: seq<T>

    constructor ()
      ensures contents == []
    {
      contents := [];
    }

    /** Non-blocking removal: none on an empty queue, otherwise the front element, which is removed. */
    method TryGet() returns (r: Option<T>)
      modifies this
      ensures r.None? <==> old(contents) == []
      ensures r.None? ==> contents == old(contents)
      ensures r.Some? ==> r.value == old(contents)[0] && contents == old(contents)[1..]
    {
      if contents == [] {
        return None;
      }
      r := Some(contents[0]);
      contents := contents[1..];
    }

    /** Appends at the back. */
    method Push(item: T)
      modifies this
      ensures contents == old(contents) + [item]
    {
      contents := contents + [item];
    }

    /** The number of queued elements; the queue is not changed. */
    method Size() returns (n: nat)
      ensures n == |contents|
    {
      n := |contents|;
    }
  }

  /** The single-threaded queue test: push every value, then take as many values with TryGet.
      They come back in the order they went in, so distinct inputs give distinct outputs. */
  method PushThenDrain<T>(xs: seq<T>) returns (outs: seq<T>)
    ensures outs == xs
    ensures (forall i, j :: 0 <= i < j < |xs| ==> xs[i] != xs[j]) ==>
              (forall i, j :: 0 <= i < j < |outs| ==> outs[i] != outs[j])
  {
    var q := new Queue<T>();
    var i := 0;
    while i < |xs|
      invariant 0 <= i <= |xs|
      invariant q.contents == xs[..i]
    {
      q.Push(xs[i]);
      i := i + 1;
    }
    outs := [];
    while |outs| < |xs|
      invariant |outs| <= |xs|
      invariant outs + q.contents == xs
      decreases |xs| - |outs|
    {
      var r := q.TryGet();
      outs := outs + [r.value];
    }
  }
}
