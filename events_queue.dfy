/**
 * The shared buffer between the recorders and the writer loop. Producers
 * append one event at a time; the writer takes the whole contents at once
 * and leaves the buffer empty (a swap with a fresh vector).
 *
 * The mutex around the vector is modelled by making each method one
 * atomic step.
 */
module EventQueue {
  import opened Wrappers
  import opened TelemetryEvents

  /** The events of all batches, batch after batch, each in its own order. */
  function Concat(batches: seq<seq<TelemetryEvent>>): seq<TelemetryEvent>
  {
    if batches == [] then [] else batches[0] + Concat(batches[1..])
  }

  /** Draining one more batch extends the concatenation by that batch. */
  lemma {:induction false} ConcatAppend(batches: seq<seq<TelemetryEvent>>, batch: seq<TelemetryEvent>)
    ensures Concat(batches + [batch]) == Concat(batches) + batch
  {
    if batches != [] {
      calc {
        Concat(batches + [batch]);
        (batches + [batch])[0] + Concat((batches + [batch])[1..]);
        { assert (batches + [batch])[1..] == batches[1..] + [batch]; }
        batches[0] + Concat(batches[1..] + [batch]);
        { ConcatAppend(batches[1..], batch); }
        batches[0] + (Concat(batches[1..]) + batch);
      }
    }
  }

  class EventsQueue {
    /** The buffered events, oldest first. */
    var events: seq<TelemetryEvent>
    /** Every event ever enqueued, in call order. */
    ghost var history: seq<TelemetryEvent>
    /** Every batch a dequeue has returned, in the order they were returned. */
    ghost var drained: seq<seq<TelemetryEvent>>

    /**
     * Conservation: the drained batches followed by what is still buffered
     * are exactly the enqueue history, so nothing is lost or duplicated; and
     * no drained batch is empty.
     */
    ghost predicate Valid()
      reads this
    {
      Concat(drained) + events == history &&
      forall i :: 0 <= i < |drained| ==> drained[i] != []
    }

    constructor ()
      ensures Valid()
      ensures events == [] && history == [] && drained == []
    {
      events, history, drained := [], [], [];
    }

    /** Appends at the tail; every earlier element keeps its place. */
    method Enqueue(event: TelemetryEvent)
      requires Valid()
      modifies this
      ensures Valid()
      ensures events == old(events) + [event]
      ensures history == old(history) + [event]
      ensures drained == old(drained)
    {
      events := events + [event];
      history := history + [event];
    }

    /**
     * Swap-and-clear: `None` when nothing is buffered, otherwise all the
     * buffered events in insertion order; either way the buffer is empty
     * afterwards.
     */
    method Dequeue() returns (result: Option<seq<TelemetryEvent>>)
      requires Valid()
      modifies this
      ensures Valid()
      ensures events == [] && history == old(history)
      ensures old(events) == [] ==> result == None && drained == old(drained)
      ensures old(events) != [] ==> result == Some(old(events)) && drained == old(drained) + [old(events)]
      ensures result.Some? ==> result.value != []
    {
      if |events| == 0 {
        return None;
      }
      ConcatAppend(drained, events);
      result := Some(events);
      drained := drained + [events];
      events := [];
    }
  }

  /**
   * A client of the queue: N enqueues followed by one dequeue return exactly
   * those N events in call order (or `None` when N is zero), and a second
   * dequeue right after returns `None`.
   */
  method DrainAfterEnqueues(es: seq<TelemetryEvent>)
    returns (first: Option<seq<TelemetryEvent>>, second: Option<seq<TelemetryEvent>>)
    ensures es == [] ==> first == None
    ensures es != [] ==> first == Some(es)
    ensures second == None
  {
    var queue := new EventsQueue();
    for i := 0 to |es|
      invariant queue.Valid() && queue.events == es[..i]
    {
      queue.Enqueue(es[i]);
    }
    assert es[..|es|] == es;
    first := queue.Dequeue();
    second := queue.Dequeue();
  }
}
