/**
 * The broker: a queue of items consolidated by key, one debounce timer that
 * every submission re-arms, and a flush that hands a snapshot of the queue to
 * the registered callback and empties the queue.
 *
 * The time provider is abstract. `AfterFunc` hands out handles numbered by a
 * generation counter, `pending` holds the handles whose callback has neither
 * fired nor been stopped, and `TimerFires` is the provider running the
 * callback of one handle. The flush callback is known only by its identity;
 * each invocation is recorded in `deliveries`.
 */
module Batching {
  import opened Queue

  datatype Option<T> = None | Some(value: T)

  /** A handle returned by the time provider's `AfterFunc`. */
  type TimerHandle = nat

  /** The identity of a registered flush callback. */
  type Handler = nat

  /** One invocation of the flush callback, with the snapshot it received. */
  datatype Delivery = Delivery(handler: Handler, items: seq<Item>)

  /** What a flush of `items` hands to the callback: nothing for an empty queue or when no callback is set. */
  function Delivered(items: seq<Item>, handler: Option<Handler>): (d: seq<Delivery>)
    ensures |d| <= 1
    ensures d != [] <==> items != [] && handler.Some?
    ensures d != [] ==> d[0] == Delivery(handler.value, items)
  {
    if items == [] || handler.None? then [] else [Delivery(handler.value, items)]
  }

  class Broker {
    /** The pending items (Go `b.queue`). */
    var queue: seq<Item>
    /** The debounce window in milliseconds, passed to every `AfterFunc`. */
    const batchWindow: int
    /** The handle held in `b.timer`; `None` is nil. */
    var timer: Option<TimerHandle>
    /** The handles whose flush the time provider will still run. */
    var pending: set<TimerHandle>
    /** The handle the next `AfterFunc` returns. */
    var nextHandle: TimerHandle
    /** The registered callback (Go `b.onFlush`); `None` is nil. */
    var onFlush: Option<Handler>
    /** Every invocation of the callback so far. */
    var deliveries: seq<Delivery>
    /** The submissions since the queue was last emptied. */
    ghost var batch: seq<Submission>

    /** The queue is what the submissions since the last flush built: key-unique, no empty item. */
    ghost predicate QueueInv()
      reads this
    {
      queue == Replay(batch) && UniqueKeys(queue) && NonEmptyItems(queue)
    }

    /** At most one handle is outstanding, and it is the one held in `timer`. */
    predicate TimerInv()
      reads this
    {
      match timer
      case None => pending == {}
      case Some(h) => pending <= {h} && h < nextHandle
    }

    /** No callback ever received an empty snapshot or one in which a key repeats. */
    predicate DeliveriesInv()
      reads this
    {
      forall i :: 0 <= i < |deliveries| ==> deliveries[i].items != [] && UniqueKeys(deliveries[i].items)
    }

    /** A flush is scheduled exactly when data is waiting: the timer never fires on an empty queue. */
    predicate Scheduled()
      reads this
    {
      (queue != [] ==> timer.Some? && timer.value in pending)
      && (pending != {} ==> queue != [])
    }

    ghost predicate Valid()
      reads this
    {
      QueueInv() && TimerInv() && DeliveriesInv() && Scheduled()
    }

    /** `New`: an empty queue, no timer, no callback. */
    constructor New(batchWindow: int)
      ensures Valid()
      ensures this.batchWindow == batchWindow
      ensures queue == [] && batch == []
      ensures timer == None && pending == {} && nextHandle == 0
      ensures onFlush == None && deliveries == []
    {
      this.batchWindow := batchWindow;
      queue := [];
      batch := [];
      timer := None;
      pending := {};
      nextHandle := 0;
      onFlush := None;
      deliveries := [];
    }

    /** `SetOnFlush`: replaces the callback; nothing else changes. */
    method SetOnFlush(fn: Option<Handler>)
      requires Valid()
      modifies this`onFlush
      ensures Valid()
      ensures onFlush == fn
    {
      onFlush := fn;
    }

    /** The time provider's `Stop`: the handle will not fire; stopping a fired or stopped handle does nothing. */
    method StopHandle(h: TimerHandle)
      modifies this`pending
      ensures pending == old(pending) - {h}
    {
      pending := pending - {h};
    }

    /** The time provider's `AfterFunc`: a fresh handle whose flush is now scheduled. */
    method AfterFunc() returns (h: TimerHandle)
      modifies this`pending, this`nextHandle
      ensures h == old(nextHandle) && nextHandle == old(nextHandle) + 1
      ensures pending == old(pending) + {h}
    {
      h := nextHandle;
      nextHandle := nextHandle + 1;
      pending := pending + {h};
    }

    /** `resetTimerLocked`: stops the held handle, if any, and holds a fresh one, now the only one outstanding. */
    method ResetTimer()
      requires TimerInv()
      modifies this`timer, this`pending, this`nextHandle
      ensures TimerInv()
      ensures timer == Some(old(nextHandle)) && nextHandle == old(nextHandle) + 1
      ensures pending == {old(nextHandle)}
      ensures old(timer).Some? ==> old(timer).value !in pending
    {
      if timer.Some? {
        StopHandle(timer.value);
      }
      var h := AfterFunc();
      timer := Some(h);
    }

    /**
     * `Enqueue`: the fragment joins the item with the same key, or starts a
     * new item at the end of the queue; then the timer is re-armed.
     */
    method Enqueue(key: string, data: Fragment)
      requires Valid()
      modifies this
      ensures Valid()
      ensures queue == Consolidate(old(queue), key, data)
      ensures batch == old(batch) + [Submission(key, data)]
      ensures timer == Some(old(nextHandle)) && pending == {old(nextHandle)}
      ensures nextHandle == old(nextHandle) + 1
      ensures old(timer).Some? ==> old(timer).value !in pending
      ensures onFlush == old(onFlush) && deliveries == old(deliveries)
    {
      ghost var q := queue;
      ConsolidateKeepsInvariant(q, key, data);
      batch := batch + [Submission(key, data)];
      assert batch[..|batch| - 1] == old(batch);
      var i := 0;
      while i < |queue|
        invariant 0 <= i <= |queue| && queue == q
        invariant forall j :: 0 <= j < i ==> queue[j].key != key
      {
        if queue[i].key == key {
          ConsolidateExisting(queue, key, data, i);
          queue := queue[i := Item(key, queue[i].data + [data])];
          ResetTimer();
          return;
        }
        i := i + 1;
      }
      InKeySet(queue, key);
      ConsolidateNew(queue, key, data);
      queue := queue + [Item(key, [data])];
      ResetTimer();
    }

    /**
     * `flush`: nothing happens on an empty queue. Otherwise the queue is
     * emptied and a snapshot of it goes to the callback, if one is set.
     */
    method Flush()
      requires QueueInv() && TimerInv() && DeliveriesInv()
      modifies this`queue, this`batch, this`deliveries
      ensures QueueInv() && TimerInv() && DeliveriesInv()
      ensures queue == [] && batch == []
      ensures deliveries == old(deliveries) + Delivered(old(queue), onFlush)
    {
      if |queue| == 0 {
        assert batch == [];
        return;
      }
      var items := queue;
      queue := [];
      batch := [];
      if onFlush.Some? {
        deliveries := deliveries + [Delivery(onFlush.value, items)];
      }
    }

    /** The time provider runs the callback of handle `h`: a stopped or fired handle does nothing. */
    method TimerFires(h: TimerHandle)
      requires Valid()
      modifies this
      ensures Valid()
      ensures timer == old(timer) && nextHandle == old(nextHandle) && onFlush == old(onFlush)
      ensures h in old(pending) ==>
        pending == {} && queue == [] && batch == []
        && deliveries == old(deliveries) + Delivered(old(queue), onFlush)
      ensures h !in old(pending) ==>
        pending == old(pending) && queue == old(queue) && batch == old(batch) && deliveries == old(deliveries)
    {
      if h in pending {
        pending := pending - {h};
        Flush();
      }
    }

    /** `FlushNow`: stops the held handle, then flushes; afterwards nothing is scheduled. */
    method FlushNow()
      requires Valid()
      modifies this
      ensures Valid()
      ensures queue == [] && batch == [] && pending == {}
      ensures timer == old(timer) && nextHandle == old(nextHandle) && onFlush == old(onFlush)
      ensures deliveries == old(deliveries) + Delivered(old(queue), onFlush)
    {
      if timer.Some? {
        StopHandle(timer.value);
      }
      Flush();
    }

    /** `QueueLength`: the number of distinct keys pending. */
    method QueueLength() returns (n: int)
      requires Valid()
      ensures n == |queue| && n == |KeySet(queue)|
    {
      UniqueCount(queue);
      n := |queue|;
    }

    /** `Clear`: stops and drops the timer and empties the queue without delivering anything. */
    method Clear()
      requires Valid()
      modifies this
      ensures Valid()
      ensures queue == [] && batch == []
      ensures timer == None && pending == {}
      ensures nextHandle == old(nextHandle) && onFlush == old(onFlush) && deliveries == old(deliveries)
    {
      if timer.Some? {
        StopHandle(timer.value);
        timer := None;
      }
      queue := [];
      batch := [];
    }
  }
}
