/**
 * Runs of the broker that its test suite exercises, and what the contracts
 * of `Batching.Broker` let a caller conclude about them.
 */
module Scenarios {
  import opened Queue
  import opened Batching

  const A: Fragment := [0x41]
  const B: Fragment := [0x42]
  const C: Fragment := [0x43]
  const Test: Fragment := [0x74, 0x65, 0x73, 0x74]

  /** Three fragments under one key make one item holding all three, in order. */
  method ConsolidateSameKey() returns (n: int, items: seq<Item>)
    ensures n == 1
    ensures items == [Item("key1", [A, B, C])]
  {
    var b := new Broker.New(500);
    b.Enqueue("key1", A);
    assert b.queue == [Item("key1", [A])];
    ConsolidateExisting(b.queue, "key1", B, 0);
    b.Enqueue("key1", B);
    assert [A] + [B] == [A, B];
    assert b.queue == [Item("key1", [A, B])];
    ConsolidateExisting(b.queue, "key1", C, 0);
    b.Enqueue("key1", C);
    assert [A, B] + [C] == [A, B, C];
    n := b.QueueLength();
    items := b.queue;
  }

  /** Three distinct keys make three items, in arrival order. */
  method DifferentKeysNotConsolidated() returns (n: int, keys: seq<string>)
    ensures n == 3
    ensures keys == ["key1", "key2", "key3"]
  {
    var b := new Broker.New(500);
    b.Enqueue("key1", A);
    assert b.queue == [Item("key1", [A])];
    assert "key1" != "key2" && "key1" != "key3" && "key2" != "key3";
    ConsolidateNew(b.queue, "key2", B);
    b.Enqueue("key2", B);
    assert b.queue == [Item("key1", [A]), Item("key2", [B])];
    ConsolidateNew(b.queue, "key3", C);
    b.Enqueue("key3", C);
    assert b.queue == [Item("key1", [A]), Item("key2", [B]), Item("key3", [C])];
    n := b.QueueLength();
    keys := Keys(b.queue);
    assert Keys(b.queue[2..]) == ["key3"];
    assert Keys(b.queue[1..]) == ["key2", "key3"] by { assert b.queue[1..][1..] == b.queue[2..]; }
  }

  /** When the window expires the callback gets the queue once, and the queue is left empty. */
  method FlushAfterBatchWindow() returns (delivered: seq<Delivery>, n: int)
    ensures delivered == [Delivery(1, [Item("key1", [Test])])]
    ensures n == 0
  {
    var b := new Broker.New(50);
    b.SetOnFlush(Some(1));
    b.Enqueue("key1", Test);
    b.TimerFires(b.timer.value);
    delivered := b.deliveries;
    n := b.QueueLength();
  }

  /** Fragments under one key are delivered in arrival order, keys in first-arrival order. */
  method FlushTwoKeys() returns (delivered: seq<Delivery>, before: int, after: int)
    ensures before == 2 && after == 0
    ensures delivered == [Delivery(7, [Item("a", [A, B]), Item("b", [C])])]
  {
    var b := new Broker.New(500);
    b.SetOnFlush(Some(7));
    b.Enqueue("a", A);
    assert b.queue == [Item("a", [A])];
    ConsolidateExisting(b.queue, "a", B, 0);
    b.Enqueue("a", B);
    assert [A] + [B] == [A, B];
    assert b.queue == [Item("a", [A, B])];
    assert "a" != "b";
    ConsolidateNew(b.queue, "b", C);
    b.Enqueue("b", C);
    assert b.queue == [Item("a", [A, B]), Item("b", [C])];
    before := b.QueueLength();
    b.TimerFires(b.timer.value);
    delivered := b.deliveries;
    after := b.QueueLength();
  }

  /** A handle replaced by a later submission never flushes: only the last one does. */
  method StaleTimerDoesNotFlush() returns (early: seq<Delivery>, late: seq<Delivery>)
    ensures early == []
    ensures late == [Delivery(1, [Item("key1", [A]), Item("key2", [B])])]
  {
    var b := new Broker.New(500);
    b.SetOnFlush(Some(1));
    b.Enqueue("key1", A);
    assert b.queue == [Item("key1", [A])];
    var first := b.timer.value;
    assert "key1" != "key2";
    ConsolidateNew(b.queue, "key2", B);
    b.Enqueue("key2", B);
    assert b.queue == [Item("key1", [A]), Item("key2", [B])];
    var second := b.timer.value;
    b.TimerFires(first);
    early := b.deliveries;
    b.TimerFires(second);
    late := b.deliveries;
  }

  /** `FlushNow` delivers at once, leaves the queue empty, and the stopped timer later does nothing. */
  method FlushNowForcesImmediateFlush() returns (delivered: seq<Delivery>, n: int, later: seq<Delivery>)
    ensures delivered == [Delivery(1, [Item("key1", [Test])])]
    ensures n == 0
    ensures later == delivered
  {
    var b := new Broker.New(5000);
    b.SetOnFlush(Some(1));
    b.Enqueue("key1", Test);
    var h := b.timer.value;
    b.FlushNow();
    delivered := b.deliveries;
    n := b.QueueLength();
    b.TimerFires(h);
    later := b.deliveries;
  }

  /** `FlushNow` on an empty queue never calls the callback. */
  method EmptyQueueNoFlush() returns (delivered: seq<Delivery>)
    ensures delivered == []
  {
    var b := new Broker.New(5000);
    b.SetOnFlush(Some(1));
    b.FlushNow();
    delivered := b.deliveries;
  }

  /** With no callback set a flush still empties the queue, and the data is dropped. */
  method FlushWithoutHandler() returns (delivered: seq<Delivery>, n: int)
    ensures delivered == [] && n == 0
  {
    var b := new Broker.New(5000);
    b.Enqueue("key1", A);
    b.FlushNow();
    delivered := b.deliveries;
    n := b.QueueLength();
  }

  /** `Clear` empties the queue and never calls the callback. */
  method ClearRemovesAll() returns (before: int, after: int, delivered: seq<Delivery>)
    ensures before == 2 && after == 0
    ensures delivered == []
  {
    var b := new Broker.New(5000);
    b.SetOnFlush(Some(1));
    b.Enqueue("key1", A);
    assert "key1" != "key2";
    ConsolidateNew(b.queue, "key2", B);
    b.Enqueue("key2", B);
    before := b.QueueLength();
    b.Clear();
    after := b.QueueLength();
    delivered := b.deliveries;
  }

  /** Two `FlushNow` calls with nothing submitted between them deliver at most once. */
  method FlushNowTwice(b: Broker)
    requires b.Valid()
    modifies b
    ensures b.Valid()
    ensures |b.deliveries| <= |old(b.deliveries)| + 1
    ensures b.deliveries == old(b.deliveries) + Delivered(old(b.queue), b.onFlush)
  {
    b.FlushNow();
    ghost var once := b.deliveries;
    b.FlushNow();
    assert b.deliveries == once;
  }
}
