/**
  The monitor version of the bounded buffer.  Every method of `Buffer` is
  `synchronized` and waits in a loop until its guard holds, so once that loop
  has exited the rest of the call runs as one atomic step; the guard becomes
  the method's precondition.  `RunWorkload` is `main`: two producers and three
  consumers run their counted loops against one buffer of capacity 3, in
  whatever order the scheduler picks.
 */
module ProducerConsumerSolve1 {
  import opened Workload

  class Buffer {
    var queue: seq<int>
    const capacity: int

    ghost predicate Valid()
      reads this
    {
      |queue| <= capacity
    }

    /** A new buffer is empty; its capacity never changes afterwards. */
    constructor (capacity: int)
      requires 0 < capacity
      ensures Valid() && queue == [] && this.capacity == capacity
    {
      this.capacity := capacity;
      queue := [];
    }

    /** Runs once `size != capacity`: appends the item at the tail. */
    method Produce(item: int)
      requires Valid() && |queue| != capacity
      modifies this
      ensures Valid() && queue == old(queue) + [item]
      ensures |queue| == old(|queue|) + 1
    {
      queue := queue + [item];
    }

    /** Runs once the queue is non-empty: removes and returns the head. */
    method Consume() returns (item: int)
      requires Valid() && queue != []
      modifies this
      ensures Valid() && item == old(queue)[0] && queue == old(queue)[1..]
      ensures |queue| == old(|queue|) - 1
    {
      item := queue[0];
      queue := queue[1..];
    }
  }

  /** The demo's `main`.  The scheduler's choice of the next worker to run and
      each `random.nextInt(100)` are arbitrary choices, so what is ensured holds
      for every interleaving of the atomic calls and every random draw: every
      producer makes 5 calls and every consumer 3, 10 items are produced and 9
      consumed in the order they were produced, exactly 1 item stays in the
      buffer, and no consumer ever sees -1. */
  method RunWorkload() returns (produced: seq<int>, consumed: seq<int>, leftover: seq<int>,
                                produceCalls: seq<nat>, consumeCalls: seq<nat>, raceFailures: int)
    ensures |produceCalls| == 2 && forall p :: 0 <= p < 2 ==> produceCalls[p] == 5
    ensures |consumeCalls| == 3 && forall c :: 0 <= c < 3 ==> consumeCalls[c] == 3
    ensures |produced| == 10 && |consumed| == 9 && |leftover| == 1
    ensures consumed + leftover == produced
    ensures multiset(consumed) + multiset(leftover) == multiset(produced)
    ensures forall i :: 0 <= i < |produced| ==> 0 <= produced[i] < 100
    ensures raceFailures == 0
  {
    var cfg := Demo;
    var buffer := new Buffer(cfg.capacity);
    var s := Start(cfg);
    raceFailures := 0;
    StartInv(cfg);
    while !Done(cfg, s)
      invariant buffer.Valid() && buffer.capacity == cfg.capacity && buffer.queue == s.queue
      invariant Inv(cfg, s)
      invariant raceFailures == 0
      decreases Outstanding(cfg, s)
    {
      Progress(cfg, s);
      var w :| 0 <= w < cfg.producers + cfg.consumers && Runnable(cfg, s, w);
      if w < cfg.producers {
        // Producer w draws its item and calls produce.
        var item :| 0 <= item < cfg.itemBound;
        ProducePreservesInv(cfg, s, w, item);
        buffer.Produce(item);
        s := Produce(s, w, item);
      } else {
        // Consumer w - producers calls consume and checks for the sentinel.
        var c := w - cfg.producers;
        ConsumePreservesInv(cfg, s, c);
        var item := buffer.Consume();
        if item == -1 {
          raceFailures := raceFailures + 1;
        }
        s := Consume(s, c);
      }
    }
    Completion(cfg, s);
    produced, consumed, leftover := s.produced, s.consumed, buffer.queue;
    produceCalls, consumeCalls := s.produceCalls, s.consumeCalls;
  }
}
