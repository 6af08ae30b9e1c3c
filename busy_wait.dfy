/**
  The busy-wait version of the bounded buffer.  `UnsafeBuffer` takes no lock:
  it polls its guard, sleeping between checks, and then acts.  Read
  sequentially, with each call running alone once its polling loop has
  exited, it behaves exactly like the monitor version, and the branch that
  returns -1 when `poll` finds the queue empty cannot be reached.
 */
module ProducerConsumerProblem {
  import opened Workload

  class UnsafeBuffer {
    var queue: seq<int>
    const capacity: int

    ghost predicate Valid()
      reads this
    {
      |queue| <= capacity
    }

    /** A new buffer is empty; its capacity never changes afterwards. */
    constructor (capacity: int)
      requires 0 < capacity
      ensures Valid() && queue == [] && this.capacity == capacity
    {
      this.capacity := capacity;
      queue := [];
    }

    /** Runs once `size != capacity` has been observed: appends at the tail. */
    method Produce(item: int)
      requires Valid() && |queue| != capacity
      modifies this
      ensures Valid() && queue == old(queue) + [item]
      ensures |queue| == old(|queue|) + 1
    {
      queue := queue + [item];
    }

    /** `queue.poll()`: the head, removed, or `None` on an empty queue. */
    method Poll() returns (head: Option<int>)
      modifies this
      ensures old(queue) == [] ==> head == None && queue == []
      ensures old(queue) != [] ==> head == Some(old(queue)[0]) && queue == old(queue)[1..]
    {
      if queue == [] {
        head := None;
      } else {
        head := Some(queue[0]);
        queue := queue[1..];
      }
    }

    /** Runs once a non-empty queue has been observed: polls and returns the
        head, or the sentinel -1 when the poll finds nothing.  Run alone, the
        poll always finds the head, so -1 is never returned. */
    method Consume() returns (item: int)
      requires Valid() && queue != []
      modifies this
      ensures Valid() && item == old(queue)[0] && queue == old(queue)[1..]
      ensures |queue| == old(|queue|) - 1
    {
      var head := Poll();
      match head
      case None =>
        item := -1;
      case Some(x) =>
        item := x;
    }
  }

  /** The demo's `main`, read with every buffer call atomic.  The scheduler's
      choice of the next worker and each `random.nextInt(100)` are arbitrary
      choices: for every interleaving of whole calls and every draw, every
      producer makes 5 calls and every consumer 3, 10 items are produced and 9
      consumed in order, 1 stays in the buffer, and no consumer reports a race. */
  method RunWorkload() returns (produced: seq<int>, consumed: seq<int>, leftover: seq<int>,
                                produceCalls: seq<nat>, consumeCalls: seq<nat>, raceFailures: int)
    ensures |produceCalls| == 2 && forall p :: 0 <= p < 2 ==> produceCalls[p] == 5
    ensures |consumeCalls| == 3 && forall c :: 0 <= c < 3 ==> consumeCalls[c] == 3
    ensures |produced| == 10 && |consumed| == 9 && |leftover| == 1
    ensures consumed + leftover == produced
    ensures multiset(consumed) + multiset(leftover) == multiset(produced)
    ensures forall i :: 0 <= i < |produced| ==> 0 <= produced[i] < 100
    ensures raceFailures == 0
  {
    var cfg := Demo;
    var buffer := new UnsafeBuffer(cfg.capacity);
    var s := Start(cfg);
    raceFailures := 0;
    StartInv(cfg);
    while !Done(cfg, s)
      invariant buffer.Valid() && buffer.capacity == cfg.capacity && buffer.queue == s.queue
      invariant Inv(cfg, s)
      invariant raceFailures == 0
      decreases Outstanding(cfg, s)
    {
      Progress(cfg, s);
      var w :| 0 <= w < cfg.producers + cfg.consumers && Runnable(cfg, s, w);
      if w < cfg.producers {
        // Producer w draws its item and calls produce.
        var item :| 0 <= item < cfg.itemBound;
        ProducePreservesInv(cfg, s, w, item);
        buffer.Produce(item);
        s := Produce(s, w, item);
      } else {
        // Consumer w - producers calls consume and checks for the sentinel.
        var c := w - cfg.producers;
        ConsumePreservesInv(cfg, s, c);
        var item := buffer.Consume();
        if item == -1 {
          raceFailures := raceFailures + 1;
        }
        s := Consume(s, c);
      }
    }
    Completion(cfg, s);
    produced, consumed, leftover := s.produced, s.consumed, buffer.queue;
    produceCalls, consumeCalls := s.produceCalls, s.consumeCalls;
  }
}
