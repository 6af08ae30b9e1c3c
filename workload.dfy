/**
  The bounded buffer shared by producer and consumer threads, seen as a state
  machine of atomic steps.

  Both demos run the same workload against one buffer: every producer makes a
  fixed number of `produce` calls with random items, every consumer a fixed
  number of `consume` calls.  Under the monitor each call is one atomic step
  once its guard loop has exited, so a run is a sequence of such steps in an
  order chosen by the scheduler.  A `State` records the buffer's queue, how far
  each worker's counted loop has got, and (for the proofs) every item produced
  and consumed so far.  The step guards are the exit conditions of the wait
  loops exactly as written: `size != capacity` to produce, non-empty to consume.
 */
module Workload {

  datatype Option<T> = None | Some(value: T)

  /** The parameters of one run: buffer capacity, number of workers, calls per
      worker, and the exclusive upper bound of the random items. */
  datatype Config = Config(capacity: int, producers: nat, consumers: nat,
                           producesEach: nat, consumesEach: nat, itemBound: int)
  {
    function TotalProduces(): nat { producers * producesEach }

    function TotalConsumes(): nat { consumers * consumesEach }

    /** A positive capacity, a non-empty item range (`nextInt` rejects a bound
        that is not positive), at least one item for every consume call, and
        never more items left over than the buffer holds. */
    predicate Balanced() {
      && 0 < capacity && 0 < itemBound
      && TotalConsumes() <= TotalProduces() <= TotalConsumes() + capacity
    }
  }

  /** The demos' `main`: capacity 3, two producers of 5 items drawn from
      [0, 100), three consumers of 3 items. */
  const Demo := Config(3, 2, 3, 5, 3, 100)

  /** `produceCalls[p]` and `consumeCalls[c]` are the loop counters of each
      worker; `produced` and `consumed` record every item that went through. */
  datatype State = State(queue: seq<int>, produceCalls: seq<nat>, consumeCalls: seq<nat>,
                         produced: seq<int>, consumed: seq<int>)

  /** One atomic call: producer `p` adds `item`, or consumer `c` takes the head. */
  datatype Step = ProduceStep(p: int, item: int) | ConsumeStep(c: int)

  function Sum(s: seq<nat>): nat {
    if s == [] then 0 else s[0] + Sum(s[1..])
  }

  function Zeros(n: nat): (z: seq<nat>)
    ensures |z| == n && Sum(z) == 0
    ensures forall i :: 0 <= i < n ==> z[i] == 0
  {
    if n == 0 then [] else [0] + Zeros(n - 1)
  }

  /** A new buffer is empty and no worker has started its loop. */
  function Start(cfg: Config): State {
    State([], Zeros(cfg.producers), Zeros(cfg.consumers), [], [])
  }

  /** Producer `p` still has calls to make and has observed `size != capacity`.
      Between calls that test is the same as "fewer items are queued than the
      capacity", counting queued items as produced minus consumed. */
  predicate CanProduce(cfg: Config, s: State, p: int): (b: bool)
    ensures Inv(cfg, s) ==>
              (b <==> 0 <= p < cfg.producers && s.produceCalls[p] < cfg.producesEach
                      && |s.produced| - |s.consumed| < cfg.capacity)
  {
    0 <= p < |s.produceCalls| && s.produceCalls[p] < cfg.producesEach && |s.queue| != cfg.capacity
  }

  /** Consumer `c` still has calls to make and has observed a non-empty queue.
      Between calls that means some produced item has not been consumed yet. */
  predicate CanConsume(cfg: Config, s: State, c: int): (b: bool)
    ensures Inv(cfg, s) ==>
              (b <==> 0 <= c < cfg.consumers && s.consumeCalls[c] < cfg.consumesEach
                      && |s.consumed| < |s.produced|)
  {
    0 <= c < |s.consumeCalls| && s.consumeCalls[c] < cfg.consumesEach && s.queue != []
  }

  /** Worker `w` is not waiting: workers `0 .. producers-1` are the producers,
      the ones after them the consumers. */
  predicate Runnable(cfg: Config, s: State, w: int) {
    if w < cfg.producers then CanProduce(cfg, s, w) else CanConsume(cfg, s, w - cfg.producers)
  }

  predicate Allowed(cfg: Config, s: State, step: Step) {
    match step
    case ProduceStep(p, item) => CanProduce(cfg, s, p) && 0 <= item < cfg.itemBound
    case ConsumeStep(c) => CanConsume(cfg, s, c)
  }

  /** `queue.add(item)` by producer `p`, which then advances its loop. */
  function Produce(s: State, p: int, item: int): (r: State)
    requires 0 <= p < |s.produceCalls|
    ensures |r.queue| == |s.queue| + 1 && r.queue[..|s.queue|] == s.queue && r.queue[|s.queue|] == item
    ensures |r.produceCalls| == |s.produceCalls| && r.produceCalls[p] == s.produceCalls[p] + 1
    ensures forall q :: 0 <= q < |s.produceCalls| && q != p ==> r.produceCalls[q] == s.produceCalls[q]
    ensures r.consumeCalls == s.consumeCalls && r.consumed == s.consumed
  {
    s.(queue := s.queue + [item],
       produceCalls := s.produceCalls[p := s.produceCalls[p] + 1],
       produced := s.produced + [item])
  }

  /** `queue.poll()` by consumer `c`, which then advances its loop. */
  function Consume(s: State, c: int): (r: State)
    requires 0 <= c < |s.consumeCalls| && s.queue != []
    ensures |r.consumed| == |s.consumed| + 1 && r.consumed[..|s.consumed|] == s.consumed
    ensures [r.consumed[|s.consumed|]] + r.queue == s.queue
    ensures |r.consumeCalls| == |s.consumeCalls| && r.consumeCalls[c] == s.consumeCalls[c] + 1
    ensures forall d :: 0 <= d < |s.consumeCalls| && d != c ==> r.consumeCalls[d] == s.consumeCalls[d]
    ensures r.produceCalls == s.produceCalls && r.produced == s.produced
  {
    s.(queue := s.queue[1..],
       consumeCalls := s.consumeCalls[c := s.consumeCalls[c] + 1],
       consumed := s.consumed + [s.queue[0]])
  }

  function Take(cfg: Config, s: State, step: Step): State
    requires Allowed(cfg, s, step)
  {
    match step
    case ProduceStep(p, item) => Produce(s, p, item)
    case ConsumeStep(c) => Consume(s, c)
  }

  /** Runs a schedule of atomic calls; `None` when the schedule names a call
      whose worker is still waiting or has already finished its loop, that is,
      when no scheduler could produce this order. */
  function Execute(cfg: Config, s: State, steps: seq<Step>): (r: Option<State>)
    ensures r.Some? ==> |r.value.produced| + |r.value.consumed| == |s.produced| + |s.consumed| + |steps|
    ensures r.Some? ==> |s.produced| <= |r.value.produced| && r.value.produced[..|s.produced|] == s.produced
    ensures r.Some? ==> |s.consumed| <= |r.value.consumed| && r.value.consumed[..|s.consumed|] == s.consumed
    decreases |steps|
  {
    if steps == [] then Some(s)
    else if !Allowed(cfg, s, steps[0]) then None
    else
      var next := Take(cfg, s, steps[0]);
      var r := Execute(cfg, next, steps[1..]);
      assert r.Some? ==> r.value.produced[..|s.produced|] == r.value.produced[..|next.produced|][..|s.produced|];
      assert r.Some? ==> r.value.consumed[..|s.consumed|] == r.value.consumed[..|next.consumed|][..|s.consumed|];
      r
  }

  predicate InRange(cfg: Config, items: seq<int>) {
    forall i :: 0 <= i < |items| ==> 0 <= items[i] < cfg.itemBound
  }

  /** Every worker's loop has run to its end. */
  predicate Done(cfg: Config, s: State) {
    && (forall p :: 0 <= p < |s.produceCalls| ==> s.produceCalls[p] == cfg.producesEach)
    && (forall c :: 0 <= c < |s.consumeCalls| ==> s.consumeCalls[c] == cfg.consumesEach)
  }

  /** Calls still to be made by all workers together. */
  function Outstanding(cfg: Config, s: State): int {
    (cfg.TotalProduces() - Sum(s.produceCalls)) + (cfg.TotalConsumes() - Sum(s.consumeCalls))
  }

  /** What holds between any two atomic calls: the buffer never exceeds its
      capacity, the items consumed followed by the items still queued are
      exactly the items produced (in order), and each worker's counter stays
      within its loop bound. */
  ghost predicate Inv(cfg: Config, s: State) {
    && |s.produceCalls| == cfg.producers
    && |s.consumeCalls| == cfg.consumers
    && (forall p :: 0 <= p < |s.produceCalls| ==> s.produceCalls[p] <= cfg.producesEach)
    && (forall c :: 0 <= c < |s.consumeCalls| ==> s.consumeCalls[c] <= cfg.consumesEach)
    && |s.queue| <= cfg.capacity
    && s.consumed + s.queue == s.produced
    && |s.produced| == Sum(s.produceCalls)
    && |s.consumed| == Sum(s.consumeCalls)
    && InRange(cfg, s.produced)
  }

  lemma {:induction false} SumIncrement(s: seq<nat>, i: nat)
    requires i < |s|
    ensures Sum(s[i := s[i] + 1]) == Sum(s) + 1
  {
    if i == 0 {
      assert s[i := s[i] + 1][1..] == s[1..];
    } else {
      SumIncrement(s[1..], i - 1);
      assert s[i := s[i] + 1][1..] == s[1..][i - 1 := s[i] + 1];
    }
  }

  /** A sum of counters each at most `bound` is at most `|s| * bound`, and reaches
      it exactly when every counter does. */
  lemma {:induction false} SumAtMost(s: seq<nat>, bound: nat)
    requires forall i :: 0 <= i < |s| ==> s[i] <= bound
    ensures Sum(s) <= |s| * bound
    ensures Sum(s) == |s| * bound <==> forall i :: 0 <= i < |s| ==> s[i] == bound
  {
    if s != [] {
      var t := s[1..];
      assert forall i :: 0 <= i < |t| ==> t[i] == s[i + 1];
      SumAtMost(t, bound);
      assert |s| * bound == bound + |t| * bound;
      if forall i :: 0 <= i < |s| ==> s[i] == bound {
        assert forall i :: 0 <= i < |t| ==> t[i] == bound;
      }
      if Sum(s) == |s| * bound {
        forall i | 0 <= i < |s| ensures s[i] == bound {
          if i > 0 { assert s[i] == t[i - 1]; }
        }
      }
    }
  }

  /** A freshly constructed buffer is empty, no worker has started, and the
      invariant holds. */
  lemma StartInv(cfg: Config)
    requires 0 < cfg.capacity
    ensures Inv(cfg, Start(cfg))
    ensures forall p :: 0 <= p < cfg.producers ==> Start(cfg).produceCalls[p] == 0
    ensures forall c :: 0 <= c < cfg.consumers ==> Start(cfg).consumeCalls[c] == 0
    ensures Start(cfg).queue == [] && Outstanding(cfg, Start(cfg)) == cfg.TotalProduces() + cfg.TotalConsumes()
  {
  }

  /** A produce call appends its item at the tail, grows the buffer by exactly
      one without passing the capacity, and keeps the invariant. */
  lemma ProducePreservesInv(cfg: Config, s: State, p: int, item: int)
    requires Inv(cfg, s) && CanProduce(cfg, s, p) && 0 <= item < cfg.itemBound
    ensures Inv(cfg, Produce(s, p, item))
    ensures Produce(s, p, item).queue == s.queue + [item]
    ensures |Produce(s, p, item).queue| == |s.queue| + 1 <= cfg.capacity
    ensures 0 <= Outstanding(cfg, Produce(s, p, item)) < Outstanding(cfg, s)
  {
    var s' := Produce(s, p, item);
    SumIncrement(s.produceCalls, p);
    SumAtMost(s'.produceCalls, cfg.producesEach);
    SumAtMost(s'.consumeCalls, cfg.consumesEach);
    assert s'.consumed + s'.queue == (s.consumed + s.queue) + [item];
  }

  /** A consume call returns the head, which is an item some producer drew from
      [0, itemBound) (so never the sentinel -1 when that range holds no negative
      number), removes exactly that item, and keeps the invariant. */
  lemma ConsumePreservesInv(cfg: Config, s: State, c: int)
    requires Inv(cfg, s) && CanConsume(cfg, s, c)
    ensures Inv(cfg, Consume(s, c))
    ensures Consume(s, c).queue == s.queue[1..]
    ensures Consume(s, c).consumed == s.consumed + [s.queue[0]]
    ensures s.queue[0] == s.produced[|s.consumed|]
    ensures 0 <= s.queue[0] < cfg.itemBound
    ensures 0 <= Outstanding(cfg, Consume(s, c)) < Outstanding(cfg, s)
  {
    var s' := Consume(s, c);
    SumIncrement(s.consumeCalls, c);
    SumAtMost(s'.produceCalls, cfg.producesEach);
    SumAtMost(s'.consumeCalls, cfg.consumesEach);
    assert s.queue == [s.queue[0]] + s.queue[1..];
    assert s'.consumed + s'.queue == s.consumed + s.queue;
    assert s.produced[|s.consumed|] == (s.consumed + s.queue)[|s.consumed|];
  }

  /** An allowed step keeps the invariant. */
  lemma TakePreservesInv(cfg: Config, s: State, step: Step)
    requires Inv(cfg, s) && Allowed(cfg, s, step)
    ensures Inv(cfg, Take(cfg, s, step))
  {
    match step
    case ProduceStep(p, item) => ProducePreservesInv(cfg, s, p, item);
    case ConsumeStep(c) => ConsumePreservesInv(cfg, s, c);
  }

  lemma {:induction false} ExecutePreservesInv(cfg: Config, s: State, steps: seq<Step>)
    requires Inv(cfg, s)
    ensures Execute(cfg, s, steps).Some? ==> Inv(cfg, Execute(cfg, s, steps).value)
    decreases |steps|
  {
    if steps != [] && Allowed(cfg, s, steps[0]) {
      TakePreservesInv(cfg, s, steps[0]);
      ExecutePreservesInv(cfg, Take(cfg, s, steps[0]), steps[1..]);
    }
  }

  /** For every order in which the scheduler may run the atomic calls, starting
      from a new buffer: the size stays within `0 .. capacity`, items leave in
      the order they arrived, and no item is lost or duplicated. */
  lemma AnyOrder(cfg: Config, steps: seq<Step>)
    requires 0 < cfg.capacity
    ensures Execute(cfg, Start(cfg), steps).Some? ==>
              var s := Execute(cfg, Start(cfg), steps).value;
              && |s.queue| <= cfg.capacity
              && |s.consumed| <= |s.produced|
              && s.consumed == s.produced[..|s.consumed|]
              && s.queue == s.produced[|s.consumed|..]
              && multiset(s.consumed) + multiset(s.queue) == multiset(s.produced)
              && InRange(cfg, s.consumed)
  {
    StartInv(cfg);
    ExecutePreservesInv(cfg, Start(cfg), steps);
    if Execute(cfg, Start(cfg), steps).Some? {
      var s := Execute(cfg, Start(cfg), steps).value;
      assert s.consumed == s.produced[..|s.consumed|];
      assert s.queue == s.produced[|s.consumed|..];
      assert forall i :: 0 <= i < |s.consumed| ==> s.consumed[i] == s.produced[i];
    }
  }

  /** With a balanced configuration, while some worker has calls left, some
      worker is not waiting and some atomic call is allowed: the workload never
      deadlocks. */
  lemma Progress(cfg: Config, s: State)
    requires cfg.Balanced() && Inv(cfg, s) && !Done(cfg, s)
    ensures exists w :: 0 <= w < cfg.producers + cfg.consumers && Runnable(cfg, s, w)
    ensures exists step :: Allowed(cfg, s, step)
  {
    SumAtMost(s.produceCalls, cfg.producesEach);
    SumAtMost(s.consumeCalls, cfg.consumesEach);
    assert |s.queue| == |s.produced| - |s.consumed|;
    if p :| 0 <= p < |s.produceCalls| && s.produceCalls[p] < cfg.producesEach {
      if |s.queue| == cfg.capacity {
        // A full buffer with every consumer finished would hold fewer items
        // than were produced beyond those consumed.
        assert exists c :: 0 <= c < |s.consumeCalls| && s.consumeCalls[c] < cfg.consumesEach;
        var c :| 0 <= c < |s.consumeCalls| && s.consumeCalls[c] < cfg.consumesEach;
        assert Runnable(cfg, s, cfg.producers + c) && Allowed(cfg, s, ConsumeStep(c));
      } else {
        assert Runnable(cfg, s, p) && Allowed(cfg, s, ProduceStep(p, 0));
      }
    } else {
      var c :| 0 <= c < |s.consumeCalls| && s.consumeCalls[c] < cfg.consumesEach;
      assert Runnable(cfg, s, cfg.producers + c) && Allowed(cfg, s, ConsumeStep(c));
    }
  }

  /** When every worker has finished its loop: all calls were made, and the
      buffer holds exactly the surplus of produced over consumed items. */
  lemma Completion(cfg: Config, s: State)
    requires Inv(cfg, s) && Done(cfg, s)
    ensures |s.produced| == cfg.TotalProduces() && |s.consumed| == cfg.TotalConsumes()
    ensures |s.queue| == cfg.TotalProduces() - cfg.TotalConsumes()
  {
    SumAtMost(s.produceCalls, cfg.producesEach);
    SumAtMost(s.consumeCalls, cfg.consumesEach);
  }

  /** As written, `produce` waits only while `size == capacity`, and the
      constructor accepts any `int`.  With capacity -1 that test never holds:
      a producer appends two items from a new buffer and the size passes the
      capacity. */
  lemma NegativeCapacityNeverWaits()
    ensures var cfg := Config(-1, 1, 0, 2, 0, 100);
            var r := Execute(cfg, Start(cfg), [ProduceStep(0, 7), ProduceStep(0, 8)]);
            && r.Some? && r.value.queue == [7, 8]
            && |r.value.queue| > cfg.capacity
  {
    var cfg := Config(-1, 1, 0, 2, 0, 100);
    var s0 := Start(cfg);
    var s1 := Produce(s0, 0, 7);
    var s2 := Produce(s1, 0, 8);
    assert Execute(cfg, s2, []) == Some(s2);
    assert Execute(cfg, s1, [ProduceStep(0, 8)]) == Some(s2);
  }
}
