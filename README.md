# Bounded producer/consumer buffer

A model of the bounded FIFO buffer behind the two producer/consumer demos of
this repository, and of the workload they run against it.

- `Buffer` (`complex-problem/ProducerConsumerSolve1.java`) is the monitor
  version: `produce` waits while the queue holds `capacity` items, `consume`
  waits while it is empty, and both methods are `synchronized`.
- `UnsafeBuffer` (`complex-problem/ProducerConsumerProblem.java`) is the
  busy-wait version: the same guards are polled with a sleep between checks
  and no lock is taken; `consume` returns the sentinel -1 when `poll` finds the
  queue empty.
- `main` in each file builds a buffer of capacity 3 and runs two producers
  (5 calls each, items from `random.nextInt(100)`) and three consumers
  (3 calls each) against it; every consumer reports a race when it sees -1.

Because a `synchronized` method runs as one atomic step once its wait loop has
exited, the model has no threads. Each buffer is a class with a `seq<int>`
queue and a `const` capacity. `Produce` and `Consume` are methods whose
precondition is the exit condition of their wait loop. The workload is a
state machine of such atomic steps.

Files:

- `workload.dfy`, module `Workload`. The workload as a state machine. A
  `State` holds the queue, each worker's loop counter, and every item produced
  and consumed. `Produce` and `Consume` are the two atomic steps. Their guards
  are the wait-loop conditions as written: `size != capacity` and non-empty.
  `Inv` is what holds between any two steps. It is proved to hold initially,
  to be kept by every step and by every schedule (`Execute`), never to
  deadlock (`Progress`), and to fix the outcome once all loops have finished
  (`Completion`).
- `monitor.dfy`, module `ProducerConsumerSolve1`. Holds the class `Buffer` and
  `RunWorkload`, which is `main`.
- `busy_wait.dfy`, module `ProducerConsumerProblem`. Holds the class
  `UnsafeBuffer`, including `poll` and the -1 branch, and its `RunWorkload`.

In both `RunWorkload` methods two things are arbitrary choices (`:|`): the
scheduler's pick of the next runnable worker, and each random item within
[0, 100). Their postconditions therefore hold for every interleaving and every
draw. Every producer makes exactly 5 calls and every consumer exactly 3. The
10 items produced equal the 9 consumed followed by the 1 left in the buffer,
in order, so nothing is lost or duplicated. No consumer ever sees -1.

## Model

| member | source | states |
|---|---|---|
| `Workload.CanProduce` | complex-problem/ProducerConsumerSolve1.java:16-18 | a producer may proceed exactly when it has calls left in its loop and the wait test `size == capacity` fails; between calls that is the same as produced minus consumed being below the capacity |
| `Workload.CanConsume` | complex-problem/ProducerConsumerSolve1.java:26-28 | a consumer may proceed exactly when it has calls left in its loop and the queue is non-empty; between calls that is the same as some produced item not yet consumed |
| `Workload.Produce` | complex-problem/ProducerConsumerSolve1.java:20 | `queue.add(item)` by one producer: the old queue is kept and the item is placed at the tail; that producer's loop counter grows by one, the other counters and the consumer side are unchanged |
| `Workload.Consume` | complex-problem/ProducerConsumerSolve1.java:30 | `queue.poll()` by one consumer: the item taken followed by the new queue is the old queue; that consumer's loop counter grows by one, the other counters and the producer side are unchanged |
| `Workload.Execute` | complex-problem/ProducerConsumerSolve1.java:100-110 | runs a scheduler's order of atomic calls: each call makes exactly one produce or consume, and the histories of produced and consumed items only grow (the old ones are prefixes of the new ones) |
| `Workload.StartInv` | complex-problem/ProducerConsumerSolve1.java:8-13 | for a positive capacity: a new buffer is empty, every worker's loop counter is 0, and the invariant (size within capacity, consumed ++ queued == produced) holds |
| `Workload.ProducePreservesInv` | complex-problem/ProducerConsumerSolve1.java:15-22 | a produce step taken once `size != capacity` appends the item at the tail, grows the size by exactly one, stays within capacity, keeps the invariant and uses up one outstanding call |
| `Workload.ConsumePreservesInv` | complex-problem/ProducerConsumerSolve1.java:25-34 | a consume step taken on a non-empty queue returns the head, which is the next item in production order and lies in [0, itemBound), leaves the tail, and keeps the invariant |
| `Workload.TakePreservesInv` | complex-problem/ProducerConsumerSolve1.java:15-34 | any allowed atomic call keeps the invariant |
| `Workload.ExecutePreservesInv` | complex-problem/ProducerConsumerSolve1.java:15-34 | every schedule of atomic calls that the guards allow keeps the invariant |
| `Workload.AnyOrder` | complex-problem/ProducerConsumerSolve1.java:92-110 | from a new buffer, for every order of atomic calls: size stays within capacity, the consumed items are a prefix of the produced items and the queue is the rest (FIFO), multiset(consumed) + multiset(queue) == multiset(produced), and consumed items lie in [0, itemBound) |
| `Workload.Progress` | complex-problem/ProducerConsumerSolve1.java:92-110 | with a positive capacity and item bound, enough items for every consume call and a surplus that fits in the buffer: while any worker has calls left, some worker is runnable and some atomic call is allowed, so the run never deadlocks |
| `Workload.Completion` | complex-problem/ProducerConsumerSolve1.java:48-86 | once every counted loop has finished, producers × 5 items were produced, consumers × 3 consumed, and the buffer holds exactly the difference |
| `Workload.NegativeCapacityNeverWaits` | complex-problem/ProducerConsumerSolve1.java:11-18 | with capacity -1 the `size == capacity` wait never fires and two produce calls leave 2 items in a buffer of capacity -1 (the guard as written) |
| `ProducerConsumerSolve1.Buffer.constructor` | complex-problem/ProducerConsumerSolve1.java:11-13 | a new buffer is empty and valid; the capacity is a constant thereafter |
| `ProducerConsumerSolve1.Buffer.Produce` | complex-problem/ProducerConsumerSolve1.java:15-23 | once `size != capacity`: queue' == queue + [item], size grows by one, 0 <= size <= capacity kept |
| `ProducerConsumerSolve1.Buffer.Consume` | complex-problem/ProducerConsumerSolve1.java:25-34 | once non-empty: returns queue[0], queue' == queue[1..], size drops by one, bound kept |
| `ProducerConsumerSolve1.RunWorkload` | complex-problem/ProducerConsumerSolve1.java:89-113 | for every interleaving and every random draw: 2 producers make 5 calls each and 3 consumers 3 each, 10 items produced, 9 consumed in production order, exactly 1 left (<= capacity 3), multisets conserved, items in [0, 100), the consumer's -1 check never fires |
| `ProducerConsumerProblem.UnsafeBuffer.constructor` | complex-problem/ProducerConsumerProblem.java:11-13 | a new buffer is empty and valid; the capacity is a constant thereafter |
| `ProducerConsumerProblem.UnsafeBuffer.Produce` | complex-problem/ProducerConsumerProblem.java:15-23 | once `size != capacity` is observed: appends the item at the tail, size grows by one, bound kept |
| `ProducerConsumerProblem.UnsafeBuffer.Poll` | complex-problem/ProducerConsumerProblem.java:31 | `poll` returns and removes the head of a non-empty queue, and returns nothing on an empty one |
| `ProducerConsumerProblem.UnsafeBuffer.Consume` | complex-problem/ProducerConsumerProblem.java:25-38 | once non-empty is observed, run alone: returns the head (never the -1 sentinel) and removes it |
| `ProducerConsumerProblem.RunWorkload` | complex-problem/ProducerConsumerProblem.java:93-124 | with each buffer call atomic, for every interleaving and draw: 5 calls per producer, 3 per consumer, 10 produced, 9 consumed in order, 1 left, items in [0, 100), no race reported |

## Left out

- Threads, `start`/`join`, `synchronized`, `wait`/`notifyAll`: there is no thread model. The monitor appears only as atomic guarded steps, and the scheduler appears as an arbitrary choice of a runnable worker. Liveness under a fair scheduler and the absence of lost wake-ups are not stated. `Workload.Progress` shows only that some worker can always move.
- The wait loops and the busy-wait loops with `Thread.sleep(50)`: run alone on a full or empty buffer they never end. They become the preconditions of `Produce` and `Consume`, and in the workload the steps are enabled only when those guards hold.
- The real race of `UnsafeBuffer`: a check and its action may be split by another thread, and `LinkedList` may be mutated concurrently. How this plays out depends on `java.util.LinkedList` internals and on the scheduler. The model gives the sequential reading only, where the -1 branch is dead.
- `Thread.sleep(random.nextInt(200/300))` think time and `InterruptedException` handling. These are timing and cancellation. With no interruption, each worker runs its full loop.
- `java.util.Random`: only its output range [0, 100) is modelled, as an arbitrary choice.
- All `System.out.println` logging, and the worker names, which are only used in logs.
- Java's 32-bit `int` for items, sizes and capacity: no value in the model comes near the limit.
- `basic/StringFunc.java` is not part of this model. It walks through the standard `String`/`StringBuilder` classes and has no logic of its own.

## Findings

| source | as written | input that shows it | evidently intended | confidence | as-written member | corrected member |
|---|---|---|---|---|---|---|
| complex-problem/ProducerConsumerSolve1.java:11-18 | the constructor accepts any `int` capacity, and `produce` waits only while `size == capacity` | `new Buffer(-1)` then two `produce` calls: neither waits, and the size reaches 2 > -1 | a positive capacity, so that 0 <= size <= capacity holds | not executed; medium | `Workload.NegativeCapacityNeverWaits` | `ProducerConsumerSolve1.Buffer.constructor` (requires 0 < capacity; bound then proved by `Workload.AnyOrder`) |
| complex-problem/ProducerConsumerProblem.java:11-16 | same constructor and same `size == capacity` polling test in `UnsafeBuffer` | `new UnsafeBuffer(-1)` then two `produce` calls | a positive capacity | not executed; medium | `Workload.NegativeCapacityNeverWaits` | `ProducerConsumerProblem.UnsafeBuffer.constructor` (requires 0 < capacity) |
