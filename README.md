# BlockingBuffer, modelled in Dafny

This project models `BlockingBuffer<T>` of JBlockingBuffer: a batch buffer in
which producers `add` single items and a consumer `get`s a batch. A batch is at
most `bufferSize` items, polled one by one from the head of the queue. The
first poll may wait `maxWaitTime` milliseconds; each later poll may wait as
long as the previous poll took. The drain stops at the first poll that times
out.

The model is sequential:

- The buffer is a class, `Buffer.BlockingBuffer`. Its field `storage: seq<T>`
  holds the contents of `bufferQueue` in insertion order. `bufferSize` and
  `maxWaitTime` are constants.
- `queue(bufferSize)` selects an unbounded linked queue for the sentinel `-1`
  and an array-backed queue of that capacity otherwise (`Buffer.Capacity`).
- A bounded queue that is full would block the producer in `put`. In the model
  this is a precondition of `Add`. The object invariant `Valid()` keeps
  `|storage| <= bufferSize` for a bounded buffer.
- What each `poll` observes from outside is an input,
  `events: nat -> PollEvent`. Poll `j` of a drain either completes after some
  number of milliseconds, or its waiting thread is interrupted. With no
  concurrent producer, the timeout never changes what a poll returns: the head
  if there is one, otherwise `None`.
- The interrupt status of the calling thread is the field `interruptPending`.
  A `get` that catches an interruption sets it again. The next `add` or poll of
  the same thread then throws `InterruptedException` at once and clears it,
  because both queues take their lock interruptibly.
- The drain loop `waitAndGet` is a `while` loop. It is proved against a closed
  form, `Buffer.Drain`, and the properties of a drain are lemmas about that
  closed form.
- The timeout bookkeeping is kept exactly as written. `remainingWait` is
  overwritten with the time the previous poll took, not reduced by it.
  `WaitAndGet` returns the timeout handed to each poll so that this can be
  stated.

Four behaviours of the code are easy to miss:

- With `bufferSize == -1` the counted loop runs zero times, so `get` returns
  the empty list and leaves every item queued.
- An interrupted `get` returns the empty list. The items it already polled in
  that call are lost.
- The interrupt flag that an interrupted `get` sets again makes the same
  thread's next `add` throw without queueing its item, and its next bounded
  `get` return nothing.
- The wait budget is not a single window per call.

Files:

- `wrappers.dfy`: `Option` and `Result`.
- `blocking_buffer.dfy`: module `Buffer`, holding the closed form of a drain,
  its lemmas and the class.
- `scenarios.dfy`: module `BufferScenarios`, with single-threaded client
  methods that follow the sequential unit tests and the edge behaviours.

## Model

| member | source | states |
|---|---|---|
| `Buffer.QueueFor` | src/main/java/io/githhub/buffer/BlockingBuffer.java:42-46 | the queue is unbounded exactly for `bufferSize == -1`; otherwise `put` has room exactly while fewer than `bufferSize` items are queued |
| `Buffer.Taken` | src/main/java/io/githhub/buffer/BlockingBuffer.java:69-76 | an uninterrupted drain takes as many items as are available but never more than `bufferSize`, and none when `bufferSize <= 0` |
| `Buffer.PollCount` | src/main/java/io/githhub/buffer/BlockingBuffer.java:69-75 | the loop polls exactly when `bufferSize > 0`, never more than `bufferSize` times, and makes one extra, empty poll when the queue runs dry before the bound |
| `Buffer.FirstInterrupt` | src/main/java/io/githhub/buffer/BlockingBuffer.java:69-71 | the index of the first poll that is interrupted: every earlier poll completed, and there is none when the result equals the poll count |
| `Buffer.Observed` | src/main/java/io/githhub/buffer/BlockingBuffer.java:59 | what the polls of a drain observe: with the interrupt flag still set, the first poll throws at once; otherwise the outside events |
| `Buffer.Drain` | src/main/java/io/githhub/buffer/BlockingBuffer.java:66-79 | closed form of one drain: the batch is a prefix and the rest a suffix of the queue, they do not overlap, and an interrupted drain returns nothing |
| `Buffer.Attempts` | src/main/java/io/githhub/buffer/BlockingBuffer.java:69-75 | the polls a drain issues are a prefix of the planned ones, cut short only right after an interrupted poll |
| `Buffer.PollTimeout` | src/main/java/io/githhub/buffer/BlockingBuffer.java:68-72 | the timeout handed to poll `j`: `maxWaitTime` for the first, the elapsed time of poll `j - 1` afterwards |
| `Buffer.TimeoutNotBudgeted` | src/main/java/io/githhub/buffer/BlockingBuffer.java:72 | after the first poll, the timeout a poll gets does not depend on the wait budget: it is the previous poll's elapsed time |
| `Buffer.DrainUnbounded` | src/main/java/io/githhub/buffer/BlockingBuffer.java:66-79 | with `bufferSize == -1` a drain returns the empty list, is not interrupted and leaves the queue unchanged |
| `Buffer.DrainBound` | src/main/java/io/githhub/buffer/BlockingBuffer.java:66-79 | a batch never has more items than the queue held, nor more than a positive `bufferSize`; it is empty when `bufferSize <= 0` |
| `Buffer.DrainConserves` | src/main/java/io/githhub/buffer/BlockingBuffer.java:66-79 | an uninterrupted drain leaves `batch + rest == queue`: the batch is a prefix in insertion order, and the multisets show that nothing is lost or duplicated |
| `Buffer.DrainExact` | src/main/java/io/githhub/buffer/BlockingBuffer.java:69-76 | an uninterrupted bounded drain returns exactly the first `min(bufferSize, \|queue\|)` items |
| `Buffer.DrainInterrupted` | src/main/java/io/githhub/buffer/BlockingBuffer.java:53-64 | a drain is interrupted if and only if one of the polls it would make is interrupted; then the batch is empty, the rest is `queue[k..]` for the first interrupted poll `k`, and the `k` items polled before it (at most the uninterrupted batch size) are gone without being returned |
| `Buffer.DrainAfterFill` | src/main/java/io/githhub/buffer/BlockingBuffer.java:66-79 | any `n <= bufferSize` queued items, including none, drained with none of the polls made interrupted, all come back in order and leave the queue empty |
| `Buffer.DrainWithPendingInterrupt` | src/main/java/io/githhub/buffer/BlockingBuffer.java:53-64 | a drain entered with the interrupt flag set returns nothing and removes nothing; it counts as interrupted exactly when the loop polls at all |
| `Buffer.DrainIgnoresTiming` | src/main/java/io/githhub/buffer/BlockingBuffer.java:68-72 | the elapsed times never change which items a drain returns or leaves queued |
| `Buffer.BlockingBuffer.Valid` | src/main/java/io/githhub/buffer/BlockingBuffer.java:42-51 | the object invariant: a bounded buffer has a positive `bufferSize` and never holds more than `bufferSize` items |
| `Buffer.BlockingBuffer.constructor` | src/main/java/io/githhub/buffer/BlockingBuffer.java:33-40 | once the wait check passes, `bufferSize` and the wait are stored unchanged and the queue is empty |
| `Buffer.BlockingBuffer.Default` | src/main/java/io/githhub/buffer/BlockingBuffer.java:25-27 | the default buffer has `bufferSize == 10`, `maxWaitTime == 100` and an empty queue |
| `Buffer.BlockingBuffer.WithSize` | src/main/java/io/githhub/buffer/BlockingBuffer.java:29-31 | the one-argument buffer keeps `bufferSize` and has `maxWaitTime == 100` |
| `Buffer.BlockingBuffer.Create` | src/main/java/io/githhub/buffer/BlockingBuffer.java:33-40 | construction fails with `IllegalArgumentException("maxWaitMillis must be greater than 0")` exactly when `maxWaitMillis <= 0`, for any `bufferSize`; otherwise it yields a fresh, valid, empty buffer with both parameters stored as given |
| `Buffer.BlockingBuffer.Add` | src/main/java/io/githhub/buffer/BlockingBuffer.java:49-51 | with the interrupt flag set it throws `InterruptedException`, queues nothing and clears the flag; otherwise it appends at the tail, `storage == old(storage) + [elm]`; a bounded buffer needs a free slot, an unbounded one never does; the bound `\|storage\| <= bufferSize` is preserved |
| `Buffer.BlockingBuffer.Size` | src/main/java/io/githhub/buffer/BlockingBuffer.java:88-90 | the number of queued items |
| `Buffer.BlockingBuffer.Reset` | src/main/java/io/githhub/buffer/BlockingBuffer.java:92-99 | the queue is empty afterwards; the configuration and the interrupt flag are unchanged |
| `Buffer.BlockingBuffer.Poll` | src/main/java/io/githhub/buffer/BlockingBuffer.java:71 | a pending or arriving interruption throws, clears the flag and removes nothing; otherwise it takes the head, or returns `None` on an empty queue |
| `Buffer.BlockingBuffer.WaitAndGet` | src/main/java/io/githhub/buffer/BlockingBuffer.java:66-79 | the loop's result and new queue are those of `Drain` over the observed polls; an interruption propagates as `InterruptedException` and leaves the flag clear; poll 0 is given `maxWaitTime` and each later poll the elapsed time of the one before it |
| `Buffer.BlockingBuffer.Get` | src/main/java/io/githhub/buffer/BlockingBuffer.java:53-64 | returns the batch of `Drain` and leaves its rest queued; on interruption it returns the empty list and the interrupt flag is set afterwards |
| `BufferScenarios.AddTenThenGet` | src/main/java/io/githhub/buffer/BlockingBuffer.java:49-79 | ten items added to a default buffer come back as `[0, ..., 9]`, and the next `get` returns `[]` (the unit test at BlockingBufferTest.java:15-25 checks only the size and the sum of the first batch) |
| `BufferScenarios.SizeAfterAdds` | src/test/java/io/github/buffer/BlockingBufferTest.java:110-117 | `size()` is 1 after one `add` and 2 after two |
| `BufferScenarios.GetFromEmpty` | src/test/java/io/github/buffer/BlockingBufferTest.java:104-108 | a `get` on an empty buffer returns the empty list and leaves the interrupt flag clear |
| `BufferScenarios.ResetThenSize` | src/main/java/io/githhub/buffer/BlockingBuffer.java:88-99 | after `reset` the size is 0 and a drain returns nothing |
| `BufferScenarios.UnboundedGetReturnsNothing` | src/main/java/io/githhub/buffer/BlockingBuffer.java:69 | an unbounded buffer holding 30 items returns `[]` from `get` and still holds all 30 |
| `BufferScenarios.InterruptedGetLosesPolled` | src/main/java/io/githhub/buffer/BlockingBuffer.java:53-79 | an interruption at the third poll over `[1, 2, 3]` returns `[]`, sets the interrupt flag and leaves only `[3]` queued |
| `BufferScenarios.CallsAfterInterruptedGet` | src/main/java/io/githhub/buffer/BlockingBuffer.java:49-64 | after an interrupted `get`, the same thread's next `get` returns `[]` and removes nothing, the following `add` throws without queueing its item, and the `add` after that succeeds |
| `BufferScenarios.OverwrittenWait` | src/main/java/io/githhub/buffer/BlockingBuffer.java:68-72 | with 90 ms polls, draining `[1, 2, 3]` from a default buffer grants the timeouts `[100, 90, 90, 90]` |

## Left out

- `ListenableBlockingBuffer`: it only submits an endless drain loop and the listener callbacks to a thread pool. It has no sequential behaviour beyond appending to a listener list.
- The fair `ReentrantLock` and thread interleavings: the model is single-threaded. Each method is one atomic step.
- Blocking in `put`: it becomes the precondition of `Add` that a bounded buffer has a free slot.
- Add: does not model an interruption delivered by another thread while `put` waits or takes its lock. Only the flag set again by an interrupted `get` makes it throw, because the model has no other thread.
- The wall clock and the real waiting inside `poll`: the elapsed time of each poll is an input. No timing bound is proved, because the code gives none.
- `newList()`: the `LinkedList`/`ArrayList` choice changes only how the batch is stored. A batch is a `seq` in the model.
- The exceptions the JDK queues throw: `ArrayBlockingQueue` rejects a capacity that is not positive, and both queues reject `null`. Once the wait check has passed, the model requires `bufferSize == -1 || bufferSize > 0`, and its element type has no null.
- The `Integer.MAX_VALUE` capacity of `LinkedBlockingQueue`: the unbounded queue is modelled as having no limit.
- Java's `int` and `long` widths: no arithmetic in the code can overflow for the sizes and times involved, so the model uses unbounded integers.
- `printStackTrace` in `get`: it is output only.
- The concurrent tests (`BlockingBufferTest.java:41-99`): they need thread pools and sleeps. The tests at lines 27-38 and 65-85 also call a `(int, Duration)` constructor that the buffer does not have.
