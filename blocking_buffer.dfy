/**
 * A sequential model of `BlockingBuffer<T>`: a FIFO queue that producers
 * append to and that a consumer drains in batches of at most `bufferSize`
 * items. Locks and blocking are replaced by preconditions; what a `poll`
 * call observes from the outside world (the time it took, or an
 * interruption of the waiting thread) is an input.
 */
module Buffer {
  import opened Wrappers

  /** The exceptions the buffer throws. */
  datatype Exception = IllegalArgumentException(message: string) | InterruptedException

  /** What one `poll(remainingWait, MILLISECONDS)` call observes: it comes back
      after `elapsed` milliseconds of wall-clock time, or the waiting thread is
      interrupted and `poll` throws. */
  datatype PollEvent = Completed(elapsed: int) | Interrupted

  /** The kind of queue `queue(bufferSize)` allocates. */
  datatype Capacity = Unbounded | Bounded(limit: int) {

    /** `put` appends without blocking to a queue that holds `len` items. */
    predicate HasRoom(len: nat) {
      Unbounded? || len < limit
    }

    /** A queue of this kind can hold `len` items. */
    predicate Holds(len: nat) {
      Unbounded? || len <= limit
    }
  }

  /** The `bufferSize` that selects an unbounded queue. */
  const UNBOUNDED := -1

  const DEFAULT_BUFFER_SIZE := 10
  const DEFAULT_MAX_WAIT_MILLIS := 100
  const MAX_WAIT_MESSAGE := "maxWaitMillis must be greater than 0"

  /** The sizes for which a queue can be allocated: the unbounded sentinel,
      or a positive capacity for the array-backed queue. */
  predicate SupportedSize(bufferSize: int) {
    bufferSize == UNBOUNDED || bufferSize > 0
  }

  /** `queue(bufferSize)`: a linked, unbounded queue for the sentinel, an
      array-backed queue of that capacity otherwise. */
  function QueueFor(bufferSize: int): (c: Capacity)
    ensures c.Unbounded? <==> bufferSize == UNBOUNDED
    ensures bufferSize != UNBOUNDED ==>
      forall len: nat :: c.HasRoom(len) <==> len < bufferSize
  {
    if bufferSize == UNBOUNDED then Unbounded else Bounded(bufferSize)
  }

  // ---------------------------------------------------------------------
  // Specification of one drain (`waitAndGet`)
  // ---------------------------------------------------------------------

  /** `s` is a suffix of `t`. */
  ghost predicate IsSuffix<T>(s: seq<T>, t: seq<T>) {
    |s| <= |t| && t[|t| - |s|..] == s
  }

  /** Number of items the polls of an uninterrupted drain take from the
      queue: as many as are available, but no more than `bufferSize`. */
  function Taken(bufferSize: int, available: nat): (n: nat)
    ensures n <= available
    ensures bufferSize <= 0 ==> n == 0
    ensures bufferSize > 0 ==> n <= bufferSize && (n == available || n == bufferSize)
  {
    if bufferSize <= 0 then 0
    else if available < bufferSize then available
    else bufferSize
  }

  /** Number of `poll` calls the counted loop makes when nothing interrupts
      it: it runs while `i < bufferSize` and stops after the first poll that
      finds the queue empty. */
  function PollCount(bufferSize: int, available: nat): (n: nat)
    ensures n == 0 <==> bufferSize <= 0
    ensures bufferSize > 0 ==> n <= bufferSize
    ensures n == Taken(bufferSize, available) + (if 0 < bufferSize && available < bufferSize then 1 else 0)
  {
    if bufferSize <= 0 then 0
    else if available < bufferSize then available + 1
    else bufferSize
  }

  /** The index of the first interrupted poll among the first `polls`, or
      `polls` when none of them is interrupted. */
  function FirstInterrupt(events: nat -> PollEvent, polls: nat): (k: nat)
    ensures k <= polls
    ensures forall j :: 0 <= j < k ==> events(j).Completed?
    ensures k < polls ==> events(k).Interrupted?
  {
    if polls == 0 then 0
    else
      var k := FirstInterrupt(events, polls - 1);
      if k < polls - 1 then k
      else if events(polls - 1).Interrupted? then polls - 1
      else polls
  }

  /** What the polls of one drain observe when the calling thread enters it
      with its interrupt flag `pending`: both queues take their lock
      interruptibly, so a set flag makes the first poll throw at once. */
  function Observed(events: nat -> PollEvent, pending: bool): (observed: nat -> PollEvent) {
    if pending then (j: nat) => (if j == 0 then Interrupted else events(j)) else events
  }

  /** The outcome of one `get`: the batch returned, what is left in the
      queue, and whether the call was interrupted. */
  datatype Drained<T> = Drained(batch: seq<T>, rest: seq<T>, interrupted: bool)

  /** Closed form of a drain of `queue`. Uninterrupted, the batch is the
      first `Taken` items; interrupted at poll `k`, the `k` items already
      polled are gone and the batch is empty. Either way the batch is a
      prefix and the rest a suffix of the queue, and they do not overlap. */
  function Drain<T>(queue: seq<T>, bufferSize: int, events: nat -> PollEvent): (d: Drained<T>)
    ensures d.batch <= queue && IsSuffix(d.rest, queue)
    ensures |d.batch| + |d.rest| <= |queue|
    ensures d.interrupted ==> d.batch == []
  {
    var polls := PollCount(bufferSize, |queue|);
    var k := FirstInterrupt(events, polls);
    if k < polls then Drained([], queue[k..], true)
    else
      var n := Taken(bufferSize, |queue|);
      Drained(queue[..n], queue[n..], false)
  }

  /** Number of `poll` calls a drain of `available` items issues, counting
      the one that is interrupted: the planned polls, cut short right after
      the first interrupted one. */
  function Attempts(bufferSize: int, available: nat, events: nat -> PollEvent): (n: nat)
    ensures n <= PollCount(bufferSize, available)
    ensures forall j :: 0 <= j < n - 1 ==> events(j).Completed?
    ensures n < PollCount(bufferSize, available) ==> 0 < n && events(n - 1).Interrupted?
  {
    var polls := PollCount(bufferSize, available);
    var k := FirstInterrupt(events, polls);
    if k < polls then k + 1 else polls
  }

  /** The timeout handed to poll `j`: `maxWaitTime` for the first one, and
      afterwards the time the previous poll took (the variable is
      overwritten with the elapsed time, not reduced by it). */
  function PollTimeout(maxWaitTime: int, events: nat -> PollEvent, j: nat): (timeout: int)
    requires j == 0 || events(j - 1).Completed?
  {
    if j == 0 then maxWaitTime else events(j - 1).elapsed
  }

  // ---------------------------------------------------------------------
  // Properties of a drain
  // ---------------------------------------------------------------------

  /** After the first poll, the timeout a poll is given does not depend on
      the wait budget at all. */
  lemma TimeoutNotBudgeted(budget1: int, budget2: int, events: nat -> PollEvent, j: nat)
    requires 0 < j && events(j - 1).Completed?
    ensures PollTimeout(budget1, events, j) == PollTimeout(budget2, events, j) == events(j - 1).elapsed
  {
  }

  /** With the unbounded sentinel the loop does not run: nothing is
      returned and the queue is left as it was. */
  lemma DrainUnbounded<T>(queue: seq<T>, events: nat -> PollEvent)
    ensures Drain(queue, UNBOUNDED, events) == Drained([], queue, false)
  {
  }

  /** A batch never holds more than `bufferSize` items, nor more than the
      queue held. */
  lemma DrainBound<T>(queue: seq<T>, bufferSize: int, events: nat -> PollEvent)
    ensures |Drain(queue, bufferSize, events).batch| <= |queue|
    ensures bufferSize > 0 ==> |Drain(queue, bufferSize, events).batch| <= bufferSize
    ensures bufferSize <= 0 ==> Drain(queue, bufferSize, events).batch == []
  {
  }

  /** Conservation: an uninterrupted drain splits the queue into the batch
      and the rest, in insertion order, so nothing is lost or duplicated. */
  lemma DrainConserves<T>(queue: seq<T>, bufferSize: int, events: nat -> PollEvent)
    ensures var d := Drain(queue, bufferSize, events);
      !d.interrupted ==> d.batch + d.rest == queue && multiset(d.batch) + multiset(d.rest) == multiset(queue)
  {
  }

  /** An uninterrupted drain of a bounded buffer returns exactly the first
      `min(bufferSize, |queue|)` items. */
  lemma DrainExact<T>(queue: seq<T>, bufferSize: int, events: nat -> PollEvent)
    requires bufferSize > 0
    ensures var d := Drain(queue, bufferSize, events);
      !d.interrupted ==>
        |d.batch| == (if |queue| < bufferSize then |queue| else bufferSize) &&
        d.batch == queue[..|d.batch|]
  {
  }

  /** A drain is interrupted exactly when one of the polls it would make is
      interrupted. It then returns nothing, and the items polled before the
      first interrupted poll, `queue[..k]`, are removed from the queue
      without being returned. */
  lemma DrainInterrupted<T>(queue: seq<T>, bufferSize: int, events: nat -> PollEvent)
    ensures var d := Drain(queue, bufferSize, events);
      d.interrupted <==> exists j :: 0 <= j < PollCount(bufferSize, |queue|) && events(j).Interrupted?
    ensures var d := Drain(queue, bufferSize, events);
      var k := FirstInterrupt(events, PollCount(bufferSize, |queue|));
      d.interrupted ==>
        d.batch == [] && k <= Taken(bufferSize, |queue|) &&
        d.rest == queue[k..] && queue[..k] + d.rest == queue
  {
  }

  /** A get entered with the interrupt flag still set removes nothing and
      returns nothing: on a bounded buffer its first poll throws, on an
      unbounded one no poll is made. */
  lemma DrainWithPendingInterrupt<T>(queue: seq<T>, bufferSize: int, events: nat -> PollEvent)
    ensures var d := Drain(queue, bufferSize, Observed(events, true));
      d.batch == [] && d.rest == queue && (d.interrupted <==> bufferSize > 0)
  {
    var observed := Observed(events, true);
    assert observed(0) == Interrupted;
  }

  /** A buffer filled with `n <= bufferSize` items, drained without
      interruption, hands back exactly those items and is left empty; for
      `n == 0` this is a drain of an empty buffer returning nothing. */
  lemma DrainAfterFill<T>(items: seq<T>, bufferSize: int, events: nat -> PollEvent)
    requires |items| <= bufferSize
    requires forall j :: 0 <= j < PollCount(bufferSize, |items|) ==> events(j).Completed?
    ensures Drain(items, bufferSize, events) == Drained(items, [], false)
  {
  }

  /** Timing never changes which items a drain returns or leaves behind:
      only the interruptions matter (the first interrupted poll is
      determined by which polls are interrupted). */
  lemma DrainIgnoresTiming<T>(queue: seq<T>, bufferSize: int, e1: nat -> PollEvent, e2: nat -> PollEvent)
    requires forall j :: 0 <= j < PollCount(bufferSize, |queue|) ==> (e1(j).Interrupted? <==> e2(j).Interrupted?)
    ensures Drain(queue, bufferSize, e1) == Drain(queue, bufferSize, e2)
  {
  }

  // ---------------------------------------------------------------------
  // The buffer
  // ---------------------------------------------------------------------

  class BlockingBuffer<T> {
    const bufferSize: int
    const maxWaitTime: int
    /** The kind of `bufferQueue`. */
    const capacity: Capacity
    /** The contents of `bufferQueue`, head first. */
    var storage: seq<T>
    /** The interrupt status of the (single) calling thread: set again by a
        `get` that caught an interruption, cleared by the next call that
        throws `InterruptedException` because of it. */
    var interruptPending: bool

    /** The object invariant: fixed configuration, and a bounded queue never
        holds more than `bufferSize` items. */
    ghost predicate Valid()
      reads this
      ensures Valid() ==> bufferSize != UNBOUNDED ==> 0 < bufferSize && |storage| <= bufferSize
    {
      SupportedSize(bufferSize) && maxWaitTime > 0 &&
      capacity == QueueFor(bufferSize) && capacity.Holds(|storage|)
    }

    /** `BlockingBuffer(bufferSize, maxWaitMillis)` once its argument check
        has passed. */
    constructor (bufferSize: int, maxWaitMillis: int)
      requires SupportedSize(bufferSize)
      requires maxWaitMillis > 0
      ensures Valid()
      ensures this.bufferSize == bufferSize && maxWaitTime == maxWaitMillis
      ensures storage == [] && !interruptPending
    {
      this.bufferSize := bufferSize;
      maxWaitTime := maxWaitMillis;
      capacity := QueueFor(bufferSize);
      storage := [];
      interruptPending := false;
    }

    /** `BlockingBuffer()`: ten items, a 100 ms wait budget. */
    constructor Default()
      ensures Valid()
      ensures bufferSize == 10 && maxWaitTime == 100
      ensures storage == [] && !interruptPending
    {
      bufferSize := DEFAULT_BUFFER_SIZE;
      maxWaitTime := DEFAULT_MAX_WAIT_MILLIS;
      capacity := QueueFor(DEFAULT_BUFFER_SIZE);
      storage := [];
      interruptPending := false;
    }

    /** `BlockingBuffer(bufferSize)`: a 100 ms wait budget. */
    constructor WithSize(bufferSize: int)
      requires SupportedSize(bufferSize)
      ensures Valid()
      ensures this.bufferSize == bufferSize && maxWaitTime == 100
      ensures storage == [] && !interruptPending
    {
      this.bufferSize := bufferSize;
      maxWaitTime := DEFAULT_MAX_WAIT_MILLIS;
      capacity := QueueFor(bufferSize);
      storage := [];
      interruptPending := false;
    }

    /** `new BlockingBuffer<>(bufferSize, maxWaitMillis)` with its argument
        check: a non-positive wait budget is rejected before the queue is
        allocated, whatever `bufferSize` is; otherwise `bufferSize` is
        stored as given. */
    static method Create(bufferSize: int, maxWaitMillis: int) returns (r: Result<BlockingBuffer<T>, Exception>)
      requires maxWaitMillis > 0 ==> SupportedSize(bufferSize)
      ensures r.Failure? <==> maxWaitMillis <= 0
      ensures r.Failure? ==> r.error == IllegalArgumentException(MAX_WAIT_MESSAGE)
      ensures r.Success? ==>
        fresh(r.value) && r.value.Valid() &&
        r.value.bufferSize == bufferSize && r.value.maxWaitTime == maxWaitMillis &&
        r.value.storage == [] && !r.value.interruptPending
    {
      if maxWaitMillis <= 0 {
        return Failure(IllegalArgumentException(MAX_WAIT_MESSAGE));
      }
      var b := new BlockingBuffer(bufferSize, maxWaitMillis);
      r := Success(b);
    }

    /** `add(elm)`: `put` at the tail. `put` takes its lock interruptibly, so
        a pending interrupt makes it throw (clearing the flag) without
        adding; otherwise a bounded queue that is full would block the
        producer, so the caller must leave room. */
    method Add(elm: T) returns (r: Result<(), Exception>)
      requires Valid()
      requires interruptPending || capacity.HasRoom(|storage|)
      modifies this
      ensures Valid() && !interruptPending
      ensures old(interruptPending) ==> r == Failure(InterruptedException) && storage == old(storage)
      ensures !old(interruptPending) ==> r == Success(()) && storage == old(storage) + [elm]
    {
      if interruptPending {
        interruptPending := false;
        return Failure(InterruptedException);
      }
      storage := storage + [elm];
      r := Success(());
    }

    /** `size()`: the number of queued items. */
    function Size(): (n: nat)
      reads this
      ensures n == |storage|
    {
      |storage|
    }

    /** `reset()`: clear the queue (its lock is not taken interruptibly). */
    method Reset()
      requires Valid()
      modifies this
      ensures Valid()
      ensures storage == [] && interruptPending == old(interruptPending)
    {
      storage := [];
    }

    /** `bufferQueue.poll(timeout, MILLISECONDS)` in a single-threaded run:
        a pending or arriving interruption throws, clears the flag and
        removes nothing; otherwise the head is taken, or `None` comes back
        once the timeout expires on an empty queue. The timeout never
        changes which of these happens. */
    method Poll(timeout: int, event: PollEvent) returns (r: Result<Option<T>, Exception>)
      requires Valid()
      modifies this
      ensures Valid() && !interruptPending
      ensures old(interruptPending) || event.Interrupted? ==>
        r == Failure(InterruptedException) && storage == old(storage)
      ensures !old(interruptPending) && event.Completed? && old(storage) == [] ==>
        r == Success(None) && storage == []
      ensures !old(interruptPending) && event.Completed? && old(storage) != [] ==>
        r == Success(Some(old(storage)[0])) && storage == old(storage)[1..]
    {
      if interruptPending || event.Interrupted? {
        interruptPending := false;
        return Failure(InterruptedException);
      }
      if storage == [] {
        return Success(None);
      }
      r := Success(Some(storage[0]));
      storage := storage[1..];
    }

    /** `waitAndGet()`: poll up to `bufferSize` times, stopping at the first
        timeout; `events(j)` is what poll `j` observes from outside. `waits`
        holds the timeout handed to each poll. */
    method WaitAndGet(events: nat -> PollEvent) returns (r: Result<seq<T>, Exception>, waits: seq<int>)
      requires Valid()
      modifies this
      ensures Valid()
      ensures var d := Drain(old(storage), bufferSize, Observed(events, old(interruptPending)));
        storage == d.rest &&
        (r.Failure? <==> d.interrupted) &&
        (r.Failure? ==> r.error == InterruptedException) &&
        (r.Success? ==> r.value == d.batch)
      ensures interruptPending == (old(interruptPending) && r.Success?)
      ensures |waits| == Attempts(bufferSize, |old(storage)|, Observed(events, old(interruptPending)))
      ensures forall j :: 0 <= j < |waits| ==>
        (j == 0 || events(j - 1).Completed?) && waits[j] == PollTimeout(maxWaitTime, events, j)
    {
      ghost var queue := storage;
      ghost var pending := interruptPending;
      ghost var observed := Observed(events, pending);
      var result: seq<T> := [];
      var remainingWait := maxWaitTime;
      waits := [];
      var i := 0;
      while i < bufferSize
        invariant Valid()
        invariant 0 <= i <= |queue|
        invariant bufferSize == UNBOUNDED ==> i == 0
        invariant i <= bufferSize || bufferSize < 0
        invariant interruptPending == pending && (pending ==> i == 0)
        invariant result == queue[..i] && storage == queue[i..]
        invariant forall j :: 0 <= j < i ==> observed(j).Completed? && events(j).Completed?
        invariant |waits| == i
        invariant forall j :: 0 <= j < i ==> waits[j] == PollTimeout(maxWaitTime, events, j)
        invariant remainingWait == PollTimeout(maxWaitTime, events, i)
      {
        waits := waits + [remainingWait];
        assert observed(i) == if pending && i == 0 then Interrupted else events(i);
        var el := Poll(remainingWait, events(i));
        if el.Failure? {
          ghost var polls := PollCount(bufferSize, |queue|);
          assert FirstInterrupt(observed, polls) == i;
          return Failure(InterruptedException), waits;
        }
        remainingWait := events(i).elapsed;
        if el.value.None? {
          assert i == |queue|;
          break;
        }
        result := result + [el.value.value];
        i := i + 1;
      }
      ghost var polls := PollCount(bufferSize, |queue|);
      assert FirstInterrupt(observed, polls) == polls;
      r := Success(result);
    }

    /** `get()`: one drain under the lock. An interruption is caught: the
        thread's interrupt flag is set again and the empty list is
        returned. */
    method Get(events: nat -> PollEvent) returns (batch: seq<T>)
      requires Valid()
      modifies this
      ensures Valid()
      ensures var d := Drain(old(storage), bufferSize, Observed(events, old(interruptPending)));
        batch == d.batch && storage == d.rest &&
        interruptPending == (old(interruptPending) || d.interrupted)
    {
      var r, _ := WaitAndGet(events);
      if r.Failure? {
        interruptPending := true;
        return [];
      }
      return r.value;
    }
  }
}
