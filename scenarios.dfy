/**
 * Single-threaded uses of the buffer, each stated as what its caller
 * observes. They follow the sequential unit tests of the repository and
 * the edge behaviours of the drain loop.
 */
module BufferScenarios {
  import opened Wrappers
  import opened Buffer

  /** Ten items added to a default buffer come back in insertion order in
      one batch, and a second drain finds nothing. */
  method AddTenThenGet(events: nat -> PollEvent) returns (first: seq<int>, second: seq<int>)
    requires forall j :: events(j).Completed?
    ensures first == [0, 1, 2, 3, 4, 5, 6, 7, 8, 9]
    ensures second == []
  {
    var buffer := new BlockingBuffer<int>.Default();
    var i := 0;
    while i < 10
      invariant 0 <= i <= 10
      invariant buffer.Valid() && buffer.bufferSize == 10 && !buffer.interruptPending
      invariant buffer.storage == seq(i, k => k)
    {
      var _ := buffer.Add(i);
      i := i + 1;
    }
    first := buffer.Get(events);
    DrainAfterFill(seq(10, k => k), 10, events);
    second := buffer.Get(events);
  }

  /** `size()` counts the items added: 1 after one `add`, 2 after two. */
  method SizeAfterAdds() returns (afterOne: int, afterTwo: int)
    ensures afterOne == 1 && afterTwo == 2
  {
    var buffer := new BlockingBuffer<int>.Default();
    var _ := buffer.Add(1);
    afterOne := buffer.Size();
    var _ := buffer.Add(2);
    afterTwo := buffer.Size();
  }

  /** A drain of an empty buffer times out on its first poll and returns
      the empty list, leaving the interrupt flag clear. */
  method GetFromEmpty(events: nat -> PollEvent) returns (batch: seq<int>, interrupted: bool)
    requires events(0).Completed?
    ensures batch == [] && !interrupted
  {
    var buffer := new BlockingBuffer<int>.Default();
    batch := buffer.Get(events);
    interrupted := buffer.interruptPending;
  }

  /** `reset()` empties a buffer, after which `size()` is 0 and a drain
      returns nothing. */
  method ResetThenSize(events: nat -> PollEvent) returns (before: int, after: int, batch: seq<int>)
    requires events(0).Completed?
    ensures before == 3 && after == 0 && batch == []
  {
    var buffer := new BlockingBuffer<int>.Default();
    var _ := buffer.Add(7);
    var _ := buffer.Add(8);
    var _ := buffer.Add(9);
    before := buffer.Size();
    buffer.Reset();
    after := buffer.Size();
    batch := buffer.Get(events);
  }

  /** With the unbounded sentinel, thirty added items stay queued: the
      counted loop makes no iteration, so `get` returns the empty list. */
  method UnboundedGetReturnsNothing(events: nat -> PollEvent) returns (batch: seq<int>, left: int)
    ensures batch == [] && left == 30
  {
    var buffer := new BlockingBuffer<int>(UNBOUNDED, 500);
    var i := 0;
    while i < 30
      invariant 0 <= i <= 30
      invariant buffer.Valid() && buffer.bufferSize == UNBOUNDED && !buffer.interruptPending
      invariant |buffer.storage| == i
    {
      var _ := buffer.Add(i);
      i := i + 1;
    }
    batch := buffer.Get(events);
    left := buffer.Size();
  }

  /** An interruption at the third poll of a drain loses the two items
      already polled: the call returns nothing, sets the interrupt flag
      again, and only the third item is still queued. */
  method InterruptedGetLosesPolled() returns (batch: seq<int>, interrupted: bool, left: seq<int>)
    ensures batch == [] && interrupted
    ensures left == [3]
  {
    var buffer := new BlockingBuffer<int>.Default();
    var _ := buffer.Add(1);
    var _ := buffer.Add(2);
    var _ := buffer.Add(3);
    var events := (j: nat) => if j == 2 then Interrupted else Completed(0);
    assert FirstInterrupt(events, 4) == 2;
    batch := buffer.Get(events);
    interrupted := buffer.interruptPending;
    left := buffer.storage;
  }

  /** The flag that an interrupted `get` sets again is seen by the same
      thread's next calls: the next `get` returns nothing and removes
      nothing, the `add` after it throws without queueing its item (and
      clears the flag), and only the `add` after that succeeds. */
  method CallsAfterInterruptedGet(events: nat -> PollEvent)
    returns (second: seq<int>, refused: Result<(), Exception>, accepted: Result<(), Exception>, left: seq<int>)
    requires forall j :: events(j).Completed?
    ensures second == []
    ensures refused == Failure(InterruptedException)
    ensures accepted == Success(())
    ensures left == [1, 2, 5]
  {
    var buffer := new BlockingBuffer<int>.Default();
    var _ := buffer.Add(1);
    var _ := buffer.Add(2);
    var interruptAll := (j: nat) => Interrupted;
    assert FirstInterrupt(interruptAll, 3) == 0;
    var first := buffer.Get(interruptAll);
    assert first == [] && buffer.interruptPending && buffer.storage == [1, 2];
    second := buffer.Get(events);
    DrainWithPendingInterrupt([1, 2], 10, events);
    refused := buffer.Add(4);
    accepted := buffer.Add(5);
    left := buffer.storage;
  }

  /** The wait bookkeeping as written: the first poll may wait the full
      100 ms budget and every later poll is given the time its predecessor
      took, so polls that each take 90 ms are granted 100, 90, 90 and 90 ms,
      well beyond one 100 ms window. */
  method OverwrittenWait() returns (items: seq<int>, waits: seq<int>)
    ensures items == [1, 2, 3]
    ensures waits == [100, 90, 90, 90]
  {
    var buffer := new BlockingBuffer<int>.Default();
    var _ := buffer.Add(1);
    var _ := buffer.Add(2);
    var _ := buffer.Add(3);
    var events := (j: nat) => Completed(90);
    assert FirstInterrupt(events, 4) == 4;
    var r;
    r, waits := buffer.WaitAndGet(events);
    items := r.value;
    assert waits[0] == 100 && waits[1] == 90 && waits[2] == 90 && waits[3] == 90;
  }
}
