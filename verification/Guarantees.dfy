/** What the queue promises its users, over every run and with every exact condition. */
module Guarantees {
  import opened Types
  import opened Slices
  import opened Arcs
  import opened BufferQueue
  import opened SampleSystem
  import opened Protocol

  // ---------- loss ----------

  /** A poll skips positions exactly when the receiver lags by more than `capacity - 1`. */
  lemma SkipsExactlyWhenLagging(s: System, r: nat, waker: nat)
    requires Inv(s) && r in s.readers
    ensures var before, after := s.readers[r], PollStep(s, r, waker).readers[r];
            var lag := s.queue.tailPos - before.readPos;
            && (after.skipped > before.skipped <==> lag > s.queue.capacity - 1)
            && (lag > s.queue.capacity - 1 ==> after.skipped - before.skipped == lag - (s.queue.capacity - 1))
  {
    hide Counted, SlotsOk, KeptOk, BlocksOk, ItemsOk, ProducerOk, AllHandles, ProtocolOk;
    ReaderFacts(s, r);
  }

  /** At every poll of r in the run, r lags by at most `capacity - 1`; r is not dropped. */
  predicate KeepsUp(s: System, run: seq<Action>, r: nat)
    requires Inv(s) && Runs(s, run)
    decreases |run|
  {
    && r in s.readers
    && (run != [] ==>
          && (run[0].Poll? && run[0].receiver == r ==>
                s.queue.tailPos - s.readers[r].readPos <= s.queue.capacity - 1)
          && (StepKeepsInv(s, run[0]); KeepsUp(Step(s, run[0]), run[1..], r)))
  }

  /** Other steps leave a receiver's accounts alone. */
  lemma OthersKeepAccounts(s: System, a: Action, r: nat)
    requires Inv(s) && Enabled(s, a) && r in s.readers
    requires !(a.Poll? && a.receiver == r) && a != DropReceiver(r)
    ensures var t := Step(s, a);
            r in t.readers && t.readers[r].(parked := None) == s.readers[r].(parked := None)
    ensures !a.Swap? ==> Step(s, a).readers[r] == s.readers[r]
  {
    hide MemoryOk, ReadersOk, WakersOk, CountersOk, AllocationOk, WaitOk;
  }

  lemma {:induction false} KeepingUpLosesNothing(s: System, run: seq<Action>, r: nat)
    requires Inv(s) && Runs(s, run) && KeepsUp(s, run, r)
    ensures r in After(s, run).readers
    ensures After(s, run).readers[r].skipped == s.readers[r].skipped
    ensures After(s, run).readers[r].startPos == s.readers[r].startPos
    decreases |run|
  {
    hide Inv, Step;
    if run != [] {
      var a := run[0];
      StepKeepsInv(s, a);
      KeepingUpLosesNothing(Step(s, a), run[1..], r);
      PollOrOther(s, a, r);
    }
  }

  lemma PollSkipsNothing(s: System, r: nat, waker: nat)
    requires Inv(s) && r in s.readers && s.queue.tailPos - s.readers[r].readPos <= s.queue.capacity - 1
    ensures var readers := PollStep(s, r, waker).readers;
            r in readers && readers[r].skipped == s.readers[r].skipped && readers[r].startPos == s.readers[r].startPos
  {
    hide Counted, SlotsOk, KeptOk, BlocksOk, ItemsOk, ProducerOk, AllHandles, ProtocolOk;
    ReaderFacts(s, r);
  }

  lemma PollOrOther(s: System, a: Action, r: nat)
    requires Inv(s) && Enabled(s, a) && r in s.readers && r in Step(s, a).readers
    requires a.Poll? && a.receiver == r ==> s.queue.tailPos - s.readers[r].readPos <= s.queue.capacity - 1
    ensures Step(s, a).readers[r].skipped == s.readers[r].skipped
    ensures Step(s, a).readers[r].startPos == s.readers[r].startPos
  {
    hide MemoryOk, ProtocolOk;
    if a.Poll? && a.receiver == r {
      PollSkipsNothing(s, r, a.waker);
    } else if a != DropReceiver(r) {
      OthersKeepAccounts(s, a, r);
    }
  }

  function Range(from: nat, to: nat): (p: seq<nat>)
    requires from <= to
    ensures |p| == to - from && forall i :: 0 <= i < |p| ==> p[i] == from + i
  {
    seq(to - from, i requires 0 <= i < to - from => from + i)
  }

  /** A receiver that skipped nothing was delivered every position since it started, in order. */
  lemma NothingSkippedMeansAll(r: Reader, head: nat, tail: nat)
    requires Accounted(r, head, tail) && r.skipped == 0
    ensures r.delivered == Range(r.startPos, r.readPos)
  {
    IncreasingIsSpread(r.delivered, r.startPos, r.readPos);
  }

  lemma {:induction false} IncreasingIsSpread(p: seq<nat>, from: nat, to: nat)
    requires from <= to && Increasing(p) && |p| == to - from
    requires forall x :: x in p ==> from <= x < to
    ensures p == Range(from, to)
    decreases |p|
  {
    if p != [] {
      var n := |p| - 1;
      var front := p[..n];
      assert p[n] in p;
      forall x | x in front ensures from <= x < to - 1 {
        var i :| 0 <= i < n && front[i] == x;
        assert p[i] in p && p[i] < p[n];
      }
      IncreasingIsSpread(front, from, to - 1);
      assert n > 0 ==> p[n - 1] == front[n - 1] == to - 2;
      assert p == front + [p[n]];
    }
  }

  // ---------- capacity one ----------

  ghost predicate NothingDelivered(s: System) {
    s.kept == map[] && forall r :: r in s.readers ==> s.readers[r].delivered == []
  }

  lemma CapacityOneStep(s: System, a: Action)
    requires Inv(s) && Enabled(s, a) && s.config.capacity == 1 && NothingDelivered(s)
    ensures Step(s, a).config == s.config && NothingDelivered(Step(s, a))
  {
    hide Counted, SlotsOk, KeptOk, BlocksOk, ItemsOk, ProducerOk, AllHandles;
    hide WakersOk, CountersOk, AllocationOk, WaitOk, NamesOk;
  }

  /** With one buffer a swap pops what it has just pushed, so no receiver ever gets anything. */
  lemma {:induction false} CapacityOneDeliversNothing(s: System, run: seq<Action>)
    requires Inv(s) && Runs(s, run) && s.config.capacity == 1 && NothingDelivered(s)
    ensures NothingDelivered(After(s, run))
    decreases |run|
  {
    hide Inv, Step, NothingDelivered;
    if run != [] {
      StepKeepsInv(s, run[0]);
      CapacityOneStep(s, run[0]);
      CapacityOneDeliversNothing(Step(s, run[0]), run[1..]);
    }
  }

  /** A poll hands out a buffer exactly when one is unread and the queue can hold buffers between swaps. */
  lemma ReadsExactly(s: System, r: nat, waker: nat)
    requires Inv(s) && r in s.readers
    ensures PollSection(s.queue, s.readers[r].readPos, r, waker).2.Ready?
      <==> s.readers[r].readPos < s.queue.tailPos && s.config.capacity > 1
  {
    hide Counted, SlotsOk, KeptOk, BlocksOk, ItemsOk, ProducerOk, AllHandles, ProtocolOk;
    ReaderFacts(s, r);
  }

  // ---------- allocation ----------

  lemma {:induction false} SlotNameCount(lo: nat, hi: nat)
    requires lo <= hi
    ensures |SlotNames(lo, hi)| == hi - lo
    decreases hi - lo
  {
    if lo == hi {
      assert SlotNames(lo, hi) == {};
    } else {
      SlotNameCount(lo, hi - 1);
      assert SlotNames(lo, hi) == SlotNames(lo, hi - 1) + {Slot(hi - 1)};
    }
  }

  lemma {:induction false} HeldNameCount(ids: set<nat>)
    ensures |HeldNames(ids)| == |ids|
  {
    if ids == {} {
      assert HeldNames(ids) == {};
    } else {
      var x :| x in ids;
      HeldNameCount(ids - {x});
      assert HeldNames(ids) == HeldNames(ids - {x}) + {Held(x)};
    }
  }

  lemma UnionSize<T>(a: set<T>, b: set<T>)
    ensures |a + b| <= |a| + |b|
  {
    assert |a + b| == |a| + |b - a|;
    SubsetSize(b - a, b);
  }

  lemma TogetherSize<T>(a: set<T>, b: set<T>, c: set<T>)
    ensures |Together(a, b, c)| <= |a| + |b| + |c|
  {
    var ab := a + b;
    UnionSize(a, b);
    UnionSize(ab, c);
  }

  lemma NameCount(s: System)
    ensures |Names(s)| <= |s.queue.slots| + |s.kept| + 1
  {
    hide SlotNames, HeldNames, ProducerNames, Together;
    var lo, hi := s.queue.headPos, s.queue.headPos + |s.queue.slots|;
    SlotNameCount(lo, hi);
    HeldNameCount(s.kept.Keys);
    TogetherSize(SlotNames(lo, hi), HeldNames(s.kept.Keys), ProducerNames(s.producer));
  }

  lemma HandleCount(s: System)
    ensures |AllHandles(s)| <= |s.queue.slots| + |s.kept| + 1
  {
    hide Names;
    NameCount(s);
    NamesAreLive(s);
    assert AllHandles(s).Keys == Names(s);
  }

  /**
   * Blocks made so far: one per swap until the queue was full, and one per evicted block that
   * was found shared. Blocks alive: at most the capacity and what consumers hold.
   */
  lemma AllocationBound(s: System)
    requires Inv(s)
    ensures s.mem.created == Min(s.swaps, s.config.capacity) + s.replaced
    ensures |s.mem.blocks| <= s.config.capacity + |s.kept|
  {
    hide SlotsOk, KeptOk, BlocksOk, ItemsOk, ProducerOk, ReadersOk, WakersOk, Counted, AllHandles, NamesOk;
    LiveBlocksBounded(s.mem, AllHandles(s));
    HandleCount(s);
  }

  // ---------- counting over runs ----------

  /** How many swaps of the run pushed, how many returned a buffer, and how many claims found the block shared. */
  datatype Tally = Tally(pushes: nat, swaps: nat, shared: nat)

  function StepTally(s: System, a: Action): Tally {
    if a.Swap? && !(s.queue.numReceivers == 0 && s.config.kind == DeviceReader) then
      Tally(if OwnedBuffer(s.producer).Some? then 1 else 0, 1, 0)
    else if a.Claim? && OwnedBuffer(s.producer).Some? then
      var block := OwnedBuffer(s.producer).value.block;
      Tally(0, 0, if block in s.mem.blocks && !Unique(s.mem, block) then 1 else 0)
    else Tally(0, 0, 0)
  }

  lemma OwnedBlock(s: System)
    requires Inv(s) && s.producer.Filling?
    ensures s.producer.buffer.block in s.mem.blocks
  {
    hide Counted, SlotsOk, KeptOk, ItemsOk, BlocksOk, AllHandles, ProtocolOk;
  }

  function RunTally(s: System, run: seq<Action>): Tally
    requires Inv(s) && Runs(s, run)
    decreases |run|
  {
    if run == [] then Tally(0, 0, 0)
    else
      StepKeepsInv(s, run[0]);
      var first, rest := StepTally(s, run[0]), RunTally(Step(s, run[0]), run[1..]);
      Tally(first.pushes + rest.pushes, first.swaps + rest.swaps, first.shared + rest.shared)
  }

  lemma StepCounts(s: System, a: Action)
    requires Inv(s) && Enabled(s, a)
    ensures var t, y := Step(s, a), StepTally(s, a);
            t.queue.tailPos == s.queue.tailPos + y.pushes && t.swaps == s.swaps + y.swaps
            && t.replaced == s.replaced + y.shared && t.config == s.config
  {
    hide MemoryOk, ProtocolOk;
    if a.Claim? {
      OwnedBlock(s);
    }
  }

  lemma {:induction false} RunCounts(s: System, run: seq<Action>)
    requires Inv(s) && Runs(s, run)
    ensures var t, y := After(s, run), RunTally(s, run);
            t.queue.tailPos == s.queue.tailPos + y.pushes && t.swaps == s.swaps + y.swaps
            && t.replaced == s.replaced + y.shared && t.config == s.config
    decreases |run|
  {
    hide Inv, Step, StepTally;
    if run != [] {
      StepKeepsInv(s, run[0]);
      StepCounts(s, run[0]);
      RunCounts(Step(s, run[0]), run[1..]);
    }
  }

  /**
   * The queue after any run from the start, by what happened in it: the tail counts the pushes,
   * the head trails it by `capacity - 1`, the blocks made are one per swap until the queue was
   * full and one per shared eviction, and the blocks alive are bounded.
   */
  lemma WholeRun(c: Config, run: seq<Action>)
    requires ConfigOk(c) && Runs(Start(c), run)
    ensures var t, y := After(Start(c), run), RunTally(Start(c), run);
            && t.queue.tailPos == |t.history| == y.pushes
            && t.queue.headPos == (if y.pushes < c.capacity then 0 else y.pushes - (c.capacity - 1))
            && |t.queue.slots| == t.queue.tailPos - t.queue.headPos <= c.capacity - 1
            && t.mem.created == Min(y.swaps, c.capacity) + y.shared
            && |t.mem.blocks| <= c.capacity + |t.kept|
  {
    hide Counted, SlotsOk, KeptOk, ItemsOk, BlocksOk, ProducerOk, AllHandles, ProtocolOk, Runs, RunTally;
    RunCounts(Start(c), run);
    AllocationBound(After(Start(c), run));
  }

  // ---------- tags ----------

  /** The reader thread's tags survive claiming exactly when the block was not shared, or were the defaults. */
  lemma TagsSurviveExactly(s: System, sampleRate: u32, sampleType: SampleType)
    requires Inv(s) && s.producer.Filling? && s.config.kind == DeviceReader && s.producer.buffer.block in s.mem.blocks
    ensures var b := ClaimStep(s, sampleRate, sampleType).producer.buffer;
            (b.sampleRate == sampleRate && b.sampleType == sampleType)
            <==> Unique(s.mem, s.producer.buffer.block) || (sampleRate == 0 && sampleType == IqSamples)
  {
    hide MemoryOk, ProtocolOk;
  }

  // ---------- wakeups ----------

  lemma ParkedIsRegistered(s: System, r: nat)
    requires Inv(s) && r in s.readers && s.readers[r].parked.Some?
    ensures s.readers[r].readPos == s.queue.tailPos == |s.history|
    ensures r in s.queue.wakers && s.queue.wakers[r] == s.readers[r].parked.value
  {
    WindowFacts(s);
    hide MemoryOk;
  }

  /**
   * No lost wakeup: after any run from a fresh channel, whoever sleeps has nothing to read, and
   * its latest waker is registered.
   */
  lemma ParkedHasNothingToRead(c: Config, run: seq<Action>, r: nat)
    requires ConfigOk(c) && Runs(Start(c), run)
    ensures var t := After(Start(c), run);
            r in t.readers && t.readers[r].parked.Some? ==>
              && t.readers[r].readPos == |t.history|
              && r in t.queue.wakers && t.queue.wakers[r] == t.readers[r].parked.value
  {
    var t := After(Start(c), run);
    hide Inv, Runs;
    if r in t.readers && t.readers[r].parked.Some? {
      ParkedIsRegistered(t, r);
    }
  }

  /** A poll that finds nothing parks the receiver under its latest waker. */
  lemma PollParks(s: System, r: nat, waker: nat)
    requires Inv(s) && r in s.readers && s.readers[r].readPos == |s.history| && !s.producer.Gone?
    ensures PollSection(s.queue, s.readers[r].readPos, r, waker).2.Pending?
    ensures var t := PollStep(s, r, waker);
            && r in t.readers && t.readers[r].parked == Some(waker)
            && r in t.queue.wakers && t.queue.wakers[r] == waker
  {
    ReaderFacts(s, r);
    WindowFacts(s);
    SendersAre(s);
    hide MemoryOk, ProtocolOk;
  }

  predicate Pushes(s: System, a: Action)
    requires Inv(s) && Enabled(s, a)
  {
    a.Swap? && s.producer.push.Some? && (s.queue.numReceivers > 0 || s.config.kind == NetworkReader)
  }

  /** A push wakes every parked receiver; until then nothing but its own poll or drop changes one. */
  lemma OnlyPushesWake(s: System, a: Action, r: nat)
    requires Inv(s) && Enabled(s, a) && r in s.readers && s.readers[r].parked.Some?
    requires !(a.Poll? && a.receiver == r) && a != DropReceiver(r)
    ensures r in Step(s, a).readers
    ensures if Pushes(s, a) then Step(s, a).readers[r].parked.None? else Step(s, a).readers[r] == s.readers[r]
  {
    hide MemoryOk, ProtocolOk;
    ParkedIsRegistered(s, r);
    if a.Swap? {
      SwapWakes(s, r);
    } else {
      OthersKeepAccounts(s, a, r);
    }
  }

  lemma SwapWakes(s: System, r: nat)
    requires Inv(s) && Enabled(s, Swap) && r in s.readers && r in s.queue.wakers
    ensures r in SwapStep(s).readers
    ensures if Pushes(s, Swap) then SwapStep(s).readers[r].parked.None? else SwapStep(s).readers[r] == s.readers[r]
  {
    hide MemoryOk, ProtocolOk;
  }

  /** Dropping the sender wakes nobody: a receiver parked then sleeps until it is polled again. */
  lemma {:induction false} ClosedSleepersSleep(s: System, run: seq<Action>, r: nat)
    requires Inv(s) && Runs(s, run) && s.producer.Gone?
    requires r in s.readers && s.readers[r].parked.Some?
    requires forall a :: a in run ==> !(a.Poll? && a.receiver == r) && a != DropReceiver(r)
    ensures var t := After(s, run); r in t.readers && t.readers[r] == s.readers[r]
    decreases |run|
  {
    hide Inv, Step;
    if run != [] {
      StepKeepsInv(s, run[0]);
      OnlyPushesWake(s, run[0], r);
      ClosedStays(s, run[0]);
      ClosedSleepersSleep(Step(s, run[0]), run[1..], r);
    }
  }

  // ---------- the blocked sender ----------

  ghost predicate Deserted(s: System) {
    s.subscribers == {} && s.readers == map[]
  }

  lemma DesertedIsCounted(s: System)
    requires Inv(s)
    ensures Deserted(s) <==> s.queue.numSubscribers == 0 && s.queue.numReceivers == 0
    ensures s.readers == map[] <==> s.queue.numReceivers == 0
  {
    hide MemoryOk, NamesOk, ReadersOk, WakersOk, AllocationOk, WaitOk;
    if |s.readers| == 0 {
      assert s.readers == map[];
    }
  }

  /**
   * The outcomes of a swap: the sender is told to stop exactly when it blocks and nobody is
   * left; it is put to sleep exactly when it blocks and there are subscribers but no receivers;
   * so a blocking sender pushes only while somebody receives, and the client never stops here.
   */
  lemma SwapOutcomes(s: System)
    requires Inv(s) && Enabled(s, Swap)
    ensures SwapStep(s).producer.Exited? <==> s.config.kind == DeviceReader && Deserted(s)
    ensures SwapStep(s).producer.Waiting?
      <==> s.config.kind == DeviceReader && s.readers == map[] && s.subscribers != {}
    ensures SwapStep(s).history != s.history ==> s.config.kind == NetworkReader || s.readers != map[]
  {
    hide MemoryOk, NamesOk, ReadersOk, WakersOk, AllocationOk, WaitOk, PushPending;
    DesertedIsCounted(s);
  }

  lemma DesertedStep(s: System, a: Action)
    requires Inv(s) && Enabled(s, a) && Deserted(s)
    ensures Deserted(Step(s, a))
  {
    hide MemoryOk, ProtocolOk;
  }

  /** Nobody comes back: once both counts are zero they stay zero. */
  lemma {:induction false} DesertedForever(s: System, run: seq<Action>)
    requires Inv(s) && Runs(s, run) && Deserted(s)
    ensures Deserted(After(s, run))
    decreases |run|
  {
    hide Inv, Step;
    if run != [] {
      StepKeepsInv(s, run[0]);
      DesertedStep(s, run[0]);
      DesertedForever(Step(s, run[0]), run[1..]);
    }
  }

  lemma UnnotifiedIsAlone(s: System)
    requires Inv(s) && s.producer.Waiting? && !s.producer.notified
    ensures s.readers == map[]
  {
    hide MemoryOk, NamesOk, ReadersOk, WakersOk, AllocationOk;
    DesertedIsCounted(s);
  }

  /**
   * No lost wakeup for the sender: after any run from a fresh channel, if it is asleep without a
   * pending notification, it has no receiver to serve.
   */
  lemma SleepingSenderHasNoReceiver(c: Config, run: seq<Action>)
    requires ConfigOk(c) && Runs(Start(c), run)
    ensures var t := After(Start(c), run);
            t.producer.Waiting? && !t.producer.notified ==> t.readers == map[]
  {
    var t := After(Start(c), run);
    hide Inv, Runs;
    if t.producer.Waiting? && !t.producer.notified {
      UnnotifiedIsAlone(t);
    }
  }

  /** The sender sleeps although everybody has left. */
  ghost predicate Stuck(s: System) {
    s.producer.Waiting? && !s.producer.notified && Deserted(s)
  }

  /**
   * The condition variable is meant to be notified when both counts drop to zero, but dropping
   * a subscriber does not do so: the sender gets stuck exactly when the last subscriber is
   * dropped while the sender sleeps without a pending notification.
   */
  lemma StuckExactly(s: System, a: Action)
    requires Inv(s) && Enabled(s, a) && !Stuck(s)
    ensures Stuck(Step(s, a))
      <==> a.DropSubscriber? && s.subscribers == {a.subscriber} && s.producer.Waiting? && !s.producer.notified
  {
    match a {
      case DropSubscriber(i) => DropSubscriberSticks(s, i);
      case DropReceiver(r) => DropReceiverNotifies(s, r);
      case Swap =>
        StepOfSwap(s);
        SwapOutcomes(s);
      case _ => OthersDoNotStick(s, a);
    }
    hide MemoryOk, ProtocolOk, SwapStep, DropReceiverStep;
  }

  lemma DropSubscriberSticks(s: System, i: nat)
    requires Inv(s) && i in s.subscribers
    ensures Stuck(Step(s, DropSubscriber(i)))
      <==> s.subscribers == {i} && s.producer.Waiting? && !s.producer.notified
  {
    hide MemoryOk, NamesOk, ReadersOk, WakersOk, AllocationOk;
    DesertedIsCounted(s);
  }

  lemma OthersDoNotStick(s: System, a: Action)
    requires Inv(s) && Enabled(s, a) && !Stuck(s) && !a.DropSubscriber? && !a.DropReceiver? && !a.Swap?
    ensures !Stuck(Step(s, a))
  {
    hide MemoryOk, ProtocolOk;
  }

  lemma DropReceiverNotifies(s: System, r: nat)
    requires Inv(s) && r in s.readers
    ensures !Stuck(DropReceiverStep(s, r))
  {
    hide MemoryOk, NamesOk, ReadersOk, WakersOk, AllocationOk;
    DesertedIsCounted(s);
  }

  lemma StuckStep(s: System, a: Action)
    requires Inv(s) && Enabled(s, a) && Stuck(s)
    ensures Stuck(Step(s, a)) && OnBuffers(a)
  {
    hide MemoryOk, ProtocolOk;
  }

  /** A stuck sender never runs again: only consumers' buffers can still be used. */
  lemma {:induction false} StuckForever(s: System, run: seq<Action>)
    requires Inv(s) && Runs(s, run) && Stuck(s)
    ensures Stuck(After(s, run)) && forall a :: a in run ==> OnBuffers(a)
    decreases |run|
  {
    hide Inv, Step, Stuck;
    if run != [] {
      StepKeepsInv(s, run[0]);
      StuckStep(s, run[0]);
      StuckForever(Step(s, run[0]), run[1..]);
    }
  }

  // ---------- draining after close ----------

  lemma ClosedStays(s: System, a: Action)
    requires Inv(s) && Enabled(s, a) && s.producer.Gone?
    ensures var t := Step(s, a);
            && t.producer.Gone? && t.history == s.history
            && t.queue.slots == s.queue.slots
            && t.queue.headPos == s.queue.headPos && t.queue.tailPos == s.queue.tailPos
    ensures !a.Swap?
  {
    hide MemoryOk, ProtocolOk;
  }

  function PollsOf(run: seq<Action>, r: nat): nat {
    if run == [] then 0 else (if run[0].Poll? && run[0].receiver == r then 1 else 0) + PollsOf(run[1..], r)
  }

  /** How far r has drained a closed queue after k polls. */
  function DrainedTo(s: System, r: nat, k: nat): nat
    requires r in s.readers && s.queue.headPos <= s.queue.tailPos && s.readers[r].readPos <= s.queue.tailPos
  {
    if k == 0 then s.readers[r].readPos
    else Min(Max(s.readers[r].readPos, s.queue.headPos) + k, s.queue.tailPos)
  }

  lemma ClosedPoll(s: System, r: nat, waker: nat)
    requires Inv(s) && r in s.readers && s.producer.Gone?
    ensures var start, t := Max(s.readers[r].readPos, s.queue.headPos), PollStep(s, r, waker);
            && start <= s.queue.tailPos && s.queue.headPos <= s.queue.tailPos
            && r in t.readers && t.readers[r].parked.None?
            && t.readers[r].readPos == Min(start + 1, s.queue.tailPos)
            && t.readers[r].delivered == s.readers[r].delivered + (if start < s.queue.tailPos then [start] else [])
  {
    hide MemoryOk, NamesOk, WaitOk, AllocationOk, WakersOk, ReadersOk;
    ReaderFacts(s, r);
  }

  /**
   * Draining: once the sender is gone, whatever else happens in between, k polls of a receiver
   * deliver the next positions of what is left in the queue, in order, and nothing else; the
   * polls after the last one yield the end. Nobody is parked any more by these polls.
   */
  lemma {:induction false} DrainsExactly(s: System, run: seq<Action>, r: nat)
    requires Inv(s) && Runs(s, run) && s.producer.Gone? && r in s.readers
    requires DropReceiver(r) !in run
    ensures s.queue.headPos <= s.queue.tailPos && s.readers[r].readPos <= s.queue.tailPos
    ensures var t, k := After(s, run), PollsOf(run, r);
            var start := Max(s.readers[r].readPos, s.queue.headPos);
            && r in t.readers && start <= s.queue.tailPos
            && t.readers[r].readPos == DrainedTo(s, r, k)
            && t.readers[r].delivered == s.readers[r].delivered + Range(start, Max(start, DrainedTo(s, r, k)))
            && (k > 0 || s.readers[r].parked.None? ==> t.readers[r].parked.None?)
    decreases |run|
  {
    hide Inv, Step;
    ReaderFacts(s, r);
    if run != [] {
      var a := run[0];
      StepKeepsInv(s, a);
      ClosedStays(s, a);
      var u := Step(s, a);
      if a.Poll? && a.receiver == r {
        StepOfPoll(s, r, a.waker);
        ClosedPoll(s, r, a.waker);
      } else {
        OthersKeepAccounts(s, a, r);
      }
      DrainsExactly(u, run[1..], r);
      DrainJoins(s, u, r, PollsOf(run[1..], r), a.Poll? && a.receiver == r);
    }
  }

  /** Positions drained by the first step and by the rest, put together. */
  lemma DrainJoins(s: System, u: System, r: nat, k: nat, polled: bool)
    requires r in s.readers && r in u.readers
    requires s.queue.headPos == u.queue.headPos <= s.queue.tailPos == u.queue.tailPos
    requires s.readers[r].readPos <= s.queue.tailPos && u.readers[r].readPos <= s.queue.tailPos
    requires var start := Max(s.readers[r].readPos, s.queue.headPos);
             if polled
             then u.readers[r].readPos == Min(start + 1, s.queue.tailPos)
               && u.readers[r].delivered == s.readers[r].delivered + (if start < s.queue.tailPos then [start] else [])
             else u.readers[r].readPos == s.readers[r].readPos && u.readers[r].delivered == s.readers[r].delivered
    ensures var start, start' := Max(s.readers[r].readPos, s.queue.headPos), Max(u.readers[r].readPos, s.queue.headPos);
            var k' := k + if polled then 1 else 0;
            && DrainedTo(u, r, k) == DrainedTo(s, r, k')
            && u.readers[r].delivered + Range(start', Max(start', DrainedTo(u, r, k)))
               == s.readers[r].delivered + Range(start, Max(start, DrainedTo(s, r, k')))
  {
  }

  lemma {:induction false} NoPolls(run: seq<Action>, r: nat)
    ensures PollsOf(run, r) == 0 <==> forall a :: a in run ==> !(a.Poll? && a.receiver == r)
  {
    if run != [] {
      NoPolls(run[1..], r);
      assert run == [run[0]] + run[1..];
    }
  }

  /** After the sender is gone, a receiver sleeps exactly when it was parked then and was not polled since. */
  lemma SleepsExactly(s: System, run: seq<Action>, r: nat)
    requires Inv(s) && Runs(s, run) && s.producer.Gone? && r in s.readers && DropReceiver(r) !in run
    ensures r in After(s, run).readers
    ensures After(s, run).readers[r].parked.Some? <==> s.readers[r].parked.Some? && PollsOf(run, r) == 0
  {
    hide Inv, Step;
    DrainsExactly(s, run, r);
    NoPolls(run, r);
    if s.readers[r].parked.Some? && PollsOf(run, r) == 0 {
      ClosedSleepersSleep(s, run, r);
    }
  }
}
