/** Which states can be reached from a fresh channel: the failures reported elsewhere do happen. */
module Reachability {
  import opened Types
  import opened Slices
  import opened Arcs
  import opened BufferQueue
  import opened SampleSystem
  import opened Recycling
  import opened Protocol
  import opened Guarantees

  /** The run leads from a fresh channel to t. */
  ghost predicate Reaches(c: Config, run: seq<Action>, t: System)
    requires ConfigOk(c)
  {
    Runs(Start(c), run) && After(Start(c), run) == t
  }

  lemma ReachesStart(c: Config)
    requires ConfigOk(c)
    ensures Reaches(c, [], Start(c))
  {
    hide Inv;
  }

  lemma ReachesMore(c: Config, run: seq<Action>, s: System, a: Action)
    requires ConfigOk(c) && Reaches(c, run, s) && Inv(s) && Enabled(s, a)
    ensures Inv(Step(s, a)) && Reaches(c, run + [a], Step(s, a))
  {
    hide Inv, Step;
    RunExtends(Start(c), run, a);
    StepKeepsInv(s, a);
  }

  // ---------- a producer round ----------

  /** With a receiver there, a swap pushes, and pops the oldest slot when the queue is full. */
  lemma PushAndPop(s: System)
    requires Inv(s) && s.producer.Swapping? && s.producer.push.Some? && s.readers != map[]
    ensures var t, slots := Step(s, Swap), s.queue.slots + [s.producer.push.value];
            && t.producer.Filling? && t.readers.Keys == s.readers.Keys && t.config == s.config
            && t.kept == s.kept && t.nextName == s.nextName && t.queue.tailPos == s.queue.tailPos + 1
            && (forall r :: r in s.readers ==> t.readers[r].readPos == s.readers[r].readPos)
            && |slots| <= s.config.capacity
            && if |slots| < s.config.capacity then t.queue.slots == slots else t.producer.buffer == slots[0]
  {
    WindowFacts(s);
    DesertedIsCounted(s);
    StepOfSwap(s);
    hide MemoryOk, ProtocolOk, Step;
  }

  /** With a receiver there, the producer claims, finishes and swaps: one push, and the next buffer. */
  lemma Round(c: Config, run: seq<Action>, s: System) returns (longer: seq<Action>, t: System)
    requires ConfigOk(c) && Reaches(c, run, s) && Inv(s)
    requires s.producer.Filling? && s.readers != map[] && s.config == c
    ensures Reaches(c, longer, t) && Inv(t) && run <= longer
    ensures t.producer.Filling? && t.readers.Keys == s.readers.Keys && t.config == c
    ensures t.kept == s.kept && t.nextName == s.nextName && t.queue.tailPos == s.queue.tailPos + 1
    ensures forall r :: r in s.readers ==> t.readers[r].readPos == s.readers[r].readPos
    ensures |s.queue.slots| < c.capacity
    ensures if |s.queue.slots| + 1 < c.capacity
            then s.queue.slots < t.queue.slots && |t.queue.slots| == |s.queue.slots| + 1
            else s.queue.slots != [] ==> t.producer.buffer == s.queue.slots[0]
  {
    hide MemoryOk, ProtocolOk;
    var claim, finish := Claim(0, IqSamples), Finish(c.bufferSize, 0, IqSamples);
    ReachesMore(c, run, s, claim);
    var u := Step(s, claim);
    ReachesMore(c, run + [claim], u, finish);
    var v := Step(u, finish);
    ReachesMore(c, run + [claim] + [finish], v, Swap);
    PushAndPop(v);
    longer, t := run + [claim] + [finish] + [Swap], Step(v, Swap);
  }

  /** One receiver has joined at position zero, and the producer has its first buffer. */
  lemma FirstBuffer(c: Config) returns (run: seq<Action>, t: System)
    requires ConfigOk(c)
    ensures Reaches(c, run, t) && Inv(t)
    ensures t.producer.Filling? && t.config == c && t.kept == map[] && t.queue.slots == [] && t.queue.tailPos == 0
    ensures t.readers == map[0 := Reader(0, 0, [], 0, None)]
  {
    hide MemoryOk, ProtocolOk;
    ReachesStart(c);
    ReachesMore(c, [], Start(c), Subscribe(0));
    var s := Step(Start(c), Subscribe(0));
    ReachesMore(c, [] + [Subscribe(0)], s, Swap);
    run, t := [] + [Subscribe(0)] + [Swap], Step(s, Swap);
    WindowFacts(s);
  }

  /** With room for a second buffer, the first one pushed is read while it stays in the queue. */
  lemma FirstRead(c: Config) returns (run: seq<Action>, t: System, id: nat)
    requires ConfigOk(c) && c.capacity > 1
    ensures Reaches(c, run, t) && Inv(t)
    ensures t.producer.Filling? && t.readers != map[] && t.config == c
    ensures id in t.kept && t.queue.slots != [] && t.kept[id].buffer.block == t.queue.slots[0].block
    ensures !NothingDelivered(t)
  {
    hide Inv, Reaches;
    var start, s;
    run, start := FirstBuffer(c);
    assert 0 in start.readers;
    run, s := Round(c, run, start);
    FirstPoll(s);
    ReachesMore(c, run, s, Poll(0, 0));
    run, t, id := run + [Poll(0, 0)], Step(s, Poll(0, 0)), s.nextName;
  }

  /** A receiver at position zero reads the oldest slot, which then has a second handle. */
  lemma FirstPoll(s: System)
    requires Inv(s) && 0 in s.readers && s.readers[0].readPos == 0 && s.queue.tailPos == 1 && s.config.capacity > 1
    ensures var t := Step(s, Poll(0, 0));
            && t.config == s.config && t.producer == s.producer && 0 in t.readers && t.readers[0].delivered != []
            && s.nextName in t.kept && t.queue.slots != []
            && t.kept[s.nextName].buffer.block == t.queue.slots[0].block
  {
    WindowFacts(s);
    ReaderFacts(s, 0);
    hide MemoryOk, ProtocolOk;
    StepOfPoll(s, 0, 0);
  }

  // ---------- contents ----------

  /** Whatever a read puts into the first block, of any length it may have, can be pushed, with its tags. */
  lemma AnyReadIsPushed(c: Config, bytes: seq<u8>, n: nat, sampleRate: u32, sampleType: SampleType)
    returns (run: seq<Action>, t: System)
    requires ConfigOk(c) && |bytes| == c.bufferSize && 0 < n <= c.bufferSize && n % 2 == 0
    requires c.kind == NetworkReader ==> n == c.bufferSize
    ensures Reaches(c, run, t) && t.history == [Item(bytes[..n], sampleRate, sampleType)]
  {
    hide MemoryOk, ProtocolOk, Reaches;
    var s;
    run, s := FirstBlock(c);
    var claim, fill, finish := Claim(sampleRate, sampleType), Fill(bytes), Finish(n, sampleRate, sampleType);
    ReachesMore(c, run, s, claim);
    ReachesMore(c, run + [claim], Step(s, claim), fill);
    var u := Step(Step(s, claim), fill);
    ReachesMore(c, run + [claim] + [fill], u, finish);
    var v := Step(u, finish);
    ReachesMore(c, run + [claim] + [fill] + [finish], v, Swap);
    SwapPublishes(v);
    run, t := run + [claim] + [fill] + [finish] + [Swap], Step(v, Swap);
  }

  /** The first buffer of the producer is around a block of its own. */
  lemma FirstBlock(c: Config) returns (run: seq<Action>, t: System)
    requires ConfigOk(c)
    ensures Reaches(c, run, t) && Inv(t) && t.config == c && t.history == [] && t.readers != map[]
    ensures t.producer == Filling(NewBuffer(0)) && 0 in t.mem.blocks && Unique(t.mem, 0)
    ensures |t.mem.blocks[0].bytes| == c.bufferSize
  {
    hide MemoryOk, ProtocolOk;
    ReachesStart(c);
    ReachesMore(c, [], Start(c), Subscribe(0));
    var s := Step(Start(c), Subscribe(0));
    ReachesMore(c, [] + [Subscribe(0)], s, Swap);
    run, t := [] + [Subscribe(0)] + [Swap], Step(s, Swap);
    WindowFacts(s);
    assert 0 in t.readers;
  }

  lemma SwapPublishes(s: System)
    requires Inv(s) && s.producer.Swapping? && s.producer.push.Some? && s.readers != map[]
    ensures var b := s.producer.push.value;
            && b.block in s.mem.blocks && b.start <= b.end <= |s.mem.blocks[b.block].bytes|
            && Step(s, Swap).history == s.history + [ItemOf(s.mem, b)]
  {
    PushFits(s);
    DesertedIsCounted(s);
    StepOfSwap(s);
    hide MemoryOk, ProtocolOk, Step;
  }

  // ---------- waiting and going on ----------

  /** A notified sender can always go on, and if there is a receiver it gets a buffer to fill. */
  lemma NotifiedGoesOn(s: System)
    requires Inv(s) && s.producer.Waiting? && s.producer.notified
    ensures Enabled(s, Swap)
    ensures s.readers != map[] ==> Step(s, Swap).producer.Filling?
    ensures Deserted(s) ==> Step(s, Swap).producer.Exited?
  {
    StepOfSwap(s);
    DesertedIsCounted(s);
    hide MemoryOk, ProtocolOk, Step;
  }

  /**
   * The device reader can wait for its first receiver, be notified by it and go on to deliver to
   * it, for every capacity that delivers at all.
   */
  lemma WaitsAndDelivers(c: Config) returns (run: seq<Action>, t: System)
    requires ConfigOk(c) && c.kind == DeviceReader && c.capacity > 1
    ensures [Swap, Subscribe(0), Swap] <= run && Reaches(c, run, t) && !NothingDelivered(t)
    ensures exists waiting :: Reaches(c, [Swap], waiting) && waiting.producer == Waiting(None, false)
  {
    hide Inv, Reaches;
    var s := NotifiedBySubscribe(c);
    run := [Swap, Subscribe(0), Swap];
    var u;
    run, u := Round(c, run, s);
    FirstPoll(u);
    ReachesMore(c, run, u, Poll(0, 0));
    run, t := run + [Poll(0, 0)], Step(u, Poll(0, 0));
  }

  lemma NotifiedBySubscribe(c: Config) returns (t: System)
    requires ConfigOk(c) && c.kind == DeviceReader
    ensures exists waiting :: Reaches(c, [Swap], waiting) && waiting.producer == Waiting(None, false)
    ensures Reaches(c, [Swap, Subscribe(0), Swap], t) && Inv(t)
    ensures t.producer.Filling? && t.config == c && t.queue.tailPos == 0
    ensures 0 in t.readers && t.readers[0].readPos == 0
  {
    hide MemoryOk, ProtocolOk;
    ReachesStart(c);
    ReachesMore(c, [], Start(c), Swap);
    var s := Step(Start(c), Swap);
    assert [] + [Swap] == [Swap];
    ReachesMore(c, [Swap], s, Subscribe(0));
    var u := Step(s, Subscribe(0));
    NotifiedGoesOn(u);
    ReachesMore(c, [Swap] + [Subscribe(0)], u, Swap);
    t := Step(u, Swap);
    assert [Swap] + [Subscribe(0)] + [Swap] == [Swap, Subscribe(0), Swap];
  }

  // ---------- delivery ----------

  /** Some run delivers something to a receiver exactly when the capacity is more than one. */
  lemma DeliversExactly(c: Config)
    requires ConfigOk(c)
    ensures (exists run, t :: Reaches(c, run, t) && !NothingDelivered(t)) <==> c.capacity > 1
  {
    hide Inv;
    if c.capacity > 1 {
      var run, t, _ := FirstRead(c);
    } else {
      forall run, t | Reaches(c, run, t) ensures NothingDelivered(t) {
        CapacityOneDeliversNothing(Start(c), run);
      }
    }
  }

  // ---------- shared evictions ----------

  /** The producer has got back a block that a consumer still holds, so claiming replaces it. */
  ghost predicate GotSharedBlock(s: System) {
    && s.producer.Filling? && s.producer.buffer.block in s.mem.blocks
    && !Unique(s.mem, s.producer.buffer.block)
  }

  /** Two handles on the producer's block. */
  lemma SharedIsNotUnique(s: System, id: nat)
    requires Inv(s) && s.producer.Filling? && id in s.kept && s.kept[id].buffer.block == s.producer.buffer.block
    ensures GotSharedBlock(s)
  {
    hide SlotsOk, KeptOk, BlocksOk, ItemsOk, WindowOk, ProtocolOk, AllHandles, Counted;
    assert Live(s, Held(id)) && Live(s, Producing);
    if Unique(s.mem, s.producer.buffer.block) {
      UniqueHolder(s.mem, AllHandles(s), Producing);
    }
  }

  /** Rounds go on until the first slot, held by a consumer, is evicted. */
  lemma {:induction false} EvictShared(c: Config, run: seq<Action>, s: System, id: nat)
    returns (longer: seq<Action>, t: System)
    requires ConfigOk(c) && Reaches(c, run, s) && Inv(s)
    requires s.producer.Filling? && s.readers != map[] && s.config == c
    requires id in s.kept && s.queue.slots != [] && s.kept[id].buffer.block == s.queue.slots[0].block
    ensures Reaches(c, longer, t) && Inv(t) && GotSharedBlock(t)
    decreases c.capacity - |s.queue.slots|
  {
    hide Inv, Reaches;
    longer, t := Round(c, run, s);
    if |s.queue.slots| + 1 < c.capacity {
      longer, t := EvictShared(c, longer, t, id);
    } else {
      SharedIsNotUnique(t, id);
    }
  }

  /** Without slots and consumers the producer's block has one handle. */
  lemma AloneIsUnique(s: System)
    requires Inv(s) && s.producer.Filling? && s.config.capacity == 1 && s.kept == map[]
    ensures !GotSharedBlock(s)
  {
    hide SlotsOk, KeptOk, BlocksOk, ItemsOk, ProtocolOk;
    var b, h := s.producer.buffer.block, AllHandles(s);
    if b in s.mem.blocks {
      assert Refs(h, b) == {Producing} by {
        assert s.queue.slots == [];
        forall n | n in h ensures n == Producing {
          assert Live(s, n);
        }
        assert Live(s, Producing);
      }
      assert |Refs(h, b)| == 1;
    }
  }

  /**
   * The reader thread can lose its tags, and a producer has to replace a block, exactly when
   * the capacity is more than one: only then some run evicts a block that is still held.
   */
  lemma SharedEvictionsExactly(c: Config)
    requires ConfigOk(c)
    ensures (exists run, t :: Reaches(c, run, t) && GotSharedBlock(t)) <==> c.capacity > 1
  {
    hide Inv;
    if c.capacity > 1 {
      var run, s, id := FirstRead(c);
      var longer, t := EvictShared(c, run, s, id);
    } else {
      forall run, t | Reaches(c, run, t) ensures !GotSharedBlock(t) {
        CapacityOneDeliversNothing(Start(c), run);
        RunCounts(Start(c), run);
        if t.producer.Filling? {
          AloneIsUnique(t);
        }
      }
    }
  }

  /** Claiming in this state would not keep these tags. */
  ghost predicate LosesTags(s: System, sampleRate: u32, sampleType: SampleType) {
    && Inv(s) && s.producer.Filling?
    && var b := ClaimStep(s, sampleRate, sampleType).producer.buffer;
       b.sampleRate != sampleRate || b.sampleType != sampleType
  }

  /** So the reader thread can lose tags that are not the defaults exactly when the capacity is more than one. */
  lemma TagsLostExactly(c: Config, sampleRate: u32, sampleType: SampleType)
    requires ConfigOk(c) && c.kind == DeviceReader && !(sampleRate == 0 && sampleType == IqSamples)
    ensures (exists run, t :: Reaches(c, run, t) && LosesTags(t, sampleRate, sampleType)) <==> c.capacity > 1
  {
    hide MemoryOk, ProtocolOk, ClaimStep;
    SharedEvictionsExactly(c);
    forall run, t | Reaches(c, run, t) ensures LosesTags(t, sampleRate, sampleType) <==> GotSharedBlock(t) {
      RunCounts(Start(c), run);
      if t.producer.Filling? {
        OwnedBlock(t);
        TagsSurviveExactly(t, sampleRate, sampleType);
      }
    }
  }

  // ---------- sleepers ----------

  /** A receiver that finds nothing is parked. */
  lemma ParkFirst(c: Config, waker: nat) returns (run: seq<Action>, t: System)
    requires ConfigOk(c)
    ensures Reaches(c, run, t) && Inv(t) && t.producer.Filling? && 0 in t.readers
    ensures t.readers[0].parked == Some(waker)
  {
    hide MemoryOk, ProtocolOk;
    var s;
    run, s := FirstBuffer(c);
    StepOfPoll(s, 0, waker);
    SendersAre(s);
    ReadsExactly(s, 0, waker);
    ReachesMore(c, run, s, Poll(0, waker));
    run, t := run + [Poll(0, waker)], Step(s, Poll(0, waker));
  }

  /** A producer that fails after claiming leaves. */
  lemma ProducerLeaves(s: System)
    requires Inv(s) && s.producer.Filling?
    ensures var claimed := Step(s, Claim(0, IqSamples));
            && Inv(claimed) && Enabled(claimed, Abort)
            && var failed := Step(claimed, Abort);
               && Inv(failed) && Enabled(failed, DropSender)
               && Step(failed, DropSender).producer.Gone? && Step(failed, DropSender).readers == s.readers
  {
    hide MemoryOk, ProtocolOk;
    StepKeepsInv(s, Claim(0, IqSamples));
    StepKeepsInv(Step(s, Claim(0, IqSamples)), Abort);
  }

  /** A sender can leave while a receiver is parked, which then sleeps on. */
  lemma SleeperIsReachable(c: Config, waker: nat) returns (run: seq<Action>, t: System)
    requires ConfigOk(c)
    ensures Reaches(c, run, t) && t.producer.Gone? && 0 in t.readers && t.readers[0].parked == Some(waker)
  {
    hide MemoryOk, ProtocolOk, Reaches, Step;
    var s;
    run, s := ParkFirst(c, waker);
    ProducerLeaves(s);
    var claimed := Step(s, Claim(0, IqSamples));
    var failed := Step(claimed, Abort);
    ReachesMore(c, run, s, Claim(0, IqSamples));
    ReachesMore(c, run + [Claim(0, IqSamples)], claimed, Abort);
    ReachesMore(c, run + [Claim(0, IqSamples)] + [Abort], failed, DropSender);
    run, t := run + [Claim(0, IqSamples)] + [Abort] + [DropSender], Step(failed, DropSender);
  }

  /** It takes two steps to get a sender stuck: it starts waiting, and its one subscriber is dropped. */
  lemma StuckIsReachable(c: Config) returns (t: System)
    requires ConfigOk(c) && c.kind == DeviceReader
    ensures Reaches(c, [Swap, DropSubscriber(0)], t) && Stuck(t)
  {
    hide MemoryOk, ProtocolOk;
    ReachesStart(c);
    ReachesMore(c, [], Start(c), Swap);
    var s := Step(Start(c), Swap);
    ReachesMore(c, [] + [Swap], s, DropSubscriber(0));
    t := Step(s, DropSubscriber(0));
    assert [] + [Swap] + [DropSubscriber(0)] == [Swap, DropSubscriber(0)];
  }
}
