/**
 * The consumer side in place: what subscribers, receivers and the holders of buffers do to the
 * shared objects are steps of the system, and the notification they give is the one the waiting
 * sender of the system gets.
 */
module Consumers {
  import opened Types
  import opened Slices
  import opened Arcs
  import opened BufferQueue
  import opened SampleSystem
  import opened Recycling
  import opened Protocol
  import opened Refinement

  /** The receiver object is the receiver of that name in s, at its read position. */
  ghost predicate Reads(s: System, r: Receiver)
    reads r
  {
    r.receiverId in s.readers && s.readers[r.receiverId].readPos == r.readPos
  }

  lemma SlotsAreLive(s: System)
    requires Inv(s)
    ensures |s.queue.slots| == s.queue.tailPos - s.queue.headPos
    ensures forall b :: b in s.queue.slots ==> b.block in s.mem.blocks
  {
    hide Counted, KeptOk, BlocksOk, ItemsOk, ProducerOk, AllHandles, ProtocolOk;
    forall b | b in s.queue.slots ensures b.block in s.mem.blocks {
      var i :| 0 <= i < |s.queue.slots| && s.queue.slots[i] == b;
      SlotIsLive(s, i);
    }
  }

  lemma CountersArePositive(s: System)
    requires Inv(s)
    ensures s.subscribers != {} ==> s.queue.numSubscribers > 0
    ensures s.readers != map[] ==> s.queue.numReceivers > 0
  {
    hide MemoryOk, NamesOk, ReadersOk, WakersOk, WaitOk, AllocationOk;
  }

  /**
   * `poll_next`: the poll step. A buffer is handed out exactly when there is one to read, and it
   * shows the item pushed at the position it was read from.
   */
  method PollOnce(shared: SharedState, arena: Arena, r: Receiver, waker: nat, ghost s: System)
    returns (poll: BufferQueue.Poll, buffer: Option<Buffer>)
    requires Matches(s, shared, arena) && r.shared == shared && Reads(s, r)
    modifies r`readPos, shared`wakers, arena
    ensures Enabled(s, SampleSystem.Poll(r.receiverId, waker))
    ensures var t := Step(s, SampleSystem.Poll(r.receiverId, waker));
            && Matches(t, shared, arena) && Reads(t, r)
            && (poll.Pending? <==> t.readers[r.receiverId].parked == Some(waker))
            && (poll.Ready? <==> t.kept != s.kept)
            && (poll.Ready? <==> buffer.Some?)
            && (buffer.Some? ==> r.readPos > 0 && t.kept == s.kept[s.nextName := Kept(buffer.value, r.readPos - 1)])
    ensures buffer.Some? ==> r.readPos <= |s.history| && Shown(arena.Value(), buffer.value) == s.history[r.readPos - 1]
  {
    hide MemoryOk, ProtocolOk, Shown;
    SlotsAreLive(s);
    StepKeepsInv(s, SampleSystem.Poll(r.receiverId, waker));
    StepOfPoll(s, r.receiverId, waker);
    NameIsFresh(s);
    poll, buffer := r.PollNext(arena, waker);
    if poll.Ready? {
      PollStepIs(s, r.receiverId, waker);
    }
  }

  /** `Subscriber::receiver`: the new receiver has read nothing and starts at the tail. */
  method SubscribeOnce(shared: SharedState, arena: Arena, subscriber: Subscriber, ghost s: System, ghost i: nat)
    returns (r: Receiver, notify: bool)
    requires Matches(s, shared, arena) && subscriber.shared == shared && i in s.subscribers
    modifies shared`numReceivers, shared`nextReceiverId
    ensures fresh(r) && r.shared == shared && r.receiverId !in s.readers
    ensures Enabled(s, Subscribe(i))
    ensures var t := Step(s, Subscribe(i));
            && Matches(t, shared, arena) && Reads(t, r) && t.producer == Notify(s.producer, notify)
            && t.readers == s.readers[r.receiverId := Reader(|s.history|, |s.history|, [], 0, None)]
  {
    hide MemoryOk, ProtocolOk;
    StepKeepsInv(s, Subscribe(i));
    ReceiverIsNew(s);
    WindowFacts(s);
    r, notify := subscriber.NewReceiver();
  }

  lemma ReceiverIsNew(s: System)
    requires ProtocolOk(s)
    ensures s.queue.nextReceiverId !in s.readers
  {
    hide ReadersOk, WakersOk, WaitOk, AllocationOk, CountersOk;
  }

  /** `Receiver::clone`: the copy has delivered nothing yet and starts where the original is. */
  method CloneReceiverOnce(shared: SharedState, arena: Arena, other: Receiver, ghost s: System)
    returns (r: Receiver, notify: bool)
    requires Matches(s, shared, arena) && other.shared == shared && Reads(s, other)
    modifies shared`numReceivers, shared`nextReceiverId
    ensures fresh(r) && r.shared == shared && r.receiverId !in s.readers
    ensures Enabled(s, CloneReceiver(other.receiverId))
    ensures var t := Step(s, CloneReceiver(other.receiverId));
            && Matches(t, shared, arena) && Reads(t, r) && Reads(t, other)
            && t.producer == Notify(s.producer, notify)
            && t.readers == s.readers[r.receiverId := Reader(other.readPos, other.readPos, [], 0, None)]
  {
    hide MemoryOk, ProtocolOk;
    StepKeepsInv(s, CloneReceiver(other.receiverId));
    ReceiverIsNew(s);
    r, notify := other.Clone();
  }

  /** Dropping a receiver. Its waker may stay registered. */
  method DropReceiverOnce(shared: SharedState, arena: Arena, r: Receiver, ghost s: System) returns (notify: bool)
    requires Matches(s, shared, arena) && r.shared == shared && Reads(s, r)
    modifies shared`numReceivers
    ensures Enabled(s, DropReceiver(r.receiverId))
    ensures var t := Step(s, DropReceiver(r.receiverId));
            && Matches(t, shared, arena) && t.producer == Notify(s.producer, notify)
            && t.readers == s.readers - {r.receiverId} && (notify <==> t.readers == map[] && t.subscribers == {})
  {
    hide MemoryOk, ProtocolOk;
    var a := DropReceiver(r.receiverId);
    StepKeepsInv(s, a);
    CountersArePositive(s);
    NobodyIsLeft(Step(s, a));
    notify := r.Drop();
  }

  lemma NobodyIsLeft(s: System)
    requires Inv(s)
    ensures s.readers == map[] && s.subscribers == {} <==> s.queue.numReceivers == 0 && s.queue.numSubscribers == 0
  {
    hide MemoryOk, NamesOk, ReadersOk, WakersOk, WaitOk, AllocationOk;
    if |s.readers| == 0 {
      assert s.readers == map[];
    }
  }

  method CloneSubscriberOnce(shared: SharedState, arena: Arena, subscriber: Subscriber, ghost s: System, ghost i: nat)
    returns (copy: Subscriber)
    requires Matches(s, shared, arena) && subscriber.shared == shared && i in s.subscribers
    modifies shared`numSubscribers
    ensures fresh(copy) && copy.shared == shared && Enabled(s, CloneSubscriber(i))
    ensures var t := Step(s, CloneSubscriber(i));
            Matches(t, shared, arena) && t.subscribers == s.subscribers + {s.nextName} && t.producer == s.producer
  {
    hide MemoryOk, ProtocolOk;
    StepKeepsInv(s, CloneSubscriber(i));
    copy := subscriber.Clone();
  }

  /** Dropping a subscriber: a sender that waits is not told, even if this was the last one. */
  method DropSubscriberOnce(shared: SharedState, arena: Arena, subscriber: Subscriber, ghost s: System, ghost i: nat)
    requires Matches(s, shared, arena) && subscriber.shared == shared && i in s.subscribers
    modifies shared`numSubscribers
    ensures Enabled(s, DropSubscriber(i))
    ensures var t := Step(s, DropSubscriber(i));
            Matches(t, shared, arena) && t.subscribers == s.subscribers - {i} && t.producer == s.producer
  {
    hide MemoryOk, ProtocolOk;
    StepKeepsInv(s, DropSubscriber(i));
    CountersArePositive(s);
    var _ := subscriber.Drop();
  }

  /** Cloning a buffer: one more handle on the same block, showing the same bytes. */
  method CloneBufferOnce(shared: SharedState, arena: Arena, b: Buffer, ghost s: System, ghost id: nat)
    requires Matches(s, shared, arena) && id in s.kept && s.kept[id].buffer == b
    modifies arena
    ensures Enabled(s, CloneBuffer(id)) && Matches(Step(s, CloneBuffer(id)), shared, arena)
    ensures Shown(arena.Value(), b) == Shown(s.mem, b)
  {
    hide MemoryOk, ProtocolOk;
    StepKeepsInv(s, CloneBuffer(id));
    PartIsLive(s, id);
    arena.Clone(b.block);
  }

  method DropBufferOnce(shared: SharedState, arena: Arena, b: Buffer, ghost s: System, ghost id: nat)
    requires Matches(s, shared, arena) && id in s.kept && s.kept[id].buffer == b
    modifies arena
    ensures Enabled(s, DropBuffer(id)) && Matches(Step(s, DropBuffer(id)), shared, arena)
  {
    hide MemoryOk, ProtocolOk;
    StepKeepsInv(s, DropBuffer(id));
    PartIsLive(s, id);
    arena.Drop(b.block);
  }

  /** `slice` on a buffer in a consumer's hands, with a half-open range: nobody else sees anything of it. */
  method SliceBufferOnce(shared: SharedState, arena: Arena, b: Buffer, from: nat, to: nat,
                         ghost s: System, ghost id: nat)
    returns (sliced: Buffer)
    requires Matches(s, shared, arena) && id in s.kept && s.kept[id].buffer == b
    requires from <= to && b.start + to <= b.end
    ensures Enabled(s, SliceBuffer(id, from, to)) && Matches(Step(s, SliceBuffer(id, from, to)), shared, arena)
    ensures var t := Step(s, SliceBuffer(id, from, to));
            t.kept == s.kept[id := Kept(sliced, s.kept[id].position)] && t.queue == s.queue && t.producer == s.producer
    ensures b.block in arena.blocks && b.start <= b.end <= |arena.blocks[b.block].bytes|
    ensures var whole, part := Shown(arena.Value(), b), Shown(arena.Value(), sliced);
            to <= |whole.bytes| && part == whole.(bytes := whole.bytes[from..to])
  {
    hide MemoryOk, ProtocolOk;
    StepKeepsInv(s, SliceBuffer(id, from, to));
    PartIsLive(s, id);
    SliceOfSlice(arena.blocks[b.block].bytes, b.start, b.end, from, to);
    sliced := b.(start := b.start + from, end := b.start + to);
  }
}
