/**
 * Recycling blocks never disturbs what a queue slot or a consumer's buffer shows: every step
 * keeps the memory half of the invariant.
 */
module Recycling {
  import opened Types
  import opened Slices
  import opened Arcs
  import opened BufferQueue
  import opened SampleSystem

  /** The step changes neither memory nor any handle. */
  ghost predicate SameView(s: System, t: System) {
    && t.config == s.config && t.mem == s.mem && t.kept == s.kept && t.history == s.history
    && t.queue.slots == s.queue.slots && t.queue.headPos == s.queue.headPos
    && t.queue.tailPos == s.queue.tailPos && t.queue.capacity == s.queue.capacity
    && OwnedBuffer(t.producer) == OwnedBuffer(s.producer)
  }

  lemma SameViewKeeps(s: System, t: System)
    requires MemoryOk(s) && SameView(s, t) && ProducerOk(t.mem, t.producer, t.config.bufferSize)
    ensures MemoryOk(t)
  {
    hide Counted, BlocksOk, ItemsOk, SlotsOk, KeptOk, AllHandles;
    HandlesAre(t, AllHandles(s));
  }

  /** Slots show the same items as long as their blocks show the same bytes. */
  lemma SlotsStay(m: Memory, m': Memory, slots: seq<Buffer>, head: nat, history: seq<Item>, h: Handles)
    requires SlotsOk(m, slots, head, history) && SameBytes(m, m', h) && SlotsIn(slots, head, h)
    ensures SlotsOk(m', slots, head, history)
  {
    forall i | 0 <= i < |slots| ensures ShowsItem(m', slots[i], history[head + i]) {
      assert ShowsItem(m, slots[i], history[head + i]);
      assert Slot(head + i) in h;
    }
  }

  /** The handles h include those of the slots. */
  ghost predicate SlotsIn(slots: seq<Buffer>, head: nat, h: Handles) {
    forall p :: head <= p < head + |slots| ==> Slot(p) in h && h[Slot(p)] == slots[p - head].block
  }

  ghost predicate KeptIn(kept: map<nat, Kept>, h: Handles) {
    forall id :: id in kept ==> Held(id) in h && h[Held(id)] == kept[id].buffer.block
  }

  lemma AllAreIn(s: System)
    ensures SlotsIn(s.queue.slots, s.queue.headPos, AllHandles(s)) && KeptIn(s.kept, AllHandles(s))
  {
    hide AllHandles;
    var h, head := AllHandles(s), s.queue.headPos;
    forall p | head <= p < head + |s.queue.slots|
      ensures Slot(p) in h && h[Slot(p)] == s.queue.slots[p - head].block
    {
      assert Live(s, Slot(p));
    }
    forall id | id in s.kept ensures Held(id) in h && h[Held(id)] == s.kept[id].buffer.block {
      assert Live(s, Held(id));
    }
  }

  /** The same for buffers in consumers' hands, while the history grows. */
  lemma KeptStay(m: Memory, m': Memory, kept: map<nat, Kept>, history: seq<Item>, history': seq<Item>, h: Handles)
    requires KeptOk(m, kept, history) && SameBytes(m, m', h) && KeptIn(kept, h) && history <= history'
    ensures KeptOk(m', kept, history')
  {
    forall id | id in kept ensures ShowsPart(m', kept[id], history') {
      assert ShowsPart(m, kept[id], history);
      assert Held(id) in h;
    }
  }

  lemma HandleStepKeeps(s: System, a: Action)
    requires Inv(s) && Enabled(s, a) && OnHandles(a) && !a.Poll?
    ensures MemoryOk(HandleStep(s, a))
  {
    hide WindowOk, Counted, BlocksOk, ItemsOk, SlotsOk, KeptOk, ProtocolOk, AllHandles;
    SameViewKeeps(s, HandleStep(s, a));
  }

  lemma SlotIsPart(s: System, index: nat)
    requires MemoryOk(s) && index < |s.queue.slots|
    ensures s.queue.slots[index].block in s.mem.blocks
    ensures ShowsPart(s.mem, Kept(s.queue.slots[index], s.queue.headPos + index), s.history)
  {
    hide Counted, KeptOk, BlocksOk, ItemsOk, AllHandles;
    assert ShowsItem(s.mem, s.queue.slots[index], s.history[s.queue.headPos + index]);
  }

  lemma PollKeeps(s: System, r: nat, waker: nat)
    requires Inv(s) && r in s.readers
    ensures MemoryOk(PollStep(s, r, waker))
  {
    hide Counted, BlocksOk, ItemsOk, SlotsOk, KeptOk, AllHandles, ShowsPart, ProducerOk;
    hide CountersOk, ReadersOk, WakersOk, WaitOk, AllocationOk;
    var t := PollStep(s, r, waker);
    var (_, pos, poll) := PollSection(s.queue, s.readers[r].readPos, r, waker);
    if poll.Ready? {
      SlotIsPart(s, poll.index);
      CloneKeeps(s, t, Slot(pos - 1), Kept(s.queue.slots[poll.index], pos - 1));
    } else {
      SameViewKeeps(s, t);
    }
  }

  /** Only the producer can reach a block it has claimed. */
  lemma ClaimedIsPrivate(s: System, n: Name)
    requires MemoryOk(s) && s.producer.Claimed? && Live(s, n) && BlockAt(s, n) == s.producer.buffer.block
    ensures n == Producing
  {
    hide SlotsOk, KeptOk, BlocksOk, ItemsOk, WindowOk, Counted, AllHandles;
    assert Live(s, Producing);
    UniqueHolder(s.mem, AllHandles(s), Producing);
  }

  lemma KeptGrows(m: Memory, kept: map<nat, Kept>, history: seq<Item>, id: nat, k: Kept)
    requires KeptOk(m, kept, history) && ShowsPart(m, k, history)
    ensures KeptOk(m, kept[id := k], history)
  {
  }

  lemma PartAfterClone(m: Memory, k: Kept, history: seq<Item>)
    requires ShowsPart(m, k, history)
    ensures ShowsPart(CloneArc(m, k.buffer.block), k, history)
  {
  }

  /** One more consumer handle on a block somebody holds: nothing anybody sees changes. */
  lemma CloneKeeps(s: System, t: System, from: Name, k: Kept)
    requires MemoryOk(s) && s.nextName !in s.kept
    requires Live(s, from) && from != Producing && k.buffer.block == BlockAt(s, from)
    requires k.buffer.block in s.mem.blocks
    requires SameView(s, t.(mem := s.mem, kept := s.kept)) && t.producer == s.producer
    requires t.mem == CloneArc(s.mem, k.buffer.block) && t.kept == s.kept[s.nextName := k]
    requires ShowsPart(s.mem, k, s.history)
    ensures MemoryOk(t)
  {
    hide Counted, SlotsOk, KeptOk, ShowsPart, ItemsOk, SlotsIn, KeptIn, SameBytes, AllHandles;
    var b, h, n := k.buffer.block, AllHandles(s), Held(s.nextName);
    CountedClone(s.mem, h, n, b);
    AllAreIn(s);
    HandlesAre(t, h[n := b]);
    SlotsStay(s.mem, t.mem, s.queue.slots, s.queue.headPos, s.history, h);
    KeptStay(s.mem, t.mem, s.kept, s.history, s.history, h);
    KeptGrows(t.mem, s.kept, s.history, s.nextName, k) by {
      PartAfterClone(s.mem, k, s.history);
    }
    if s.producer.Claimed? && s.producer.buffer.block == b {
      ClaimedIsPrivate(s, from);
    }
  }

  lemma PartIsLive(s: System, id: nat)
    requires MemoryOk(s) && id in s.kept
    ensures ShowsPart(s.mem, s.kept[id], s.history) && s.kept[id].buffer.block in s.mem.blocks
  {
    hide Counted, BlocksOk, ItemsOk, SlotsOk, ProducerOk, AllHandles;
  }

  lemma CloneBufferKeeps(s: System, id: nat)
    requires Inv(s) && id in s.kept
    ensures MemoryOk(CloneBufferStep(s, id))
  {
    hide Counted, BlocksOk, ItemsOk, SlotsOk, KeptOk, AllHandles, ShowsPart, ProducerOk;
    hide CountersOk, ReadersOk, WakersOk, WaitOk, AllocationOk;
    PartIsLive(s, id);
    CloneKeeps(s, CloneBufferStep(s, id), Held(id), s.kept[id]);
  }

  lemma SliceBufferKeeps(s: System, id: nat, from: nat, to: nat)
    requires Inv(s) && Enabled(s, SliceBuffer(id, from, to))
    ensures MemoryOk(SliceBufferStep(s, id, from, to))
  {
    hide Counted, BlocksOk, ItemsOk, SlotsOk, ProducerOk, ProtocolOk, AllHandles;
    var t := SliceBufferStep(s, id, from, to);
    HandlesAre(t, AllHandles(s));
    PartIsLive(s, id);
    var b := s.kept[id].buffer;
    SliceOfSlice(s.mem.blocks[b.block].bytes, b.start, b.end, from, to);
    SliceOfSlice(s.history[s.kept[id].position].bytes, b.start, b.end, from, to);
    assert ShowsPart(t.mem, t.kept[id], t.history);
  }

  /** Dropping a handle: the blocks the others hold stay, with their bytes. */
  lemma DropBufferKeeps(s: System, id: nat)
    requires Inv(s) && id in s.kept
    ensures MemoryOk(DropBufferStep(s, id))
  {
    hide Counted, SlotsOk, ItemsOk, SlotsIn, KeptOk, SameBytes, ProtocolOk, ProducerOk, AllHandles;
    PartIsLive(s, id);
    var t, h := DropBufferStep(s, id), AllHandles(s);
    var rest := h - {Held(id)};
    CountedDrop(s.mem, h, Held(id));
    HandlesAre(t, rest);
    AllAreIn(t);
    SlotsStay(s.mem, t.mem, s.queue.slots, s.queue.headPos, s.history, rest);
    KeptSubset(s.mem, s.kept, t.kept, s.history);
    KeptStay(s.mem, t.mem, t.kept, s.history, s.history, rest);
    DropKeepsProducer(s, Held(id));
  }

  lemma KeptSubset(m: Memory, kept: map<nat, Kept>, kept': map<nat, Kept>, history: seq<Item>)
    requires KeptOk(m, kept, history)
    requires forall id :: id in kept' ==> id in kept && kept'[id] == kept[id]
    ensures KeptOk(m, kept', history)
  {
  }

  lemma DropKeepsProducer(s: System, n: Name)
    requires MemoryOk(s) && Live(s, n) && n != Producing && BlockAt(s, n) in s.mem.blocks
    ensures ProducerOk(DropArc(s.mem, BlockAt(s, n)), s.producer, s.config.bufferSize)
  {
    hide Counted, SlotsOk, KeptOk, BlocksOk, ItemsOk, WindowOk, AllHandles;
    var h, b := AllHandles(s), BlockAt(s, n);
    CountedDrop(s.mem, h, n);
    if OwnedBuffer(s.producer).Some? {
      assert Live(s, Producing) && Producing in h - {n};
      if s.producer.Claimed? && s.producer.buffer.block == b {
        ClaimedIsPrivate(s, n);
      }
    }
  }

  lemma BufferStepKeeps(s: System, a: Action)
    requires Inv(s) && Enabled(s, a) && OnBuffers(a)
    ensures MemoryOk(BufferStep(s, a))
  {
    hide MemoryOk, ProtocolOk;
    match a {
      case CloneBuffer(id) => CloneBufferKeeps(s, id);
      case SliceBuffer(id, from, to) => SliceBufferKeeps(s, id, from, to);
      case DropBuffer(id) => DropBufferKeeps(s, id);
    }
  }

  // ---------- the producer ----------

  lemma SlotsExtend(m: Memory, slots: seq<Buffer>, head: nat, history: seq<Item>, b: Buffer)
    requires SlotsOk(m, slots, head, history) && head + |slots| == |history|
    requires b.block in m.blocks && b.start == 0 && b.end <= |m.blocks[b.block].bytes|
    ensures SlotsOk(m, slots + [b], head, history + [ItemOf(m, b)])
  {
    var slots', history' := slots + [b], history + [ItemOf(m, b)];
    forall i | 0 <= i < |slots'| ensures ShowsItem(m, slots'[i], history'[head + i]) {
      if i < |slots| {
        assert ShowsItem(m, slots[i], history[head + i]);
      }
    }
  }

  lemma SlotsShrink(m: Memory, slots: seq<Buffer>, head: nat, history: seq<Item>)
    requires SlotsOk(m, slots, head, history) && slots != []
    ensures SlotsOk(m, slots[1..], head + 1, history)
    ensures ShowsItem(m, slots[0], history[head])
  {
    forall i | 0 <= i < |slots[1..]| ensures ShowsItem(m, slots[1..][i], history[head + 1 + i]) {
      assert ShowsItem(m, slots[i + 1], history[head + (i + 1)]);
    }
  }

  lemma HistoryGrows(m: Memory, kept: map<nat, Kept>, history: seq<Item>, item: Item, size: nat)
    requires KeptOk(m, kept, history) && ItemsOk(history, size)
    requires 0 < |item.bytes| <= size && |item.bytes| % 2 == 0
    ensures KeptOk(m, kept, history + [item]) && ItemsOk(history + [item], size)
  {
    forall id | id in kept ensures ShowsPart(m, kept[id], history + [item]) {
      assert ShowsPart(m, kept[id], history);
    }
  }

  /** The handles after the producer's buffer has moved into the queue. */
  ghost function HandlesMoved(s: System): Handles
    requires Live(s, Producing)
  {
    (AllHandles(s) - {Producing})[Slot(s.queue.tailPos) := BlockAt(s, Producing)]
  }

  lemma MovedCounted(s: System)
    requires MemoryOk(s) && Live(s, Producing)
    ensures Counted(s.mem, HandlesMoved(s))
  {
    hide Counted, SlotsOk, KeptOk, BlocksOk, ItemsOk, ProducerOk, AllHandles;
    CountedMove(s.mem, AllHandles(s), Producing, Slot(s.queue.tailPos));
  }

  /** t is s after pushing the producer's buffer; the producer has none, or a new one. */
  ghost predicate Pushed(s: System, t: System) {
    && OwnedBuffer(s.producer).Some?
    && s.queue.tailPos == s.queue.headPos + |s.queue.slots|
    && t.queue.headPos == s.queue.headPos && t.kept == s.kept
    && t.queue.slots == s.queue.slots + [OwnedBuffer(s.producer).value]
  }

  lemma MovedIs(s: System, t: System)
    requires Pushed(s, t)
    ensures forall n :: n in HandlesMoved(s) <==> Live(t, n) && n != Producing
    ensures forall n :: n in HandlesMoved(s) ==> HandlesMoved(s)[n] == BlockAt(t, n)
  {
    hide AllHandles;
    forall n: Name
      ensures n in HandlesMoved(s) <==> Live(t, n) && n != Producing
      ensures n in HandlesMoved(s) ==> HandlesMoved(s)[n] == BlockAt(t, n)
    {
      match n {
        case Slot(p) =>
        case Held(id) =>
        case Producing =>
      }
    }
  }

  /** t is u after popping the buffer at the head into the producer's hands. */
  lemma PoppedHandles(u: System, t: System)
    requires u.queue.slots != [] && OwnedBuffer(u.producer).None?
    requires OwnedBuffer(t.producer) == Some(u.queue.slots[0]) && t.kept == u.kept
    requires t.queue.slots == u.queue.slots[1..] && t.queue.headPos == u.queue.headPos + 1
    ensures var head := Slot(u.queue.headPos);
            head in AllHandles(u) &&
            AllHandles(t) == (AllHandles(u) - {head})[Producing := AllHandles(u)[head]]
  {
    hide AllHandles;
    var h, head := AllHandles(u), Slot(u.queue.headPos);
    assert Live(u, head);
    var h' := (h - {head})[Producing := h[head]];
    forall n: Name ensures n in h' <==> Live(t, n) ensures n in h' ==> h'[n] == BlockAt(t, n) {
      match n {
        case Slot(p) =>
        case Held(id) =>
        case Producing =>
      }
    }
    HandlesAre(t, h');
  }

  /** The middle of a swap: pushed, and nothing popped yet. */
  function MidSwap(s: System): System
    requires Inv(s) && Enabled(s, Swap) && s.producer.push.Some?
  {
    s.(queue := PushBuffer(s.queue, s.producer.push.value), producer := Exited, swaps := s.swaps + 1,
       history := s.history + [ItemOf(s.mem, s.producer.push.value)],
       readers := Woken(s.readers, s.queue.wakers))
  }

  lemma PushFits(s: System)
    requires Inv(s) && Enabled(s, Swap) && s.producer.push.Some?
    ensures var b, size := s.producer.push.value, s.config.bufferSize;
            && b.block in s.mem.blocks && |s.mem.blocks[b.block].bytes| == size
            && b.start == 0 < b.end <= size && b.end % 2 == 0
  {
    hide Counted, SlotsOk, KeptOk, ItemsOk, ProtocolOk, WindowOk, AllHandles;
  }

  lemma MidSwapHandles(s: System)
    requires Inv(s) && Enabled(s, Swap) && s.producer.push.Some?
    ensures Counted(s.mem, AllHandles(MidSwap(s)))
  {
    hide Counted, SlotsOk, KeptOk, ItemsOk, BlocksOk, ProducerOk, ProtocolOk, AllHandles, HandlesMoved;
    var u := MidSwap(s);
    MovedCounted(s);
    MovedIs(s, u);
    HandlesAre(u, HandlesMoved(s));
  }

  lemma MidSwapOk(s: System)
    requires Inv(s) && Enabled(s, Swap) && s.producer.push.Some?
    ensures var u := MidSwap(s);
            && Counted(u.mem, AllHandles(u))
            && ItemsOk(u.history, u.config.bufferSize)
            && SlotsOk(u.mem, u.queue.slots, u.queue.headPos, u.history)
            && KeptOk(u.mem, u.kept, u.history)
  {
    hide Counted, SlotsOk, KeptOk, ItemsOk, BlocksOk, ProducerOk, ProtocolOk, AllHandles;
    PushFits(s);
    MidSwapHandles(s);
    var b := s.producer.push.value;
    SlotsExtend(s.mem, s.queue.slots, s.queue.headPos, s.history, b);
    HistoryGrows(s.mem, s.kept, s.history, ItemOf(s.mem, b), s.config.bufferSize);
  }

  /** A swap that gets back the buffer at the head. */
  lemma SwapRecycleKeeps(s: System)
    requires Inv(s) && Enabled(s, Swap) && s.producer.push.Some?
    requires |s.queue.slots| + 1 == s.queue.capacity && !(s.queue.numReceivers == 0 && s.config.kind == DeviceReader)
    ensures MemoryOk(SwapStep(s))
  {
    hide Counted, SlotsOk, KeptOk, ItemsOk, BlocksOk, ProtocolOk, AllHandles;
    MidSwapOk(s);
    var u, t := MidSwap(s), SwapStep(s);
    assert t == u.(queue := PopBuffer(u.queue).0, producer := Filling(u.queue.slots[0]));
    PoppedHandles(u, t);
    CountedMove(u.mem, AllHandles(u), Slot(u.queue.headPos), Producing);
    SlotsShrink(u.mem, u.queue.slots, u.queue.headPos, u.history);
    ItemFits(u.history, u.queue.headPos, u.config.bufferSize);
  }

  lemma ItemFits(history: seq<Item>, p: nat, size: nat)
    requires ItemsOk(history, size) && p < |history|
    ensures |history[p].bytes| <= size
  {
  }

  /** A swap while the queue is still filling, which gets a new buffer. */
  lemma SwapFillingKeeps(s: System)
    requires Inv(s) && Enabled(s, Swap) && s.producer.push.Some?
    requires |s.queue.slots| + 1 < s.queue.capacity && !(s.queue.numReceivers == 0 && s.config.kind == DeviceReader)
    ensures MemoryOk(SwapStep(s))
  {
    hide Counted, SlotsOk, KeptOk, ItemsOk, ProtocolOk, AllHandles;
    MidSwapOk(s);
    var u, t := MidSwap(s), SwapStep(s);
    assert t == u.(mem := Allocate(u.mem, u.config.bufferSize), producer := Filling(NewBuffer(u.mem.created)));
    NewBufferKeeps(u, t);
  }

  /** Getting a new block disturbs nobody. */
  lemma NewBufferKeeps(u: System, t: System)
    requires OwnedBuffer(u.producer).None? && ConfigOk(u.config)
    requires Counted(u.mem, AllHandles(u)) && BlocksOk(u.mem, u.config.bufferSize)
    requires ItemsOk(u.history, u.config.bufferSize) && KeptOk(u.mem, u.kept, u.history)
    requires SlotsOk(u.mem, u.queue.slots, u.queue.headPos, u.history)
    requires t == u.(mem := Allocate(u.mem, u.config.bufferSize), producer := Filling(NewBuffer(u.mem.created)))
    requires WindowOk(t)
    ensures MemoryOk(t)
  {
    hide Counted, SlotsOk, KeptOk, ItemsOk, SlotsIn, KeptIn, SameBytes, AllHandles;
    var h := AllHandles(u);
    CountedAllocate(u.mem, h, Producing, u.config.bufferSize);
    HandlesAre(t, h[Producing := u.mem.created]);
    AllAreIn(u);
    SlotsStay(u.mem, t.mem, u.queue.slots, u.queue.headPos, u.history, h);
    KeptStay(u.mem, t.mem, u.kept, u.history, u.history, h);
  }

  lemma StaysIn(t: System, h: Handles)
    requires forall n :: n in h <==> Live(t, n) && n != Producing
    requires forall n :: n in h ==> h[n] == BlockAt(t, n)
    ensures SlotsIn(t.queue.slots, t.queue.headPos, h) && KeptIn(t.kept, h)
  {
    AllAreIn(t);
    forall p | t.queue.headPos <= p < t.queue.headPos + |t.queue.slots|
      ensures Slot(p) in h && h[Slot(p)] == t.queue.slots[p - t.queue.headPos].block
    {
      assert Live(t, Slot(p));
    }
    forall id | id in t.kept ensures Held(id) in h && h[Held(id)] == t.kept[id].buffer.block {
      assert Live(t, Held(id));
    }
  }

  /** The first swap: nothing to push yet. */
  lemma SwapFirstKeeps(s: System)
    requires Inv(s) && Enabled(s, Swap) && s.producer.push.None?
    requires !(s.queue.numReceivers == 0 && s.config.kind == DeviceReader)
    ensures MemoryOk(SwapStep(s))
  {
    hide Counted, SlotsOk, KeptOk, ItemsOk, ProtocolOk, AllHandles;
    NewBufferKeeps(s.(swaps := s.swaps + 1), SwapStep(s)) by {
      HandlesAre(s.(swaps := s.swaps + 1), AllHandles(s));
    }
  }

  /** Letting go of the producer's buffer for good. */
  lemma LetGoKeeps(s: System, t: System)
    requires MemoryOk(s) && OwnedBuffer(s.producer).Some?
    requires OwnedBuffer(s.producer).value.block in s.mem.blocks
    requires t == s.(mem := DropArc(s.mem, OwnedBuffer(s.producer).value.block), producer := Exited)
    ensures MemoryOk(t)
  {
    hide Counted, SlotsOk, KeptOk, ItemsOk, SlotsIn, KeptIn, SameBytes, ProducerOk, AllHandles;
    var h := AllHandles(s);
    assert Live(s, Producing);
    CountedDrop(s.mem, h, Producing);
    HandlesAre(t, h - {Producing});
    StaysIn(t, h - {Producing});
    SlotsStay(s.mem, t.mem, s.queue.slots, s.queue.headPos, s.history, h - {Producing});
    KeptStay(s.mem, t.mem, s.kept, s.history, s.history, h - {Producing});
    assert ProducerOk(t.mem, t.producer, t.config.bufferSize) by {
      ExitedOk(t.mem, t.config.bufferSize);
    }
  }

  lemma ExitedOk(m: Memory, size: nat)
    ensures ProducerOk(m, Exited, size) && ProducerOk(m, Gone, size)
  {
  }

  lemma SwapKeeps(s: System)
    requires Inv(s) && Enabled(s, Swap)
    ensures MemoryOk(SwapStep(s))
  {
    hide Counted, SlotsOk, KeptOk, ItemsOk, BlocksOk, ProducerOk, ProtocolOk, AllHandles;
    if s.queue.numReceivers == 0 && s.config.kind == DeviceReader {
      SwapWaitKeeps(s);
    } else if s.producer.push.None? {
      SwapFirstKeeps(s);
    } else if |s.queue.slots| + 1 == s.queue.capacity {
      SwapRecycleKeeps(s);
    } else {
      SwapFillingKeeps(s);
    }
  }

  /** A swap that blocks or gives up. */
  lemma SwapWaitKeeps(s: System)
    requires Inv(s) && Enabled(s, Swap) && s.queue.numReceivers == 0 && s.config.kind == DeviceReader
    ensures MemoryOk(SwapStep(s))
  {
    hide Counted, SlotsOk, KeptOk, ItemsOk, BlocksOk, ProtocolOk, AllHandles;
    if s.queue.numSubscribers == 0 && s.producer.push.Some? {
      LetGoKeeps(s, SwapStep(s));
    } else {
      SameViewKeeps(s, SwapStep(s));
    }
  }

  // ---------- filling the buffer ----------

  /** Giving up a shared block for a new one. */
  lemma ReplaceKeeps(s: System, t: System)
    requires MemoryOk(s) && s.producer.Filling? && s.producer.buffer.block in s.mem.blocks
    requires t == s.(mem := Allocate(DropArc(s.mem, s.producer.buffer.block), s.config.bufferSize),
                     producer := Claimed(NewBuffer(s.mem.created)), replaced := t.replaced)
    ensures MemoryOk(t)
  {
    hide Counted, SlotsOk, KeptOk, ItemsOk, BlocksOk, AllHandles;
    var u := s.(mem := DropArc(s.mem, s.producer.buffer.block), producer := Exited);
    LetGoKeeps(s, u);
    var v := u.(mem := Allocate(u.mem, u.config.bufferSize), producer := Filling(NewBuffer(u.mem.created)));
    NewBufferKeeps(u, v);
    HandlesAre(t, AllHandles(v));
  }

  lemma ClaimKeeps(s: System, sampleRate: u32, sampleType: SampleType)
    requires Inv(s) && s.producer.Filling?
    ensures MemoryOk(ClaimStep(s, sampleRate, sampleType))
  {
    hide Counted, SlotsOk, KeptOk, ItemsOk, BlocksOk, ProtocolOk, AllHandles;
    var t := ClaimStep(s, sampleRate, sampleType);
    if Unique(s.mem, s.producer.buffer.block) {
      HandlesAre(t, AllHandles(s));
    } else {
      ReplaceKeeps(s, t);
    }
  }

  /** The heart of zero-copy recycling: writing into the claimed block is seen by nobody else. */
  lemma FillKeeps(s: System, bytes: seq<u8>)
    requires Inv(s) && Enabled(s, Fill(bytes))
    ensures MemoryOk(FillStep(s, bytes))
  {
    hide Counted, SlotsOk, KeptOk, ItemsOk, SlotsIn, KeptIn, SameBytes, ProtocolOk, AllHandles;
    var t, h := FillStep(s, bytes), AllHandles(s);
    assert Live(s, Producing);
    CountedOverwrite(s.mem, h, Producing, bytes);
    HandlesAre(t, h);
    StaysIn(t, h - {Producing});
    SlotsStay(s.mem, t.mem, s.queue.slots, s.queue.headPos, s.history, h - {Producing});
    KeptStay(s.mem, t.mem, s.kept, s.history, s.history, h - {Producing});
  }

  lemma FinishKeeps(s: System, count: nat, sampleRate: u32, sampleType: SampleType)
    requires Inv(s) && Enabled(s, Finish(count, sampleRate, sampleType))
    ensures MemoryOk(FinishStep(s, count, sampleRate, sampleType))
  {
    hide Counted, SlotsOk, KeptOk, ItemsOk, BlocksOk, ProtocolOk, AllHandles;
    HandlesAre(FinishStep(s, count, sampleRate, sampleType), AllHandles(s));
  }

  lemma ProducerStepKeeps(s: System, a: Action)
    requires Inv(s) && Enabled(s, a) && !OnHandles(a) && !OnBuffers(a)
    ensures MemoryOk(ProducerStep(s, a))
  {
    match a {
      case Swap => SwapKeeps(s);
      case Claim(sampleRate, sampleType) => ClaimKeeps(s, sampleRate, sampleType);
      case Fill(bytes) => FillKeeps(s, bytes);
      case Finish(count, sampleRate, sampleType) => FinishKeeps(s, count, sampleRate, sampleType);
      case Abort => LetGoKeeps(s, AbortStep(s));
      case DropSender => SameViewKeeps(s, DropSenderStep(s));
    }
  }

  /** Every step keeps the memory half of the invariant. */
  lemma StepKeepsMemory(s: System, a: Action)
    requires Inv(s) && Enabled(s, a)
    ensures MemoryOk(Step(s, a))
  {
    hide MemoryOk, ProtocolOk;
    if a.Poll? {
      PollKeeps(s, a.receiver, a.waker);
    } else if OnHandles(a) {
      HandleStepKeeps(s, a);
    } else if OnBuffers(a) {
      BufferStepKeeps(s, a);
    } else {
      ProducerStepKeeps(s, a);
    }
  }
}
