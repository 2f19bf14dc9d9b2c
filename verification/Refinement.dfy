/**
 * The zero-copy queue refines a queue of immutable values: a machine with no memory, no blocks
 * and no reference counts, in which a buffer simply is the item it was pushed with.
 */
module Refinement {
  import opened Types
  import opened Slices
  import opened Arcs
  import opened BufferQueue
  import opened SampleSystem
  import opened Recycling
  import opened Protocol

  // ---------- the specification ----------

  datatype ValueQueue = ValueQueue(
    capacity: nat,
    items: seq<Item>,
    headPos: nat,
    tailPos: nat,
    cursors: map<nat, nat>,
    values: map<nat, Item>,
    pending: Option<Item>
  )

  datatype Label =
    | Join(receiver: nat)
    | JoinLike(receiver: nat, other: nat)
    | Leave(receiver: nat)
    | Read(receiver: nat, value: nat)
    | Copy(value: nat, source: nat)
    | Cut(value: nat, from: nat, to: nat)
    | Forget(value: nat)
    | Prepare(item: Item)
    | Publish
    | Discard
    | Silent

  function Part(item: Item, from: nat, to: nat): Item
    requires from <= to <= |item.bytes|
  {
    item.(bytes := item.bytes[from..to])
  }

  function ValueStep(v: ValueQueue, l: Label): ValueQueue {
    match l
    case Join(r) => v.(cursors := v.cursors[r := v.tailPos])
    case JoinLike(r, other) => if other in v.cursors then v.(cursors := v.cursors[r := v.cursors[other]]) else v
    case Leave(r) => v.(cursors := v.cursors - {r})
    case Read(r, value) =>
      if r !in v.cursors then v
      else
        var pos := Max(v.cursors[r], v.headPos);
        if pos < v.tailPos && pos - v.headPos < |v.items|
        then v.(cursors := v.cursors[r := pos + 1], values := v.values[value := v.items[pos - v.headPos]])
        else v.(cursors := v.cursors[r := pos])
    case Copy(value, source) => if source in v.values then v.(values := v.values[value := v.values[source]]) else v
    case Cut(value, from, to) =>
      if value in v.values && from <= to <= |v.values[value].bytes|
      then v.(values := v.values[value := Part(v.values[value], from, to)])
      else v
    case Forget(value) => v.(values := v.values - {value})
    case Prepare(item) => v.(pending := Some(item))
    case Publish =>
      if v.pending.None? then v
      else
        var items := v.items + [v.pending.value];
        var full := |items| == v.capacity;
        v.(items := if full then items[1..] else items, headPos := if full then v.headPos + 1 else v.headPos,
           tailPos := v.tailPos + 1, pending := None)
    case Discard => v.(pending := None)
    case Silent => v
  }

  function ValueRun(v: ValueQueue, labels: seq<Label>): ValueQueue
    decreases |labels|
  {
    if labels == [] then v else ValueRun(ValueStep(v, labels[0]), labels[1..])
  }

  // ---------- what the memory shows ----------

  /** The item a buffer shows at this moment. */
  function Shown(m: Memory, b: Buffer): Item {
    if b.block in m.blocks && b.start <= b.end <= |m.blocks[b.block].bytes| then ItemOf(m, b)
    else Item([], 0, IqSamples)
  }

  function PendingItem(m: Memory, p: Producer): Option<Item> {
    if (p.Swapping? || p.Waiting?) && p.push.Some? then Some(Shown(m, p.push.value)) else None
  }

  function Cursors(readers: map<nat, Reader>): map<nat, nat> {
    map r | r in readers :: readers[r].readPos
  }

  function Abstract(s: System): ValueQueue {
    ValueQueue(s.queue.capacity,
               seq(|s.queue.slots|, i requires 0 <= i < |s.queue.slots| => Shown(s.mem, s.queue.slots[i])),
               s.queue.headPos, s.queue.tailPos, Cursors(s.readers),
               map id | id in s.kept :: Shown(s.mem, s.kept[id].buffer),
               PendingItem(s.mem, s.producer))
  }

  function Meaning(k: Kept, history: seq<Item>): Item {
    if k.position < |history| && k.buffer.start <= k.buffer.end <= |history[k.position].bytes|
    then Part(history[k.position], k.buffer.start, k.buffer.end)
    else Item([], 0, IqSamples)
  }

  function Values(kept: map<nat, Kept>, history: seq<Item>): map<nat, Item> {
    map id | id in kept :: Meaning(kept[id], history)
  }

  /** The same state told by the history of pushes alone, without looking at memory. */
  function Meant(s: System): ValueQueue
    requires WindowOk(s)
  {
    ValueQueue(s.queue.capacity, s.history[s.queue.headPos..s.queue.tailPos], s.queue.headPos, s.queue.tailPos,
               Cursors(s.readers), Values(s.kept, s.history), PendingItem(s.mem, s.producer))
  }

  /**
   * Zero-copy safety: in every state that satisfies the invariant, every slot shows exactly the
   * item pushed at its position, and every buffer in a consumer's hands exactly the range of
   * its item that the consumer has sliced out.
   */
  lemma MemoryShowsHistory(s: System)
    requires MemoryOk(s)
    ensures Abstract(s) == Meant(s)
  {
    hide Counted, BlocksOk, ItemsOk, ProducerOk;
    forall i | 0 <= i < |s.queue.slots|
      ensures Shown(s.mem, s.queue.slots[i]) == s.history[s.queue.headPos..s.queue.tailPos][i]
    {
      assert ShowsItem(s.mem, s.queue.slots[i], s.history[s.queue.headPos + i]);
    }
    forall id | id in s.kept ensures Shown(s.mem, s.kept[id].buffer) == Meaning(s.kept[id], s.history) {
      assert ShowsPart(s.mem, s.kept[id], s.history);
    }
  }

  // ---------- the simulation ----------

  /** The abstract label of a step. Reclaiming, filling and waiting are silent. */
  function LabelOf(s: System, a: Action): Label
    requires Inv(s) && Enabled(s, a)
  {
    match a
    case Subscribe(_) => Join(s.queue.nextReceiverId)
    case CloneReceiver(r) => JoinLike(s.queue.nextReceiverId, r)
    case DropReceiver(r) => Leave(r)
    case Poll(r, _) => Read(r, s.nextName)
    case CloneBuffer(id) => Copy(s.nextName, id)
    case SliceBuffer(id, from, to) => Cut(id, from, to)
    case DropBuffer(id) => Forget(id)
    case Swap =>
      if s.queue.numReceivers > 0 || s.config.kind == NetworkReader then Publish
      else if s.queue.numSubscribers == 0 then Discard
      else Silent
    case Finish(count, sampleRate, sampleType) =>
      Prepare(Shown(s.mem, FinishStep(s, count, sampleRate, sampleType).producer.push.value))
    case _ => Silent
  }

  lemma CursorsChange(readers: map<nat, Reader>, r: nat, reader: Reader)
    ensures Cursors(readers[r := reader]) == Cursors(readers)[r := reader.readPos]
    ensures Cursors(readers - {r}) == Cursors(readers) - {r}
    ensures r in readers ==> r in Cursors(readers) && Cursors(readers)[r] == readers[r].readPos
  {
  }

  lemma ValuesChange(kept: map<nat, Kept>, history: seq<Item>, id: nat, k: Kept)
    ensures Values(kept[id := k], history) == Values(kept, history)[id := Meaning(k, history)]
    ensures Values(kept - {id}, history) == Values(kept, history) - {id}
    ensures id in kept ==> id in Values(kept, history) && Values(kept, history)[id] == Meaning(kept[id], history)
  {
  }

  /** Sharing and letting go of blocks does not touch their bytes. */
  lemma BytesSurvive(m: Memory, b: nat, c: nat)
    requires b in m.blocks
    ensures c in m.blocks ==> c in CloneArc(m, b).blocks && CloneArc(m, b).blocks[c].bytes == m.blocks[c].bytes
    ensures c in DropArc(m, b).blocks ==> c in m.blocks && DropArc(m, b).blocks[c].bytes == m.blocks[c].bytes
  {
  }

  /** What is pending shows the same as long as the block's bytes are the same. */
  lemma PendingStays(m: Memory, m': Memory, p: Producer, size: nat)
    requires ProducerOk(m, p, size) && ProducerOk(m', p, size)
    requires OwnedBuffer(p).Some? ==>
      m'.blocks[OwnedBuffer(p).value.block].bytes == m.blocks[OwnedBuffer(p).value.block].bytes
    ensures PendingItem(m', p) == PendingItem(m, p)
  {
  }

  lemma PendingAfterClone(s: System, b: nat)
    requires MemoryOk(s) && b in s.mem.blocks && ProducerOk(CloneArc(s.mem, b), s.producer, s.config.bufferSize)
    ensures PendingItem(CloneArc(s.mem, b), s.producer) == PendingItem(s.mem, s.producer)
  {
    hide Counted, SlotsOk, KeptOk, BlocksOk, ItemsOk, AllHandles, CloneArc;
    if OwnedBuffer(s.producer).Some? {
      BytesSurvive(s.mem, b, OwnedBuffer(s.producer).value.block);
    }
    PendingStays(s.mem, CloneArc(s.mem, b), s.producer, s.config.bufferSize);
  }

  lemma PendingAfterDrop(s: System, b: nat)
    requires MemoryOk(s) && b in s.mem.blocks && ProducerOk(DropArc(s.mem, b), s.producer, s.config.bufferSize)
    ensures PendingItem(DropArc(s.mem, b), s.producer) == PendingItem(s.mem, s.producer)
  {
    hide Counted, SlotsOk, KeptOk, BlocksOk, ItemsOk, AllHandles, DropArc;
    if OwnedBuffer(s.producer).Some? {
      BytesSurvive(s.mem, b, OwnedBuffer(s.producer).value.block);
    }
    PendingStays(s.mem, DropArc(s.mem, b), s.producer, s.config.bufferSize);
  }

  lemma HandleStepRefines(s: System, a: Action)
    requires Inv(s) && Enabled(s, a) && OnHandles(a) && !a.Poll?
    ensures WindowOk(HandleStep(s, a)) && Meant(HandleStep(s, a)) == ValueStep(Meant(s), LabelOf(s, a))
  {
    hide Counted, SlotsOk, KeptOk, BlocksOk, ItemsOk, AllHandles, ProducerOk, ProtocolOk, Cursors, Values, PendingItem;
    var t := HandleStep(s, a);
    assert PendingItem(s.mem, t.producer) == PendingItem(s.mem, s.producer) by {
      NotifyKeepsPending(s.mem, s.producer);
    }
    match a {
      case Subscribe(_) =>
        CursorsChange(s.readers, s.queue.nextReceiverId, Reader(s.queue.tailPos, s.queue.tailPos, [], 0, None));
      case CloneReceiver(r) =>
        var pos := s.readers[r].readPos;
        CursorsChange(s.readers, s.queue.nextReceiverId, Reader(pos, pos, [], 0, None));
        CursorsChange(s.readers, r, s.readers[r]);
      case DropReceiver(r) => CursorsChange(s.readers, r, s.readers[r]);
      case _ =>
    }
  }

  lemma NotifyKeepsPending(m: Memory, p: Producer)
    ensures forall notify :: PendingItem(m, Notify(p, notify)) == PendingItem(m, p)
  {
  }

  lemma PollReadyRefines(s: System, r: nat, waker: nat)
    requires Inv(s) && r in s.readers && Max(s.readers[r].readPos, s.queue.headPos) < s.queue.tailPos
    ensures WindowOk(PollStep(s, r, waker))
    ensures Meant(PollStep(s, r, waker)) == ValueStep(Meant(s), Read(r, s.nextName))
  {
    hide MemoryOk, ProtocolOk, ProducerOk, Cursors, Values, PendingItem, CloneArc, Meaning;
    var t, pos := PollStep(s, r, waker), Max(s.readers[r].readPos, s.queue.headPos);
    PollKeeps(s, r, waker);
    WindowFacts(s);
    WindowFacts(t);
    CursorsChange(s.readers, r, t.readers[r]);
    CursorsChange(s.readers, r, s.readers[r]);
    var b := s.queue.slots[pos - s.queue.headPos];
    SlotIsPart(s, pos - s.queue.headPos);
    ReadyShows(s, pos);
    ValuesChange(s.kept, s.history, s.nextName, Kept(b, pos));
    PendingAfterClone(s, b.block);
  }

  lemma PollRefines(s: System, r: nat, waker: nat)
    requires Inv(s) && r in s.readers
    ensures WindowOk(PollStep(s, r, waker))
    ensures Meant(PollStep(s, r, waker)) == ValueStep(Meant(s), Read(r, s.nextName))
  {
    hide MemoryOk, ProtocolOk, Cursors, Values, PendingItem;
    if Max(s.readers[r].readPos, s.queue.headPos) < s.queue.tailPos {
      hide Meant, ValueStep;
      PollReadyRefines(s, r, waker);
    } else {
      WindowFacts(s);
      CursorsChange(s.readers, r, PollStep(s, r, waker).readers[r]);
      CursorsChange(s.readers, r, s.readers[r]);
    }
  }

  lemma ReadyShows(s: System, pos: nat)
    requires MemoryOk(s) && s.queue.headPos <= pos < s.queue.tailPos
    ensures var b := s.queue.slots[pos - s.queue.headPos];
            && Meaning(Kept(b, pos), s.history) == s.history[pos]
            && Meant(s).items[pos - s.queue.headPos] == s.history[pos]
  {
    hide Counted, KeptOk, BlocksOk, ItemsOk, AllHandles, ProducerOk;
    var i := pos - s.queue.headPos;
    assert ShowsItem(s.mem, s.queue.slots[i], s.history[s.queue.headPos + i]);
  }

  lemma MeaningOfSlice(k: Kept, history: seq<Item>, from: nat, to: nat)
    requires k.position < |history| && k.buffer.start <= k.buffer.end <= |history[k.position].bytes|
    requires from <= to <= k.buffer.end - k.buffer.start
    ensures var b := k.buffer.(start := k.buffer.start + from, end := k.buffer.start + to);
            && |Meaning(k, history).bytes| == k.buffer.end - k.buffer.start
            && Meaning(k.(buffer := b), history) == Part(Meaning(k, history), from, to)
  {
    SliceOfSlice(history[k.position].bytes, k.buffer.start, k.buffer.end, from, to);
  }

  lemma CloneBufferRefines(s: System, id: nat)
    requires Inv(s) && id in s.kept
    ensures WindowOk(CloneBufferStep(s, id))
    ensures Meant(CloneBufferStep(s, id)) == ValueStep(Meant(s), Copy(s.nextName, id))
  {
    hide Counted, SlotsOk, KeptOk, BlocksOk, ItemsOk, AllHandles, ProducerOk, ProtocolOk, Values, PendingItem, CloneArc;
    CloneBufferKeeps(s, id);
    PartIsLive(s, id);
    ValuesChange(s.kept, s.history, id, s.kept[id]);
    ValuesChange(s.kept, s.history, s.nextName, s.kept[id]);
    PendingAfterClone(s, s.kept[id].buffer.block);
  }

  lemma SliceBufferRefines(s: System, id: nat, from: nat, to: nat)
    requires Inv(s) && Enabled(s, SliceBuffer(id, from, to))
    ensures var t := SliceBufferStep(s, id, from, to);
            WindowOk(t) && Meant(t) == ValueStep(Meant(s), Cut(id, from, to))
  {
    hide Counted, SlotsOk, KeptOk, BlocksOk, ItemsOk, AllHandles, ProducerOk, ProtocolOk, Values, PendingItem;
    PartIsLive(s, id);
    ValuesChange(s.kept, s.history, id, s.kept[id]);
    MeaningOfSlice(s.kept[id], s.history, from, to);
    ValuesChange(s.kept, s.history, id, SliceBufferStep(s, id, from, to).kept[id]);
  }

  lemma DropBufferRefines(s: System, id: nat)
    requires Inv(s) && id in s.kept
    ensures WindowOk(DropBufferStep(s, id)) && Meant(DropBufferStep(s, id)) == ValueStep(Meant(s), Forget(id))
  {
    hide Counted, SlotsOk, KeptOk, BlocksOk, ItemsOk, AllHandles, ProducerOk, ProtocolOk, Values, PendingItem, DropArc;
    DropBufferKeeps(s, id);
    PartIsLive(s, id);
    ValuesChange(s.kept, s.history, id, s.kept[id]);
    PendingAfterDrop(s, s.kept[id].buffer.block);
  }

  lemma BufferStepRefines(s: System, a: Action)
    requires Inv(s) && Enabled(s, a) && OnBuffers(a)
    ensures WindowOk(BufferStep(s, a)) && Meant(BufferStep(s, a)) == ValueStep(Meant(s), LabelOf(s, a))
  {
    hide MemoryOk, ProtocolOk, Meant, ValueStep;
    match a {
      case CloneBuffer(id) => CloneBufferRefines(s, id);
      case SliceBuffer(id, from, to) => SliceBufferRefines(s, id, from, to);
      case DropBuffer(id) => DropBufferRefines(s, id);
    }
  }

  // ---------- the producer ----------

  lemma PushedMeaning(s: System, item: Item)
    requires MemoryOk(s)
    ensures Values(s.kept, s.history + [item]) == Values(s.kept, s.history)
  {
    hide Counted, SlotsOk, BlocksOk, ItemsOk, AllHandles, ProducerOk;
    forall id | id in s.kept ensures Meaning(s.kept[id], s.history + [item]) == Meaning(s.kept[id], s.history) {
      assert ShowsPart(s.mem, s.kept[id], s.history);
    }
  }

  lemma PublishRefines(s: System)
    requires Inv(s) && Enabled(s, Swap) && s.producer.push.Some? && LabelOf(s, Swap) == Publish
    ensures WindowOk(SwapStep(s)) && Meant(SwapStep(s)) == ValueStep(Meant(s), Publish)
  {
    SwapKeeps(s);
    PushFits(s);
    Published(s);
    hide Counted, SlotsOk, KeptOk, BlocksOk, ItemsOk, AllHandles, ProtocolOk, ProducerOk, Values, Cursors, SwapStep;
    var item := ItemOf(s.mem, s.producer.push.value);
    PushedMeaning(s, item);
    WokenCursors(s.readers, s.queue.wakers);
    WindowGrows(s.history, item, s.queue.headPos);
  }

  lemma Published(s: System)
    requires Inv(s) && Enabled(s, Swap) && s.producer.push.Some? && LabelOf(s, Swap) == Publish
    requires var b := s.producer.push.value;
             b.block in s.mem.blocks && b.start <= b.end <= |s.mem.blocks[b.block].bytes|
    ensures var t, q := SwapStep(s), s.queue;
            && t.history == s.history + [ItemOf(s.mem, s.producer.push.value)]
            && t.readers == Woken(s.readers, q.wakers) && t.kept == s.kept && PendingItem(t.mem, t.producer) == None
            && t.queue.capacity == q.capacity && t.queue.tailPos == q.tailPos + 1
            && t.queue.headPos == if |q.slots| + 1 == q.capacity then q.headPos + 1 else q.headPos
  {
    hide MemoryOk, ProtocolOk;
  }

  lemma WindowGrows<T>(history: seq<T>, item: T, head: nat)
    requires head <= |history|
    ensures (history + [item])[head..|history| + 1] == history[head..|history|] + [item]
    ensures (history + [item])[head + 1..|history| + 1] == (history[head..|history|] + [item])[1..]
  {
  }

  lemma WokenCursors(readers: map<nat, Reader>, wakers: map<nat, nat>)
    ensures Cursors(Woken(readers, wakers)) == Cursors(readers)
  {
  }

  lemma IdleSwapRefines(s: System)
    requires Inv(s) && Enabled(s, Swap) && !(s.producer.push.Some? && LabelOf(s, Swap) == Publish)
    ensures WindowOk(SwapStep(s)) && Meant(SwapStep(s)) == ValueStep(Meant(s), LabelOf(s, Swap))
  {
    hide MemoryOk, ProtocolOk, ProducerOk, Cursors, Values;
    WindowFacts(s);
    SwapKeeps(s);
    WindowFacts(SwapStep(s));
  }

  lemma SwapRefines(s: System)
    requires Inv(s) && Enabled(s, Swap)
    ensures WindowOk(SwapStep(s)) && Meant(SwapStep(s)) == ValueStep(Meant(s), LabelOf(s, Swap))
  {
    hide MemoryOk, ProtocolOk, Meant, ValueStep;
    if LabelOf(s, Swap) == Publish && s.producer.push.Some? {
      PublishRefines(s);
    } else {
      IdleSwapRefines(s);
    }
  }

  lemma ProducerStepRefines(s: System, a: Action)
    requires Inv(s) && Enabled(s, a) && !OnHandles(a) && !OnBuffers(a)
    ensures WindowOk(ProducerStep(s, a)) && Meant(ProducerStep(s, a)) == ValueStep(Meant(s), LabelOf(s, a))
  {
    hide Counted, SlotsOk, KeptOk, BlocksOk, ItemsOk, AllHandles, ProtocolOk, Values, Cursors;
    if a.Swap? {
      SwapRefines(s);
    }
  }

  /** One step of the zero-copy queue is one step, or none, of the queue of values. */
  lemma StepRefines(s: System, a: Action)
    requires Inv(s) && Enabled(s, a)
    ensures Abstract(Step(s, a)) == ValueStep(Abstract(s), LabelOf(s, a))
  {
    hide ProtocolOk, Abstract, Meant, ValueStep;
    StepKeepsMemory(s, a);
    MemoryShowsHistory(s);
    MemoryShowsHistory(Step(s, a));
    if a.Poll? {
      PollRefines(s, a.receiver, a.waker);
    } else if OnHandles(a) {
      HandleStepRefines(s, a);
    } else if OnBuffers(a) {
      BufferStepRefines(s, a);
    } else {
      ProducerStepRefines(s, a);
    }
  }

  function Labels(s: System, run: seq<Action>): seq<Label>
    requires Inv(s) && Runs(s, run)
    decreases |run|
  {
    if run == [] then []
    else
      StepKeepsInv(s, run[0]);
      [LabelOf(s, run[0])] + Labels(Step(s, run[0]), run[1..])
  }

  /**
   * Refinement over whole runs: whatever receivers and consumers do with their handles, and
   * however blocks are recycled, what can be seen is what the queue of values shows.
   */
  lemma {:induction false} RunRefines(s: System, run: seq<Action>)
    requires Inv(s) && Runs(s, run)
    ensures Abstract(After(s, run)) == ValueRun(Abstract(s), Labels(s, run))
    decreases |run|
  {
    hide Inv, Abstract, ValueStep, LabelOf, Step;
    if run != [] {
      StepKeepsInv(s, run[0]);
      StepRefines(s, run[0]);
      RunRefines(Step(s, run[0]), run[1..]);
      assert Labels(s, run)[1..] == Labels(Step(s, run[0]), run[1..]);
    }
  }

  // ---------- what a poll hands out ----------

  /** A poll that is ready hands out exactly the item pushed at the position it takes. */
  lemma PollStepIs(s: System, r: nat, waker: nat)
    requires Inv(s) && r in s.readers
    requires PollSection(s.queue, s.readers[r].readPos, r, waker).2.Ready?
    ensures var t, pos := PollStep(s, r, waker), Max(s.readers[r].readPos, s.queue.headPos);
            && Inv(t) && s.nextName in t.kept && s.nextName !in s.kept && Enabled(t, DropBuffer(s.nextName))
            && pos < |s.history| && t.kept[s.nextName].position == pos
            && t.kept[s.nextName].buffer.sampleType == s.history[pos].sampleType
            && Shown(t.mem, t.kept[s.nextName].buffer) == s.history[pos]
            && t.history == s.history && r in t.readers && t.readers[r].readPos == pos + 1
            && t.readers[r].delivered == s.readers[r].delivered + [pos]
            && (forall id :: id in s.kept ==> id in t.kept && t.kept[id] == s.kept[id])
  {
    hide MemoryOk, ProtocolOk, Shown;
    var t, pos := PollStep(s, r, waker), Max(s.readers[r].readPos, s.queue.headPos);
    StepOfPoll(s, r, waker);
    StepKeepsInv(s, Poll(r, waker));
    ReaderFacts(s, r);
    WindowFacts(s);
    NameIsFresh(s);
    FreshShows(s, t, pos);
    SlotTags(s, pos);
  }

  lemma NameIsFresh(s: System)
    requires ProtocolOk(s)
    ensures s.nextName !in s.kept
  {
    hide ReadersOk, WakersOk, CountersOk, AllocationOk, WaitOk;
  }

  lemma SlotTags(s: System, pos: nat)
    requires MemoryOk(s) && s.queue.headPos <= pos < s.queue.tailPos
    ensures s.queue.slots[pos - s.queue.headPos].sampleType == s.history[pos].sampleType
  {
    hide Counted, BlocksOk, ItemsOk, ProducerOk, AllHandles, KeptOk;
    var i := pos - s.queue.headPos;
    assert ShowsItem(s.mem, s.queue.slots[i], s.history[s.queue.headPos + i]);
  }

  lemma FreshShows(s: System, t: System, pos: nat)
    requires MemoryOk(s) && MemoryOk(t) && s.queue.headPos <= pos < s.queue.tailPos && t.history == s.history
    requires s.nextName in t.kept && t.kept[s.nextName] == Kept(s.queue.slots[pos - s.queue.headPos], pos)
    ensures Shown(t.mem, t.kept[s.nextName].buffer) == s.history[pos]
  {
    hide Counted, BlocksOk, ItemsOk, ProducerOk, AllHandles;
    ReadyShows(s, pos);
    assert ShowsPart(t.mem, t.kept[s.nextName], t.history);
  }
}
