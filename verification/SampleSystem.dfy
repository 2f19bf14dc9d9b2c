/**
 * The sample path around the queue as a step system: one producer loop, any number of
 * subscribers, receivers and consumer-held buffers. Every critical section, and every piece of
 * work done without the lock, is one step; what the environment chooses is in the action.
 */
module SampleSystem {
  import opened Types
  import opened Slices
  import opened Arcs
  import opened BufferQueue

  /** What a buffer meant when it was pushed. */
  datatype Item = Item(bytes: seq<u8>, sampleRate: u32, sampleType: SampleType)

  /** The reader thread blocks without receivers; the rtl_tcp client does not. */
  datatype Kind = DeviceReader | NetworkReader

  datatype Config = Config(kind: Kind, bufferSize: nat, capacity: nat)

  predicate ConfigOk(c: Config) {
    c.capacity > 0 && c.bufferSize > 0 && c.bufferSize % 2 == 0
  }

  /** Where the producer loop is, and the buffer it owns there. */
  datatype Producer =
    | Swapping(push: Option<Buffer>)
    | Waiting(push: Option<Buffer>, notified: bool)
    | Filling(buffer: Buffer)
    | Claimed(buffer: Buffer)
    | Exited
    | Gone

  function OwnedBuffer(p: Producer): Option<Buffer> {
    match p
    case Swapping(push) => push
    case Waiting(push, _) => push
    case Filling(b) => Some(b)
    case Claimed(b) => Some(b)
    case _ => None
  }

  /** A live receiver. All fields but `readPos` and the parked waker are history. */
  datatype Reader = Reader(readPos: nat, startPos: nat, delivered: seq<nat>, skipped: nat, parked: Option<nat>)

  /** A buffer in a consumer's hands, and the position it was read from. */
  datatype Kept = Kept(buffer: Buffer, position: nat)

  datatype System = System(
    config: Config,
    mem: Memory,
    queue: Queue,
    producer: Producer,
    subscribers: set<nat>,
    readers: map<nat, Reader>,
    kept: map<nat, Kept>,
    history: seq<Item>,
    swaps: nat,
    replaced: nat,
    nextName: nat
  )

  datatype Action =
    | CloneSubscriber(subscriber: nat)
    | DropSubscriber(subscriber: nat)
    | Subscribe(subscriber: nat)
    | CloneReceiver(receiver: nat)
    | DropReceiver(receiver: nat)
    | Poll(receiver: nat, waker: nat)
    | CloneBuffer(id: nat)
    | SliceBuffer(id: nat, from: nat, to: nat)
    | DropBuffer(id: nat)
    | Swap
    | Claim(sampleRate: u32, sampleType: SampleType)
    | Fill(bytes: seq<u8>)
    | Finish(count: nat, sampleRate: u32, sampleType: SampleType)
    | Abort
    | DropSender

  /**
   * What the owners of the handles, the device and the transport can do in this state. Only the
   * reader thread can fail before it has claimed its block: the client goes on to claim at once.
   */
  predicate Enabled(s: System, a: Action) {
    match a
    case CloneSubscriber(i) => i in s.subscribers
    case DropSubscriber(i) => i in s.subscribers
    case Subscribe(i) => i in s.subscribers
    case CloneReceiver(r) => r in s.readers
    case DropReceiver(r) => r in s.readers
    case Poll(r, _) => r in s.readers
    case CloneBuffer(id) => id in s.kept
    case SliceBuffer(id, from, to) =>
      id in s.kept && from <= to && s.kept[id].buffer.start + to <= s.kept[id].buffer.end
    case DropBuffer(id) => id in s.kept
    case Swap => s.producer.Swapping? || (s.producer.Waiting? && s.producer.notified)
    case Claim(_, _) => s.producer.Filling?
    case Fill(bytes) => s.producer.Claimed? && |bytes| == s.config.bufferSize
    case Finish(count, _, _) =>
      && s.producer.Claimed?
      && (match s.config.kind
          case DeviceReader => 0 < count <= s.config.bufferSize && count % 2 == 0
          case NetworkReader => count == s.config.bufferSize)
    case Abort => (s.producer.Filling? && s.config.kind == DeviceReader) || s.producer.Claimed?
    case DropSender => s.producer.Exited?
  }

  // ---------- who holds which block ----------

  predicate Live(s: System, n: Name) {
    match n
    case Slot(p) => s.queue.headPos <= p < s.queue.headPos + |s.queue.slots|
    case Held(id) => id in s.kept
    case Producing => OwnedBuffer(s.producer).Some?
  }

  function BlockAt(s: System, n: Name): nat
    requires Live(s, n)
  {
    match n
    case Slot(p) => s.queue.slots[p - s.queue.headPos].block
    case Held(id) => s.kept[id].buffer.block
    case Producing => OwnedBuffer(s.producer).value.block
  }

  ghost function SlotNames(lo: nat, hi: nat): set<Name> {
    set p: nat | lo <= p < hi :: Slot(p)
  }

  ghost function HeldNames(ids: set<nat>): set<Name> {
    set id | id in ids :: Held(id)
  }

  ghost function ProducerNames(p: Producer): (names: set<Name>)
    ensures |names| <= 1
  {
    if OwnedBuffer(p).Some? then {Producing} else {}
  }

  ghost function Together<T>(a: set<T>, b: set<T>, c: set<T>): set<T> {
    a + b + c
  }

  ghost function Names(s: System): set<Name> {
    Together(SlotNames(s.queue.headPos, s.queue.headPos + |s.queue.slots|), HeldNames(s.kept.Keys),
             ProducerNames(s.producer))
  }

  lemma NamesAreLive(s: System)
    ensures forall n :: n in Names(s) <==> Live(s, n)
  {
    forall n: Name ensures n in Names(s) <==> Live(s, n) {
      match n {
        case Slot(p) =>
        case Held(id) =>
        case Producing =>
      }
    }
  }

  /** The handles of the whole system: queue slots, consumers' buffers, the producer's buffer. */
  ghost function AllHandles(s: System): (h: Handles)
    ensures forall n :: n in h <==> Live(s, n)
    ensures forall n :: n in h ==> h[n] == BlockAt(s, n)
  {
    NamesAreLive(s);
    map n | n in Names(s) :: BlockAt(s, n)
  }

  lemma HandlesAre(s: System, h: Handles)
    requires forall n :: n in h <==> Live(s, n)
    requires forall n :: n in h ==> h[n] == BlockAt(s, n)
    ensures AllHandles(s) == h
  {
  }

  // ---------- the invariant, memory half ----------

  function HeadFor(tail: nat, capacity: positive): nat {
    if tail < capacity then 0 else tail - (capacity - 1)
  }

  /** Outside the lock the slots are exactly the last `capacity - 1` pushes, or all of them. */
  ghost predicate WindowOk(s: System) {
    && s.queue.capacity == s.config.capacity > 0
    && s.queue.tailPos == |s.history|
    && s.queue.headPos == HeadFor(s.queue.tailPos, s.queue.capacity)
    && |s.queue.slots| == s.queue.tailPos - s.queue.headPos
  }

  /** The slot buffer b shows the item, from the start of its block. */
  ghost predicate ShowsItem(m: Memory, b: Buffer, item: Item) {
    && b.block in m.blocks
    && b.start == 0 && b.end == |item.bytes| <= |m.blocks[b.block].bytes|
    && m.blocks[b.block].bytes[..b.end] == item.bytes
    && b.sampleRate == item.sampleRate && b.sampleType == item.sampleType
  }

  /** A consumer's buffer shows a range of the item pushed at its position. */
  ghost predicate ShowsPart(m: Memory, k: Kept, history: seq<Item>) {
    && k.position < |history|
    && k.buffer.block in m.blocks
    && var item, bytes := history[k.position], m.blocks[k.buffer.block].bytes;
    && k.buffer.start <= k.buffer.end <= |item.bytes| <= |bytes|
    && bytes[k.buffer.start..k.buffer.end] == item.bytes[k.buffer.start..k.buffer.end]
    && k.buffer.sampleRate == item.sampleRate && k.buffer.sampleType == item.sampleType
  }

  ghost predicate SlotsOk(m: Memory, slots: seq<Buffer>, head: nat, history: seq<Item>) {
    && head + |slots| <= |history|
    && forall i :: 0 <= i < |slots| ==> ShowsItem(m, slots[i], history[head + i])
  }

  ghost predicate KeptOk(m: Memory, kept: map<nat, Kept>, history: seq<Item>) {
    forall id :: id in kept ==> ShowsPart(m, kept[id], history)
  }

  ghost predicate BlocksOk(m: Memory, size: nat) {
    forall b :: b in m.blocks ==> |m.blocks[b].bytes| == size
  }

  /** Pushed buffers are whole samples, not empty, and fit their block. */
  ghost predicate ItemsOk(history: seq<Item>, size: nat) {
    forall p :: 0 <= p < |history| ==> 0 < |history[p].bytes| <= size && |history[p].bytes| % 2 == 0
  }

  ghost predicate ProducerOk(m: Memory, p: Producer, size: nat) {
    var owned := OwnedBuffer(p);
    && (owned.Some? ==> owned.value.block in m.blocks && owned.value.start == 0 && owned.value.end <= size)
    && (owned.Some? && (p.Swapping? || p.Waiting?) ==> 0 < owned.value.end && owned.value.end % 2 == 0)
    && (p.Claimed? ==> Unique(m, owned.value.block))
  }

  ghost predicate MemoryOk(s: System) {
    && ConfigOk(s.config)
    && WindowOk(s)
    && Counted(s.mem, AllHandles(s))
    && BlocksOk(s.mem, s.config.bufferSize)
    && ItemsOk(s.history, s.config.bufferSize)
    && ProducerOk(s.mem, s.producer, s.config.bufferSize)
    && SlotsOk(s.mem, s.queue.slots, s.queue.headPos, s.history)
    && KeptOk(s.mem, s.kept, s.history)
  }

  // ---------- the invariant, protocol half ----------

  /** The counters under the lock are the numbers of live objects. */
  ghost predicate CountersOk(s: System) {
    && s.queue.numSubscribers == |s.subscribers|
    && s.queue.numReceivers == |s.readers|
    && s.queue.numSenders == (if s.producer.Gone? then 0 else 1)
  }

  ghost predicate Below(names: set<nat>, bound: nat) {
    forall n :: n in names ==> n < bound
  }

  /** Names of new handles are fresh. */
  ghost predicate NamesOk(s: System) {
    && Below(s.subscribers, s.nextName)
    && Below(s.kept.Keys, s.nextName)
    && Below(s.readers.Keys, s.queue.nextReceiverId)
    && Below(s.queue.wakers.Keys, s.queue.nextReceiverId)
  }

  ghost predicate Increasing(p: seq<nat>) {
    forall i, j :: 0 <= i < j < |p| ==> p[i] < p[j]
  }

  /** Loss accounting: every position a receiver passed was delivered, or skipped once evicted. */
  ghost predicate Accounted(r: Reader, head: nat, tail: nat) {
    && r.startPos <= r.readPos <= tail
    && |r.delivered| + r.skipped == r.readPos - r.startPos
    && Increasing(r.delivered)
    && (forall p :: p in r.delivered ==> r.startPos <= p < r.readPos)
    && (forall p :: r.startPos <= p < r.readPos && p !in r.delivered ==> p < head)
  }

  ghost predicate ReadersOk(readers: map<nat, Reader>, head: nat, tail: nat) {
    forall r :: r in readers ==> Accounted(readers[r], head, tail)
  }

  /** A registered live receiver has nothing to read, and a parked one is registered. */
  ghost predicate WakersOk(readers: map<nat, Reader>, wakers: map<nat, nat>, tail: nat) {
    forall r :: r in readers ==>
      && (r in wakers ==> readers[r].readPos == tail)
      && (readers[r].parked.Some? ==> r in wakers && wakers[r] == readers[r].parked.value)
  }

  /** The condition variable: an unnotified sender really has no receiver; only the device reader waits. */
  ghost predicate WaitOk(s: System) {
    && (s.producer.Waiting? ==> s.config.kind == DeviceReader)
    && (s.producer.Waiting? && !s.producer.notified ==> s.queue.numReceivers == 0)
  }

  /** Allocations: one per swap until the queue has filled, and one per shared eviction. */
  ghost predicate AllocationOk(s: System) {
    && s.mem.created == Min(s.swaps, s.config.capacity) + s.replaced
    && match s.producer
       case Swapping(push) => s.swaps == if push.Some? then s.queue.tailPos + 1 else s.queue.tailPos
       case Waiting(push, _) => s.swaps == if push.Some? then s.queue.tailPos + 1 else s.queue.tailPos
       case Filling(_) => s.swaps == s.queue.tailPos + 1
       case Claimed(_) => s.swaps == s.queue.tailPos + 1
       case _ => true
  }

  ghost predicate PushPending(s: System) {
    (s.producer.Swapping? || s.producer.Waiting?) && s.producer.push.None? ==> s.swaps == 0
  }

  ghost predicate ProtocolOk(s: System) {
    && CountersOk(s) && NamesOk(s) && WaitOk(s) && AllocationOk(s) && PushPending(s)
    && ReadersOk(s.readers, s.queue.headPos, s.queue.tailPos)
    && WakersOk(s.readers, s.queue.wakers, s.queue.tailPos)
  }

  ghost predicate Inv(s: System) {
    MemoryOk(s) && ProtocolOk(s)
  }

  /** A fresh channel, and a producer that has not swapped yet. */
  function Start(c: Config): (s: System)
    requires ConfigOk(c)
    ensures Inv(s)
  {
    var s := System(c, Memory(map[], 0), Channel(c.capacity), Swapping(None), {0}, map[], map[], [], 0, 0, 1);
    HandlesAre(s, map[]);
    s
  }

  // ---------- steps ----------

  function Notify(p: Producer, notify: bool): Producer {
    if notify && p.Waiting? then p.(notified := true) else p
  }

  /** The item a buffer shows now. */
  function ItemOf(m: Memory, b: Buffer): Item
    requires b.block in m.blocks && b.start <= b.end <= |m.blocks[b.block].bytes|
  {
    Item(m.blocks[b.block].bytes[b.start..b.end], b.sampleRate, b.sampleType)
  }

  /** The tasks behind the drained wakers run again. */
  function Woken(readers: map<nat, Reader>, wakers: map<nat, nat>): map<nat, Reader> {
    map r | r in readers :: if r in wakers then readers[r].(parked := None) else readers[r]
  }

  lemma SlotIsLive(s: System, index: nat)
    requires MemoryOk(s) && index < |s.queue.slots|
    ensures s.queue.slots[index].block in s.mem.blocks
  {
    hide Counted, KeptOk, BlocksOk, ItemsOk, AllHandles;
    assert ShowsItem(s.mem, s.queue.slots[index], s.history[s.queue.headPos + index]);
  }

  function PollStep(s: System, r: nat, waker: nat): System
    requires Inv(s) && r in s.readers
  {
    var reader := s.readers[r];
    var (queue, pos, poll) := PollSection(s.queue, reader.readPos, r, waker);
    var missed := if reader.readPos < s.queue.headPos then s.queue.headPos - reader.readPos else 0;
    var moved := reader.(readPos := pos, skipped := reader.skipped + missed);
    match poll
    case Pending => s.(queue := queue, readers := s.readers[r := moved.(parked := Some(waker))])
    case End => s.(queue := queue, readers := s.readers[r := moved.(parked := None)])
    case Ready(index) =>
      var buffer := s.queue.slots[index];
      SlotIsLive(s, index);
      s.(queue := queue,
         readers := s.readers[r := moved.(parked := None, delivered := reader.delivered + [pos - 1])],
         mem := CloneArc(s.mem, buffer.block),
         kept := s.kept[s.nextName := Kept(buffer, pos - 1)],
         nextName := s.nextName + 1)
  }

  function SwapStep(s: System): System
    requires Inv(s) && Enabled(s, Swap)
  {
    var push := s.producer.push;
    var (queue, swap) := SwapSection(s.queue, push, s.config.kind == DeviceReader);
    match swap
    case Blocked => s.(producer := Waiting(push, false))
    case Disconnected =>
      s.(producer := Exited, mem := if push.Some? then DropArc(s.mem, push.value.block) else s.mem)
    case Swapped(reused) =>
      var t := s.(queue := queue, swaps := s.swaps + 1,
                  history := if push.Some? then s.history + [ItemOf(s.mem, push.value)] else s.history,
                  readers := if push.Some? then Woken(s.readers, s.queue.wakers) else s.readers);
      match reused
      case Some(buffer) => t.(producer := Filling(buffer))
      case None =>
        t.(mem := Allocate(s.mem, s.config.bufferSize), producer := Filling(NewBuffer(s.mem.created)))
  }

  /**
   * `reclaim_or_allocate`. The reader thread sets the tags before it, so a replaced buffer has
   * lost them; the client sets its tags when the buffer is full.
   */
  function ClaimStep(s: System, sampleRate: u32, sampleType: SampleType): System
    requires Inv(s) && s.producer.Filling?
  {
    var tagged := if s.config.kind == DeviceReader
                  then s.producer.buffer.(sampleRate := sampleRate, sampleType := sampleType)
                  else s.producer.buffer;
    var (mem, buffer) := Reclaim(s.mem, tagged, s.config.bufferSize);
    s.(mem := mem, producer := Claimed(buffer),
       replaced := if Unique(s.mem, tagged.block) then s.replaced else s.replaced + 1)
  }

  /** The reader thread sets both ends of the window; the client only its end, and the tags. */
  function FinishStep(s: System, count: nat, sampleRate: u32, sampleType: SampleType): System
    requires Enabled(s, Finish(count, sampleRate, sampleType))
  {
    var b := s.producer.buffer;
    s.(producer := Swapping(Some(
        if s.config.kind == DeviceReader then b.(start := 0, end := count)
        else b.(end := count, sampleRate := sampleRate, sampleType := sampleType))))
  }

  function DropSubscriberStep(s: System, i: nat): System
    requires Inv(s) && i in s.subscribers
  {
    assert s.subscribers != {};
    s.(queue := SubscriberDropped(s.queue).0, subscribers := s.subscribers - {i})
  }

  /** A new receiver that starts reading at pos. */
  function AttachStep(s: System, pos: nat): System {
    var (queue, notify) := ReceiverAdded(s.queue);
    s.(queue := queue, producer := Notify(s.producer, notify),
       readers := s.readers[s.queue.nextReceiverId := Reader(pos, pos, [], 0, None)])
  }

  function DropReceiverStep(s: System, r: nat): System
    requires Inv(s) && r in s.readers
  {
    assert s.readers != map[];
    var (queue, notify) := ReceiverDropped(s.queue);
    s.(queue := queue, producer := Notify(s.producer, notify), readers := s.readers - {r})
  }

  function CloneBufferStep(s: System, id: nat): System
    requires Inv(s) && id in s.kept
  {
    s.(mem := CloneArc(s.mem, s.kept[id].buffer.block), kept := s.kept[s.nextName := s.kept[id]],
       nextName := s.nextName + 1)
  }

  /** `slice` with a half-open range of bytes that lies within the buffer. */
  function SliceBufferStep(s: System, id: nat, from: nat, to: nat): System
    requires id in s.kept
  {
    var b := s.kept[id].buffer;
    s.(kept := s.kept[id := s.kept[id].(buffer := b.(start := b.start + from, end := b.start + to))])
  }

  function DropBufferStep(s: System, id: nat): System
    requires Inv(s) && id in s.kept
  {
    s.(mem := DropArc(s.mem, s.kept[id].buffer.block), kept := s.kept - {id})
  }

  /** The device or the transport writes into the claimed block, as often as it likes. */
  function FillStep(s: System, bytes: seq<u8>): System
    requires Inv(s) && s.producer.Claimed? && |bytes| == s.config.bufferSize
  {
    s.(mem := Overwrite(s.mem, s.producer.buffer.block, bytes))
  }

  /** The loop ends on an error, at end of input, on an odd count or by cancellation. */
  function AbortStep(s: System): System
    requires Inv(s) && (s.producer.Filling? || s.producer.Claimed?)
  {
    s.(mem := DropArc(s.mem, s.producer.buffer.block), producer := Exited)
  }

  function DropSenderStep(s: System): System
    requires Inv(s) && s.producer.Exited?
  {
    var (queue, _) := SenderDropped(s.queue);
    s.(queue := queue, producer := Gone)
  }

  /** Steps of the handles that count as subscribers and receivers. */
  predicate OnHandles(a: Action) {
    a.CloneSubscriber? || a.DropSubscriber? || a.Subscribe? || a.CloneReceiver? || a.DropReceiver? || a.Poll?
  }

  /** Steps of buffers in consumers' hands. */
  predicate OnBuffers(a: Action) {
    a.CloneBuffer? || a.SliceBuffer? || a.DropBuffer?
  }

  function HandleStep(s: System, a: Action): System
    requires Inv(s) && Enabled(s, a) && OnHandles(a)
  {
    match a
    case CloneSubscriber(_) =>
      s.(queue := SubscriberCloned(s.queue), subscribers := s.subscribers + {s.nextName}, nextName := s.nextName + 1)
    case DropSubscriber(i) => DropSubscriberStep(s, i)
    case Subscribe(_) => AttachStep(s, s.queue.tailPos)
    case CloneReceiver(r) => AttachStep(s, s.readers[r].readPos)
    case DropReceiver(r) => DropReceiverStep(s, r)
    case Poll(r, waker) => PollStep(s, r, waker)
  }

  function BufferStep(s: System, a: Action): System
    requires Inv(s) && Enabled(s, a) && OnBuffers(a)
  {
    match a
    case CloneBuffer(id) => CloneBufferStep(s, id)
    case SliceBuffer(id, from, to) => SliceBufferStep(s, id, from, to)
    case DropBuffer(id) => DropBufferStep(s, id)
  }

  function ProducerStep(s: System, a: Action): System
    requires Inv(s) && Enabled(s, a) && !OnHandles(a) && !OnBuffers(a)
  {
    match a
    case Swap => SwapStep(s)
    case Claim(sampleRate, sampleType) => ClaimStep(s, sampleRate, sampleType)
    case Fill(bytes) => FillStep(s, bytes)
    case Finish(count, sampleRate, sampleType) => FinishStep(s, count, sampleRate, sampleType)
    case Abort => AbortStep(s)
    case DropSender => DropSenderStep(s)
  }

  function Step(s: System, a: Action): System
    requires Inv(s) && Enabled(s, a)
  {
    if OnHandles(a) then HandleStep(s, a) else if OnBuffers(a) then BufferStep(s, a) else ProducerStep(s, a)
  }
}
