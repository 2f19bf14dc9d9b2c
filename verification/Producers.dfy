/**
 * The two producer loops in place: the reader thread's, which blocks without receivers and reads
 * from the device, and the rtl_tcp client's, which does neither. Undisturbed, each is a run of
 * the step system.
 */
module Producers {
  import opened Types
  import opened Slices
  import opened Arcs
  import opened BufferQueue
  import opened SampleSystem
  import opened Recycling
  import opened Protocol

  /** What one read gives: tags that may be refused, the bytes put into the block, and the count or an error. */
  datatype Reading = Reading(tagsOk: bool, sampleRate: u32, sampleType: SampleType, bytes: seq<u8>, count: Option<nat>)

  /** The count with which `read_to_buffer`, or the client after `read_exact`, goes on. */
  predicate Usable(c: Config, count: Option<nat>) {
    && count.Some?
    && match c.kind
       case DeviceReader => 0 < count.value <= c.bufferSize && count.value % 2 == 0
       case NetworkReader => count.value == c.bufferSize
  }

  lemma OwnedIsLive(s: System)
    requires Inv(s) && OwnedBuffer(s.producer).Some?
    ensures OwnedBuffer(s.producer).value.block in s.mem.blocks
    ensures |s.mem.blocks[OwnedBuffer(s.producer).value.block].bytes| == s.config.bufferSize
    ensures s.producer.Claimed? ==> Unique(s.mem, s.producer.buffer.block)
  {
    hide Counted, SlotsOk, KeptOk, ItemsOk, AllHandles, ProtocolOk;
  }

  /** The tags of a reading, or the defaults where the reader thread's claim has reset them. */
  predicate HasTags(kind: Kind, sampleRate: u32, sampleType: SampleType, reading: Reading) {
    || (sampleRate == reading.sampleRate && sampleType == reading.sampleType)
    || (kind == DeviceReader && sampleRate == 0 && sampleType == IqSamples)
  }

  /** A reading with which the loop goes on. */
  predicate Good(c: Config, reading: Reading) {
    (c.kind == DeviceReader ==> reading.tagsOk) && Usable(c, reading.count)
  }

  /** The finished buffer shows what was read. */
  ghost predicate Holds(kind: Kind, m: Memory, b: Buffer, reading: Reading) {
    && reading.count.Some? && b.end == reading.count.value
    && b.block in m.blocks && m.blocks[b.block].bytes == reading.bytes
    && HasTags(kind, b.sampleRate, b.sampleType, reading)
  }

  /** Dropping the producer's buffer when a read fails. */
  method DropBuffer(shared: SharedState, arena: Arena, b: Buffer, ghost s: System)
    requires Matches(s, shared, arena)
    requires s.producer == Claimed(b) || (s.producer == Filling(b) && s.config.kind == DeviceReader)
    modifies arena
    ensures Enabled(s, Abort) && Matches(Step(s, Abort), shared, arena)
  {
    hide MemoryOk, ProtocolOk;
    OwnedIsLive(s);
    StepKeepsInv(s, Abort);
    arena.Drop(b.block);
  }

  /** Claiming the block, or replacing the buffer. */
  method ClaimBuffer(shared: SharedState, arena: Arena, config: Config, b: Buffer, reading: Reading, ghost s: System)
    returns (claimed: Buffer)
    requires Matches(s, shared, arena) && s.producer == Filling(b) && s.config == config
    modifies arena
    ensures Matches(ClaimStep(s, reading.sampleRate, reading.sampleType), shared, arena)
    ensures ClaimStep(s, reading.sampleRate, reading.sampleType).producer == Claimed(claimed)
    ensures b.block in s.mem.blocks
    ensures config.kind == DeviceReader ==>
      (claimed.sampleRate, claimed.sampleType)
      == if Unique(s.mem, b.block) then (reading.sampleRate, reading.sampleType) else (0, IqSamples)
  {
    hide MemoryOk, ProtocolOk;
    OwnedIsLive(s);
    StepKeepsInv(s, Claim(reading.sampleRate, reading.sampleType));
    var tagged := if config.kind == DeviceReader
                  then b.(sampleRate := reading.sampleRate, sampleType := reading.sampleType) else b;
    claimed := ReclaimOrAllocate(arena, tagged, config.bufferSize);
  }

  /** The source writes into the block; a usable count completes the buffer. */
  method ReadInto(shared: SharedState, arena: Arena, config: Config, b: Buffer, reading: Reading, ghost s: System)
    returns (push: Option<Buffer>, ghost run: seq<Action>)
    requires Matches(s, shared, arena) && s.producer == Claimed(b) && s.config == config
    requires |reading.bytes| == config.bufferSize
    modifies arena
    ensures Runs(s, run) && Matches(After(s, run), shared, arena)
    ensures push.Some? <==> Usable(config, reading.count)
    ensures After(s, run).producer == (if push.Some? then Swapping(push) else Exited)
    ensures After(s, run).config == config && After(s, run).history == s.history
    ensures push.Some? ==>
      && push.value.start == 0 && push.value.end == reading.count.value
      && push.value.block in arena.blocks && arena.blocks[push.value.block].bytes == reading.bytes
      && (push.value.sampleRate, push.value.sampleType)
         == if config.kind == DeviceReader then (b.sampleRate, b.sampleType)
            else (reading.sampleRate, reading.sampleType)
  {
    hide MemoryOk, ProtocolOk;
    OwnedIsLive(s);
    var fill := Fill(reading.bytes);
    StepKeepsInv(s, fill);
    arena.WriteUnique(b.block, reading.bytes);
    ghost var t := Step(s, fill);
    ghost var next := if Usable(config, reading.count)
                      then Finish(reading.count.value, reading.sampleRate, reading.sampleType) else Abort;
    StepKeepsInv(t, next);
    run := [fill, next];
    TwoSteps(s, fill, next);
    if Usable(config, reading.count) {
      push := Some(if config.kind == DeviceReader then b.(start := 0, end := reading.count.value)
                   else b.(end := reading.count.value, sampleRate := reading.sampleRate,
                           sampleType := reading.sampleType));
      OwnedStart(t);
    } else {
      DropBuffer(shared, arena, b, t);
      push := None;
    }
  }

  lemma OwnedStart(s: System)
    requires Inv(s) && OwnedBuffer(s.producer).Some?
    ensures OwnedBuffer(s.producer).value.start == 0
  {
    hide Counted, SlotsOk, KeptOk, ItemsOk, AllHandles, ProtocolOk;
  }

  /**
   * `read_to_buffer`, or the client's claim, `read_exact` and tagging. Only the reader thread
   * asks the device for tags first, which may fail before the block is claimed.
   */
  method FillBuffer(shared: SharedState, arena: Arena, config: Config, b: Buffer, reading: Reading, ghost s: System)
    returns (push: Option<Buffer>, ghost run: seq<Action>)
    requires Matches(s, shared, arena) && s.producer == Filling(b) && s.config == config
    requires |reading.bytes| == config.bufferSize
    modifies arena
    ensures Runs(s, run) && Matches(After(s, run), shared, arena)
    ensures push.Some? <==> Good(config, reading)
    ensures After(s, run).producer == (if push.Some? then Swapping(push) else Exited)
    ensures After(s, run).config == config && After(s, run).history == s.history
    ensures push.Some? ==>
      && push.value.start == 0 && push.value.end == reading.count.value
      && push.value.block in arena.blocks && arena.blocks[push.value.block].bytes == reading.bytes
      && b.block in s.mem.blocks
      && (push.value.sampleRate, push.value.sampleType)
         == if config.kind == NetworkReader || Unique(s.mem, b.block) then (reading.sampleRate, reading.sampleType)
            else (0, IqSamples)
    ensures push.Some? ==> Holds(config.kind, arena.Value(), push.value, reading)
  {
    hide MemoryOk, ProtocolOk;
    if config.kind == DeviceReader && !reading.tagsOk {
      DropBuffer(shared, arena, b, s);
      OneStep(s, Abort);
      return None, [Abort];
    }
    ghost var claim := Claim(reading.sampleRate, reading.sampleType);
    var claimed := ClaimBuffer(shared, arena, config, b, reading, s);
    ghost var t := Step(s, claim);
    OneStep(s, claim);
    ghost var rest;
    push, rest := ReadInto(shared, arena, config, claimed, reading, t);
    run := [claim] + rest;
    RunsJoin(s, [claim], rest);
  }

  /** One `swap_buffers` pass. */
  method SwapOnce(shared: SharedState, arena: Arena, config: Config, push: Option<Buffer>, ghost s: System)
    returns (swap: BufferQueue.Swap, buffer: Option<Buffer>)
    requires Matches(s, shared, arena) && s.producer == Swapping(push) && s.config == config
    modifies shared`slots, shared`headPos, shared`tailPos, shared`wakers, arena
    ensures Enabled(s, SampleSystem.Swap) && Matches(SwapStep(s), shared, arena) && SwapStep(s).config == config
    ensures Step(s, SampleSystem.Swap) == SwapStep(s)
    ensures SwapStep(s).producer ==
      match swap
      case Blocked => Waiting(push, false)
      case Disconnected => Exited
      case Swapped(_) => Filling(if buffer.Some? then buffer.value else NewBuffer(0))
    ensures swap.Swapped? <==> buffer.Some?
    ensures !swap.Swapped? ==> config.kind == DeviceReader
    ensures push.Some? ==>
      && push.value.block in s.mem.blocks
      && push.value.start <= push.value.end <= |s.mem.blocks[push.value.block].bytes|
    ensures SwapStep(s).history ==
      if swap.Swapped? && push.Some?
      then s.history + [ItemOf(s.mem, push.value)]
      else s.history
  {
    hide MemoryOk, ProtocolOk;
    WindowFacts(s);
    if push.Some? {
      PushFits(s);
    }
    StepKeepsInv(s, SampleSystem.Swap);
    var woken;
    swap, buffer, woken := shared.Swap(arena, push, config.bufferSize, config.kind == DeviceReader);
    if swap == Disconnected && push.Some? {
      OwnedIsLive(s);
      arena.Drop(push.value.block);
    }
  }

  /** Leaving the loop drops the sender. */
  method DropTheSender(shared: SharedState, arena: Arena, ghost s: System)
    requires Matches(s, shared, arena) && s.producer.Exited?
    modifies shared`numSenders
    ensures Enabled(s, DropSender) && Matches(Step(s, DropSender), shared, arena)
    ensures Step(s, DropSender).producer == Gone && Step(s, DropSender).history == s.history
  {
    hide MemoryOk, ProtocolOk;
    StepKeepsInv(s, DropSender);
    SendersAre(s);
    var _ := shared.DropSender();
  }

  /** The history holds, after what it held before, what the first n readings delivered, in order. */
  ghost predicate Records(kind: Kind, history: seq<Item>, before: seq<Item>, readings: seq<Reading>, n: nat) {
    && n <= |readings|
    && |history| == |before| + n && before <= history
    && forall k :: 0 <= k < n ==> Recorded(kind, history[|before| + k], readings[k])
  }

  ghost predicate Recorded(kind: Kind, item: Item, reading: Reading) {
    && reading.count.Some? && reading.count.value <= |reading.bytes|
    && item.bytes == reading.bytes[..reading.count.value]
    && HasTags(kind, item.sampleRate, item.sampleType, reading)
  }

  /** Pushing the finished buffer records its reading. */
  lemma PushedItem(s: System, reading: Reading)
    requires Inv(s) && s.producer.Swapping? && s.producer.push.Some?
    requires Holds(s.config.kind, s.mem, s.producer.push.value, reading)
    ensures var b := s.producer.push.value;
            && b.block in s.mem.blocks && b.start <= b.end <= |s.mem.blocks[b.block].bytes|
            && Recorded(s.config.kind, ItemOf(s.mem, b), reading)
  {
    hide MemoryOk, ProtocolOk, HasTags;
    PushFits(s);
  }

  lemma RecordsNothing(kind: Kind, history: seq<Item>, readings: seq<Reading>)
    ensures Records(kind, history, history, readings, 0)
  {
  }

  lemma RecordsOneMore(kind: Kind, history: seq<Item>, before: seq<Item>, readings: seq<Reading>, n: nat, item: Item)
    requires Records(kind, history, before, readings, n) && n < |readings| && Recorded(kind, item, readings[n])
    ensures Records(kind, history + [item], before, readings, n + 1)
  {
  }

  /** Why the loop stopped. */
  datatype Stop = OutOfReadings | NobodyLeft | ReadFailed | WaitsForReceiver

  /**
   * `reader_thread` and the client's `forward_samples`: swap, fill, and remember the buffer to
   * push, until the queue says stop, a read fails, or the sender has to wait for a receiver.
   * With nobody else acting the loop is a run of the step system. It completes one round for
   * each reading up to the first that is no good, and each round pushes what the round before
   * has read, so that only the last reading is still to be pushed when it stops before a swap;
   * unless it is waiting, it has dropped its sender when it stops.
   */
  method ProducerLoop(shared: SharedState, arena: Arena, config: Config, readings: seq<Reading>, ghost s: System)
    returns (rounds: nat, stop: Stop, ghost run: seq<Action>)
    requires Matches(s, shared, arena) && s.producer == Swapping(None) && s.config == config
    requires forall k :: 0 <= k < |readings| ==> |readings[k].bytes| == config.bufferSize
    modifies shared, arena
    ensures Runs(s, run) && Matches(After(s, run), shared, arena)
    ensures match stop
            case OutOfReadings => rounds == |readings| && After(s, run).producer.Swapping?
            case ReadFailed =>
              rounds < |readings| && !Good(config, readings[rounds]) && After(s, run).producer.Gone?
            case NobodyLeft => rounds < |readings| && config.kind == DeviceReader && After(s, run).producer.Gone?
            case WaitsForReceiver =>
              rounds < |readings| && config.kind == DeviceReader && After(s, run).producer.Waiting?
    ensures rounds <= |readings| && forall k :: 0 <= k < rounds ==> Good(config, readings[k])
    ensures Records(config.kind, After(s, run).history, s.history, readings,
                    if stop.ReadFailed? then rounds else if rounds == 0 then 0 else rounds - 1)
  {
    hide Inv, Step, SwapStep, Records, Recorded, Holds, Good;
    RecordsNothing(config.kind, s.history, readings);
    var push: Option<Buffer> := None;
    run, rounds, stop := [], 0, OutOfReadings;
    while rounds < |readings|
      invariant rounds <= |readings| && stop.OutOfReadings?
      invariant Runs(s, run) && Matches(After(s, run), shared, arena)
      invariant After(s, run).producer == Swapping(push) && After(s, run).config == config
      invariant Records(config.kind, After(s, run).history, s.history, readings, if rounds == 0 then 0 else rounds - 1)
      invariant forall k :: 0 <= k < rounds ==> Good(config, readings[k])
      invariant push.Some? <==> rounds > 0
      invariant push.Some? ==> Holds(config.kind, arena.Value(), push.value, readings[rounds - 1])
    {
      ghost var t := After(s, run);
      if push.Some? {
        PushedItem(t, readings[rounds - 1]);
        RecordsOneMore(config.kind, t.history, s.history, readings, rounds - 1, ItemOf(t.mem, push.value));
      }
      var swap, buffer := SwapOnce(shared, arena, config, push, t);
      RunExtends(s, run, SampleSystem.Swap);
      run := run + [SampleSystem.Swap];
      if swap == Blocked {
        stop := WaitsForReceiver;
        return;
      }
      if swap == Disconnected {
        DropTheSender(shared, arena, After(s, run));
        RunExtends(s, run, DropSender);
        run, stop := run + [DropSender], NobodyLeft;
        return;
      }
      ghost var fill;
      push, fill := FillBuffer(shared, arena, config, buffer.value, readings[rounds], After(s, run));
      RunsJoin(s, run, fill);
      run := run + fill;
      if push.None? {
        DropTheSender(shared, arena, After(s, run));
        RunExtends(s, run, DropSender);
        run, stop := run + [DropSender], ReadFailed;
        return;
      }
      rounds := rounds + 1;
    }
  }
}
