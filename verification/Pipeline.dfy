/**
 * The whole sample path: a server connection as one consumer of the zero-copy queue, while the
 * producer, other connections and other consumers do whatever they can. The connection reads
 * its chunk through the shared memory.
 */
module Pipeline {
  import opened Types
  import opened Slices
  import opened Arcs
  import opened BufferQueue
  import opened SampleSystem
  import opened Recycling
  import opened Protocol
  import opened Refinement
  import opened Guarantees
  import opened Connection

  /** A connection in the system; `held` names its chunk, `positions` records where its chunks came from. */
  datatype World = World(sys: System, conn: Conn, receiver: nat, held: Option<nat>, positions: seq<nat>)

  datatype Move = Others(action: Action) | PullChunk(waker: nat) | FillBuffer | WriteOut(accepted: nat)

  /** Others may do anything except use this connection's receiver or change its chunk. */
  predicate LeavesAlone(w: World, a: Action) {
    && !(a.Poll? && a.receiver == w.receiver) && a != DropReceiver(w.receiver)
    && (w.held.Some? ==> a != DropBuffer(w.held.value) && !(a.SliceBuffer? && a.id == w.held.value))
  }

  function Select(history: seq<Item>, positions: seq<nat>): (parts: seq<seq<u8>>)
    ensures |parts| == |positions|
  {
    seq(|positions|, i requires 0 <= i < |positions| =>
      if positions[i] < |history| then history[positions[i]].bytes else [])
  }

  /** The chunk in hand is the unread end of the last chunk pulled, as memory shows it. */
  ghost predicate ChunkOk(w: World) {
    && (w.held.Some? <==> w.conn.chunk.Some?)
    && (w.held.Some? ==>
          && w.held.value in w.sys.kept
          && w.conn.chunk.value == Shown(w.sys.mem, w.sys.kept[w.held.value].buffer).bytes
          && w.conn.chunk.value != [] && |w.conn.chunk.value| % 2 == 0)
  }

  /** What the connection pulled is what its receiver delivered, but for a last buffer of another sample type. */
  ghost predicate PositionsOk(w: World) {
    && w.receiver in w.sys.readers
    && w.positions <= w.sys.readers[w.receiver].delivered
    && (w.conn.status.Serving? ==> w.positions == w.sys.readers[w.receiver].delivered)
    && Increasing(w.positions)
    && (forall i :: 0 <= i < |w.positions| ==> w.positions[i] < w.sys.readers[w.receiver].readPos)
    && (forall i :: 0 <= i < |w.positions| ==> w.positions[i] < |w.sys.history|)
    && w.conn.pulled == Select(w.sys.history, w.positions)
  }

  ghost predicate Linked(w: World) {
    Inv(w.sys) && Conserved(w.conn) && ChunkOk(w) && PositionsOk(w)
  }

  ghost predicate CanMove(w: World, m: Move)
    requires Linked(w)
  {
    match m
    case Others(a) => Enabled(w.sys, a) && LeavesAlone(w, a)
    case PullChunk(_) => w.conn.status.Serving? && CanWrite(w.conn.buf) && w.held.None?
    case FillBuffer => w.conn.status.Serving? && CanWrite(w.conn.buf) && w.held.Some?
    case WriteOut(n) => w.conn.status.Serving? && !CanWrite(w.conn.buf) && n <= |ReadBuffer(w.conn.buf)|
  }

  /** `Samples::poll_next`: a buffer of another sample type ends the stream and is dropped. */
  function Pulled(w: World, waker: nat): World
    requires Inv(w.sys) && w.receiver in w.sys.readers
  {
    var s, r := w.sys, w.receiver;
    var t := PollStep(s, r, waker);
    match PollSection(s.queue, s.readers[r].readPos, r, waker).2
    case Pending => w.(sys := t)
    case End => w.(sys := t, conn := w.conn.(status := Closed))
    case Ready(_) =>
      PollStepIs(s, r, waker);
      var k := t.kept[s.nextName];
      if k.buffer.sampleType == IqSamples then
        var bytes := Shown(t.mem, k.buffer).bytes;
        w.(sys := t, held := Some(s.nextName), positions := w.positions + [k.position],
           conn := w.conn.(chunk := Some(bytes), pulled := w.conn.pulled + [bytes]))
      else
        w.(sys := Step(t, DropBuffer(s.nextName)), conn := w.conn.(status := Closed))
  }

  /** What `read_samples` does with the chunk it has: copy, `slice(n..)`, and drop it when empty. */
  function Filled(w: World): World
    requires Linked(w) && CanMove(w, FillBuffer)
  {
    var id, bytes := w.held.value, w.conn.chunk.value;
    var n := Min(|w.conn.buf.samples| - w.conn.buf.readPos, |bytes| / 2);
    FillIsEnabled(w);
    var t := Step(w.sys, SliceBuffer(id, 2 * n, |bytes|));
    var conn := FillFrom(w.conn, bytes);
    if conn.chunk.None? then w.(sys := Step(t, DropBuffer(id)), conn := conn, held := None)
    else w.(sys := t, conn := conn)
  }

  function Moved(w: World, m: Move): World
    requires Linked(w) && CanMove(w, m)
  {
    match m
    case Others(a) => w.(sys := Step(w.sys, a))
    case PullChunk(waker) => Pulled(w, waker)
    case FillBuffer => Filled(w)
    case WriteOut(n) => w.(conn := Forward(w.conn, Segment(NotReady, n)))
  }

  // ---------- facts about system steps ----------

  lemma FillIsEnabled(w: World)
    requires Linked(w) && CanMove(w, FillBuffer)
    ensures var id, len := w.held.value, |w.conn.chunk.value|;
            var slice := SliceBuffer(id, 2 * Min(|w.conn.buf.samples| - w.conn.buf.readPos, len / 2), len);
            && BufOk(w.conn.buf)
            && Enabled(w.sys, slice) && Inv(Step(w.sys, slice)) && Enabled(Step(w.sys, slice), DropBuffer(id))
  {
    hide MemoryOk, ProtocolOk;
    var id, len := w.held.value, |w.conn.chunk.value|;
    var n := Min(|w.conn.buf.samples| - w.conn.buf.readPos, len / 2);
    PartIsLive(w.sys, id);
    StepKeepsInv(w.sys, SliceBuffer(id, 2 * n, len));
  }

  lemma HistoryOnlyGrows(s: System, a: Action)
    requires Inv(s) && Enabled(s, a)
    ensures s.history <= Step(s, a).history
  {
    hide MemoryOk, ProtocolOk;
  }

  lemma OthersKeepMyChunk(s: System, a: Action, id: nat)
    requires Inv(s) && Enabled(s, a) && id in s.kept
    requires a != DropBuffer(id) && !(a.SliceBuffer? && a.id == id)
    ensures id in Step(s, a).kept && Step(s, a).kept[id] == s.kept[id]
  {
    hide MemoryOk, ProtocolOk;
    NameIsFresh(s);
  }

  /** What memory shows in a consumer's buffer is told by the history alone. */
  lemma ShownIsMeaning(s: System, id: nat)
    requires MemoryOk(s) && id in s.kept
    ensures Shown(s.mem, s.kept[id].buffer) == Meaning(s.kept[id], s.history)
    ensures s.kept[id].position < |s.history|
  {
    PartIsLive(s, id);
    hide MemoryOk;
  }

  lemma MeaningStays(k: Kept, history: seq<Item>, history': seq<Item>)
    requires history <= history' && k.position < |history|
    ensures Meaning(k, history') == Meaning(k, history)
  {
  }

  lemma SelectGrows(history: seq<Item>, history': seq<Item>, positions: seq<nat>)
    requires history <= history' && forall i :: 0 <= i < |positions| ==> positions[i] < |history|
    ensures Select(history', positions) == Select(history, positions)
  {
  }

  lemma SelectSnoc(history: seq<Item>, positions: seq<nat>, pos: nat)
    requires pos < |history|
    ensures Select(history, positions + [pos]) == Select(history, positions) + [history[pos].bytes]
  {
  }

  // ---------- every move keeps the link ----------

  lemma OthersKeepLink(w: World, a: Action)
    requires Linked(w) && CanMove(w, Others(a))
    ensures Linked(Moved(w, Others(a)))
  {
    hide MemoryOk, ProtocolOk, Conserved, Shown, Meaning, Select;
    var s, t := w.sys, Step(w.sys, a);
    StepKeepsInv(s, a);
    OthersKeepAccounts(s, a, w.receiver);
    HistoryOnlyGrows(s, a);
    SelectGrows(s.history, t.history, w.positions);
    if w.held.Some? {
      var id := w.held.value;
      OthersKeepMyChunk(s, a, id);
      ShownIsMeaning(s, id);
      ShownIsMeaning(t, id);
      MeaningStays(s.kept[id], s.history, t.history);
    }
  }

  lemma PullConserves(c: Conn, bytes: seq<u8>)
    requires Conserved(c) && c.status.Serving? && CanWrite(c.buf) && c.chunk.None?
    ensures Conserved(c.(chunk := Some(bytes), pulled := c.pulled + [bytes]))
  {
    var d := c.(chunk := Some(bytes), pulled := c.pulled + [bytes]);
    FlattenSnoc(c.pulled, bytes);
    assert ReadBuffer(c.buf) == [];
    assert c.written + [] + [] == c.written;
    assert d.written + [] + bytes == Flatten(d.pulled);
  }

  lemma ItemWhole(s: System, pos: nat)
    requires MemoryOk(s) && pos < |s.history|
    ensures s.history[pos].bytes != [] && |s.history[pos].bytes| % 2 == 0
  {
    hide Counted, BlocksOk, ProducerOk, AllHandles, KeptOk, SlotsOk, WindowOk;
  }

  lemma PositionAdded(w: World, pos: nat, t: System)
    requires PositionsOk(w) && w.conn.status.Serving? && pos < |w.sys.history| && t.history == w.sys.history
    requires w.receiver in t.readers && w.sys.readers[w.receiver].readPos <= pos < t.readers[w.receiver].readPos
    requires t.readers[w.receiver].delivered == w.sys.readers[w.receiver].delivered + [pos]
    ensures var bytes := w.sys.history[pos].bytes;
            PositionsOk(w.(sys := t, positions := w.positions + [pos],
                           conn := w.conn.(chunk := Some(bytes), pulled := w.conn.pulled + [bytes])))
  {
    SelectSnoc(w.sys.history, w.positions, pos);
  }

  /** Reading on without a chunk, in a system whose history has not lost anything. */
  lemma PositionsCarry(w: World, t: System)
    requires PositionsOk(w) && w.receiver in t.readers && w.sys.history <= t.history
    requires w.sys.readers[w.receiver].readPos <= t.readers[w.receiver].readPos
    requires w.sys.readers[w.receiver].delivered <= t.readers[w.receiver].delivered
    ensures PositionsOk(w.(sys := t, conn := w.conn.(status := Closed)))
    ensures w.sys.readers[w.receiver].delivered == t.readers[w.receiver].delivered ==> PositionsOk(w.(sys := t))
  {
    SelectGrows(w.sys.history, t.history, w.positions);
  }

  lemma ClosingConserves(c: Conn)
    requires Conserved(c) && c.status.Serving?
    ensures Conserved(c.(status := Closed))
  {
  }

  lemma PullKeepsLink(w: World, waker: nat)
    requires Linked(w) && CanMove(w, PullChunk(waker))
    ensures Linked(Moved(w, PullChunk(waker)))
  {
    hide MemoryOk, ProtocolOk, Conserved, Shown, Select, Increasing;
    var s, r := w.sys, w.receiver;
    var t := PollStep(s, r, waker);
    StepOfPoll(s, r, waker);
    StepKeepsInv(s, Poll(r, waker));
    ReaderFacts(s, r);
    if PollSection(s.queue, s.readers[r].readPos, r, waker).2.Ready? {
      PollStepIs(s, r, waker);
      var pos := t.kept[s.nextName].position;
      if t.kept[s.nextName].buffer.sampleType == IqSamples {
        PullConserves(w.conn, s.history[pos].bytes);
        ItemWhole(s, pos);
        PositionAdded(w, pos, t);
      } else {
        var u := Step(t, DropBuffer(s.nextName));
        StepKeepsInv(t, DropBuffer(s.nextName));
        OthersKeepAccounts(t, DropBuffer(s.nextName), r);
        HistoryOnlyGrows(t, DropBuffer(s.nextName));
        PositionsCarry(w, u);
        ClosingConserves(w.conn);
      }
    } else {
      PositionsCarry(w, t);
      ClosingConserves(w.conn);
    }
  }

  lemma FillConserves(c: Conn)
    requires Conserved(c) && c.status.Serving? && CanWrite(c.buf) && c.chunk.Some? && c.chunk.value != []
    requires |c.chunk.value| % 2 == 0
    ensures var n, d := Min(|c.buf.samples| - c.buf.readPos, |c.chunk.value| / 2), FillFrom(c, c.chunk.value);
            && Conserved(d) && d.status.Serving? && d.pulled == c.pulled
            && Rest(d) == c.chunk.value[2 * n..] && (d.chunk.None? <==> Rest(d) == [])
  {
    assert ReadBuffer(c.buf) == [];
    assert c.written + [] + c.chunk.value == c.written + c.chunk.value;
    FillFromConserves(c, c.chunk.value);
  }

  lemma SlicedShows(m: Memory, b: Buffer, from: nat, to: nat)
    requires b.block in m.blocks && b.start <= b.end <= |m.blocks[b.block].bytes|
    requires from <= to <= b.end - b.start
    ensures |Shown(m, b).bytes| == b.end - b.start
    ensures Shown(m, b.(start := b.start + from, end := b.start + to)).bytes == Shown(m, b).bytes[from..to]
  {
    SliceOfSlice(m.blocks[b.block].bytes, b.start, b.end, from, to);
  }

  lemma StepOfBuffers(s: System, a: Action)
    requires Inv(s) && Enabled(s, a) && OnBuffers(a)
    ensures Step(s, a).queue == s.queue && Step(s, a).history == s.history && Step(s, a).readers == s.readers
    ensures a.SliceBuffer? ==> Step(s, a) == SliceBufferStep(s, a.id, a.from, a.to)
    ensures a.DropBuffer? ==> Step(s, a).kept == s.kept - {a.id}
  {
    hide MemoryOk, ProtocolOk;
  }

  lemma FillKeepsLink(w: World)
    requires Linked(w) && CanMove(w, FillBuffer)
    ensures Linked(Moved(w, FillBuffer)) && Moved(w, FillBuffer).conn.status.Serving?
  {
    hide MemoryOk, ProtocolOk, Conserved, Shown, Select, Increasing, FillFrom, Step;
    FillIsEnabled(w);
    var id, bytes := w.held.value, w.conn.chunk.value;
    var n := Min(|w.conn.buf.samples| - w.conn.buf.readPos, |bytes| / 2);
    var slice := SliceBuffer(id, 2 * n, |bytes|);
    FillConserves(w.conn);
    PartIsLive(w.sys, id);
    SlicedShows(w.sys.mem, w.sys.kept[id].buffer, 2 * n, |bytes|);
    StepOfBuffers(w.sys, slice);
    var t := Step(w.sys, slice);
    assert bytes[2 * n..|bytes|] == bytes[2 * n..];
    if FillFrom(w.conn, bytes).chunk.None? {
      StepKeepsInv(t, DropBuffer(id));
      StepOfBuffers(t, DropBuffer(id));
    }
  }

  lemma WriteKeepsLink(w: World, accepted: nat)
    requires Linked(w) && CanMove(w, WriteOut(accepted))
    ensures Linked(Moved(w, WriteOut(accepted)))
  {
    hide MemoryOk, ProtocolOk, Shown, Select, Increasing;
    WriteConserves(w.conn, Segment(NotReady, accepted));
  }

  lemma MoveKeepsLink(w: World, m: Move)
    requires Linked(w) && CanMove(w, m)
    ensures Linked(Moved(w, m))
  {
    hide Linked, Moved;
    match m {
      case Others(a) => OthersKeepLink(w, a);
      case PullChunk(waker) => PullKeepsLink(w, waker);
      case FillBuffer => FillKeepsLink(w);
      case WriteOut(n) => WriteKeepsLink(w, n);
    }
  }

  // ---------- what the moves are ----------

  /** The connection's pull is a poll of its receiver, and a drop exactly when the sample type has changed. */
  lemma PullIsPoll(w: World, waker: nat)
    requires Linked(w) && CanMove(w, PullChunk(waker))
    ensures var s, poll := w.sys, Poll(w.receiver, waker);
            var t, v := Step(s, poll), Moved(w, PullChunk(waker));
            var pos := Max(s.readers[w.receiver].readPos, s.queue.headPos);
            && Enabled(s, poll) && Inv(t)
            && if pos < |s.history| && s.history[pos].sampleType != IqSamples
               then Enabled(t, DropBuffer(s.nextName)) && v.sys == Step(t, DropBuffer(s.nextName))
               else v.sys == t
  {
    var s, r := w.sys, w.receiver;
    ReaderFacts(s, r);
    WindowFacts(s);
    StepOfPoll(s, r, waker);
    StepKeepsInv(s, Poll(r, waker));
    hide MemoryOk, ProtocolOk, Conserved, ChunkOk, PositionsOk, Shown, Select, PollStep, Step;
    if PollSection(s.queue, s.readers[r].readPos, r, waker).2.Ready? {
      PollStepIs(s, r, waker);
    }
  }

  /** A connection that finds nothing to read is parked, with the waker it was polled with. */
  lemma PullParks(w: World, waker: nat)
    requires Linked(w) && CanMove(w, PullChunk(waker))
    requires w.sys.readers[w.receiver].readPos == |w.sys.history| && !w.sys.producer.Gone?
    ensures var v := Moved(w, PullChunk(waker));
            && w.receiver in v.sys.readers && v.sys.readers[w.receiver].parked == Some(waker)
            && w.receiver in v.sys.queue.wakers && v.sys.queue.wakers[w.receiver] == waker
            && v.conn == w.conn && v.held == w.held
  {
    EmptyPull(w, waker);
  }

  lemma EmptyPull(w: World, waker: nat)
    requires Inv(w.sys) && w.receiver in w.sys.readers
    requires w.sys.readers[w.receiver].readPos == |w.sys.history| && !w.sys.producer.Gone?
    ensures var v := Pulled(w, waker);
            && w.receiver in v.sys.readers && v.sys.readers[w.receiver].parked == Some(waker)
            && w.receiver in v.sys.queue.wakers && v.sys.queue.wakers[w.receiver] == waker
            && v.conn == w.conn && v.held == w.held
  {
    PollParks(w.sys, w.receiver, waker);
    hide Inv, PollStep, Step;
  }

  /** A push then wakes it: its reader is not parked any more, and there is something to read. */
  lemma PushWakesConnection(w: World)
    requires Linked(w) && w.sys.readers[w.receiver].parked.Some?
    requires CanMove(w, Others(Swap)) && Pushes(w.sys, Swap)
    ensures var v := Moved(w, Others(Swap));
            && w.receiver in v.sys.readers && v.sys.readers[w.receiver].parked.None?
            && v.sys.readers[w.receiver].readPos < |v.sys.history|
  {
    hide MemoryOk, ProtocolOk, Conserved, ChunkOk, Select;
    ParkedIsRegistered(w.sys, w.receiver);
    OnlyPushesWake(w.sys, Swap, w.receiver);
    OthersKeepAccounts(w.sys, Swap, w.receiver);
    StepOfSwap(w.sys);
  }

  /** A served connection can always go on: pull, fill, or write as much as the writer likes to take. */
  lemma ServedCanMove(w: World, waker: nat, accepted: nat)
    requires Linked(w) && w.conn.status.Serving?
    ensures CanWrite(w.conn.buf) ==>
      if w.held.None? then CanMove(w, PullChunk(waker)) else CanMove(w, FillBuffer)
    ensures !CanWrite(w.conn.buf) && accepted <= |ReadBuffer(w.conn.buf)| ==> CanMove(w, WriteOut(accepted))
  {
    hide Inv, Conserved, ChunkOk, PositionsOk;
  }

  /** Everybody else can do everything but use this connection's receiver and chunk. */
  lemma OthersCanMove(w: World, a: Action)
    requires Linked(w)
    ensures CanMove(w, Others(a)) <==>
      && Enabled(w.sys, a)
      && (match a
          case Poll(r, _) => r != w.receiver
          case DropReceiver(r) => r != w.receiver
          case DropBuffer(id) => w.held != Some(id)
          case SliceBuffer(id, _, _) => w.held != Some(id)
          case _ => true)
  {
    hide Inv, Conserved, ChunkOk, PositionsOk;
  }

  /** The moves of a connection are the segments of `forward_samples`, fed by the queue. */
  lemma MovesAreSegments(w: World, m: Move)
    requires Linked(w) && CanMove(w, m) && !m.PullChunk?
    ensures Moved(w, m).conn ==
      match m
      case FillBuffer => Forward(w.conn, Segment(NotReady, 0))
      case WriteOut(n) => Forward(w.conn, Segment(NotReady, n))
      case _ => w.conn
  {
    hide Inv, Conserved, PositionsOk, Shown, Step;
    if m.FillBuffer? {
      FillIsEnabled(w);
    }
  }

  /** Filling keeps the connection's handle while some of the chunk is left, and then lets go of it. */
  lemma FillReleases(w: World)
    requires Linked(w) && CanMove(w, FillBuffer)
    ensures var v, id := Moved(w, FillBuffer), w.held.value;
            && v.sys.queue == w.sys.queue && v.sys.readers == w.sys.readers && v.sys.history == w.sys.history
            && (v.conn.chunk.None? ==> v.held.None? && v.sys.kept == w.sys.kept - {id})
            && (v.conn.chunk.Some? ==>
                  && v.held == w.held && v.sys.kept.Keys == w.sys.kept.Keys && id in w.sys.kept && id in v.sys.kept
                  && v.sys.kept[id].buffer.end == w.sys.kept[id].buffer.end
                  && v.sys.kept[id].buffer.end - v.sys.kept[id].buffer.start == |v.conn.chunk.value|)
  {
    hide MemoryOk, ProtocolOk, Conserved, PositionsOk, Shown, Step;
    FillIsEnabled(w);
    PartIsLive(w.sys, w.held.value);
    var id, bytes := w.held.value, w.conn.chunk.value;
    ShownLength(w.sys.mem, w.sys.kept[id].buffer);
    var n := Min(|w.conn.buf.samples| - w.conn.buf.readPos, |bytes| / 2);
    var slice := SliceBuffer(id, 2 * n, |bytes|);
    StepOfBuffers(w.sys, slice);
    var t := Step(w.sys, slice);
    StepOfBuffers(t, DropBuffer(id));
    assert w.sys.kept[id := t.kept[id]] - {id} == w.sys.kept - {id};
  }

  lemma ShownLength(m: Memory, b: Buffer)
    requires b.block in m.blocks && b.start <= b.end <= |m.blocks[b.block].bytes|
    ensures |Shown(m, b).bytes| == b.end - b.start
  {
  }

  /** Pulling a chunk and filling from it is the segment that finds the chunk in the stream. */
  lemma PullAndFillIsSegment(w: World, waker: nat)
    requires Linked(w) && CanMove(w, PullChunk(waker))
    ensures var v := Moved(w, PullChunk(waker));
            && Linked(v)
            && (v.conn.status.Closed? ==> v.conn == Forward(w.conn, Segment(Ended, 0)))
            && (v.conn.status.Serving? && v.held.None? ==> v.conn == Forward(w.conn, Segment(NotReady, 0)))
            && (v.conn.status.Serving? && v.held.Some? ==> CanMove(v, FillBuffer) && FillsAsPulled(w, v))
  {
    PullKeepsLink(w, waker);
    PullThenFill(w, waker);
    hide Linked, Moved, Forward, FillsAsPulled;
  }

  /** The chunk just pulled is served as if the stream had given it to this segment. */
  ghost predicate FillsAsPulled(w: World, v: World)
    requires Linked(w) && w.conn.status.Serving? && CanWrite(w.conn.buf)
    requires Linked(v) && CanMove(v, FillBuffer)
  {
    |v.conn.chunk.value| < USIZE ==>
      Moved(v, FillBuffer).conn == Forward(w.conn, Segment(Next(v.conn.chunk.value), 0))
  }

  lemma PullThenFill(w: World, waker: nat)
    requires Linked(w) && CanMove(w, PullChunk(waker)) && Linked(Moved(w, PullChunk(waker)))
    ensures var v := Moved(w, PullChunk(waker));
            && (v.conn.status.Closed? ==> v.conn == Forward(w.conn, Segment(Ended, 0)))
            && (v.conn.status.Serving? && v.held.None? ==> v.conn == Forward(w.conn, Segment(NotReady, 0)))
            && (v.conn.status.Serving? && v.held.Some? ==> CanMove(v, FillBuffer) && FillsAsPulled(w, v))
  {
    hide Inv, Conserved, PositionsOk, Shown, PollStep, Step;
    PullLeavesBuffer(w, waker);
    var v := Moved(w, PullChunk(waker));
    if v.conn.status.Serving? && v.held.Some? {
      MovesAreSegments(v, FillBuffer);
    }
  }

  lemma PullLeavesBuffer(w: World, waker: nat)
    requires Linked(w) && CanMove(w, PullChunk(waker))
    ensures var c, d := w.conn, Moved(w, PullChunk(waker)).conn;
            && d.buf == c.buf && d.written == c.written && !d.status.Panicked?
            && (d.status.Closed? || d.chunk.None? ==> d.chunk == c.chunk && d.pulled == c.pulled)
            && (d.chunk.Some? ==> d.status.Serving? && d.pulled == c.pulled + [d.chunk.value])
            && (d.chunk.Some? <==> Moved(w, PullChunk(waker)).held.Some?)
  {
    hide Inv, Conserved, PositionsOk, Shown, PollStep, Step;
  }

  // ---------- whole journeys ----------

  ghost predicate Travels(w: World, journey: seq<Move>)
    requires Linked(w)
    decreases |journey|
  {
    journey == [] ||
    (&& CanMove(w, journey[0])
     && (MoveKeepsLink(w, journey[0]); Travels(Moved(w, journey[0]), journey[1..])))
  }

  ghost function Arrived(w: World, journey: seq<Move>): (v: World)
    requires Linked(w) && Travels(w, journey)
    ensures Linked(v)
    decreases |journey|
  {
    if journey == [] then w
    else
      MoveKeepsLink(w, journey[0]);
      Arrived(Moved(w, journey[0]), journey[1..])
  }

  lemma AcceptLinks(s: System, subscriber: nat)
    requires Inv(s) && Enabled(s, Subscribe(subscriber))
    ensures Linked(World(Step(s, Subscribe(subscriber)), NewConn(DEFAULT_CAPACITY), s.queue.nextReceiverId, None, []))
  {
    hide MemoryOk, ProtocolOk;
    StepKeepsInv(s, Subscribe(subscriber));
  }

  /** `BackendConnectionHandler::new`: a connection over a receiver that it has just obtained. */
  function Accept(s: System, subscriber: nat): (w: World)
    requires Inv(s) && Enabled(s, Subscribe(subscriber))
    ensures Linked(w)
  {
    AcceptLinks(s, subscriber);
    World(Step(s, Subscribe(subscriber)), NewConn(DEFAULT_CAPACITY), s.queue.nextReceiverId, None, [])
  }

  /**
   * The whole path. Whatever the producer and everybody else do, and however the connection is
   * cancelled and its writer behaves: the bytes written are a prefix of the concatenation of
   * items pushed by the producer, at strictly increasing positions, so in push order, none
   * twice and none altered; all but the last of those items are whole in it, and while the
   * connection has not panicked the missing end is exactly what is still buffered.
   */
  lemma WholePath(s: System, subscriber: nat, journey: seq<Move>)
    requires Inv(s) && Enabled(s, Subscribe(subscriber))
    requires Travels(Accept(s, subscriber), journey)
    ensures var w := Arrived(Accept(s, subscriber), journey);
            var parts := Select(w.sys.history, w.positions);
            && Increasing(w.positions)
            && (w.conn.status.Serving? ==> w.positions == w.sys.readers[w.receiver].delivered)
            && (forall i :: 0 <= i < |w.positions| ==> w.positions[i] < |w.sys.history|)
            && w.conn.written <= Flatten(parts)
            && (!w.conn.status.Panicked? ==>
                  && w.conn.written + ReadBuffer(w.conn.buf) + Rest(w.conn) == Flatten(parts)
                  && (parts != [] ==> Flatten(parts[..|parts| - 1]) <= w.conn.written)
                  && (w.held.Some? ==> Rest(w.conn) == Shown(w.sys.mem, w.sys.kept[w.held.value].buffer).bytes))
  {
    hide Inv, Travels, Select, Increasing, Accept;
    var w := Arrived(Accept(s, subscriber), journey);
    if !w.conn.status.Panicked? {
      AllButLastWritten(w.conn);
    }
  }

  // ---------- a connection that keeps up ----------

  /** The parts are the items from the position `first` on, one after the other. */
  ghost predicate IsStretch(parts: seq<seq<u8>>, history: seq<Item>, first: nat) {
    && first + |parts| <= |history|
    && forall i :: 0 <= i < |parts| ==> parts[i] == history[first + i].bytes
  }

  /** Whenever the connection pulls, its receiver lags by at most `capacity - 1`. */
  ghost predicate KeepsPace(w: World, journey: seq<Move>)
    requires Linked(w) && Travels(w, journey)
    decreases |journey|
  {
    journey == [] ||
    (&& (journey[0].PullChunk? ==>
           w.sys.queue.tailPos - w.sys.readers[w.receiver].readPos <= w.sys.queue.capacity - 1)
     && (MoveKeepsLink(w, journey[0]); KeepsPace(Moved(w, journey[0]), journey[1..])))
  }

  /** A move that keeps up skips nothing. */
  lemma MoveSkipsNothing(w: World, m: Move)
    requires Linked(w) && CanMove(w, m)
    requires m.PullChunk? ==> w.sys.queue.tailPos - w.sys.readers[w.receiver].readPos <= w.sys.queue.capacity - 1
    ensures var before, v := w.sys.readers[w.receiver], Moved(w, m);
            && v.receiver == w.receiver && w.receiver in v.sys.readers
            && v.sys.readers[w.receiver].skipped == before.skipped
            && v.sys.readers[w.receiver].startPos == before.startPos
  {
    hide MemoryOk, ProtocolOk, Conserved, Shown, Meaning, Select, Increasing, FillFrom, Forward;
    match m {
      case Others(a) => OthersKeepAccounts(w.sys, a, w.receiver);
      case PullChunk(waker) => PullSkipsNothing(w, waker);
      case FillBuffer => FillLeavesReaders(w);
      case WriteOut(_) =>
    }
  }

  lemma PullSkipsNothing(w: World, waker: nat)
    requires Inv(w.sys) && w.receiver in w.sys.readers
    requires w.sys.queue.tailPos - w.sys.readers[w.receiver].readPos <= w.sys.queue.capacity - 1
    ensures var before, after := w.sys.readers[w.receiver], Pulled(w, waker).sys.readers;
            w.receiver in after && after[w.receiver].skipped == before.skipped
            && after[w.receiver].startPos == before.startPos
  {
    var s, r := w.sys, w.receiver;
    PollSkipsNothing(s, r, waker);
    hide MemoryOk, ProtocolOk, Conserved, Shown, Select, Increasing, PollStep, Step;
    if PollSection(s.queue, s.readers[r].readPos, r, waker).2.Ready? {
      PollStepIs(s, r, waker);
      StepOfBuffers(PollStep(s, r, waker), DropBuffer(s.nextName));
    }
  }

  lemma FillLeavesReaders(w: World)
    requires Linked(w) && CanMove(w, FillBuffer)
    ensures Filled(w).sys.readers == w.sys.readers
  {
    hide MemoryOk, ProtocolOk, Conserved, Shown, Select, Increasing, FillFrom, Step;
    FillIsEnabled(w);
    var id, len := w.held.value, |w.conn.chunk.value|;
    var slice := SliceBuffer(id, 2 * Min(|w.conn.buf.samples| - w.conn.buf.readPos, len / 2), len);
    StepOfBuffers(w.sys, slice);
    StepOfBuffers(Step(w.sys, slice), DropBuffer(id));
  }

  lemma {:induction false} JourneySkipsNothing(w: World, journey: seq<Move>)
    requires Linked(w) && Travels(w, journey) && KeepsPace(w, journey)
    ensures var v := Arrived(w, journey);
            && v.receiver == w.receiver && w.receiver in v.sys.readers
            && v.sys.readers[w.receiver].skipped == w.sys.readers[w.receiver].skipped
            && v.sys.readers[w.receiver].startPos == w.sys.readers[w.receiver].startPos
    decreases |journey|
  {
    hide Inv, Conserved, ChunkOk, Moved, CanMove;
    if journey != [] {
      MoveKeepsLink(w, journey[0]);
      MoveSkipsNothing(w, journey[0]);
      JourneySkipsNothing(Moved(w, journey[0]), journey[1..]);
    }
  }

  /**
   * A connection that keeps up writes an unbroken stretch of what the producer pushed: the
   * items from the position at which it was accepted, one after the other, with none missing,
   * and while it is served these are all the items its receiver has got to.
   */
  lemma KeepingUpWritesAll(s: System, subscriber: nat, journey: seq<Move>)
    requires Inv(s) && Enabled(s, Subscribe(subscriber))
    requires Travels(Accept(s, subscriber), journey)
    requires KeepsPace(Accept(s, subscriber), journey)
    ensures var w := Arrived(Accept(s, subscriber), journey);
            && IsStretch(w.conn.pulled, w.sys.history, |s.history|)
            && w.conn.written <= Flatten(w.conn.pulled)
            && (w.conn.status.Serving? ==> |s.history| + |w.conn.pulled| == w.sys.readers[w.receiver].readPos)
  {
    var start := Accept(s, subscriber);
    AcceptedReader(s, subscriber);
    hide Linked, Travels, KeepsPace, Accept, IsStretch;
    JourneySkipsNothing(start, journey);
    Unbroken(Arrived(start, journey));
  }

  /** A connection whose receiver has skipped nothing has pulled every item since the receiver's start. */
  lemma Unbroken(w: World)
    requires Linked(w) && w.sys.readers[w.receiver].skipped == 0
    ensures var reader := w.sys.readers[w.receiver];
            && IsStretch(w.conn.pulled, w.sys.history, reader.startPos)
            && w.conn.written <= Flatten(w.conn.pulled)
            && (w.positions == reader.delivered ==> reader.startPos + |w.conn.pulled| == reader.readPos)
  {
    hide Inv, ChunkOk;
    var reader := w.sys.readers[w.receiver];
    ReaderFacts(w.sys, w.receiver);
    HistoryIsTail(w.sys);
    NothingSkippedMeansAll(reader, w.sys.queue.headPos, w.sys.queue.tailPos);
    SelectStretch(w.sys.history, w.positions, reader.startPos) by {
      assert forall i :: 0 <= i < |w.positions| ==> w.positions[i] == reader.delivered[i];
    }
    hide PositionsOk, Increasing, Select;
  }

  lemma HistoryIsTail(s: System)
    requires Inv(s)
    ensures s.queue.tailPos == |s.history|
  {
    WindowFacts(s);
  }

  lemma SelectStretch(history: seq<Item>, positions: seq<nat>, first: nat)
    requires first <= |history|
    requires forall i :: 0 <= i < |positions| ==> positions[i] == first + i < |history|
    ensures IsStretch(Select(history, positions), history, first)
  {
    if positions != [] {
      var last := |positions| - 1;
      assert positions[last] == first + last;
    }
  }

  lemma AcceptedReader(s: System, subscriber: nat)
    requires Inv(s) && Enabled(s, Subscribe(subscriber))
    ensures var w := Accept(s, subscriber);
            w.receiver in w.sys.readers && w.sys.readers[w.receiver] == Reader(|s.history|, |s.history|, [], 0, None)
  {
    WindowFacts(s);
    hide MemoryOk, ProtocolOk;
  }

  // ---------- a connection served to its end ----------

  /** The stream has ended because the sender is gone and everything has been pulled. */
  ghost predicate Drained(w: World)
    requires w.receiver in w.sys.readers
  {
    w.sys.producer.Gone? && w.sys.readers[w.receiver].readPos == |w.sys.history|
  }

  /**
   * A connection that its stream has closed has nothing left in hand; the stream was drained, or
   * its last buffer was of another sample type and has been dropped.
   */
  ghost predicate Settled(w: World) {
    w.conn.status.Closed? && CanWrite(w.conn.buf) ==>
      && w.held.None? && w.receiver in w.sys.readers
      && (Drained(w) || w.positions < w.sys.readers[w.receiver].delivered)
  }

  lemma OthersSettle(w: World, a: Action)
    requires Linked(w) && Settled(w) && CanMove(w, Others(a))
    ensures Settled(Moved(w, Others(a)))
  {
    hide MemoryOk, ProtocolOk, Conserved, ChunkOk, Select, Increasing;
    OthersKeepAccounts(w.sys, a, w.receiver);
    if w.sys.producer.Gone? {
      ClosedStays(w.sys, a);
    }
  }

  lemma PullSettles(w: World, waker: nat)
    requires Inv(w.sys) && w.receiver in w.sys.readers && w.held.None? && w.conn.status.Serving?
    requires w.positions == w.sys.readers[w.receiver].delivered
    ensures Settled(Pulled(w, waker))
  {
    var s, r := w.sys, w.receiver;
    if PollSection(s.queue, s.readers[r].readPos, r, waker).2.End? {
      EndMeansDrained(s, r, waker);
    } else if PollSection(s.queue, s.readers[r].readPos, r, waker).2.Ready? {
      SwitchLeavesOne(w, waker);
    }
    hide Inv, PollStep, Step;
  }

  /** A buffer of another sample type is delivered and not used. */
  lemma SwitchLeavesOne(w: World, waker: nat)
    requires Inv(w.sys) && w.receiver in w.sys.readers && w.conn.status.Serving?
    requires PollSection(w.sys.queue, w.sys.readers[w.receiver].readPos, w.receiver, waker).2.Ready?
    ensures var v := Pulled(w, waker);
            v.conn.status.Closed? ==>
              && w.receiver in v.sys.readers && v.held == w.held && v.positions == w.positions
              && w.sys.readers[w.receiver].delivered < v.sys.readers[w.receiver].delivered
  {
    hide Inv, Shown, PollStep, Step;
    PollStepIs(w.sys, w.receiver, waker);
    StepOfBuffers(PollStep(w.sys, w.receiver, waker), DropBuffer(w.sys.nextName));
  }

  lemma EndMeansDrained(s: System, r: nat, waker: nat)
    requires Inv(s) && r in s.readers && PollSection(s.queue, s.readers[r].readPos, r, waker).2.End?
    ensures var t := PollStep(s, r, waker);
            r in t.readers && t.producer.Gone? && t.readers[r].readPos == |t.history|
  {
    ReaderFacts(s, r);
    HistoryIsTail(s);
    SendersAre(s);
    hide MemoryOk, ProtocolOk;
  }

  lemma MoveSettles(w: World, m: Move)
    requires Linked(w) && Settled(w) && CanMove(w, m)
    ensures Settled(Moved(w, m))
  {
    hide Inv, Conserved, ChunkOk, Increasing, Select, Drained, Pulled, Filled;
    match m {
      case Others(a) => OthersSettle(w, a);
      case PullChunk(waker) => PullSettles(w, waker);
      case FillBuffer => FillKeepsLink(w);
      case WriteOut(_) =>
    }
  }

  lemma {:induction false} JourneySettles(w: World, journey: seq<Move>)
    requires Linked(w) && Settled(w) && Travels(w, journey)
    ensures Settled(Arrived(w, journey))
    decreases |journey|
  {
    hide Linked, Settled, Moved, CanMove;
    if journey != [] {
      MoveKeepsLink(w, journey[0]);
      MoveSettles(w, journey[0]);
      JourneySettles(Moved(w, journey[0]), journey[1..]);
    }
  }

  /**
   * A connection served to its end, so closed by its stream and not by its writer, has written
   * everything it pulled, and every item whole. If it has kept up, and the stream ended because
   * the sender had gone and not because the sample type changed, that is everything that was
   * pushed since it was accepted.
   */
  lemma ServedToTheEnd(s: System, subscriber: nat, journey: seq<Move>)
    requires Inv(s) && Enabled(s, Subscribe(subscriber)) && Travels(Accept(s, subscriber), journey)
    requires var w := Arrived(Accept(s, subscriber), journey); w.conn.status.Closed? && CanWrite(w.conn.buf)
    ensures var w := Arrived(Accept(s, subscriber), journey);
            && w.conn.written == Flatten(Select(w.sys.history, w.positions))
            && w.receiver in w.sys.readers
            && (w.positions == w.sys.readers[w.receiver].delivered ==> Drained(w))
            && (w.positions == w.sys.readers[w.receiver].delivered && KeepsPace(Accept(s, subscriber), journey) ==>
                  && IsStretch(Select(w.sys.history, w.positions), w.sys.history, |s.history|)
                  && |s.history| + |w.positions| == |w.sys.history|)
  {
    var start := Accept(s, subscriber);
    AcceptedSettled(s, subscriber);
    JourneySettles(start, journey);
    var w := Arrived(start, journey);
    AllWritten(w);
    if KeepsPace(start, journey) {
      AcceptedReader(s, subscriber);
      hide Linked, Travels, KeepsPace, Accept, IsStretch, Drained;
      JourneySkipsNothing(start, journey);
      Unbroken(w);
    }
  }

  lemma AcceptedSettled(s: System, subscriber: nat)
    requires Inv(s) && Enabled(s, Subscribe(subscriber))
    ensures Settled(Accept(s, subscriber))
  {
    hide Inv, Step;
  }

  /** Nothing buffered and nothing in hand: everything pulled has been written. */
  lemma AllWritten(w: World)
    requires Linked(w) && Settled(w) && w.conn.status.Closed? && CanWrite(w.conn.buf)
    ensures w.conn.written == Flatten(w.conn.pulled) && w.conn.pulled == Select(w.sys.history, w.positions)
    ensures w.positions == w.sys.readers[w.receiver].delivered ==> Drained(w)
  {
    hide Inv, Select, Flatten;
    assert w.conn.written + [] + [] == w.conn.written;
  }

  lemma AllButLastWritten(c: Conn)
    requires Conserved(c) && !c.status.Panicked?
    ensures c.pulled != [] ==> Flatten(c.pulled[..|c.pulled| - 1]) <= c.written
  {
    if c.pulled != [] {
      var n := |c.pulled| - 1;
      var front, all := Flatten(c.pulled[..n]), Flatten(c.pulled);
      assert all == front + c.pulled[n];
      assert |all| == |c.written| + |ReadBuffer(c.buf)| + |Rest(c)|;
      assert |front| <= |c.written|;
      assert front == all[..|front|] && c.written == all[..|c.written|];
    }
  }

  /**
   * Chunks from the queue are never empty and never hold half a sample, so a connection ends
   * exactly when its stream ends (the sender is gone and the queue drained), the sample type
   * changes or the writer takes nothing; and it panics exactly when the writer takes an odd number of bytes.
   */
  lemma ConnectionEndsExactly(w: World, m: Move)
    requires Linked(w) && CanMove(w, m) && w.conn.status.Serving?
    ensures var s, reader := w.sys, w.sys.readers[w.receiver];
            var pos := Max(reader.readPos, s.queue.headPos);
            && (Moved(w, m).conn.status.Closed? <==>
                  match m
                  case PullChunk(_) =>
                    if pos < |s.history| then s.history[pos].sampleType != IqSamples else s.producer.Gone?
                  case WriteOut(n) => n == 0
                  case _ => false)
            && (Moved(w, m).conn.status.Panicked? <==> m.WriteOut? && m.accepted % 2 != 0)
  {
    hide MemoryOk, ProtocolOk, Conserved, Shown, Select, Increasing, PollStep, FillFrom;
    match m {
      case PullChunk(waker) => PullEnds(w, waker);
      case FillBuffer => FillKeepsLink(w);
      case _ =>
    }
  }

  lemma PullEnds(w: World, waker: nat)
    requires Linked(w) && CanMove(w, PullChunk(waker))
    ensures var s, pos := w.sys, Max(w.sys.readers[w.receiver].readPos, w.sys.queue.headPos);
            var status := Pulled(w, waker).conn.status;
            && (status.Closed? <==>
                  if pos < |s.history| then s.history[pos].sampleType != IqSamples else s.producer.Gone?)
            && !status.Panicked?
  {
    var s, r := w.sys, w.receiver;
    ReaderFacts(s, r);
    WindowFacts(s);
    SendersAre(s);
    hide MemoryOk, ProtocolOk, Conserved, Shown, Select, Increasing;
    if PollSection(s.queue, s.readers[r].readPos, r, waker).2.Ready? {
      PollStepIs(s, r, waker);
    }
  }
}
