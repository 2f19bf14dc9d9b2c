/**
 * The sample side of a server connection: chunks pulled from the stream, a cursor into the
 * current chunk, a sample buffer, and the writer. `serve_connection` may cancel the forwarding
 * future at any await; a segment between awaits is one step, and cancelling is a step that does
 * nothing.
 */
module Connection {
  import opened Types
  import opened Slices

  // ---------- the sample buffer ----------

  datatype SampleBuf = SampleBuf(samples: seq<Iq>, writePos: nat, readPos: nat)

  ghost predicate BufOk(b: SampleBuf) {
    && b.readPos <= b.writePos <= |b.samples|
    && (b.writePos > 0 ==> b.readPos < b.writePos)
    && |b.samples| > 0
  }

  predicate CanRead(b: SampleBuf) { b.readPos < b.writePos }

  predicate CanWrite(b: SampleBuf) { b.writePos == 0 }

  /** `read_buffer`: the bytes of the samples that are still to be written out. */
  function ReadBuffer(b: SampleBuf): seq<u8>
    requires b.readPos <= b.writePos <= |b.samples|
  {
    AsBytes(b.samples[b.readPos..b.writePos])
  }

  /** `confirm_read`; the precondition is its two assertions. */
  function ConfirmRead(b: SampleBuf, numBytes: nat): SampleBuf
    requires numBytes % 2 == 0 && b.readPos + numBytes / 2 <= b.writePos
  {
    var readPos := b.readPos + numBytes / 2;
    if readPos == b.writePos then SampleBuf(b.samples, 0, 0) else b.(readPos := readPos)
  }

  /** Copying into the front of `write_buffer`, and `confirm_write`. */
  function CopyIn(b: SampleBuf, s: seq<Iq>): SampleBuf
    requires b.readPos + |s| <= |b.samples|
  {
    SampleBuf(b.samples[..b.readPos] + s + b.samples[b.readPos + |s|..], b.writePos + |s|, b.readPos)
  }

  // ---------- one connection ----------

  /** What the stream answers when it is polled. */
  datatype Pull = NotReady | Ended | Next(bytes: Bytes)

  datatype Status = Serving | Closed | Panicked

  /** `written` and `pulled` are history: what the writer took, and the chunks the stream gave. */
  datatype Conn = Conn(buf: SampleBuf, chunk: Option<seq<u8>>, written: seq<u8>, pulled: seq<seq<u8>>, status: Status)

  /**
   * What drives one segment of `forward_samples`: the answer of the stream, should the segment
   * poll it, and the number of bytes the writer accepts, should it write. Cancelled: the future
   * was dropped while it was waiting, or another branch was served.
   */
  datatype Event = Cancelled | Segment(pull: Pull, accepted: nat)

  /** The bytes pulled so far, in order. */
  function Flatten(parts: seq<seq<u8>>): seq<u8> {
    if parts == [] then [] else Flatten(parts[..|parts| - 1]) + parts[|parts| - 1]
  }

  function Rest(c: Conn): seq<u8> { if c.chunk.Some? then c.chunk.value else [] }

  /** The tail of `read_samples`: copy what fits from the chunk, advance it, confirm the write. */
  function FillFrom(c: Conn, bytes: seq<u8>): (d: Conn)
    requires BufOk(c.buf) && CanWrite(c.buf)
    ensures BufOk(d.buf)
  {
    if |bytes| % 2 != 0 then c.(chunk := Some(bytes), status := Panicked)
    else
      var n := Min(|c.buf.samples| - c.buf.readPos, |bytes| / 2);
      var rest := bytes[2 * n..];
      var d := c.(chunk := if rest == [] then None else Some(rest));
      if n == 0 then d.(status := Closed) else d.(buf := CopyIn(c.buf, AsSamples(bytes)[..n]))
  }

  /** A writer may accept at most what it is offered. */
  predicate Acceptable(c: Conn, e: Event)
    requires BufOk(c.buf)
  {
    e.Segment? && !CanWrite(c.buf) ==> e.accepted <= |ReadBuffer(c.buf)|
  }

  function Forward(c: Conn, e: Event): (d: Conn)
    requires BufOk(c.buf) && Acceptable(c, e) && c.status.Serving?
    ensures BufOk(d.buf)
  {
    if e.Cancelled? then c
    else if CanWrite(c.buf) then
      if c.chunk.Some? then FillFrom(c, c.chunk.value)
      else match e.pull
        case NotReady => c
        case Ended => c.(status := Closed)
        case Next(bytes) => FillFrom(c.(pulled := c.pulled + [bytes]), bytes)
    else
      var d := c.(written := c.written + ReadBuffer(c.buf)[..e.accepted]);
      if e.accepted == 0 then d.(status := Closed)
      else if e.accepted % 2 != 0 then d.(status := Panicked)
      else d.(buf := ConfirmRead(c.buf, e.accepted))
  }

  // ---------- conservation ----------

  /** What is pending belongs to the last chunk pulled. */
  ghost predicate FromLastChunk(c: Conn)
    requires BufOk(c.buf)
  {
    var pending := |ReadBuffer(c.buf)| + |Rest(c)|;
    pending > 0 ==> c.pulled != [] && pending <= |c.pulled[|c.pulled| - 1]|
  }

  /** Written, still buffered, rest of the chunk: together exactly what was pulled. */
  ghost predicate Conserved(c: Conn) {
    && BufOk(c.buf)
    && FromLastChunk(c)
    && (c.status.Panicked? || c.written + ReadBuffer(c.buf) + Rest(c) == Flatten(c.pulled))
    && c.written <= Flatten(c.pulled)
  }

  lemma FlattenSnoc(parts: seq<seq<u8>>, last: seq<u8>)
    ensures Flatten(parts + [last]) == Flatten(parts) + last
  {
    assert (parts + [last])[..|parts|] == parts;
  }

  lemma CopyInReads(b: SampleBuf, s: seq<Iq>)
    requires BufOk(b) && CanWrite(b) && 0 < |s| <= |b.samples| - b.readPos
    ensures BufOk(CopyIn(b, s)) && ReadBuffer(CopyIn(b, s)) == AsBytes(s)
  {
    assert CopyIn(b, s).samples[0..|s|] == s;
  }

  lemma ConfirmReadAdvances(b: SampleBuf, numBytes: nat)
    requires BufOk(b) && numBytes % 2 == 0 && 0 < numBytes <= |ReadBuffer(b)|
    ensures BufOk(ConfirmRead(b, numBytes))
    ensures ReadBuffer(ConfirmRead(b, numBytes)) == ReadBuffer(b)[numBytes..]
  {
    var s, k := b.samples[b.readPos..b.writePos], numBytes / 2;
    BytesOfSlice(s, k, |s|);
    assert s[k..|s|] == b.samples[b.readPos + k..b.writePos];
    assert ReadBuffer(b)[numBytes..] == AsBytes(s)[2 * k..2 * |s|];
    if b.readPos + k == b.writePos {
      assert ReadBuffer(b)[numBytes..] == [];
    }
  }

  lemma FillFromConserves(c: Conn, bytes: seq<u8>)
    requires BufOk(c.buf) && CanWrite(c.buf) && c.status.Serving?
    requires c.written + bytes == Flatten(c.pulled)
    requires c.pulled != [] && |bytes| <= |c.pulled[|c.pulled| - 1]|
    ensures Conserved(FillFrom(c, bytes))
  {
    assert c.written <= Flatten(c.pulled);
    if |bytes| % 2 == 0 {
      var n := Min(|c.buf.samples| - c.buf.readPos, |bytes| / 2);
      var d := FillFrom(c, bytes);
      assert Rest(d) == bytes[2 * n..];
      if n > 0 {
        var s := AsSamples(bytes)[..n];
        CopyInReads(c.buf, s);
        FrontBytes(bytes, n);
        assert c.written + bytes[..2 * n] + bytes[2 * n..] == c.written + bytes;
      } else {
        assert bytes == [];
      }
    }
  }

  lemma FrontBytes(bytes: seq<u8>, n: nat)
    requires |bytes| % 2 == 0 && 2 * n <= |bytes|
    ensures AsBytes(AsSamples(bytes)[..n]) == bytes[..2 * n]
  {
    BytesOfSamples(bytes);
    BytesOfSlice(AsSamples(bytes), 0, n);
  }

  lemma SplitWritten(written: seq<u8>, b: seq<u8>, n: nat, rest: seq<u8>, all: seq<u8>)
    requires written + b + rest == all && n <= |b|
    ensures written + b[..n] + b[n..] + rest == all
    ensures written + b[..n] <= all
  {
    assert b == b[..n] + b[n..];
    assert written + b[..n] + b[n..] == written + b;
    assert all[..|written| + n] == written + b[..n];
  }

  lemma WriteConserves(c: Conn, e: Event)
    requires Conserved(c) && c.status.Serving? && !CanWrite(c.buf) && e.Segment? && Acceptable(c, e)
    ensures Conserved(Forward(c, e))
  {
    var b, n := ReadBuffer(c.buf), e.accepted;
    SplitWritten(c.written, b, n, Rest(c), Flatten(c.pulled));
    if n == 0 {
      assert c.written + b[..n] == c.written;
    } else if n % 2 == 0 {
      ConfirmReadAdvances(c.buf, n);
      hide ReadBuffer, ConfirmRead;
      assert Forward(c, e).buf == ConfirmRead(c.buf, n);
    }
  }

  /** One segment, or a cancellation, loses and duplicates nothing. */
  lemma ForwardConserves(c: Conn, e: Event)
    requires Conserved(c) && c.status.Serving? && Acceptable(c, e)
    ensures Conserved(Forward(c, e))
  {
    if e.Segment? {
      if !CanWrite(c.buf) {
        WriteConserves(c, e);
      } else {
        assert ReadBuffer(c.buf) == [];
        assert c.written + [] + Rest(c) == c.written + Rest(c);
        if c.chunk.Some? {
          if c.chunk.value == [] && c.pulled == [] {
            EmptyFill(c);
          } else if c.chunk.value == [] {
            FillFromConserves(c, c.chunk.value);
          } else {
            FillFromConserves(c, c.chunk.value);
          }
        } else if e.pull.Next? {
          FlattenSnoc(c.pulled, e.pull.bytes);
          FillFromConserves(c.(pulled := c.pulled + [e.pull.bytes]), e.pull.bytes);
        }
      }
    }
  }

  lemma EmptyFill(c: Conn)
    requires Conserved(c) && c.status.Serving? && CanWrite(c.buf) && c.chunk == Some([])
    ensures Conserved(FillFrom(c, []))
  {
    assert ReadBuffer(c.buf) == [];
  }

  /**
   * How a segment ends the connection. It closes exactly when the stream ended, the writer took
   * nothing, or a chunk without samples was served; it panics exactly when the writer took half
   * a sample, or a chunk has half a sample. One of the two branches always applies.
   */
  lemma EndsExactly(c: Conn, e: Event)
    requires BufOk(c.buf) && Acceptable(c, e) && c.status.Serving? && e.Segment?
    ensures CanWrite(c.buf) || CanRead(c.buf)
    ensures var d := Forward(c, e);
            var served := if c.chunk.Some? then c.chunk else if e.pull.Next? then Some(e.pull.bytes) else None;
            && (d.status.Closed? <==>
                  if CanWrite(c.buf) then (c.chunk.None? && e.pull.Ended?) || served == Some([]) else e.accepted == 0)
            && (d.status.Panicked? <==>
                  if CanWrite(c.buf) then served.Some? && |served.value| % 2 != 0 else e.accepted % 2 != 0)
  {
  }

  // ---------- a whole connection ----------

  /** Whatever a writer would accept, it accepts no more than it is offered. */
  function Offered(c: Conn, e: Event): (f: Event)
    requires BufOk(c.buf)
    ensures Acceptable(c, f)
  {
    if e.Segment? && !CanWrite(c.buf) then e.(accepted := Min(e.accepted, |ReadBuffer(c.buf)|)) else e
  }

  function ServeAll(c: Conn, events: seq<Event>): (d: Conn)
    requires BufOk(c.buf)
    ensures BufOk(d.buf)
    decreases |events|
  {
    if events == [] || !c.status.Serving? then c
    else ServeAll(Forward(c, Offered(c, events[0])), events[1..])
  }

  function NewConn(capacity: positive): Conn {
    Conn(SampleBuf(seq(capacity, _ => Iq(128, 128)), 0, 0), None, [], [], Serving)
  }

  /** Conservation over a whole connection, however often it is cancelled and however the writer behaves. */
  lemma {:induction false} ConnectionConserves(c: Conn, events: seq<Event>)
    requires Conserved(c)
    ensures Conserved(ServeAll(c, events))
    decreases |events|
  {
    if events != [] && c.status.Serving? {
      ForwardConserves(c, Offered(c, events[0]));
      ConnectionConserves(Forward(c, Offered(c, events[0])), events[1..]);
    }
  }

  // ---------- what does not matter ----------

  /** A cancellation, or a segment that waits for the stream. */
  predicate Idle(c: Conn, e: Event) {
    e.Cancelled? || (CanWrite(c.buf) && c.chunk.None? && e.pull.NotReady?)
  }

  /** The events that found something to do. */
  function Busy(c: Conn, events: seq<Event>): seq<Event>
    requires BufOk(c.buf)
    decreases |events|
  {
    if events == [] || !c.status.Serving? then []
    else if Idle(c, events[0]) then Busy(c, events[1..])
    else [events[0]] + Busy(Forward(c, Offered(c, events[0])), events[1..])
  }

  /**
   * Cancelling changes nothing, and neither does waiting: a connection ends up, served or not,
   * exactly as if only the segments that found something to do had happened.
   */
  lemma {:induction false} IdleEventsDoNotMatter(c: Conn, events: seq<Event>)
    requires BufOk(c.buf)
    ensures ServeAll(c, events) == ServeAll(c, Busy(c, events))
    decreases |events|
  {
    if events != [] && c.status.Serving? {
      var next := Forward(c, Offered(c, events[0]));
      IdleEventsDoNotMatter(next, events[1..]);
      if !Idle(c, events[0]) {
        var rest := Busy(next, events[1..]);
        assert ([events[0]] + rest)[1..] == rest;
      }
    }
  }

  function Uncancelled(events: seq<Event>): seq<Event> {
    if events == [] then []
    else (if events[0].Cancelled? then [] else [events[0]]) + Uncancelled(events[1..])
  }

  /** In particular, whatever is cancelled, and however often, might as well not have been started. */
  lemma {:induction false} CancellationsDoNotMatter(c: Conn, events: seq<Event>)
    requires BufOk(c.buf)
    ensures ServeAll(c, events) == ServeAll(c, Uncancelled(events))
    decreases |events|
  {
    if events != [] && c.status.Serving? {
      var rest := Uncancelled(events[1..]);
      CancellationsDoNotMatter(Forward(c, Offered(c, events[0])), events[1..]);
      if events[0].Cancelled? {
        assert Uncancelled(events) == rest;
      } else {
        assert ([events[0]] + rest)[1..] == rest;
      }
    }
  }

  // ---------- progress ----------

  /** The bytes pulled that have not been written yet. */
  function Unwritten(c: Conn): seq<u8>
    requires BufOk(c.buf)
  {
    ReadBuffer(c.buf) + Rest(c)
  }

  /** The writer gets the next bytes, in order, and a buffer that it does not empty stays as it is. */
  lemma WriteTakesFront(c: Conn, e: Event)
    requires BufOk(c.buf) && c.status.Serving? && !CanWrite(c.buf) && e.Segment? && Acceptable(c, e)
    requires 0 < e.accepted && e.accepted % 2 == 0
    ensures var d := Forward(c, e);
            && d.status.Serving? && d.pulled == c.pulled && Rest(d) == Rest(c)
            && d.written == c.written + Unwritten(c)[..e.accepted]
            && Unwritten(d) == Unwritten(c)[e.accepted..]
  {
    ConfirmReadAdvances(c.buf, e.accepted);
    FrontOfSum(ReadBuffer(c.buf), Rest(c), e.accepted);
    hide ReadBuffer, ConfirmRead, Rest;
  }

  lemma FrontOfSum(a: seq<u8>, b: seq<u8>, n: nat)
    requires n <= |a|
    ensures (a + b)[..n] == a[..n] && (a + b)[n..] == a[n..] + b
  {
  }

  /** The bytes a segment with an empty buffer serves: the rest of the chunk, or a new chunk. */
  function Serves(c: Conn, e: Event): seq<u8> {
    if c.chunk.Some? then c.chunk.value else if e.Segment? && e.pull.Next? then e.pull.bytes else []
  }

  /** An empty buffer is filled with as many bytes as fit, and the others stay in hand. */
  lemma FillTakesWhatFits(c: Conn, e: Event)
    requires BufOk(c.buf) && c.status.Serving? && CanWrite(c.buf) && e.Segment?
    requires Serves(c, e) != [] && |Serves(c, e)| % 2 == 0
    ensures var d, bytes := Forward(c, e), Serves(c, e);
            var n := Min(2 * |c.buf.samples|, |bytes|);
            && d.status.Serving? && d.written == c.written
            && d.pulled == c.pulled + (if c.chunk.None? then [bytes] else [])
            && ReadBuffer(d.buf) == bytes[..n] && Rest(d) == bytes[n..] && !CanWrite(d.buf)
            && |d.buf.samples| == |c.buf.samples|
  {
    var bytes := Serves(c, e);
    var n := Min(|c.buf.samples|, |bytes| / 2);
    CopyInReads(c.buf, AsSamples(bytes)[..n]);
    FrontBytes(bytes, n);
    hide ReadBuffer, AsSamples, CopyIn;
  }

  /** A writer that takes up to so many bytes, and no new chunks. */
  function Prompt(k: nat, most: nat): seq<Event> {
    seq(k, _ => Segment(NotReady, most))
  }

  /** Taking all that is buffered empties the buffer. */
  lemma BufferEmptied(c: Conn, e: Event)
    requires BufOk(c.buf) && c.status.Serving? && !CanWrite(c.buf) && e.Segment?
    requires e.accepted == |ReadBuffer(c.buf)|
    ensures CanWrite(Forward(c, e).buf) && Forward(c, e).chunk == c.chunk
  {
  }

  /** One segment of that kind: it empties a full buffer, fills an empty one, or waits. */
  lemma PromptStep(c: Conn, most: nat)
    requires Ready(c) && |Unwritten(c)| <= most
    ensures var d := Forward(c, Offered(c, Segment(NotReady, most)));
            && Ready(d) && d.pulled == c.pulled && |Unwritten(d)| <= |Unwritten(c)|
            && (Left(c) > 0 ==> Left(d) < Left(c)) && (Left(c) <= 0 ==> d == c)
  {
    var e := Segment(NotReady, most);
    ForwardConserves(c, Offered(c, e));
    if !CanWrite(c.buf) {
      WriteTakesFront(c, Offered(c, e));
      BufferEmptied(c, Offered(c, e));
    } else if c.chunk.Some? {
      FillTakesWhatFits(c, e);
    }
    hide Conserved, Flatten;
  }

  /** Twice the bytes left, and one less while they are in the buffer: falls with every segment. */
  function Left(c: Conn): int
    requires BufOk(c.buf)
  {
    2 * |Unwritten(c)| - if CanWrite(c.buf) then 0 else 1
  }

  /** A served connection without an empty or an odd chunk in hand. */
  ghost predicate Ready(c: Conn) {
    && BufOk(c.buf) && Conserved(c) && c.status.Serving?
    && (c.chunk.Some? ==> c.chunk.value != []) && |Rest(c)| % 2 == 0
  }

  lemma NothingLeft(c: Conn)
    requires Ready(c) && Left(c) <= 0
    ensures c.written == Flatten(c.pulled) && CanWrite(c.buf) && c.chunk.None?
  {
    BufferedBytes(c.buf);
    hide ReadBuffer, Flatten, FromLastChunk;
    assert ReadBuffer(c.buf) == [] && Rest(c) == [];
    assert c.written + [] + [] == c.written;
  }

  lemma BufferedBytes(b: SampleBuf)
    requires BufOk(b)
    ensures |ReadBuffer(b)| == 2 * (b.writePos - b.readPos)
  {
    hide AsBytes;
  }

  /**
   * Progress: with a writer that takes what it is offered, everything that was pulled gets
   * written, and the connection is then ready for the next chunk.
   */
  lemma {:induction false} EverythingGetsWritten(c: Conn, k: nat, most: nat)
    requires Ready(c) && Left(c) <= k && |Unwritten(c)| <= most
    ensures var d := ServeAll(c, Prompt(k, most));
            && d.status.Serving? && d.pulled == c.pulled && d.written == Flatten(c.pulled)
            && CanWrite(d.buf) && d.chunk.None?
    decreases k
  {
    hide Conserved, ReadBuffer, Rest, Left, Unwritten, Forward, Offered, Flatten;
    if k > 0 {
      var e := Segment(NotReady, most);
      assert Prompt(k, most)[0] == e && Prompt(k, most)[1..] == Prompt(k - 1, most);
      PromptStep(c, most);
      EverythingGetsWritten(Forward(c, Offered(c, e)), k - 1, most);
    } else {
      NothingLeft(c);
    }
  }

  // ---------- the buffer and the handler in place ----------

  class SampleBuffer {
    var samples: array<Iq>
    var writePos: nat
    var readPos: nat

    ghost function Value(): SampleBuf
      reads this, samples
    {
      SampleBuf(samples[..], writePos, readPos)
    }

    constructor (capacity: positive)
      ensures fresh(samples) && Value() == NewConn(capacity).buf
    {
      samples := new Iq[capacity](_ => Iq(128, 128));
      writePos, readPos := 0, 0;
      new;
      assert samples[..] == seq(capacity, _ => Iq(128, 128));
    }

    function Readable(): (b: seq<u8>)
      requires readPos <= writePos <= samples.Length
      reads this, samples
      ensures b == ReadBuffer(Value())
    {
      AsBytes(samples[readPos..writePos])
    }

    method Confirm(numBytes: nat)
      requires numBytes % 2 == 0 && readPos + numBytes / 2 <= writePos
      modifies this`readPos, this`writePos
      ensures Value() == ConfirmRead(old(Value()), numBytes)
    {
      readPos := readPos + numBytes / 2;
      if readPos == writePos {
        readPos := 0;
        writePos := 0;
      }
    }

    /** The caller's copy into `write_buffer`, then `confirm_write`. */
    method Write(s: seq<Iq>)
      requires readPos + |s| <= samples.Length
      modifies this`writePos, samples
      ensures samples == old(samples) && Value() == CopyIn(old(Value()), s)
    {
      ghost var before := samples[..];
      for k := 0 to |s|
        invariant writePos == old(writePos)
        invariant samples[..] == before[..readPos] + s[..k] + before[readPos + k..]
      {
        samples[readPos + k] := s[k];
      }
      assert s[..|s|] == s;
      writePos := writePos + |s|;
    }
  }

  class ConnectionHandler {
    var chunk: Chunk?
    var written: seq<u8>
    ghost var pulled: seq<seq<u8>>

    ghost predicate Valid()
      reads this, chunk
    {
      chunk != null ==> chunk.Valid()
    }

    ghost function Value(buffer: SampleBuffer, status: Status): Conn
      requires Valid()
      reads this, chunk, buffer, buffer.samples
    {
      Conn(buffer.Value(), if chunk == null then None else Some(chunk.data[chunk.start..chunk.end]),
           written, pulled, status)
    }

    constructor ()
      ensures chunk == null && Valid() && written == [] && pulled == []
    {
      chunk, written, pulled := null, [], [];
    }

    /** The first arm of `read_samples`: copy what fits, advance the chunk, and `confirm_write`. */
    method ServeChunk(buffer: SampleBuffer) returns (status: Status)
      requires Valid() && chunk != null && BufOk(buffer.Value()) && CanWrite(buffer.Value())
      modifies this`chunk, chunk, buffer`writePos, buffer.samples
      ensures Valid() && buffer.samples == old(buffer.samples) && (chunk == null || chunk == old(chunk))
      ensures Value(buffer, status) == FillFrom(old(Value(buffer, Serving)), old(chunk.data[chunk.start..chunk.end]))
    {
      if !chunk.Aligned() {
        return Panicked;
      }
      ghost var data, start, end := chunk.data, chunk.start, chunk.end;
      var n := Min(buffer.samples.Length - buffer.readPos, (chunk.end - chunk.start) / 2);
      var s := chunk.Samples()[..n];
      AdvanceWindow(Checked, Window(start, end), n);
      hide BuildSlice, Resolve, Wrap, AsSamples, CopyIn;
      chunk.Slice(Checked, Included(n), Unbounded);
      SliceOfSlice(data, start, end, 2 * n, end - start);
      if chunk.start == chunk.end {
        chunk := null;
      }
      if n == 0 {
        return Closed;
      }
      buffer.Write(s);
      status := Serving;
    }

    /**
     * `read_samples` with the `confirm_write` of its caller: serve the current chunk, or pull
     * the next one first. `pull` is what the stream answers if it is asked.
     */
    method ReadSamples(buffer: SampleBuffer, pull: Pull) returns (status: Status)
      requires Valid() && BufOk(buffer.Value()) && CanWrite(buffer.Value())
      modifies this, chunk, buffer`writePos, buffer.samples
      ensures Valid() && buffer.samples == old(buffer.samples)
      ensures chunk != null && chunk != old(chunk) ==> fresh(chunk)
      ensures Value(buffer, status) == Forward(old(Value(buffer, Serving)), Segment(pull, 0))
    {
      if chunk == null {
        match pull {
          case NotReady => return Serving;
          case Ended => return Closed;
          case Next(bytes) =>
            chunk := new Chunk(bytes, 0, |bytes|);
            pulled := pulled + [bytes];
            assert chunk.data[chunk.start..chunk.end] == bytes;
        }
      }
      status := ServeChunk(buffer);
    }

    /** `forward_samples` for one segment. */
    method ForwardSamples(buffer: SampleBuffer, pull: Pull, accepted: nat) returns (status: Status)
      requires Valid() && BufOk(buffer.Value())
      requires Acceptable(Value(buffer, Serving), Segment(pull, accepted))
      modifies this, chunk, buffer, buffer.samples
      ensures Valid() && buffer.samples == old(buffer.samples)
      ensures chunk != null && chunk != old(chunk) ==> fresh(chunk)
      ensures Value(buffer, status) == Forward(old(Value(buffer, Serving)), Segment(pull, accepted))
    {
      if buffer.writePos == 0 {
        status := ReadSamples(buffer, pull);
        assert Forward(old(Value(buffer, Serving)), Segment(pull, 0))
            == Forward(old(Value(buffer, Serving)), Segment(pull, accepted));
      } else {
        written := written + buffer.Readable()[..accepted];
        if accepted == 0 {
          return Closed;
        }
        if accepted % 2 != 0 {
          return Panicked;
        }
        buffer.Confirm(accepted);
        status := Serving;
      }
    }
  }

  const DEFAULT_CAPACITY: nat := 0x4000

  /** One turn of the select loop, as far as it concerns samples. */
  method ServeEvent(handler: ConnectionHandler, buffer: SampleBuffer, e: Event) returns (status: Status)
    requires handler.Valid() && BufOk(buffer.Value())
    modifies handler, handler.chunk, buffer, buffer.samples
    ensures handler.Valid() && buffer.samples == old(buffer.samples)
    ensures handler.chunk != null && handler.chunk != old(handler.chunk) ==> fresh(handler.chunk)
    ensures var c := old(handler.Value(buffer, Serving));
            handler.Value(buffer, status) == Forward(c, Offered(c, e))
  {
    match e {
      case Cancelled =>
        status := Serving;
      case Segment(pull, accepted) =>
        var offered := if buffer.writePos == 0 then accepted else Min(accepted, |buffer.Readable()|);
        status := handler.ForwardSamples(buffer, pull, offered);
    }
  }

  /** The sample branch of `serve_connection`, looping until the connection ends or is shut down. */
  method ServeSamples(events: seq<Event>) returns (written: seq<u8>, status: Status)
    ensures var c := ServeAll(NewConn(DEFAULT_CAPACITY), events);
            written == c.written && status == c.status && written <= Flatten(c.pulled)
  {
    var buffer := new SampleBuffer(DEFAULT_CAPACITY);
    var handler := new ConnectionHandler();
    status := Serving;
    var k := 0;
    assert handler.Value(buffer, status) == NewConn(DEFAULT_CAPACITY);
    while k < |events| && status.Serving?
      invariant k <= |events|
      invariant fresh(buffer) && fresh(buffer.samples) && fresh(handler) && handler.Valid()
      invariant handler.chunk != null ==> fresh(handler.chunk)
      invariant BufOk(buffer.Value())
      invariant ServeAll(handler.Value(buffer, status), events[k..]) == ServeAll(NewConn(DEFAULT_CAPACITY), events)
      decreases |events| - k
    {
      assert events[k..][0] == events[k] && events[k..][1..] == events[k + 1..];
      status := ServeEvent(handler, buffer, events[k]);
      k := k + 1;
    }
    ConnectionConserves(NewConn(DEFAULT_CAPACITY), events) by {
      assert Conserved(NewConn(DEFAULT_CAPACITY));
    }
    written := handler.written;
  }
}
