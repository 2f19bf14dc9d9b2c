/** The server's command reader: five-byte frames cut out of arbitrarily fragmented reads. */
module Framing {
  import opened Types
  import opened Codec

  // ---------- reference: what a whole byte stream means ----------

  datatype ParseEnd = Unfinished(rest: seq<u8>) | Invalid(error: InvalidCommand)

  datatype Parsed = Parsed(commands: seq<Command>, end: ParseEnd)

  /** The commands in a byte stream, up to the first invalid frame or the trailing partial one. */
  function Parse(bytes: seq<u8>): (p: Parsed)
    ensures p.end.Unfinished? ==> |p.end.rest| == |bytes| - COMMAND_LENGTH * |p.commands| < COMMAND_LENGTH
  {
    if |bytes| < COMMAND_LENGTH then Parsed([], Unfinished(bytes))
    else match Decode(bytes[..COMMAND_LENGTH])
      case Err(error) => Parsed([], Invalid(error))
      case Ok(command) =>
        var p := Parse(bytes[COMMAND_LENGTH..]);
        Parsed([command] + p.commands, p.end)
  }

  function EncodeAll(commands: seq<Command>): (b: seq<u8>)
    ensures |b| == COMMAND_LENGTH * |commands|
  {
    if commands == [] then [] else Encode(commands[0]) + EncodeAll(commands[1..])
  }

  lemma ParseUnfolds(a: seq<u8>)
    requires |a| >= COMMAND_LENGTH
    ensures match Decode(a[..COMMAND_LENGTH])
            case Err(error) => Parse(a) == Parsed([], Invalid(error))
            case Ok(command) =>
              var p := Parse(a[COMMAND_LENGTH..]);
              Parse(a) == Parsed([command] + p.commands, p.end)
  {
  }

  /** Parsing a stream is resumable: only the unfinished frame has to be remembered. */
  lemma {:induction false} ParseResumes(a: seq<u8>, b: seq<u8>)
    requires Parse(a).end.Unfinished?
    ensures Parse(a + b) ==
            var rest := Parse(Parse(a).end.rest + b); Parsed(Parse(a).commands + rest.commands, rest.end)
  {
    if |a| < COMMAND_LENGTH {
      assert Parse(a) == Parsed([], Unfinished(a));
      assert [] + Parse(a + b).commands == Parse(a + b).commands;
    } else {
      var tail := a[COMMAND_LENGTH..];
      assert (a + b)[..COMMAND_LENGTH] == a[..COMMAND_LENGTH] && (a + b)[COMMAND_LENGTH..] == tail + b;
      ParseUnfolds(a);
      ParseUnfolds(a + b);
      hide Parse, Decode;
      ParseResumes(tail, b);
      var rest := Parse(Parse(tail).end.rest + b);
      Associative([Decode(a[..COMMAND_LENGTH]).value], Parse(tail).commands, rest.commands);
    }
  }

  lemma {:induction false} ParseOneFrame(frame: seq<u8>)
    requires |frame| == COMMAND_LENGTH
    ensures Decode(frame).Ok? ==> Parse(frame) == Parsed([Decode(frame).value], Unfinished([]))
    ensures Decode(frame).Err? ==> Parse(frame) == Parsed([], Invalid(Decode(frame).error))
  {
    assert frame[..COMMAND_LENGTH] == frame;
    assert Parse(frame[COMMAND_LENGTH..]) == Parsed([], Unfinished([]));
  }

  lemma {:induction false} ParseEncodeAll(commands: seq<Command>)
    ensures Parse(EncodeAll(commands)) == Parsed(commands, Unfinished([]))
  {
    if commands != [] {
      var b := EncodeAll(commands);
      assert b[..COMMAND_LENGTH] == Encode(commands[0]);
      assert b[COMMAND_LENGTH..] == EncodeAll(commands[1..]);
      RoundTrip(commands[0]);
      ParseEncodeAll(commands[1..]);
    }
  }

  /** A prefix of a well-formed stream is well formed, and its commands are a prefix. */
  lemma ParsePrefix(a: seq<u8>, b: seq<u8>)
    requires Parse(a + b).end.Unfinished?
    ensures Parse(a).end.Unfinished? && Parse(a).commands <= Parse(a + b).commands
  {
    if Parse(a).end.Invalid? {
      InvalidIsFinal(a, b);
    } else {
      ParseResumes(a, b);
    }
  }

  lemma {:induction false} InvalidIsFinal(a: seq<u8>, b: seq<u8>)
    requires Parse(a).end.Invalid?
    ensures Parse(a + b) == Parse(a)
  {
    assert |a| >= COMMAND_LENGTH;
    assert (a + b)[..COMMAND_LENGTH] == a[..COMMAND_LENGTH];
    if Decode(a[..COMMAND_LENGTH]).Ok? {
      InvalidIsFinal(a[COMMAND_LENGTH..], b);
      assert (a + b)[COMMAND_LENGTH..] == a[COMMAND_LENGTH..] + b;
    }
  }

  // ---------- the reader's state machine ----------

  datatype LinkStatus = Running | Eof | Failed(error: InvalidCommand)

  /** One connection's command side: unread input, the partly filled frame, and whether it is still served. */
  datatype Link = Link(input: seq<u8>, partial: seq<u8>, status: LinkStatus)

  ghost predicate LinkOk(l: Link) {
    l.status.Running? ==> |l.partial| < COMMAND_LENGTH
  }

  /** How much a read may deliver: what was asked for, what fits, what there is. */
  function ReadLength(want: nat, room: nat, available: nat): nat {
    Min(want, Min(room, available))
  }

  /** One `read_buf` followed by `try_decode`, in the branch of `serve_connection`. */
  function ReadStep(l: Link, want: positive): (r: (Link, Option<Command>))
    requires l.status.Running? && |l.partial| < COMMAND_LENGTH
    ensures LinkOk(r.0)
  {
    var n := ReadLength(want, COMMAND_LENGTH - |l.partial|, |l.input|);
    var frame := l.partial + l.input[..n];
    if n == 0 then (l.(status := Eof), None)
    else if |frame| < COMMAND_LENGTH then (Link(l.input[n..], frame, Running), None)
    else match Decode(frame)
      case Err(error) => (Link(l.input[n..], frame, Failed(error)), None)
      case Ok(command) => (Link(l.input[n..], [], Running), Some(command))
  }

  function ToSeq<T>(o: Option<T>): seq<T> {
    if o.Some? then [o.value] else []
  }

  datatype Served = Served(link: Link, commands: seq<Command>)

  /** The read loop over a schedule of read sizes chosen by the transport. */
  function ServeReads(l: Link, wants: seq<positive>): (s: Served)
    requires LinkOk(l)
    ensures LinkOk(s.link)
    decreases |wants|
  {
    if wants == [] || !l.status.Running? then Served(l, [])
    else
      var (next, command) := ReadStep(l, wants[0]);
      var rest := ServeReads(next, wants[1..]);
      Served(rest.link, ToSeq(command) + rest.commands)
  }

  /** The frames a link still has to deliver. */
  ghost function Remaining(l: Link): Parsed {
    match l.status
    case Running => Parse(l.partial + l.input)
    case Eof => Parsed([], Unfinished(l.partial))
    case Failed(error) => Parsed([], Invalid(error))
  }

  /** One read moves at most one command from the future of the link to its past. */
  lemma ReadStepMeaning(l: Link, want: positive)
    requires l.status.Running? && |l.partial| < COMMAND_LENGTH
    ensures var (next, command) := ReadStep(l, want);
            Remaining(l) == Parsed(ToSeq(command) + Remaining(next).commands, Remaining(next).end)
    ensures ReadStep(l, want).0.status.Eof? <==> l.input == []
  {
    var n := ReadLength(want, COMMAND_LENGTH - |l.partial|, |l.input|);
    var frame := l.partial + l.input[..n];
    assert l.partial + l.input == frame + l.input[n..];
    if n == 0 {
      assert l.partial + l.input == l.partial;
    } else if |frame| == COMMAND_LENGTH {
      ParseOneFrame(frame);
      if Decode(frame).Ok? {
        ParseResumes(frame, l.input[n..]);
        assert [] + l.input[n..] == l.input[n..];
      } else {
        InvalidIsFinal(frame, l.input[n..]);
      }
    }
  }

  /**
   * A read takes as much as is wanted, fits and is there, from the front of the input, and puts
   * it behind what was there; a command is yielded as soon as its last byte has arrived.
   */
  lemma ReadTakesFront(l: Link, want: positive)
    requires l.status.Running? && |l.partial| < COMMAND_LENGTH
    ensures var (next, command) := ReadStep(l, want);
            var n := |l.input| - |next.input|;
            && 0 <= n && next.input == l.input[n..]
            && n <= want && n <= COMMAND_LENGTH - |l.partial|
            && (n == want || n == COMMAND_LENGTH - |l.partial| || n == |l.input|)
            && (|l.partial| + n < COMMAND_LENGTH ==> next.partial == l.partial + l.input[..n] && command.None?)
            && (|l.partial| + n == COMMAND_LENGTH ==> command.Some? || next.status.Failed?)
  {
    assert |l.input| >= 0;
    if l.input == [] {
      assert l.partial + l.input[..0] == l.partial && l.input[0..] == l.input;
    }
  }

  /** What the loop has yielded plus what is still to come is the parse of the stream. */
  lemma {:induction false} ServeReadsMeaning(l: Link, wants: seq<positive>)
    requires LinkOk(l)
    ensures var s := ServeReads(l, wants);
            Remaining(l) == Parsed(s.commands + Remaining(s.link).commands, Remaining(s.link).end)
    decreases |wants|
  {
    if wants == [] || !l.status.Running? {
      assert ServeReads(l, wants) == Served(l, []);
    } else {
      var (next, command) := ReadStep(l, wants[0]);
      ReadStepMeaning(l, wants[0]);
      ServeReadsMeaning(next, wants[1..]);
      var rest := ServeReads(next, wants[1..]);
      Associative(ToSeq(command), rest.commands, Remaining(rest.link).commands);
    }
  }

  lemma Associative<T>(a: seq<T>, b: seq<T>, c: seq<T>)
    ensures a + (b + c) == a + b + c
  {
  }

  /** Every read consumes input, so a long enough schedule ends the loop. */
  lemma {:induction false} ServeReadsEnds(l: Link, wants: seq<positive>)
    requires LinkOk(l) && |l.input| < |wants|
    ensures !ServeReads(l, wants).link.status.Running?
    decreases |wants|
  {
    if l.status.Running? {
      var next := ReadStep(l, wants[0]).0;
      if next.status.Running? {
        ServeReadsEnds(next, wants[1..]);
      }
    }
  }

  /** A connection on which nothing has been read yet. */
  function Fresh(stream: seq<u8>): Link { Link(stream, [], Running) }

  /**
   * Framing does not depend on fragmentation: whatever the sizes of the reads, and wherever the
   * stream of encoded commands is cut off, the loop never fails, yields the commands in order,
   * and at end of input has yielded exactly those that arrived whole; a long enough schedule
   * gets there.
   */
  lemma FragmentationIndependence(commands: seq<Command>, sent: seq<u8>, wants: seq<positive>)
    requires sent <= EncodeAll(commands)
    ensures var s := ServeReads(Fresh(sent), wants);
            && s.commands <= commands
            && !s.link.status.Failed?
            && (s.link.status.Eof? ==>
                  s.commands == commands[..|sent| / COMMAND_LENGTH] && |s.link.partial| == |sent| % COMMAND_LENGTH)
            && (|sent| < |wants| ==> s.link.status.Eof?)
  {
    var l := Fresh(sent);
    var all := EncodeAll(commands);
    assert sent + all[|sent|..] == all;
    ParseEncodeAll(commands);
    hide Parse, EncodeAll, ServeReads;
    ParsePrefix(sent, all[|sent|..]);
    ServeReadsMeaning(l, wants);
    assert l.partial + l.input == sent;
    if |sent| < |wants| {
      ServeReadsEnds(l, wants);
    }
  }

  /** On arbitrary bytes, two schedules that both run to the end agree on commands and outcome. */
  lemma AnyScheduleAgrees(stream: seq<u8>, wants: seq<positive>, others: seq<positive>)
    requires !ServeReads(Fresh(stream), wants).link.status.Running?
    requires !ServeReads(Fresh(stream), others).link.status.Running?
    ensures var s, t := ServeReads(Fresh(stream), wants), ServeReads(Fresh(stream), others);
            && s.commands == t.commands == Parse(stream).commands
            && s.link.status == t.link.status
            && (s.link.status.Failed? <==> Parse(stream).end.Invalid?)
  {
    ServeReadsMeaning(Fresh(stream), wants);
    ServeReadsMeaning(Fresh(stream), others);
    assert [] + stream == stream;
    var s, t := ServeReads(Fresh(stream), wants), ServeReads(Fresh(stream), others);
    assert s.commands + [] == s.commands && t.commands + [] == t.commands;
  }

  // ---------- the buffer itself ----------

  class CommandBuffer {
    var data: array<u8>
    var filled: nat

    ghost predicate Valid()
      reads this
    {
      data.Length == COMMAND_LENGTH && filled <= COMMAND_LENGTH
    }

    ghost function Contents(): seq<u8>
      requires Valid()
      reads this, data
    {
      data[..filled]
    }

    constructor ()
      ensures Valid() && fresh(data) && Contents() == []
    {
      data := new u8[COMMAND_LENGTH](_ => 0);
      filled := 0;
    }

    predicate IsFull()
      reads this
    {
      filled == COMMAND_LENGTH
    }

    function RemainingMut(): (n: nat)
      requires Valid()
      reads this, data
      ensures |Contents()| + n == COMMAND_LENGTH
    {
      COMMAND_LENGTH - filled
    }

    method Reset()
      requires Valid()
      modifies this`filled
      ensures Valid() && data == old(data) && Contents() == []
    {
      filled := 0;
    }

    /** `advance_mut` after the transport copied `bytes` into `chunk_mut`. */
    method Receive(bytes: seq<u8>)
      requires Valid() && |bytes| <= RemainingMut()
      modifies this`filled, data
      ensures Valid() && data == old(data) && Contents() == old(Contents()) + bytes
    {
      PutBytes(data, filled, bytes);
      filled := filled + |bytes|;
    }

    method TryDecode() returns (r: Result<Option<Command>, InvalidCommand>)
      requires Valid()
      modifies this`filled
      ensures Valid() && data == old(data)
      ensures |old(Contents())| < COMMAND_LENGTH ==> r == Ok(None) && Contents() == old(Contents())
      ensures |old(Contents())| == COMMAND_LENGTH ==>
        match Decode(old(Contents()))
        case Ok(command) => r == Ok(Some(command)) && Contents() == []
        case Err(error) => r == Err(error) && Contents() == old(Contents())
    {
      if IsFull() {
        assert data[..] == Contents();
        match Decode(data[..]) {
          case Err(error) => return Err(error);
          case Ok(command) =>
            Reset();
            return Ok(Some(command));
        }
      }
      r := Ok(None);
    }
  }

  /** One read and decode, on the buffer in place. */
  method ServeOneRead(buffer: CommandBuffer, input: seq<u8>, want: positive)
    returns (rest: seq<u8>, status: LinkStatus, command: Option<Command>)
    requires buffer.Valid() && buffer.RemainingMut() > 0
    modifies buffer`filled, buffer.data
    ensures buffer.Valid() && buffer.data == old(buffer.data)
    ensures (Link(rest, buffer.Contents(), status), command)
         == ReadStep(Link(input, old(buffer.Contents()), Running), want)
  {
    var n := ReadLength(want, buffer.RemainingMut(), |input|);
    if n == 0 {
      return input, Eof, None;
    }
    buffer.Receive(input[..n]);
    rest, status, command := input[n..], Running, None;
    var decoded := buffer.TryDecode();
    match decoded {
      case Err(error) => status := Failed(error);
      case Ok(decodedCommand) => command := decodedCommand;
    }
  }

  /**
   * The command branch of `serve_connection`, run over the transport's choices. There is room
   * before every read, so a read of length zero means end of input.
   */
  method ServeCommands(stream: seq<u8>, wants: seq<positive>) returns (commands: seq<Command>, status: LinkStatus)
    ensures commands == ServeReads(Fresh(stream), wants).commands
    ensures status == ServeReads(Fresh(stream), wants).link.status
  {
    var buffer := new CommandBuffer();
    commands, status := [], Running;
    var input, k := stream, 0;
    while k < |wants| && status.Running?
      invariant k <= |wants|
      invariant buffer.Valid() && fresh(buffer) && fresh(buffer.data)
      invariant status.Running? ==> buffer.RemainingMut() > 0
      invariant var s := ServeReads(Link(input, buffer.Contents(), status), wants[k..]);
                ServeReads(Fresh(stream), wants) == Served(s.link, commands + s.commands)
      decreases |wants| - k
    {
      assert wants[k..][1..] == wants[k + 1..];
      ghost var before := Link(input, buffer.Contents(), status);
      var command;
      input, status, command := ServeOneRead(buffer, input, wants[k]);
      ghost var s := ServeReads(Link(input, buffer.Contents(), status), wants[k + 1..]);
      assert ServeReads(before, wants[k..]) == Served(s.link, ToSeq(command) + s.commands);
      Associative(commands, ToSeq(command), s.commands);
      commands, k := commands + ToSeq(command), k + 1;
    }
  }
}
