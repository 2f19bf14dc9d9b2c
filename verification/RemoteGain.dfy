/** Gain control over rtl_tcp: client calls, the wire, the server's `apply`, many clients at once. */
module RemoteGain {
  import opened Types
  import opened Codec
  import opened Framing
  import opened Gains

  // ---------- the client ----------

  /** A call on the client: a gain setting, or any single command. */
  datatype Call = SetGain(gain: Gain) | Send(command: Command)

  predicate IndexFits(gain: Gain) {
    gain.ManualIndex? ==> gain.index < 0x1_0000_0000
  }

  /** The commands a call sends, in order; an index that does not fit u32 is logged and dropped. */
  function ClientCommands(call: Call): seq<Command> {
    match call
    case Send(command) => [command]
    case SetGain(AutomaticGain) => [SetTunerGainMode(Auto)]
    case SetGain(ManualValue(value)) => [SetTunerGainMode(Manual), SetTunerGain(value)]
    case SetGain(ManualIndex(index)) =>
      if index < 0x1_0000_0000 then [SetTunerGainMode(Manual), SetTunerGainIndex(index)] else []
  }

  /** What a caller queues that makes these calls one after another. */
  function CallerStream(calls: seq<Call>): seq<Command> {
    if calls == [] then [] else ClientCommands(calls[0]) + CallerStream(calls[1..])
  }

  // ---------- what a dongle makes of it ----------

  datatype DongleGain = Level(value: i32) | Place(index: u32)

  /** A server that takes a gain only in manual mode, as a tuner does. */
  datatype Dongle = Dongle(mode: TunerGainMode, gain: DongleGain)

  function DongleStep(d: Dongle, c: Command): Dongle {
    match c
    case SetTunerGainMode(mode) => d.(mode := mode)
    case SetTunerGain(gain) => if d.mode == Manual then d.(gain := Level(gain)) else d
    case SetTunerGainIndex(index) => if d.mode == Manual then d.(gain := Place(index)) else d
    case _ => d
  }

  function DongleRun(d: Dongle, commands: seq<Command>): Dongle
    decreases |commands|
  {
    if commands == [] then d else DongleRun(DongleStep(d, commands[0]), commands[1..])
  }

  predicate IsGainCommand(c: Command) {
    c.SetTunerGainMode? || c.SetTunerGain? || c.SetTunerGainIndex?
  }

  /**
   * A gain setting reaches any server, in whatever mode it was: its commands enable the mode
   * first and then set the gain, and nothing else; an index that does not fit sends nothing.
   */
  lemma CallSetsDongle(d: Dongle, gain: Gain)
    ensures forall c :: c in ClientCommands(SetGain(gain)) ==> IsGainCommand(c)
    ensures DongleRun(d, ClientCommands(SetGain(gain))) ==
      match gain
      case AutomaticGain => Dongle(Auto, d.gain)
      case ManualValue(value) => Dongle(Manual, Level(value))
      case ManualIndex(index) => if IndexFits(gain) then Dongle(Manual, Place(index)) else d
    ensures !IndexFits(gain) ==> ClientCommands(SetGain(gain)) == []
  {
    var commands := ClientCommands(SetGain(gain));
    if |commands| == 2 {
      var t := DongleStep(d, commands[0]);
      assert DongleRun(t, commands[1..]) == DongleStep(t, commands[1]);
    }
  }

  /** Any other call queues its one command, and calls queue one after another. */
  lemma {:induction false} CallsQueueInOrder(command: Command, a: seq<Call>, b: seq<Call>)
    ensures CallerStream([Send(command)]) == [command]
    ensures CallerStream(a + b) == CallerStream(a) + CallerStream(b)
    decreases |a|
  {
    assert CallerStream([Send(command)][1..]) == [];
    if a == [] {
      assert a + b == b;
    } else {
      assert (a + b)[1..] == a[1..] + b;
      CallsQueueInOrder(command, a[1..], b);
      Associative(ClientCommands(a[0]), CallerStream(a[1..]), CallerStream(b));
    }
  }

  // ---------- the writer ----------

  /**
   * How the transport fails at the command of this number, when so many of its bytes have gone
   * out: while the command is written, or in the flush after it. The client's own writer buffers
   * and is empty before every command, so only its flush meets the transport.
   */
  datatype Fault = WriteFails(command: nat, bytes: nat) | FlushFails(command: nat, bytes: nat)

  /** A write that has taken all five bytes has succeeded. */
  predicate FaultOk(fault: Option<Fault>) {
    && (fault.Some? && fault.value.WriteFails? ==> fault.value.bytes < COMMAND_LENGTH)
    && (fault.Some? && fault.value.FlushFails? ==> fault.value.bytes <= COMMAND_LENGTH)
  }

  /** The fault happens before the queue ends. */
  predicate Hits(fault: Option<Fault>, queued: nat) {
    fault.Some? && fault.value.command < queued
  }

  /** A command is lost in the flush after its caller has been told of success. */
  predicate LostInFlush(fault: Option<Fault>, queued: nat) {
    Hits(fault, queued) && fault.value.FlushFails? && fault.value.bytes < COMMAND_LENGTH
  }

  /**
   * `forward_commands`: each queued command is encoded into a five-byte buffer, written and
   * flushed, until the queue is closed or the transport fails. The caller is told of success
   * between the write and the flush, so a command that a flush cuts short has been acknowledged
   * all the same, and that is the only way in which the number told and the number sent differ.
   */
  method ForwardCommands(commands: seq<Command>, fault: Option<Fault>) returns (written: seq<u8>, acknowledged: nat)
    requires FaultOk(fault)
    ensures written <= EncodeAll(commands)
    ensures |written| == if Hits(fault, |commands|) then COMMAND_LENGTH * fault.value.command + fault.value.bytes
                         else COMMAND_LENGTH * |commands|
    ensures acknowledged == if !Hits(fault, |commands|) then |commands|
                            else if fault.value.FlushFails? then fault.value.command + 1
                            else fault.value.command
    ensures acknowledged == |written| / COMMAND_LENGTH + if LostInFlush(fault, |commands|) then 1 else 0
  {
    written, acknowledged := [], 0;
    ghost var all := EncodeAll(commands);
    for k := 0 to |commands|
      invariant all == written + EncodeAll(commands[k..]) && acknowledged == k
      invariant fault.Some? ==> k <= fault.value.command || |commands| <= fault.value.command
    {
      var buffer := new u8[COMMAND_LENGTH](_ => 0);
      EncodeInto(commands[k], buffer);
      assert buffer[..] == Encode(commands[k]);
      assert commands[k..][0] == commands[k] && commands[k..][1..] == commands[k + 1..];
      Associative(written, Encode(commands[k]), EncodeAll(commands[k + 1..]));
      ghost var n := if fault.Some? && fault.value.command == k then fault.value.bytes else 0;
      assert buffer[..] == buffer[..n] + buffer[n..];
      if fault.Some? && fault.value == WriteFails(k, fault.value.bytes) {
        written := written + buffer[..fault.value.bytes];
        return;
      }
      acknowledged := k + 1;
      if fault.Some? && fault.value == FlushFails(k, fault.value.bytes) {
        written := written + buffer[..fault.value.bytes];
        return;
      }
      written := written + buffer[..];
    }
    assert commands[|commands|..] == [];
  }

  // ---------- the server ----------

  /** `handle_command` and `apply`, as far as they reach the gain state. */
  function Apply(build: Build, gains: seq<i32>, answers: nat -> Answer, c: Control, command: Command): Control {
    match command
    case SetTunerGainMode(mode) =>
      if mode == Auto then Setting(build, gains, answers, c, AutomaticGain).0 else c
    case SetTunerGain(value) => Setting(build, gains, answers, c, ManualValue(value)).0
    case SetTunerGainIndex(index) => Setting(build, gains, answers, c, ManualIndex(index)).0
    case _ => c
  }

  /**
   * On the server a command makes the setting it stands for, and only three kinds stand for one:
   * turning the gain automatic, a gain, and an index. Turning it manual waits for the gain.
   */
  lemma ApplyMeans(build: Build, gains: seq<i32>, answers: nat -> Answer, c: Control, command: Command)
    ensures Apply(build, gains, answers, c, command)
         == if Effect(command).None? then c else Setting(build, gains, answers, c, Effect(command).value).0
    ensures Effect(command).None?
      <==> command != SetTunerGainMode(Auto) && !command.SetTunerGain? && !command.SetTunerGainIndex?
    ensures command == SetTunerGainMode(Auto) ==> Effect(command) == Some(AutomaticGain)
    ensures command.SetTunerGain? ==> Effect(command) == Some(ManualValue(command.gain))
    ensures command.SetTunerGainIndex? ==> Effect(command) == Some(ManualIndex(command.index))
  {
  }

  function ApplyAll(build: Build, gains: seq<i32>, answers: nat -> Answer,
                    c: Control, commands: seq<(nat, Command)>): Control
    decreases |commands|
  {
    if commands == [] then c
    else ApplyAll(build, gains, answers, Apply(build, gains, answers, c, commands[0].1), commands[1..])
  }

  /** The one setting a command stands for, if any. */
  function Effect(command: Command): Option<Gain> {
    match command
    case SetTunerGainMode(mode) => if mode == Auto then Some(AutomaticGain) else None
    case SetTunerGain(value) => Some(ManualValue(value))
    case SetTunerGainIndex(index) => Some(ManualIndex(index))
    case _ => None
  }

  function Effects(commands: seq<Command>): seq<Gain> {
    if commands == [] then [] else ToSeq(Effect(commands[0])) + Effects(commands[1..])
  }

  /** The settings a caller asked for, in order. */
  function SettingsOf(calls: seq<Call>): seq<Gain> {
    if calls == [] then []
    else
      (match calls[0]
       case SetGain(gain) => if IndexFits(gain) then [gain] else []
       case Send(command) => ToSeq(Effect(command))) + SettingsOf(calls[1..])
  }

  lemma {:induction false} EffectsConcat(a: seq<Command>, b: seq<Command>)
    ensures Effects(a + b) == Effects(a) + Effects(b)
  {
    if a == [] {
      assert a + b == b;
    } else {
      assert (a + b)[1..] == a[1..] + b;
      EffectsConcat(a[1..], b);
    }
  }

  /** Although a manual setting is two commands, exactly one of them takes effect, as that setting. */
  lemma {:induction false} CallTakesEffectOnce(gain: Gain)
    ensures Effects(ClientCommands(SetGain(gain))) == [gain] <==> IndexFits(gain)
    ensures !IndexFits(gain) ==> Effects(ClientCommands(SetGain(gain))) == []
  {
    var commands := ClientCommands(SetGain(gain));
    if |commands| == 2 {
      assert Effects(commands[1..]) == ToSeq(Effect(commands[1])) + Effects(commands[1..][1..]);
    }
  }

  lemma {:induction false} StreamEffects(calls: seq<Call>)
    ensures Effects(CallerStream(calls)) == SettingsOf(calls)
  {
    if calls != [] {
      EffectsConcat(ClientCommands(calls[0]), CallerStream(calls[1..]));
      StreamEffects(calls[1..]);
      match calls[0] {
        case SetGain(gain) => CallTakesEffectOnce(gain);
        case Send(command) => assert Effects([command]) == ToSeq(Effect(command)) + Effects([]);
      }
    }
  }

  // ---------- many connections ----------

  /** A read event: which connection the runtime serves, and how much the transport offers. */
  datatype Read = Read(connection: nat, want: positive)

  ghost predicate LinksOk(links: seq<Link>) {
    forall i :: 0 <= i < |links| ==> LinkOk(links[i])
  }

  function Deliver(links: seq<Link>, read: Read): (r: (seq<Link>, seq<(nat, Command)>))
    requires LinksOk(links)
    ensures |r.0| == |links| && LinksOk(r.0)
  {
    var i := read.connection;
    if i >= |links| || !links[i].status.Running? then (links, [])
    else
      var (next, command) := ReadStep(links[i], read.want);
      (links[i := next], if command.Some? then [(i, command.value)] else [])
  }

  /** The commands in the order the server applies them, each tagged with its connection. */
  function Network(links: seq<Link>, events: seq<Read>): seq<(nat, Command)>
    requires LinksOk(links)
    decreases |events|
  {
    if events == [] then []
    else
      var (next, commands) := Deliver(links, events[0]);
      commands + Network(next, events[1..])
  }

  function WantsOf(events: seq<Read>, i: nat): seq<positive>
    decreases |events|
  {
    if events == [] then []
    else (if events[0].connection == i then [events[0].want] else []) + WantsOf(events[1..], i)
  }

  /** What one connection contributed to a tagged sequence. */
  function Of<T>(tagged: seq<(nat, T)>, i: nat): seq<T>
    decreases |tagged|
  {
    if tagged == [] then [] else (if tagged[0].0 == i then [tagged[0].1] else []) + Of(tagged[1..], i)
  }

  function Untag<T>(tagged: seq<(nat, T)>): (r: seq<T>)
    ensures |r| == |tagged| && forall i :: 0 <= i < |r| ==> r[i] == tagged[i].1
  {
    seq(|tagged|, i requires 0 <= i < |tagged| => tagged[i].1)
  }

  /** The order in which settings take effect. */
  function EffectOrder(tagged: seq<(nat, Command)>): seq<(nat, Gain)>
    decreases |tagged|
  {
    if tagged == [] then []
    else
      var rest := EffectOrder(tagged[1..]);
      match Effect(tagged[0].1)
      case None => rest
      case Some(gain) => [(tagged[0].0, gain)] + rest
  }

  /** The same read, seen from one connection. */
  lemma DeliverToOne(links: seq<Link>, event: Read, i: nat, wants: seq<positive>)
    requires LinksOk(links) && i < |links|
    ensures var (next, commands) := Deliver(links, event);
            var own := if event.connection == i then [event.want] else [];
            ServeReads(links[i], own + wants).commands == Of(commands, i) + ServeReads(next[i], wants).commands
  {
    var (next, commands) := Deliver(links, event);
    if event.connection != i {
      assert [] + wants == wants;
      assert Of(commands, i) == [];
    } else {
      var all := [event.want] + wants;
      assert all[1..] == wants;
      if links[i].status.Running? {
        assert Of(commands, i) == ToSeq(ReadStep(links[i], event.want).1);
      }
    }
  }

  lemma {:induction false} OfConcat<T>(a: seq<(nat, T)>, b: seq<(nat, T)>, i: nat)
    ensures Of(a + b, i) == Of(a, i) + Of(b, i)
    decreases |a|
  {
    if a == [] {
      assert a + b == b;
    } else {
      var first, rest := if a[0].0 == i then [a[0].1] else [], a[1..] + b;
      OfConcat(a[1..], b, i);
      OfUnfolds(a, i);
      OfUnfolds(a + b, i);
      assert (a + b)[1..] == rest;
      hide Of;
      Associative(first, Of(a[1..], i), Of(b, i));
    }
  }

  lemma OfUnfolds<T>(tagged: seq<(nat, T)>, i: nat)
    requires tagged != []
    ensures Of(tagged, i) == (if tagged[0].0 == i then [tagged[0].1] else []) + Of(tagged[1..], i)
  {
  }

  /** Interleaving does not disturb a connection: each sees its own reads, in order. */
  lemma {:induction false} NetworkProjection(links: seq<Link>, events: seq<Read>, i: nat)
    requires LinksOk(links)
    requires i < |links|
    ensures Of(Network(links, events), i) == ServeReads(links[i], WantsOf(events, i)).commands
    decreases |events|
  {
    if events != [] {
      var (next, commands) := Deliver(links, events[0]);
      DeliverToOne(links, events[0], i, WantsOf(events[1..], i));
      OfConcat(commands, Network(next, events[1..]), i);
      NetworkProjection(next, events[1..], i);
      hide Deliver, ServeReads, Of;
    }
  }

  lemma {:induction false} EffectOrderProjection(tagged: seq<(nat, Command)>, i: nat)
    ensures Of(EffectOrder(tagged), i) == Effects(Of(tagged, i))
    decreases |tagged|
  {
    if tagged != [] {
      EffectOrderProjection(tagged[1..], i);
      var rest := EffectOrder(tagged[1..]);
      if Effect(tagged[0].1).Some? {
        assert EffectOrder(tagged)[1..] == rest;
      }
      if tagged[0].0 == i {
        var own := [tagged[0].1] + Of(tagged[1..], i);
        assert own[1..] == Of(tagged[1..], i);
      } else {
        assert Of(tagged, i) == Of(tagged[1..], i);
      }
    }
  }

  lemma {:induction false} ApplyAllEffects(build: Build, gains: seq<i32>, answers: nat -> Answer,
                                           c: Control, tagged: seq<(nat, Command)>)
    ensures ApplyAll(build, gains, answers, c, tagged)
         == Settings(build, gains, answers, c, Untag(EffectOrder(tagged)))
    decreases |tagged|
  {
    if tagged != [] {
      ApplyAllEffects(build, gains, answers, Apply(build, gains, answers, c, tagged[0].1), tagged[1..]);
      if Effect(tagged[0].1).Some? {
        var order := EffectOrder(tagged);
        assert order[1..] == EffectOrder(tagged[1..]);
        assert Untag(order)[1..] == Untag(EffectOrder(tagged[1..]));
      }
    }
  }

  lemma {:induction false} EffectsPrefix(a: seq<Command>, b: seq<Command>)
    requires a <= b
    ensures Effects(a) <= Effects(b)
  {
    EffectsConcat(a, b[|a|..]);
    assert b == a + b[|a|..];
  }

  lemma {:induction false} EffectOrderConcat(a: seq<(nat, Command)>, b: seq<(nat, Command)>)
    ensures EffectOrder(a + b) == EffectOrder(a) + EffectOrder(b)
    decreases |a|
  {
    if a == [] {
      assert a + b == b;
    } else {
      assert (a + b)[1..] == a[1..] + b;
      EffectOrderConcat(a[1..], b);
    }
  }

  /** The settings of a tagged sequence are those of its commands. */
  lemma {:induction false} UntagEffects(tagged: seq<(nat, Command)>)
    ensures Effects(Untag(tagged)) == Untag(EffectOrder(tagged))
    decreases |tagged|
  {
    if tagged != [] {
      UntagEffects(tagged[1..]);
      assert Untag(tagged)[1..] == Untag(tagged[1..]);
      hide Untag;
      var rest := EffectOrder(tagged[1..]);
      match Effect(tagged[0].1) {
        case None =>
        case Some(gain) => assert Untag([(tagged[0].0, gain)] + rest) == [gain] + Untag(rest);
      }
    }
  }

  // ---------- clients with many callers ----------

  /**
   * One client's connection: the commands in the order in which they were queued, each with the
   * caller that queued it, and the bytes that made it onto the wire.
   */
  datatype Wire = Wire(queue: seq<(nat, Command)>, sent: seq<u8>)

  /**
   * Callers share the client, so their commands interleave in any way, even between the two
   * commands of one setting. A caller may stop anywhere, and the transport may fail anywhere.
   */
  ghost predicate WireOk(w: Wire, callers: seq<seq<Call>>) {
    && w.sent <= EncodeAll(Untag(w.queue))
    && forall j :: 0 <= j < |callers| ==> Of(w.queue, j) <= CallerStream(callers[j])
  }

  /** The caller has queued everything. */
  ghost predicate Finished(w: Wire, callers: seq<seq<Call>>, j: nat)
    requires j < |callers|
  {
    Of(w.queue, j) == CallerStream(callers[j])
  }

  /** One fresh connection per client. */
  function Connections(wires: seq<Wire>): (links: seq<Link>)
    ensures |links| == |wires| && LinksOk(links)
    ensures forall i :: 0 <= i < |wires| ==> links[i] == Fresh(wires[i].sent)
  {
    seq(|wires|, i requires 0 <= i < |wires| => Fresh(wires[i].sent))
  }

  /**
   * The settings that took effect for one client: the first ones that its callers asked for, in
   * the order of its queue, so in each caller's own order; once the connection has been read to
   * the end, exactly those of which the command arrived whole.
   */
  ghost predicate Honoured(w: Wire, callers: seq<seq<Call>>, settings: seq<Gain>, readToEnd: bool)
    requires WireOk(w, callers)
  {
    var asked := EffectOrder(w.queue);
    && |settings| <= |asked| && settings == Untag(asked[..|settings|])
    && (forall j :: 0 <= j < |callers| ==> Of(asked[..|settings|], j) <= SettingsOf(callers[j]))
    && (readToEnd ==> settings == Untag(EffectOrder(w.queue[..|w.sent| / COMMAND_LENGTH])))
    && (readToEnd && w.sent == EncodeAll(Untag(w.queue)) ==>
          && |settings| == |asked|
          && forall j :: 0 <= j < |callers| && Finished(w, callers, j) ==> Of(asked, j) == SettingsOf(callers[j]))
  }

  /** Commands that arrive from the front of the queue make a front of the settings asked for. */
  lemma FrontIsHonoured(w: Wire, callers: seq<seq<Call>>, m: nat, readToEnd: bool)
    requires WireOk(w, callers) && m <= |w.queue|
    requires readToEnd ==> m == |w.sent| / COMMAND_LENGTH
    ensures Honoured(w, callers, Effects(Untag(w.queue)[..m]), readToEnd)
  {
    var front, asked := w.queue[..m], EffectOrder(w.queue);
    assert w.queue == front + w.queue[m..];
    assert Untag(w.queue)[..m] == Untag(front);
    EffectOrderConcat(front, w.queue[m..]);
    UntagEffects(front);
    var settings := Effects(Untag(front));
    if m == |w.queue| {
      assert front == w.queue;
    }
    assert asked[..|settings|] == EffectOrder(front);
    forall j | 0 <= j < |callers|
      ensures Of(asked[..|settings|], j) <= SettingsOf(callers[j])
      ensures Finished(w, callers, j) ==> Of(asked, j) == SettingsOf(callers[j])
    {
      OfConcat(front, w.queue[m..], j);
      EffectOrderProjection(front, j);
      EffectOrderProjection(w.queue, j);
      StreamEffects(callers[j]);
      EffectsPrefix(Of(front, j), CallerStream(callers[j]));
    }
  }

  /** The server finds the commands of a client from the front of its queue. */
  lemma ClientIsHonoured(wires: seq<Wire>, events: seq<Read>, i: nat, callers: seq<seq<Call>>)
    requires i < |wires| && WireOk(wires[i], callers)
    ensures var order := EffectOrder(Network(Connections(wires), events));
            Honoured(wires[i], callers, Of(order, i), |wires[i].sent| < |WantsOf(events, i)|)
  {
    var links := Connections(wires);
    var tagged, commands := Network(links, events), Untag(wires[i].queue);
    var got := ServeReads(Fresh(wires[i].sent), WantsOf(events, i)).commands;
    NetworkProjection(links, events, i);
    EffectOrderProjection(tagged, i);
    FragmentationIndependence(commands, wires[i].sent, WantsOf(events, i));
    hide Network, ServeReads, Effects, EffectOrder, Of, Honoured;
    assert got == commands[..|got|];
    FrontIsHonoured(wires[i], callers, |got|, |wires[i].sent| < |WantsOf(events, i)|);
  }

  /**
   * Remote gain control equals local gain control. Any number of clients, each shared by any
   * number of callers, make calls; their commands travel encoded and arbitrarily fragmented, and
   * the server serves the connections in any interleaving. The backend ends as if the settings
   * had been made directly, one after another, in an order that honours every client.
   */
  lemma RemoteEqualsLocal(build: Build, gains: seq<i32>, answers: nat -> Answer, c: Control,
                          wires: seq<Wire>, callers: seq<seq<seq<Call>>>, events: seq<Read>)
    requires |callers| == |wires| && forall i :: 0 <= i < |wires| ==> WireOk(wires[i], callers[i])
    ensures var tagged := Network(Connections(wires), events);
            var order := EffectOrder(tagged);
            && ApplyAll(build, gains, answers, c, tagged) == Settings(build, gains, answers, c, Untag(order))
            && forall i :: 0 <= i < |wires| ==>
                 Honoured(wires[i], callers[i], Of(order, i), |wires[i].sent| < |WantsOf(events, i)|)
  {
    ApplyAllEffects(build, gains, answers, c, Network(Connections(wires), events));
    forall i | 0 <= i < |wires|
      ensures var order := EffectOrder(Network(Connections(wires), events));
              Honoured(wires[i], callers[i], Of(order, i), |wires[i].sent| < |WantsOf(events, i)|)
    {
      ClientIsHonoured(wires, events, i, callers[i]);
    }
  }

  /**
   * What callers were told and what was done. Of the settings for which they were told of
   * success, all take effect once the connection is read to the end, but for the setting of one
   * command: the one that a failing flush cut short.
   */
  lemma ToldButNotDone(w: Wire, fault: Option<Fault>, acknowledged: nat)
    requires FaultOk(fault) && w.sent <= EncodeAll(Untag(w.queue))
    requires |w.sent| == if Hits(fault, |w.queue|) then COMMAND_LENGTH * fault.value.command + fault.value.bytes
                         else COMMAND_LENGTH * |w.queue|
    requires acknowledged == |w.sent| / COMMAND_LENGTH + if LostInFlush(fault, |w.queue|) then 1 else 0
    ensures acknowledged <= |w.queue|
    ensures var arrived := |w.sent| / COMMAND_LENGTH;
            EffectOrder(w.queue[..acknowledged])
            == EffectOrder(w.queue[..arrived])
             + EffectOrder(if LostInFlush(fault, |w.queue|) then [w.queue[fault.value.command]] else [])
  {
    var arrived := |w.sent| / COMMAND_LENGTH;
    if LostInFlush(fault, |w.queue|) {
      assert arrived == fault.value.command;
      assert w.queue[..acknowledged] == w.queue[..arrived] + [w.queue[arrived]];
      EffectOrderConcat(w.queue[..arrived], [w.queue[arrived]]);
    }
  }
}
