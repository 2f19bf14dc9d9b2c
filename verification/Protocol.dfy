/** Counters, wakeups, loss accounting and allocation: the protocol half of the invariant. */
module Protocol {
  import opened Types
  import opened Slices
  import opened Arcs
  import opened BufferQueue
  import opened SampleSystem
  import opened Recycling

  /** Catching up with the head skips exactly positions that were evicted. */
  lemma ReaderAdvances(r: Reader, head: nat, tail: nat, parked: Option<nat>)
    requires Accounted(r, head, tail) && head <= tail
    ensures var pos := Max(r.readPos, head);
            Accounted(r.(readPos := pos, skipped := r.skipped + (pos - r.readPos), parked := parked), head, tail)
  {
  }

  lemma ReaderReads(r: Reader, head: nat, tail: nat)
    requires Accounted(r, head, tail) && head <= r.readPos < tail
    ensures Accounted(r.(readPos := r.readPos + 1, delivered := r.delivered + [r.readPos]), head, tail)
  {
    var r' := r.(readPos := r.readPos + 1, delivered := r.delivered + [r.readPos]);
    assert forall p :: p in r'.delivered <==> p in r.delivered || p == r.readPos;
    forall i, j | 0 <= i < j < |r'.delivered| ensures r'.delivered[i] < r'.delivered[j] {
      if j == |r.delivered| {
        assert r.delivered[i] in r.delivered;
      }
    }
  }

  lemma WindowMoves(r: Reader, head: nat, tail: nat, head': nat, tail': nat)
    requires Accounted(r, head, tail) && head <= head' && tail <= tail'
    ensures Accounted(r, head', tail') && Accounted(r.(parked := None), head', tail')
  {
  }

  lemma OneReaderMoves(readers: map<nat, Reader>, wakers: map<nat, nat>, head: nat, tail: nat, r: nat, moved: Reader)
    requires ReadersOk(readers, head, tail) && WakersOk(readers, wakers, tail)
    requires Accounted(moved, head, tail)
    ensures ReadersOk(readers[r := moved], head, tail)
    ensures moved.parked.None? && (r in wakers ==> moved.readPos == tail) ==>
      WakersOk(readers[r := moved], wakers, tail)
    ensures moved.parked.Some? && moved.readPos == tail ==>
      WakersOk(readers[r := moved], wakers[r := moved.parked.value], tail)
  {
  }

  lemma PollKeepsProtocol(s: System, r: nat, waker: nat)
    requires Inv(s) && r in s.readers
    ensures ProtocolOk(PollStep(s, r, waker))
  {
    hide MemoryOk, Accounted, ReadersOk, WakersOk, Below;
    var t, reader, head, tail := PollStep(s, r, waker), s.readers[r], s.queue.headPos, s.queue.tailPos;
    ReaderFacts(s, r);
    ReaderAdvances(reader, head, tail, None);
    ReaderAdvances(reader, head, tail, Some(waker));
    var pos := Max(reader.readPos, head);
    if pos < tail {
      var caughtUp := reader.(readPos := pos, skipped := reader.skipped + (pos - reader.readPos), parked := None);
      ReaderReads(caughtUp, head, tail);
    }
    OneReaderMoves(s.readers, s.queue.wakers, head, tail, r, t.readers[r]);
    assert t.readers.Keys == s.readers.Keys;
    NamesGrow(s, t, r);
  }

  lemma WindowFacts(s: System)
    requires MemoryOk(s)
    ensures WindowOk(s) && ProducerOk(s.mem, s.producer, s.config.bufferSize)
  {
    hide Counted, SlotsOk, KeptOk, BlocksOk, ItemsOk, AllHandles;
  }

  lemma SendersAre(s: System)
    requires ProtocolOk(s)
    ensures s.queue.numSenders == if s.producer.Gone? then 0 else 1
  {
    hide ReadersOk, WakersOk, AllocationOk, WaitOk, NamesOk;
  }

  lemma ReaderFacts(s: System, r: nat)
    requires Inv(s) && r in s.readers
    ensures Accounted(s.readers[r], s.queue.headPos, s.queue.tailPos)
    ensures s.readers[r].readPos <= s.queue.tailPos && s.queue.headPos <= s.queue.tailPos
    ensures r in s.queue.wakers ==> s.readers[r].readPos == s.queue.tailPos
    ensures r < s.queue.nextReceiverId
  {
    hide Counted, SlotsOk, KeptOk, ItemsOk, BlocksOk, ProducerOk, AllHandles;
  }

  lemma NamesGrow(s: System, t: System, r: nat)
    requires NamesOk(s) && r < s.queue.nextReceiverId
    requires t.subscribers == s.subscribers && t.readers.Keys == s.readers.Keys
    requires s.nextName <= t.nextName && t.queue.nextReceiverId == s.queue.nextReceiverId
    requires t.kept == s.kept || (t.kept.Keys == s.kept.Keys + {s.nextName} && s.nextName < t.nextName)
    requires t.queue.wakers.Keys <= s.queue.wakers.Keys + {r}
    ensures NamesOk(t)
  {
  }

  lemma AttachKeepsProtocol(s: System, pos: nat)
    requires Inv(s) && pos <= s.queue.tailPos
    ensures ProtocolOk(AttachStep(s, pos))
  {
    hide Counted, SlotsOk, KeptOk, ItemsOk, BlocksOk, ProducerOk, AllHandles;
    var t, id := AttachStep(s, pos), s.queue.nextReceiverId;
    assert id !in s.readers && id !in s.queue.wakers;
    assert Accounted(t.readers[id], s.queue.headPos, s.queue.tailPos);
  }

  lemma DropReceiverKeepsProtocol(s: System, r: nat)
    requires Inv(s) && r in s.readers
    ensures ProtocolOk(DropReceiverStep(s, r))
  {
    hide Counted, SlotsOk, KeptOk, ItemsOk, BlocksOk, ProducerOk, AllHandles;
    var t := DropReceiverStep(s, r);
    assert t.readers.Keys == s.readers.Keys - {r};
  }

  lemma SubscribersKeepProtocol(s: System, a: Action)
    requires Inv(s) && Enabled(s, a) && (a.CloneSubscriber? || a.DropSubscriber?)
    ensures ProtocolOk(HandleStep(s, a))
  {
    hide MemoryOk, ReadersOk, WakersOk, AllocationOk, WaitOk;
    assert AllocationOk(HandleStep(s, a)) && WaitOk(HandleStep(s, a)) by {
      AllocationFrames(s, HandleStep(s, a));
    }
  }

  /** What the allocation and wait parts look at. */
  lemma AllocationFrames(s: System, t: System)
    requires AllocationOk(s) && WaitOk(s)
    requires t.mem == s.mem && t.swaps == s.swaps && t.replaced == s.replaced && t.config == s.config
    requires t.producer == s.producer && t.queue.tailPos == s.queue.tailPos
    requires t.queue.numReceivers == s.queue.numReceivers
    ensures AllocationOk(t) && WaitOk(t)
  {
  }

  lemma HandleStepKeepsProtocol(s: System, a: Action)
    requires Inv(s) && Enabled(s, a) && OnHandles(a)
    ensures ProtocolOk(HandleStep(s, a))
  {
    hide MemoryOk, ProtocolOk;
    match a {
      case Poll(r, waker) => PollKeepsProtocol(s, r, waker);
      case Subscribe(_) => AttachKeepsProtocol(s, s.queue.tailPos);
      case CloneReceiver(r) =>
        ReaderFacts(s, r);
        AttachKeepsProtocol(s, s.readers[r].readPos);
      case DropReceiver(r) => DropReceiverKeepsProtocol(s, r);
      case _ => SubscribersKeepProtocol(s, a);
    }
  }

  lemma BufferStepKeepsProtocol(s: System, a: Action)
    requires Inv(s) && Enabled(s, a) && OnBuffers(a)
    ensures ProtocolOk(BufferStep(s, a))
  {
    BuffersMove(s, a);
    hide MemoryOk, ReadersOk, WakersOk, BufferStep;
  }

  lemma BuffersMove(s: System, a: Action)
    requires Inv(s) && Enabled(s, a) && OnBuffers(a)
    ensures var t := BufferStep(s, a);
            && t == s.(mem := t.mem, kept := t.kept, nextName := t.nextName) && t.mem.created == s.mem.created
            && s.nextName <= t.nextName && Below(t.kept.Keys, t.nextName)
  {
    hide MemoryOk, ReadersOk, WakersOk, CountersOk, WaitOk, AllocationOk, PushPending;
  }

  /** A push wakes every parked receiver, and the window moves under all of them. */
  lemma PushKeepsReaders(readers: map<nat, Reader>, wakers: map<nat, nat>, head: nat, tail: nat, head': nat, tail': nat)
    requires ReadersOk(readers, head, tail) && WakersOk(readers, wakers, tail) && head <= head' && tail <= tail'
    ensures ReadersOk(Woken(readers, wakers), head', tail') && WakersOk(Woken(readers, wakers), map[], tail')
    ensures Woken(readers, wakers).Keys == readers.Keys
  {
    var woken := Woken(readers, wakers);
    forall r | r in woken ensures Accounted(woken[r], head', tail') {
      WindowMoves(readers[r], head, tail, head', tail');
    }
  }

  /** A swap makes a block while the queue fills, and recycles one for every push after that. */
  lemma SwapKeepsAllocation(s: System)
    requires Inv(s) && Enabled(s, Swap)
    ensures AllocationOk(SwapStep(s)) && PushPending(SwapStep(s))
    ensures s.queue.headPos <= SwapStep(s).queue.headPos && s.queue.tailPos <= SwapStep(s).queue.tailPos
  {
    hide Counted, SlotsOk, KeptOk, ItemsOk, BlocksOk, ProducerOk, AllHandles, ReadersOk, WakersOk, Woken;
    hide NamesOk, CountersOk, WaitOk;
  }

  lemma SwapKeepsReaders(s: System)
    requires Inv(s) && Enabled(s, Swap)
    ensures var t := SwapStep(s);
            && ReadersOk(t.readers, t.queue.headPos, t.queue.tailPos)
            && WakersOk(t.readers, t.queue.wakers, t.queue.tailPos)
            && t.readers.Keys == s.readers.Keys && t.queue.wakers.Keys <= s.queue.wakers.Keys
  {
    hide Counted, SlotsOk, KeptOk, ItemsOk, BlocksOk, ProducerOk, AllHandles, ReadersOk, WakersOk, Woken;
    hide AllocationOk, NamesOk, CountersOk, WaitOk;
    var t := SwapStep(s);
    PushKeepsReaders(s.readers, s.queue.wakers, s.queue.headPos, s.queue.tailPos, t.queue.headPos, t.queue.tailPos) by {
      SwapKeepsAllocation(s);
    }
  }

  lemma SwapKeepsProtocol(s: System)
    requires Inv(s) && Enabled(s, Swap)
    ensures ProtocolOk(SwapStep(s))
  {
    hide MemoryOk, ReadersOk, WakersOk, Woken, AllocationOk, PushPending;
    SwapKeepsAllocation(s);
    SwapKeepsReaders(s);
  }

  lemma ClaimKeepsProtocol(s: System, sampleRate: u32, sampleType: SampleType)
    requires Inv(s) && s.producer.Filling?
    ensures ProtocolOk(ClaimStep(s, sampleRate, sampleType))
  {
    hide MemoryOk, ReadersOk, WakersOk, Below;
  }

  lemma ProducerStepKeepsProtocol(s: System, a: Action)
    requires Inv(s) && Enabled(s, a) && !OnHandles(a) && !OnBuffers(a)
    ensures ProtocolOk(ProducerStep(s, a))
  {
    hide MemoryOk, ReadersOk, WakersOk, Below;
    match a {
      case Swap => SwapKeepsProtocol(s);
      case Claim(sampleRate, sampleType) => ClaimKeepsProtocol(s, sampleRate, sampleType);
      case _ =>
    }
  }

  lemma StepKeepsProtocol(s: System, a: Action)
    requires Inv(s) && Enabled(s, a)
    ensures ProtocolOk(Step(s, a))
  {
    hide MemoryOk, ProtocolOk;
    if OnHandles(a) {
      HandleStepKeepsProtocol(s, a);
    } else if OnBuffers(a) {
      BufferStepKeepsProtocol(s, a);
    } else {
      ProducerStepKeepsProtocol(s, a);
    }
  }

  // ---------- whole runs ----------

  lemma StepKeepsInv(s: System, a: Action)
    requires Inv(s) && Enabled(s, a)
    ensures Inv(Step(s, a))
  {
    hide MemoryOk, ProtocolOk;
    StepKeepsMemory(s, a);
    StepKeepsProtocol(s, a);
  }

  /** Every action of the run is enabled when its turn comes. */
  predicate Runs(s: System, run: seq<Action>)
    requires Inv(s)
    decreases |run|
  {
    run == [] ||
    (&& Enabled(s, run[0])
     && (StepKeepsInv(s, run[0]); Runs(Step(s, run[0]), run[1..])))
  }

  /** The state a run leads to; the invariant holds there, so no assertion of the queue can fail on it. */
  function After(s: System, run: seq<Action>): (t: System)
    requires Inv(s) && Runs(s, run)
    ensures Inv(t)
    decreases |run|
  {
    if run == [] then s
    else
      StepKeepsInv(s, run[0]);
      After(Step(s, run[0]), run[1..])
  }

  lemma RunExtends(s: System, run: seq<Action>, a: Action)
    requires Inv(s) && Runs(s, run) && Enabled(After(s, run), a)
    ensures Runs(s, run + [a]) && After(s, run + [a]) == Step(After(s, run), a)
    decreases |run|
  {
    hide Inv, Step;
    var longer := run + [a];
    if run == [] {
      StepKeepsInv(s, a);
      assert longer[1..] == [];
    } else {
      StepKeepsInv(s, run[0]);
      assert longer[1..] == run[1..] + [a];
      RunExtends(Step(s, run[0]), run[1..], a);
    }
  }

  lemma {:induction false} RunsJoin(s: System, a: seq<Action>, b: seq<Action>)
    requires Inv(s) && Runs(s, a) && Runs(After(s, a), b)
    ensures Runs(s, a + b) && After(s, a + b) == After(After(s, a), b)
    decreases |a|
  {
    hide Inv, Step;
    if a == [] {
      assert a + b == b;
    } else {
      StepKeepsInv(s, a[0]);
      assert (a + b)[1..] == a[1..] + b;
      RunsJoin(Step(s, a[0]), a[1..], b);
    }
  }

  lemma TwoSteps(s: System, a: Action, b: Action)
    requires Inv(s) && Enabled(s, a) && Inv(Step(s, a)) && Enabled(Step(s, a), b) && Inv(Step(Step(s, a), b))
    ensures Runs(s, [a, b]) && After(s, [a, b]) == Step(Step(s, a), b)
  {
    hide Inv, Step;
    RunExtends(s, [], a);
    assert [] + [a] == [a];
    RunExtends(s, [a], b);
    assert [a] + [b] == [a, b];
  }

  lemma OneStep(s: System, a: Action)
    requires Inv(s) && Enabled(s, a) && Inv(Step(s, a))
    ensures Runs(s, [a]) && After(s, [a]) == Step(s, a)
  {
    hide Inv, Step;
    RunExtends(s, [], a);
    assert [] + [a] == [a];
  }

  lemma StepOfSwap(s: System)
    requires Inv(s) && Enabled(s, Swap)
    ensures Step(s, Swap) == SwapStep(s)
  {
    hide MemoryOk, ProtocolOk, SwapStep;
  }

  lemma StepOfPoll(s: System, r: nat, waker: nat)
    requires Inv(s) && r in s.readers
    ensures Step(s, Poll(r, waker)) == PollStep(s, r, waker)
  {
    hide MemoryOk, ProtocolOk, PollStep;
  }

  // ---------- the objects ----------

  /** The object state is the state s of the step system. */
  ghost predicate Matches(s: System, shared: SharedState, arena: Arena)
    reads shared, arena
  {
    Inv(s) && s.queue == shared.Value() && s.mem == arena.Value()
  }
}
