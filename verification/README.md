# rtlsdr-async: verified model of the sample path and of remote gain control

This project models the parts of rtlsdr-async that are hard to get right and proves what they
promise. It has three layers and one theorem that joins them.

**The broadcast buffer queue.** One producer pushes byte buffers into a window of positions
`head_pos..tail_pos`; any number of receivers read the window and may lag. Buffers are
reference-counted blocks: reading clones a handle, and an evicted block is overwritten in place
when nobody else holds it.

- `Slices`: buffers as windows into blocks, the slicing rules, two-byte samples.
- `Arcs`: the heap of blocks with explicit reference counts.
- `BufferQueue`: every critical section of the queue, as a function and in place on objects.
- `SampleSystem`: the step system. Each critical section is one step, `Condvar::wait` splits
  `swap_buffers` in two, and what is done without the lock (claiming a block, writing into it,
  finishing a buffer) is a step of its own, so all interleavings are covered. The environment's
  choices are in the action: a step is a function of state and action, and a theorem about every
  sequence of enabled actions is a theorem about every run.
- `Recycling` and `Protocol`: every step keeps the invariant. `Recycling` is the memory half
  (reference counts are the numbers of live handles, slots and consumers' buffers show what was
  pushed), `Protocol` the rest (counters, wakers, losses, allocations).
- `Refinement`: the zero-copy queue refines a queue of immutable values that has no memory at all.
- `Guarantees`: what users get, over whole runs, with exact conditions.
- `Reachability`: what can happen from a fresh channel, so that no failure below is hypothetical.
- `Producers`: the reader thread's loop and the client's loop in place; undisturbed, they are runs
  of the step system.
- `Consumers`: what subscribers, receivers and holders of buffers do in place are its other steps.

**A server connection.** `Connection` models the sample buffer, the current chunk and the writer,
with cancellation at any await. `Pipeline` puts such a connection into the step system, reading
its chunk through the shared memory, next to everybody else: `Pipeline.WholePath` is the theorem
about the bytes that reach the writer.

**Commands and gain.** `Codec` is the wire format, `Framing` the fragmented command reader,
`Gains` the choice of a supported gain and the mode cache in front of the device, `RemoteGain` the
path of gain settings from several clients to the backend.

Where the code departs from its own comments the model follows the code, and a lemma says exactly
when the promise holds:

- The queue comments that the condition variable is notified when subscriber and receiver counts
  drop to zero; dropping a subscriber does not notify it. `Guarantees.StuckExactly` gives the exact
  step that leaves the sender asleep for good, `Guarantees.StuckForever` and
  `Reachability.StuckIsReachable` the consequences.
- Dropping the sender wakes no receiver: exactly those that were parked and are not polled again
  sleep on (`Guarantees.SleepsExactly`), which can happen on every channel
  (`Reachability.SleeperIsReachable`).
- A queue of capacity one never delivers anything (`Guarantees.CapacityOneDeliversNothing`), since
  a swap pushes and pops in one critical section and so keeps at most `capacity - 1` buffers; every
  larger one delivers whatever is unread (`Guarantees.ReadsExactly`, `Reachability.DeliversExactly`).
  `channel(1)` passes the assertion, but no caller in the crate asks for it: the device uses 64
  buffers (`rtlsdr-async/src/lib.rs:60`), the client 32 (`rtlsdr-async/src/rtl_tcp/client.rs:50`).
- The reader thread sets its tags before it may replace the buffer, which resets them
  (`Guarantees.TagsSurviveExactly`, `Reachability.TagsLostExactly`).
- `Chunk::slice` mishandles inclusive ends and excluded starts for two-byte samples, and without
  overflow checks accepts some ranges far outside the chunk (`Slices.ChunkSliceExact`, with
  `Slices.OddOffset` and `Slices.WrappedBounds`).
- The client tells a caller of success before it flushes the command, so a flush that fails can
  lose a command that was acknowledged, but at most one (`RemoteGain.ForwardCommands`,
  `RemoteGain.ToldButNotDone`).
- The nearest-gain search overflows for requests too far from a table entry: with overflow checks
  it then panics (`Gains.CheckedSearch`), without them it may choose another gain, and
  `Gains.WrappedSearchExact` says exactly when it does not.

Modelling conventions: positions and ids are unbounded naturals, while slice bounds are computed in
a `usize` of 64 bits; the byte counts, tags, contents
and failures that the device, the transport and the writer produce are parameters of the actions;
a condition-variable wait returns only after a notification, as `parking_lot` documents. Run
`dafny verify dfyconfig.toml` to check everything.

## Model

| member | source | states |
|---|---|---|
| Slices.ChunkSliceExact | rtlsdr-async/src/lib.rs:366-404 | with or without overflow checks: a range of a chunk's samples selects them if and only if samples are one byte wide or the range has neither an excluded start nor an inclusive end; a range that panics on the samples is accepted by the chunk if and only if overflow is not checked and a bound wraps into the chunk |
| Slices.CheckedSlice | rtlsdr-async/src/buffer_queue.rs:65-83 | with overflow checks a slice is refused exactly where unbounded arithmetic refuses it |
| Slices.WrappingSlice | rtlsdr-async/src/buffer_queue.rs:65-83 | without overflow checks a slice is the one at the byte offsets modulo the address space, although scaling and addition each wrap |
| Slices.OddOffset | rtlsdr-async/src/lib.rs:366-370 | the promise fails for an inclusive end: one byte of the first two-byte sample is left |
| Slices.WrappedBounds | rtlsdr-async/src/lib.rs:366-370 | the promise fails without overflow checks: bounds far outside, of a half-open and of an inclusive range, empty the chunk |
| Slices.HalfOpenSelects | rtlsdr-async/src/lib.rs:343-370 | in either build, after slicing to a half-open range of the samples `samples()` is the old `samples()` restricted to that range, and the chunk still holds whole samples |
| Slices.SlicesCompose | rtlsdr-async/src/buffer_queue.rs:65-83 | for all bounds, slicing a slice is slicing once with the bounds offset by where the first slice starts, and is accepted if and only if that is accepted and stays within the first slice |
| Slices.HalfOpenSlicesCompose | rtlsdr-async/src/lib.rs:366-370 | slicing samples to a..b and then to c..d is slicing to a+c..a+d, accepted if and only if c..d is a range of the first slice |
| Slices.PiecesPartition | rtlsdr-async/src/lib.rs:366-370 | repeated `slice(n..)` partitions a chunk into consecutive pieces of the sizes asked for, and succeeds if and only if the chunk has that many samples |
| Slices.BytesOfSamples | rtlsdr-async/src/lib.rs:343-347 | viewing bytes as samples and back loses nothing |
| Slices.Chunk.Slice | rtlsdr-async/src/lib.rs:366-370 | in place, in either build, for chunks of any byte length: the bounds become those the scaled range gives, and on whole samples a half-open range of them selects exactly those samples |
| Arcs.CountedClone | rtlsdr-async/src/buffer_queue.rs:281-283 | cloning a buffer keeps every count equal to the number of live handles and leaves all bytes as they were |
| Arcs.CountedDrop | rtlsdr-async/src/buffer_queue.rs:28-36 | dropping a handle keeps counts exact, frees a block only with its last handle, and keeps the bytes the others see |
| Arcs.UniqueHolder | rtlsdr-async/src/buffer_queue.rs:52-59 | a block that `Arc::get_mut` grants is held by nobody but the caller |
| Arcs.CountedOverwrite | rtlsdr-async/src/buffer_queue.rs:52-59 | writing into a granted block changes the bytes of no other handle |
| Arcs.LiveBlocksBounded | rtlsdr-async/src/buffer_queue.rs:28-36 | no leaks: live blocks never outnumber live handles |
| BufferQueue.ReclaimOrAllocate | rtlsdr-async/src/buffer_queue.rs:50-59 | a unique block is kept with all fields; a shared one is given up for a new block in a buffer with reset fields |
| BufferQueue.SharedState.constructor | rtlsdr-async/src/buffer_queue.rs:363-386 | a new channel has one sender, one subscriber, no receiver, and an empty window at position zero |
| BufferQueue.SharedState.Pop | rtlsdr-async/src/buffer_queue.rs:150-162 | at capacity, and only then, the oldest buffer leaves and the head advances |
| BufferQueue.SharedState.Push | rtlsdr-async/src/buffer_queue.rs:164-174 | the buffer is appended, the tail advances, and exactly the registered wakers are woken and drained |
| BufferQueue.SharedState.Swap | rtlsdr-async/src/buffer_queue.rs:331-360 | one pass of `swap_buffers`: block, give up, or push and return the popped buffer or a new one |
| BufferQueue.SharedState.AddReceiver | rtlsdr-async/src/buffer_queue.rs:203-218 | a receiver is counted under a fresh id, and the sender is notified if it is the first |
| BufferQueue.Subscriber.Clone | rtlsdr-async/src/buffer_queue.rs:182-192 | a subscriber is counted |
| BufferQueue.Subscriber.Drop | rtlsdr-async/src/buffer_queue.rs:194-200 | the count falls, and nobody is notified, whatever it falls to |
| BufferQueue.Subscriber.NewReceiver | rtlsdr-async/src/buffer_queue.rs:202-219 | a receiver starts at the tail with an id of its own, and the sender is notified if it is the first |
| BufferQueue.SharedState.DropSender | rtlsdr-async/src/buffer_queue.rs:305-313 | the count falls; wakers are left alone |
| BufferQueue.Receiver.Clone | rtlsdr-async/src/buffer_queue.rs:228-245 | a cloned receiver starts where the original is, with an id of its own, and the sender is notified if it is the only one |
| BufferQueue.Receiver.Drop | rtlsdr-async/src/buffer_queue.rs:247-255 | the count falls, and the sender is notified if nobody is left |
| BufferQueue.Receiver.PollNext | rtlsdr-async/src/buffer_queue.rs:257-297 | catch up with the head, then read and clone the slot, report the end, or register the waker; the slot index is in range |
| Recycling.StepKeepsMemory | rtlsdr-async/src/buffer_queue.rs:149-360 | every step keeps the exact window, exact reference counts, and every slot and consumer buffer showing what was pushed |
| Recycling.ClaimedIsPrivate | rtlsdr-async/src/buffer_queue.rs:52-59 | once claimed, the producer's block is in no queue slot and no consumer's hands |
| Recycling.FillKeeps | rtlsdr-async/src/sampling.rs:79-86 | overwriting the claimed block, any number of times and in any interleaving, is seen by nobody |
| Recycling.SwapKeeps | rtlsdr-async/src/buffer_queue.rs:331-360 | in every outcome of a swap the window, the counts and all contents stay right |
| Recycling.DropBufferKeeps | rtlsdr-async/src/buffer_queue.rs:28-36 | a consumer dropping its buffer disturbs neither slots nor other consumers |
| Protocol.StepKeepsInv | rtlsdr-async/src/buffer_queue.rs:96-386 | every step of producer, receivers, subscribers and consumers keeps the whole invariant |
| Protocol.PollKeepsProtocol | rtlsdr-async/src/buffer_queue.rs:268-295 | polling keeps loss accounting exact, ids distinct, and every registered receiver without unread data |
| Protocol.SwapKeepsAllocation | rtlsdr-async/src/buffer_queue.rs:349-359 | a swap makes a new block only while the queue fills, and recycles one for every push after that |
| Protocol.PushKeepsReaders | rtlsdr-async/src/buffer_queue.rs:164-174 | a push leaves no receiver parked and moves the window under all of them without losing an account |
| Refinement.MemoryShowsHistory | rtlsdr-async/src/buffer_queue.rs:111-131 | zero-copy safety: in memory every slot shows the item pushed at its position and every consumer buffer the range sliced out of its item |
| Refinement.StepRefines | rtlsdr-async/src/buffer_queue.rs:149-360 | one step of the zero-copy queue is one step, or none, of a queue of immutable values |
| Refinement.RunRefines | rtlsdr-async/src/buffer_queue.rs:108-113 | over every run, what slots, consumers and the pending buffer show is what the queue of values holds |
| Guarantees.WholeRun | rtlsdr-async/src/buffer_queue.rs:149-175 | after any run: the tail counts the pushes, the head trails it by capacity less one, blocks made are one per swap up to capacity plus one per shared eviction, and blocks alive are at most capacity plus buffers held |
| Guarantees.AllocationBound | rtlsdr-async/src/sampling.rs:44-70 | in every state: the same accounts of blocks made, and live blocks bounded by capacity plus buffers held |
| Guarantees.SkipsExactlyWhenLagging | rtlsdr-async/src/buffer_queue.rs:268-277 | a poll skips positions if and only if the receiver lags by more than capacity less one, and then exactly the excess |
| Guarantees.KeepingUpLosesNothing | rtlsdr-async/src/buffer_queue.rs:108-113 | over every run in which a receiver's lag at its polls stays within capacity less one, nothing is skipped |
| Guarantees.NothingSkippedMeansAll | rtlsdr-async/src/buffer_queue.rs:257-297 | a receiver that skipped nothing was delivered every position since its start, once each, in order |
| Guarantees.CapacityOneDeliversNothing | rtlsdr-async/src/buffer_queue.rs:349-357 | with capacity one no receiver is ever given a buffer, on any run |
| Guarantees.ReadsExactly | rtlsdr-async/src/buffer_queue.rs:268-283 | in every state a poll hands out a buffer if and only if the receiver has not read up to the tail and the capacity is more than one |
| Reachability.DeliversExactly | rtlsdr-async/src/buffer_queue.rs:363-386 | from a fresh channel some run delivers a buffer if and only if the capacity is more than one |
| Reachability.AnyReadIsPushed | rtlsdr-async/src/sampling.rs:73-101 | from a fresh channel any bytes of any length a read may have can be pushed, and are recorded exactly, with their tags |
| Guarantees.TagsSurviveExactly | rtlsdr-async/src/sampling.rs:76-80 | the tags the reader thread sets survive claiming if and only if the block was not shared or the tags were the defaults |
| Reachability.SharedEvictionsExactly | rtlsdr-async/src/buffer_queue.rs:50-59 | from a fresh channel some run hands the producer a block that a consumer still holds if and only if the capacity is more than one |
| Reachability.TagsLostExactly | rtlsdr-async/src/sampling.rs:76-80 | from a fresh channel some run loses given tags that are not the defaults if and only if the capacity is more than one |
| Guarantees.ParkedHasNothingToRead | rtlsdr-async/src/buffer_queue.rs:279-295 | no lost wakeup: after any run from a fresh channel a parked receiver has read up to the end of the history and its latest waker is registered |
| Guarantees.OnlyPushesWake | rtlsdr-async/src/buffer_queue.rs:164-174 | a push wakes every parked receiver; no other step of somebody else touches one |
| Guarantees.ClosedSleepersSleep | rtlsdr-async/src/buffer_queue.rs:305-313 | a receiver parked when the sender goes stays parked on every continuation until it is polled or dropped itself |
| Guarantees.SleepsExactly | rtlsdr-async/src/buffer_queue.rs:305-313 | after the sender is gone a receiver sleeps if and only if it was parked then and has not been polled since |
| Reachability.SleeperIsReachable | rtlsdr-async/src/buffer_queue.rs:305-313 | from every fresh channel the sender can leave while a receiver is parked |
| Guarantees.SwapOutcomes | rtlsdr-async/src/buffer_queue.rs:339-359 | a swap gives up if and only if it blocks and nobody is left, waits if and only if it blocks with subscribers only, and a blocking swap pushes only while a receiver lives |
| Guarantees.DesertedForever | rtlsdr-async/src/buffer_queue.rs:339-343 | once there are neither subscribers nor receivers there never are again |
| Guarantees.SleepingSenderHasNoReceiver | rtlsdr-async/src/buffer_queue.rs:203-209 | after any run from a fresh channel a sender asleep without a pending notification has no receiver to serve |
| Guarantees.StuckExactly | rtlsdr-async/src/buffer_queue.rs:194-200 | the sender gets stuck if and only if the last subscriber is dropped while the sender sleeps unnotified |
| Guarantees.StuckForever | rtlsdr-async/src/buffer_queue.rs:339-347 | a stuck sender never runs again, whatever follows |
| Reachability.StuckIsReachable | rtlsdr-async/src/buffer_queue.rs:331-347 | from a fresh channel the sender can get stuck in two steps |
| Reachability.NotifiedGoesOn | rtlsdr-async/src/buffer_queue.rs:339-359 | a notified sender can always go on: to a buffer if there is a receiver, and to its end if nobody is left |
| Reachability.WaitsAndDelivers | rtlsdr-async/src/buffer_queue.rs:339-359 | from a fresh channel the device reader can wait, be notified by its first receiver, and deliver to it |
| Guarantees.DrainsExactly | rtlsdr-async/src/buffer_queue.rs:257-297 | after the sender is gone, k polls of a receiver, however interleaved with other steps, deliver exactly the next k positions still queued, in order, then only the end |
| Consumers.PollOnce | rtlsdr-async/src/buffer_queue.rs:257-297 | polling in place is the poll step: a buffer is handed out if and only if the poll is ready, and it shows exactly the item pushed at the position it was read from |
| Consumers.SubscribeOnce | rtlsdr-async/src/buffer_queue.rs:202-219 | subscribing in place is the subscribe step: a receiver of a new name at the end of the history, and the notification reaches a waiting sender |
| Consumers.CloneReceiverOnce | rtlsdr-async/src/buffer_queue.rs:228-245 | cloning a receiver in place is the clone step: a receiver of a new name at the position of the original, which stays as it is |
| Consumers.DropReceiverOnce | rtlsdr-async/src/buffer_queue.rs:247-255 | dropping a receiver in place is the drop step, and the sender is notified if and only if neither receivers nor subscribers are left |
| Consumers.CloneSubscriberOnce | rtlsdr-async/src/buffer_queue.rs:182-192 | cloning a subscriber in place is the clone step, and the sender is as it was |
| Consumers.DropSubscriberOnce | rtlsdr-async/src/buffer_queue.rs:194-200 | dropping a subscriber in place is the drop step, and a waiting sender is left as it was, even if nobody remains |
| Consumers.CloneBufferOnce | rtlsdr-async/src/buffer_queue.rs:28-36 | cloning a buffer in place is the clone step and shows the same bytes |
| Consumers.DropBufferOnce | rtlsdr-async/src/buffer_queue.rs:28-36 | dropping a buffer in place is the drop step |
| Consumers.SliceBufferOnce | rtlsdr-async/src/buffer_queue.rs:65-83 | slicing a consumer's buffer in place is the slice step, for every half-open range in it, and shows that range of its bytes |
| Producers.FillBuffer | rtlsdr-async/src/sampling.rs:73-101 | one read: tags, claim, write, and hand on a buffer that starts at zero, shows exactly the bytes read and has the tags of the reading unless the reader thread lost them by claiming, or drop it on failure |
| Producers.SwapOnce | rtlsdr-async/src/sampling.rs:48-55 | the swap of the loop is the swap step, and pushes exactly the remembered buffer |
| Producers.ProducerLoop | rtlsdr-async/src/sampling.rs:32-71 | the loop, alone, is a run of the step system; it does one round for each read up to the first that fails; after n rounds it has pushed the bytes and tags of the first n-1 reads in order, and of all n if it then stops at a failed read; it drops its sender unless it waits |
| Connection.SampleBuffer.Confirm | rtlsdr-async/src/rtl_tcp/server.rs:225-234 | confirming a read advances the read position, and empties the buffer when it catches up |
| Connection.SampleBuffer.Write | rtlsdr-async/src/rtl_tcp/server.rs:240-247 | copying into the write buffer and confirming puts exactly those samples behind the read position |
| Connection.ConfirmReadAdvances | rtlsdr-async/src/rtl_tcp/server.rs:221-234 | after confirming n bytes the read buffer is what it was without its first n bytes |
| Connection.ForwardConserves | rtlsdr-async/src/rtl_tcp/server.rs:295-328 | after every segment, or a cancellation at any await, written plus buffered plus rest of the chunk is everything pulled |
| Connection.ConnectionConserves | rtlsdr-async/src/rtl_tcp/server.rs:271-290 | the same over a whole connection, for every stream, writer and pattern of cancellations |
| Connection.EndsExactly | rtlsdr-async/src/rtl_tcp/server.rs:304-325 | a segment ends the connection if and only if the stream ended, the writer took nothing or the chunk was empty, and panics if and only if half a sample is involved; the unreachable arm is never taken |
| Connection.CancellationsDoNotMatter | rtlsdr-async/src/rtl_tcp/server.rs:271-290 | a connection ends up exactly as if the segments that were cancelled had never been started |
| Connection.IdleEventsDoNotMatter | rtlsdr-async/src/rtl_tcp/server.rs:271-290 | the same for segments that wait for a stream which has nothing yet |
| Connection.WriteTakesFront | rtlsdr-async/src/rtl_tcp/server.rs:311-318 | the writer gets the next unwritten bytes, in order, and exactly as many as it accepts |
| Connection.FillTakesWhatFits | rtlsdr-async/src/rtl_tcp/server.rs:430-450 | an empty buffer takes as many bytes of the chunk as fit, and the others stay in hand |
| Connection.EverythingGetsWritten | rtlsdr-async/src/rtl_tcp/server.rs:295-328 | progress: with a writer that takes what it is offered, a bounded number of segments writes everything that was pulled, and the connection is ready for the next chunk |
| Connection.ConnectionHandler.ReadSamples | rtlsdr-async/src/rtl_tcp/server.rs:430-450 | in place: serve the current chunk, or pull the next first, copying as many samples as fit |
| Connection.ConnectionHandler.ForwardSamples | rtlsdr-async/src/rtl_tcp/server.rs:295-328 | in place: one segment of forwarding does what the conservation laws are proved about |
| Connection.ServeSamples | rtlsdr-async/src/rtl_tcp/server.rs:256-293 | the select loop, as far as samples go, writes a prefix of what it pulled |
| Pipeline.PullKeepsLink | rtlsdr-async/src/lib.rs:310-335 | pulling a chunk takes an item at a later position than all before, and a buffer of another sample type ends the stream |
| Pipeline.FillKeepsLink | rtlsdr-async/src/rtl_tcp/server.rs:432-440 | serving from shared memory takes exactly the front of the chunk and never finds it empty |
| Pipeline.OthersKeepLink | rtlsdr-async/src/buffer_queue.rs:149-360 | nothing the producer or anybody else does changes what this connection has in hand |
| Pipeline.PullIsPoll | rtlsdr-async/src/lib.rs:310-335 | pulling is polling the receiver, and dropping the buffer if and only if its sample type is another one |
| Pipeline.PullParks | rtlsdr-async/src/buffer_queue.rs:290-295 | a connection that finds nothing while the sender lives is parked and registered with the waker it was polled with |
| Pipeline.PushWakesConnection | rtlsdr-async/src/buffer_queue.rs:164-174 | the next push wakes a parked connection, which then has something to read |
| Pipeline.FillReleases | rtlsdr-async/src/rtl_tcp/server.rs:432-440 | filling keeps the connection's handle, on the end of the chunk, while some of it is left, and then lets go of it |
| Pipeline.PullAndFillIsSegment | rtlsdr-async/src/rtl_tcp/server.rs:430-450 | pulling from the queue and filling is the segment of forwarding that finds that chunk in the stream |
| Pipeline.ServedCanMove | rtlsdr-async/src/rtl_tcp/server.rs:295-328 | a served connection can always go on, by exactly one kind of move and with any number of bytes the writer takes |
| Pipeline.OthersCanMove | rtlsdr-async/src/buffer_queue.rs:149-360 | nobody else is restricted, except from using this connection's receiver and chunk |
| Pipeline.WholePath | rtlsdr-async/src/rtl_tcp/server.rs:295-450 | on every run the bytes written are a prefix of the concatenation of pushed items at strictly increasing positions, which are those delivered to the connection's receiver; all are whole except possibly the last, and the missing end is what is still buffered |
| Pipeline.KeepingUpWritesAll | rtlsdr-async/src/rtl_tcp/server.rs:295-450 | a connection whose receiver lags by at most capacity less one at its pulls writes an unbroken stretch of the history, from the position at which it was accepted |
| Pipeline.ConnectionEndsExactly | rtlsdr-async/src/rtl_tcp/server.rs:304-325 | over the queue, a connection ends if and only if the sender is gone and the queue drained, the sample type changed or the writer took nothing, and panics if and only if the writer took half a sample |
| Pipeline.ServedToTheEnd | rtlsdr-async/src/rtl_tcp/server.rs:295-328 | a connection closed by its stream has written everything it pulled, every item whole; if it kept up and the stream ended because the sender had gone, that is everything pushed since it was accepted |
| Codec.RoundTrip | rtlsdr-async/src/rtl_tcp/mod.rs:44-202 | every command decodes from its encoding, for all u32, i32 and i16 fields |
| Codec.DecodeEncode | rtlsdr-async/src/rtl_tcp/mod.rs:44-133 | five bytes are rejected if and only if the opcode is unknown, and then reported unchanged; otherwise re-encoding decodes to the same command, and gives the same bytes if and only if the argument was canonical |
| Codec.EncodeInjective | rtlsdr-async/src/rtl_tcp/mod.rs:135-202 | different commands have different encodings |
| Codec.FirstByte | rtlsdr-async/src/rtl_tcp/mod.rs:135-202 | the first byte of every encoding is the protocol's number for the command |
| Codec.ArgumentBytes | rtlsdr-async/src/rtl_tcp/mod.rs:135-202 | the other four bytes, read most significant first, are the field, with 2^32 added if it is negative; two such pairs for the i16 fields; flags, modes and sampling are sent as their protocol numbers |
| Codec.LenientArguments | rtlsdr-async/src/rtl_tcp/mod.rs:44-133 | arguments that are never sent are read leniently: any flag but zero is on, any mode but zero is manual, any sampling number but one and two is off; all other fields are read in full |
| Codec.EncodeInto | rtlsdr-async/src/rtl_tcp/mod.rs:135-202 | in place: five bytes at the front of the buffer, the rest untouched |
| Framing.ParseResumes | rtlsdr-async/src/rtl_tcp/server.rs:163-182 | a stream can be parsed in pieces if only the unfinished frame is remembered |
| Framing.ReadTakesFront | rtlsdr-async/src/rtl_tcp/server.rs:276-283 | a read takes exactly as much as is wanted, fits and is there, from the front, and a command is yielded with the arrival of its last byte |
| Framing.CommandBuffer.Receive | rtlsdr-async/src/rtl_tcp/server.rs:184-197 | received bytes are appended to the partial frame |
| Framing.CommandBuffer.TryDecode | rtlsdr-async/src/rtl_tcp/server.rs:172-181 | a full frame is decoded and cleared, an invalid one reported, a partial one kept |
| Framing.ServeReadsMeaning | rtlsdr-async/src/rtl_tcp/server.rs:276-283 | for arbitrary bytes and reads, commands yielded plus commands still to come are the parse of the stream |
| Framing.FragmentationIndependence | rtlsdr-async/src/rtl_tcp/server.rs:276-283 | for every list of commands, wherever its encoding is cut off, and every fragmentation the loop yields a prefix of the list, never fails, and at end of input has yielded exactly the commands that arrived whole; enough reads get there |
| Framing.AnyScheduleAgrees | rtlsdr-async/src/rtl_tcp/server.rs:276-283 | on arbitrary bytes any two fragmentations that run to the end agree on commands and outcome |
| Framing.ServeCommands | rtlsdr-async/src/rtl_tcp/server.rs:271-283 | in place: the loop over the command buffer yields that result, and always has room before a read |
| Gains.NearestIsNearest | rtlsdr-async/src/control.rs:378-384 | when differences fit i32, the gain chosen is in the table, none is closer, and among ties it is the first |
| Gains.CheckedSearch | rtlsdr-async/src/control.rs:380-384 | with overflow checks the search panics if and only if some difference does not fit i32, and otherwise finds the nearest |
| Gains.WrappedSearchExact | rtlsdr-async/src/control.rs:380-384 | without overflow checks the search finds the nearest gain if and only if its distance survives the wrapped comparison with the distance of every entry |
| Gains.NearestExists | rtlsdr-async/src/control.rs:380-384 | every table that is not empty has exactly one first nearest entry, so the conditions on the search apply to every request |
| Gains.WrappedSearchMisses | rtlsdr-async/src/control.rs:383-383 | the condition can fail: a request for which a wrapping search passes over the nearest gain |
| Gains.CheckedDistance | rtlsdr-async/src/control.rs:380-384 | with overflow checks a distance exists if and only if neither the difference nor its absolute value leaves i32 |
| Gains.IndexSetsGain | rtlsdr-async/src/control.rs:393-407 | an index in the table sets manual mode and the gain at that place; a refused mode or an index outside the table changes nothing and is reported; a failed gain call leaves what the library leaves and is reported |
| Gains.ValueSetsNearest | rtlsdr-async/src/control.rs:378-391 | a value sets manual mode and the first nearest gain of the table whenever the search finds it; where the search panics nothing has changed |
| Gains.OtherSettings | rtlsdr-async/src/control.rs:376-413 | a value without a table is refused and changes nothing; automatic gain sets the mode and leaves the gain |
| Gains.PanicEndsControl | rtlsdr-async/src/control.rs:482-491 | the caller whose request panics and all later callers are told that the control thread is dead, and the device stays as it was |
| Gains.SettingAgrees | rtlsdr-async/src/handle.rs:181-207 | a setting through the mode cache and one without it agree if and only if a call saved by the cache would have succeeded, and then leave the same device |
| Gains.CacheStaysTrue | rtlsdr-async/src/handle.rs:181-207 | over every sequence of settings and every pattern of library failures a cached mode is the mode of the device |
| Gains.ModeCacheRefines | rtlsdr-async/src/control.rs:376-413 | over every sequence of settings the callers are told what they would be told by an implementation that always calls the library if and only if the library would accept every mode call that the cache saves; then mode and gain are the same too |
| Gains.LockedHandle.SetTunerGainMode | rtlsdr-async/src/handle.rs:181-207 | in place: skip a mode that is set already, otherwise call, and remember the mode only on success |
| Gains.LockedHandle.SetTunerGain | rtlsdr-async/src/handle.rs:224-233 | in place: the library is given the gain, and on success the device has it |
| Gains.LockedHandle.Apply | rtlsdr-async/src/control.rs:376-413 | in place: resolve the request, enable the mode, set the gain, and keep the cache truthful; where it reports success the device is in the mode asked for, with the gain of the table asked for |
| RemoteGain.CallSetsDongle | rtlsdr-async/src/rtl_tcp/client.rs:137-167 | a gain setting queues gain commands only, and brings any server that takes a gain only in manual mode to that mode and gain; automatic gain leaves the gain; an index that does not fit u32 sends nothing |
| RemoteGain.CallsQueueInOrder | rtlsdr-async/src/rtl_tcp/client.rs:113-125 | every other call queues exactly its command, and calls queue one after another |
| RemoteGain.CallTakesEffectOnce | rtlsdr-async/src/rtl_tcp/client.rs:137-167 | on this server a gain setting takes effect as itself at exactly one of its commands if and only if its index fits u32, and otherwise not at all |
| RemoteGain.ApplyMeans | rtlsdr-async/src/rtl_tcp/mod.rs:204-265 | applying a command makes the setting it stands for; only turning the gain automatic, a gain, and an index stand for one |
| RemoteGain.ForwardCommands | rtlsdr-async/src/rtl_tcp/client.rs:338-396 | the bytes sent are the encodings of the queued commands, in order, up to the byte at which the transport fails; as many commands are acknowledged as arrive whole, and one more if and only if a flush cuts a command short, since callers are told before the flush |
| RemoteGain.ToldButNotDone | rtlsdr-async/src/rtl_tcp/client.rs:376-392 | of the settings for which callers were told of success all take effect once the connection is read to the end, except that of the one command that a failing flush cut short |
| RemoteGain.NetworkProjection | rtlsdr-async/src/rtl_tcp/server.rs:271-283 | however connections are interleaved, each yields what it would yield alone |
| RemoteGain.ApplyAllEffects | rtlsdr-async/src/rtl_tcp/mod.rs:204-265 | applying any commands is making the settings they stand for, in that order |
| RemoteGain.RemoteEqualsLocal | rtlsdr-async/src/rtl_tcp/server.rs:415-428 | for any clients, any callers sharing a client with their commands interleaved, transports cut off anywhere, any fragmentation and interleaving of connections, the backend's gain state is that of making settings directly, in an order that keeps each caller's order; once a connection is read to the end these are exactly the settings of which the command arrived whole |

## Left out

- librtlsdr, device opening and enumeration: foreign calls; the device is a record whose calls may fail as the environment chooses.
- TCP sockets, tasks, buffered readers and writers and the final flush: the writer is an append-only byte sequence with arbitrary partial writes, the reader an arbitrary fragmentation.
- Fairness, scheduling and real time: safety and exact outcomes are proved, not that a step happens.
- Wrap-around of positions and receiver ids in `usize`: they are unbounded here; slice bounds are not, for 64-bit targets; a gain index on the wire is assumed to fit `usize`, as on 64-bit targets.
- The dongle header: the server never writes it, so there is nothing to round-trip.
- Direct sampling over rtl_tcp: the server ignores the command, so nothing relates the client's tag to the bytes.
- The client as a second hop: its queue is the same step system with the non-blocking producer, but the bytes it reads are not tied to a particular server's output.
- Freeing the shared queue itself once sender, subscribers and receivers are all gone.
- Slicing of consumer buffers in the step system is by half-open byte ranges; the other ranges are covered by the laws in `Slices`.
- RemoteGain.ApplyAllEffects: commands other than gain commands are applied to device state outside this model.
- Conversion to floating point, logging, command-line parsing, and the oneshot plumbing of the control thread.
