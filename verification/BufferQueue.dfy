/**
 * The broadcast queue behind its mutex: each function is what one critical section does to the
 * shared state, and the classes below do it in place.
 */
module BufferQueue {
  import opened Types
  import opened Slices
  import opened Arcs

  datatype Queue = Queue(
    numSenders: nat,
    numSubscribers: nat,
    numReceivers: nat,
    slots: seq<Buffer>,
    tailPos: nat,
    headPos: nat,
    capacity: nat,
    wakers: map<nat, nat>,
    nextReceiverId: nat
  )

  /** `Buffer::new`, around a fresh block. */
  function NewBuffer(block: nat): Buffer {
    Buffer(block, 0, 0, 0, IqSamples)
  }

  /** `channel`: one sender and one subscriber. */
  function Channel(numBuffers: positive): Queue {
    Queue(1, 1, 0, [], 0, 0, numBuffers, map[], 0)
  }

  /** `push_buffer`; the precondition is its assertion. Every registered waker is woken. */
  function PushBuffer(q: Queue, b: Buffer): Queue
    requires |q.slots| < q.capacity
  {
    q.(slots := q.slots + [b], tailPos := q.tailPos + 1, wakers := map[])
  }

  /** `pop_buffer`; with capacity zero its `expect` would fail. */
  function PopBuffer(q: Queue): (Queue, Option<Buffer>)
    requires q.capacity > 0
  {
    if |q.slots| == q.capacity then (q.(slots := q.slots[1..], headPos := q.headPos + 1), Some(q.slots[0]))
    else (q, None)
  }

  datatype Swap = Blocked | Disconnected | Swapped(reused: Option<Buffer>)

  /** `swap_buffers` from taking the lock to waiting or returning. A waiting sender takes it again. */
  function SwapSection(q: Queue, push: Option<Buffer>, block: bool): (Queue, Swap)
    requires q.capacity > 0 && (push.Some? ==> |q.slots| < q.capacity)
  {
    if q.numReceivers == 0 && block then (q, if q.numSubscribers == 0 then Disconnected else Blocked)
    else
      var (q', reused) := PopBuffer(if push.Some? then PushBuffer(q, push.value) else q);
      (q', Swapped(reused))
  }

  // The boolean results below say whether the condition variable is notified.

  function SubscriberCloned(q: Queue): Queue { q.(numSubscribers := q.numSubscribers + 1) }

  /** Nobody is notified, not even when nobody is left. */
  function SubscriberDropped(q: Queue): (Queue, bool)
    requires q.numSubscribers > 0
  {
    (q.(numSubscribers := q.numSubscribers - 1), false)
  }

  /** `Subscriber::receiver` and `Receiver::clone`: the new id is the old `next_receiver_id`. */
  function ReceiverAdded(q: Queue): (Queue, bool) {
    (q.(numReceivers := q.numReceivers + 1, nextReceiverId := q.nextReceiverId + 1), q.numReceivers == 0)
  }

  function ReceiverDropped(q: Queue): (Queue, bool)
    requires q.numReceivers > 0
  {
    (q.(numReceivers := q.numReceivers - 1), q.numSubscribers == 0 && q.numReceivers == 1)
  }

  function SenderDropped(q: Queue): (Queue, bool)
    requires q.numSenders > 0
  {
    (q.(numSenders := q.numSenders - 1), q.numSubscribers == 0 && q.numReceivers == 0)
  }

  datatype Poll = Ready(index: nat) | End | Pending

  /** `poll_next`: the read position catches up with the head, then reads, ends or registers the waker. */
  function PollSection(q: Queue, readPos: nat, id: nat, waker: nat): (Queue, nat, Poll) {
    var pos := if readPos < q.headPos then q.headPos else readPos;
    if pos < q.tailPos then (q, pos + 1, Ready(pos - q.headPos))
    else if q.numSenders == 0 then (q, pos, End)
    else (q.(wakers := q.wakers[id := waker]), pos, Pending)
  }

  /**
   * `reclaim_or_allocate`: keep the block if it is unique, otherwise replace the whole buffer by
   * a new one. The old block is still held elsewhere then, so letting go of it frees nothing.
   */
  function Reclaim(m: Memory, b: Buffer, size: nat): (Memory, Buffer)
    requires b.block in m.blocks
  {
    if Unique(m, b.block) then (m, b)
    else (Allocate(DropArc(m, b.block), size), NewBuffer(m.created))
  }

  method ReclaimOrAllocate(arena: Arena, b: Buffer, size: nat) returns (r: Buffer)
    requires b.block in arena.blocks
    modifies arena
    ensures (arena.Value(), r) == Reclaim(old(arena.Value()), b, size)
  {
    if arena.blocks[b.block].strong == 1 {
      return b;
    }
    arena.Drop(b.block);
    var block := arena.New(size);
    r := NewBuffer(block);
  }

  lemma ValuesWithout(m: map<nat, nat>, id: nat)
    requires id in m
    ensures m.Values == (m - {id}).Values + {m[id]}
  {
    var rest := m - {id};
    forall v | v in m.Values ensures v in rest.Values + {m[id]} {
      var k :| k in m && m[k] == v;
      assert k == id || (k in rest && rest[k] == v);
    }
  }

  // ---------- the shared state in place ----------

  class SharedState {
    var numSenders: nat
    var numSubscribers: nat
    var numReceivers: nat
    var slots: seq<Buffer>
    var tailPos: nat
    var headPos: nat
    const capacity: nat
    var wakers: map<nat, nat>
    var nextReceiverId: nat

    ghost function Value(): Queue
      reads this
    {
      Queue(numSenders, numSubscribers, numReceivers, slots, tailPos, headPos, capacity, wakers, nextReceiverId)
    }

    constructor (numBuffers: positive)
      ensures Value() == Channel(numBuffers)
    {
      numSenders, numSubscribers, numReceivers := 1, 1, 0;
      slots, tailPos, headPos, capacity := [], 0, 0, numBuffers;
      wakers, nextReceiverId := map[], 0;
    }

    method Pop() returns (b: Option<Buffer>)
      requires capacity > 0
      modifies this`slots, this`headPos
      ensures (Value(), b) == PopBuffer(old(Value()))
    {
      b := None;
      if |slots| == capacity {
        b := Some(slots[0]);
        slots := slots[1..];
        headPos := headPos + 1;
      }
    }

    /** Returns the wakers it has woken: all that were registered. */
    method Push(b: Buffer) returns (woken: set<nat>)
      requires |slots| < capacity
      modifies this`slots, this`tailPos, this`wakers
      ensures Value() == PushBuffer(old(Value()), b)
      ensures woken == old(wakers).Values
    {
      slots := slots + [b];
      tailPos := tailPos + 1;
      woken := {};
      while wakers != map[]
        invariant woken + wakers.Values == old(wakers).Values
        invariant Value() == PushBuffer(old(Value()), b).(wakers := wakers)
        decreases |wakers|
      {
        var id :| id in wakers;
        woken := woken + {wakers[id]};
        ValuesWithout(wakers, id);
        wakers := wakers - {id};
      }
    }

    /** One pass of `swap_buffers` under the lock; a buffer is made when none could be popped. */
    method Swap(arena: Arena, push: Option<Buffer>, size: nat, block: bool)
      returns (swap: Swap, buffer: Option<Buffer>, woken: set<nat>)
      requires capacity > 0 && (push.Some? ==> |slots| < capacity)
      modifies this`slots, this`headPos, this`tailPos, this`wakers, arena
      ensures (Value(), swap) == SwapSection(old(Value()), push, block)
      ensures arena.Value() == if swap == Swapped(None) then Allocate(old(arena.Value()), size) else old(arena.Value())
      ensures buffer == if !swap.Swapped? then None
                        else if swap.reused.Some? then swap.reused
                        else Some(NewBuffer(old(arena.created)))
      ensures woken == if swap.Swapped? && push.Some? then old(wakers).Values else {}
    {
      buffer, woken := None, {};
      if numReceivers == 0 && block {
        swap := if numSubscribers == 0 then Disconnected else Blocked;
        return;
      }
      if push.Some? {
        woken := Push(push.value);
      }
      var reused := Pop();
      swap := Swapped(reused);
      if reused.Some? {
        buffer := reused;
      } else {
        var made := arena.New(size);
        buffer := Some(NewBuffer(made));
      }
    }

    method AddReceiver() returns (id: nat, notify: bool)
      modifies this`numReceivers, this`nextReceiverId
      ensures (Value(), notify) == ReceiverAdded(old(Value())) && id == old(nextReceiverId)
    {
      numReceivers := numReceivers + 1;
      notify := numReceivers == 1;
      id := nextReceiverId;
      nextReceiverId := nextReceiverId + 1;
    }

    method DropSender() returns (notify: bool)
      requires numSenders > 0
      modifies this`numSenders
      ensures (Value(), notify) == SenderDropped(old(Value()))
    {
      numSenders := numSenders - 1;
      notify := numSubscribers == 0 && numReceivers == 0;
    }
  }

  class Subscriber {
    const shared: SharedState

    constructor (shared: SharedState)
      ensures this.shared == shared
    {
      this.shared := shared;
    }

    method Clone() returns (s: Subscriber)
      modifies shared`numSubscribers
      ensures fresh(s) && s.shared == shared && shared.Value() == SubscriberCloned(old(shared.Value()))
    {
      shared.numSubscribers := shared.numSubscribers + 1;
      s := new Subscriber(shared);
    }

    /** `drop`: the condition variable is left alone. */
    method Drop() returns (notify: bool)
      requires shared.numSubscribers > 0
      modifies shared`numSubscribers
      ensures (shared.Value(), notify) == SubscriberDropped(old(shared.Value())) && !notify
    {
      shared.numSubscribers := shared.numSubscribers - 1;
      notify := false;
    }

    /** `receiver`: reading starts at the current tail. */
    method NewReceiver() returns (r: Receiver, notify: bool)
      modifies shared`numReceivers, shared`nextReceiverId
      ensures fresh(r) && r.shared == shared
      ensures r.receiverId == old(shared.nextReceiverId) && r.readPos == shared.tailPos
      ensures (shared.Value(), notify) == ReceiverAdded(old(shared.Value()))
    {
      var id;
      id, notify := shared.AddReceiver();
      r := new Receiver(shared, shared.tailPos, id);
    }
  }

  class Receiver {
    const shared: SharedState
    const receiverId: nat
    var readPos: nat

    constructor (shared: SharedState, readPos: nat, receiverId: nat)
      ensures this.shared == shared && this.readPos == readPos && this.receiverId == receiverId
    {
      this.shared, this.readPos, this.receiverId := shared, readPos, receiverId;
    }

    /** `clone`: the copy starts where the original is, under an id of its own. */
    method Clone() returns (r: Receiver, notify: bool)
      modifies shared`numReceivers, shared`nextReceiverId
      ensures fresh(r) && r.shared == shared
      ensures r.receiverId == old(shared.nextReceiverId) && r.readPos == readPos
      ensures (shared.Value(), notify) == ReceiverAdded(old(shared.Value()))
    {
      var id;
      id, notify := shared.AddReceiver();
      r := new Receiver(shared, readPos, id);
    }

    method Drop() returns (notify: bool)
      requires shared.numReceivers > 0
      modifies shared`numReceivers
      ensures (shared.Value(), notify) == ReceiverDropped(old(shared.Value()))
    {
      shared.numReceivers := shared.numReceivers - 1;
      notify := shared.numSubscribers == 0 && shared.numReceivers == 0;
    }

    /** Where the queue is a window of the right length, the slot index is in range. */
    method PollNext(arena: Arena, waker: nat) returns (poll: Poll, buffer: Option<Buffer>)
      requires |shared.slots| == shared.tailPos - shared.headPos
      requires forall b :: b in shared.slots ==> b.block in arena.blocks
      modifies this`readPos, shared`wakers, arena
      ensures (shared.Value(), readPos, poll) == PollSection(old(shared.Value()), old(readPos), receiverId, waker)
      ensures poll.Ready? ==> poll.index < |shared.slots| && buffer == Some(shared.slots[poll.index])
      ensures poll.Ready? ==> arena.Value() == CloneArc(old(arena.Value()), shared.slots[poll.index].block)
      ensures !poll.Ready? ==> buffer == None && arena.Value() == old(arena.Value())
    {
      buffer := None;
      var index;
      if readPos < shared.headPos {
        readPos := shared.headPos;
        index := 0;
      } else {
        index := readPos - shared.headPos;
      }
      if readPos < shared.tailPos {
        buffer := Some(shared.slots[index]);
        arena.Clone(shared.slots[index].block);
        readPos := readPos + 1;
        poll := Ready(index);
      } else if shared.numSenders == 0 {
        poll := End;
      } else {
        shared.wakers := shared.wakers[receiverId := waker];
        poll := Pending;
      }
    }
  }
}
