/** Reference-counted byte blocks (`Arc<[u8]>`) on an explicit heap. */
module Arcs {
  import opened Types

  datatype Block = Block(bytes: seq<u8>, strong: nat)

  /** The live blocks, and how many blocks were ever made. */
  datatype Memory = Memory(blocks: map<nat, Block>, created: nat)

  function Zeros(n: nat): (z: seq<u8>)
    ensures |z| == n
  {
    seq(n, _ => 0)
  }

  function Allocate(m: Memory, size: nat): Memory {
    Memory(m.blocks[m.created := Block(Zeros(size), 1)], m.created + 1)
  }

  function CloneArc(m: Memory, b: nat): Memory
    requires b in m.blocks
  {
    m.(blocks := m.blocks[b := m.blocks[b].(strong := m.blocks[b].strong + 1)])
  }

  /** Dropping the last handle frees the block. */
  function DropArc(m: Memory, b: nat): Memory
    requires b in m.blocks
  {
    if m.blocks[b].strong <= 1 then m.(blocks := m.blocks - {b})
    else m.(blocks := m.blocks[b := m.blocks[b].(strong := m.blocks[b].strong - 1)])
  }

  /** `Arc::get_mut` succeeds. */
  predicate Unique(m: Memory, b: nat)
    requires b in m.blocks
  {
    m.blocks[b].strong == 1
  }

  /** Writing in place, which needs the unique handle. */
  function Overwrite(m: Memory, b: nat, bytes: seq<u8>): Memory
    requires b in m.blocks && Unique(m, b) && |bytes| == |m.blocks[b].bytes|
  {
    m.(blocks := m.blocks[b := m.blocks[b].(bytes := bytes)])
  }

  // ---------- who holds what ----------

  /** The places a handle can be: a queue slot, a consumer's buffer, the producer's buffer. */
  datatype Name = Slot(position: nat) | Held(id: nat) | Producing

  type Handles = map<Name, nat>

  ghost function Refs(h: Handles, b: nat): set<Name> {
    set n | n in h && h[n] == b
  }

  /** Every handle points to a live block, and counts are the numbers of live handles. */
  ghost predicate Counted(m: Memory, h: Handles) {
    && (forall n :: n in h ==> h[n] in m.blocks)
    && (forall b :: b in m.blocks ==> b < m.created)
    && (forall b {:trigger Refs(h, b)} :: b in m.blocks ==> 0 < m.blocks[b].strong == |Refs(h, b)|)
  }

  /** All handles in h still show the bytes they showed before. */
  ghost predicate SameBytes(m: Memory, m': Memory, h: Handles) {
    forall n :: n in h ==>
      h[n] in m.blocks && h[n] in m'.blocks && m'.blocks[h[n]].bytes == m.blocks[h[n]].bytes
  }

  lemma CountedAllocate(m: Memory, h: Handles, n: Name, size: nat)
    requires Counted(m, h) && n !in h
    ensures Counted(Allocate(m, size), h[n := m.created])
    ensures SameBytes(m, Allocate(m, size), h)
  {
    var m', h' := Allocate(m, size), h[n := m.created];
    assert Refs(h', m.created) == {n};
    forall b | b in m.blocks ensures Refs(h', b) == Refs(h, b) {
    }
  }

  lemma CountedClone(m: Memory, h: Handles, n: Name, b: nat)
    requires Counted(m, h) && n !in h && b in m.blocks
    ensures Counted(CloneArc(m, b), h[n := b])
    ensures SameBytes(m, CloneArc(m, b), h)
  {
    var h' := h[n := b];
    assert Refs(h', b) == Refs(h, b) + {n};
    forall c | c in m.blocks && c != b ensures Refs(h', c) == Refs(h, c) {
    }
  }

  lemma CountedDrop(m: Memory, h: Handles, n: Name)
    requires Counted(m, h) && n in h
    ensures Counted(DropArc(m, h[n]), h - {n})
    ensures SameBytes(m, DropArc(m, h[n]), h - {n})
  {
    var b, h' := h[n], h - {n};
    assert Refs(h', b) == Refs(h, b) - {n};
    forall c | c in m.blocks && c != b ensures Refs(h', c) == Refs(h, c) {
    }
    assert |Refs(h, b)| == |Refs(h', b)| + 1;
    forall k | k in h' && h'[k] == b ensures m.blocks[b].strong > 1 {
      assert k in Refs(h', b);
      assert Refs(h', b) != {};
    }
  }

  lemma CountedMove(m: Memory, h: Handles, n: Name, n': Name)
    requires Counted(m, h) && n in h && n' !in h
    ensures Counted(m, (h - {n})[n' := h[n]])
  {
    var b, h' := h[n], (h - {n})[n' := h[n]];
    assert Refs(h', b) == Refs(h, b) - {n} + {n'};
    forall c | c in m.blocks && c != b ensures Refs(h', c) == Refs(h, c) {
    }
  }

  /** A block that `get_mut` grants is held by nobody else. */
  lemma UniqueHolder(m: Memory, h: Handles, n: Name)
    requires Counted(m, h) && n in h && Unique(m, h[n])
    ensures forall k :: k in h && h[k] == h[n] ==> k == n
  {
    forall k | k in h && h[k] == h[n] ensures k == n {
      var pair := {n, k};
      assert n in Refs(h, h[n]) && k in Refs(h, h[n]);
      SubsetSize(pair, Refs(h, h[n]));
      assert |pair - {n}| == 0;
    }
  }

  /** Overwriting through the unique handle changes what no other handle shows. */
  lemma CountedOverwrite(m: Memory, h: Handles, n: Name, bytes: seq<u8>)
    requires Counted(m, h) && n in h && Unique(m, h[n]) && |bytes| == |m.blocks[h[n]].bytes|
    ensures Counted(Overwrite(m, h[n], bytes), h)
    ensures SameBytes(m, Overwrite(m, h[n], bytes), h - {n})
  {
    UniqueHolder(m, h, n);
  }

  /** No leaks: there are at most as many live blocks as handles. */
  lemma LiveBlocksBounded(m: Memory, h: Handles)
    requires Counted(m, h)
    ensures |m.blocks| <= |h|
  {
    forall b | b in m.blocks ensures b in h.Values {
      var n :| n in Refs(h, b);
    }
    assert m.blocks.Keys <= h.Values;
    SubsetSize(m.blocks.Keys, h.Values);
    ValuesBounded(h);
  }

  lemma {:induction false} SubsetSize<T>(a: set<T>, b: set<T>)
    requires a <= b
    ensures |a| <= |b|
  {
    if a != {} {
      var x :| x in a;
      SubsetSize(a - {x}, b - {x});
    }
  }

  lemma {:induction false} ValuesBounded(h: Handles)
    ensures |h.Values| <= |h|
    decreases |h|
  {
    if |h| > 0 {
      var n :| n in h;
      var rest := h - {n};
      ValuesBounded(rest);
      assert h.Values <= rest.Values + {h[n]} by {
        forall v | v in h.Values ensures v in rest.Values + {h[n]} {
          var k :| k in h && h[k] == v;
          if k != n {
            assert k in rest && rest[k] == v;
          }
        }
      }
      SubsetSize(h.Values, rest.Values + {h[n]});
    } else {
      assert h == map[];
    }
  }

  // ---------- the allocator in place ----------

  class Arena {
    var blocks: map<nat, Block>
    var created: nat

    ghost function Value(): Memory
      reads this
    {
      Memory(blocks, created)
    }

    constructor ()
      ensures Value() == Memory(map[], 0)
    {
      blocks, created := map[], 0;
    }

    method New(size: nat) returns (b: nat)
      modifies this
      ensures b == old(created) && Value() == Allocate(old(Value()), size)
    {
      b := created;
      blocks := blocks[b := Block(Zeros(size), 1)];
      created := created + 1;
    }

    method Clone(b: nat)
      requires b in blocks
      modifies this
      ensures Value() == CloneArc(old(Value()), b)
    {
      blocks := blocks[b := blocks[b].(strong := blocks[b].strong + 1)];
    }

    method Drop(b: nat)
      requires b in blocks
      modifies this
      ensures Value() == DropArc(old(Value()), b)
    {
      if blocks[b].strong <= 1 {
        blocks := blocks - {b};
      } else {
        blocks := blocks[b := blocks[b].(strong := blocks[b].strong - 1)];
      }
    }

    method WriteUnique(b: nat, bytes: seq<u8>)
      requires b in blocks && Unique(Value(), b) && |bytes| == |blocks[b].bytes|
      modifies this
      ensures Value() == Overwrite(old(Value()), b, bytes)
    {
      blocks := blocks[b := blocks[b].(bytes := bytes)];
    }
  }
}
