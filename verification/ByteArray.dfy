/** The byte array: a cursor over a linked list of fixed-size nodes. */
module ByteArrays {
  import opened Bits
  import opened Endian
  import opened Chunks
  import opened Words

  /** What callers observe: the bytes below the size mark and the cursor. */
  datatype Content = Content(data: seq<byte>, pos: nat)
  {
    predicate Valid() { pos <= |data| }

    function Unread(): seq<byte>
      requires Valid()
    {
      data[pos..]
    }

    /** Overwrite at the cursor, extending the data when it runs past the end. */
    function Write(buf: seq<byte>): (v: Content)
      requires Valid()
      ensures v.Valid()
    {
      var end := pos + |buf|;
      Content(data[..pos] + buf + (if end <= |data| then data[end..] else []), end)
    }

    function Advance(n: nat): (v: Content)
      requires Valid() && n <= |Unread()|
      ensures v.Valid()
    {
      Content(data, pos + n)
    }
  }

  /** Reading can throw, or follow the cursor where there is no node. */
  datatype ReadOutcome = Bytes(data: seq<byte>) | OutOfRange | NullNode

  /** A piece of a node handed to vectored input or output. */
  datatype Slice = Slice(buf: array<byte>, off: nat, len: nat)

  class Node {
    const size: nat
    const ptr: array<byte>
    var next: Node?

    constructor (s: nat)
      ensures size == s && ptr.Length == s && next == null
      ensures fresh(ptr)
    {
      size := s;
      ptr := new byte[s];
      next := null;
    }
  }

  method Memcpy(dst: array<byte>, at: nat, src: seq<byte>)
    requires at + |src| <= dst.Length
    modifies dst
    ensures dst[..] == Splice(old(dst[..]), at, src)
  {
    forall i | 0 <= i < |src| {
      dst[at + i] := src[i];
    }
  }

  /** How many nodes of size `b` hold `n` bytes: the ceiling of the quotient. */
  method NodesFor(n: nat, b: nat) returns (count: nat)
    requires b > 0
    ensures n <= Offset(count, b) < n + b
  {
    count := (n + b - 1) / b;
    CeilingCovers(n, b);
  }

  /** The parts of the node list that never change: sizes and separation. */
  ghost predicate Shape(nodes: seq<Node>, b: nat)
  {
    && (forall i :: 0 <= i < |nodes| ==> nodes[i].size == b && nodes[i].ptr.Length == b)
    && (forall i, j :: 0 <= i < j < |nodes| ==> nodes[i] != nodes[j] && nodes[i].ptr != nodes[j].ptr)
  }

  ghost function Buffers(nodes: seq<Node>): set<array<byte>>
  {
    set i | 0 <= i < |nodes| :: nodes[i].ptr
  }

  ghost function ChunksOf(nodes: seq<Node>): (cs: seq<seq<byte>>)
    reads Buffers(nodes)
    ensures |cs| == |nodes|
    ensures forall i :: 0 <= i < |nodes| ==> cs[i] == nodes[i].ptr[..]
  {
    seq(|nodes|, i requires 0 <= i < |nodes| reads Buffers(nodes) => nodes[i].ptr[..])
  }

  lemma PrefixKept(before: seq<seq<byte>>, after: seq<seq<byte>>)
    requires |before| <= |after| && forall i :: 0 <= i < |before| ==> after[i] == before[i]
    ensures Flatten(before) <= Flatten(after)
  {
    assert after[..|before|] == before;
    FlattenPrefix(after, |before|);
  }

  class ByteArray {
    const baseSize: nat
    var position: nat
    var capacity: nat
    var size: nat
    var order: Order
    var root: Node
    var cur: Node?
    ghost var nodes: seq<Node>
    ghost var at: nat  // index of the cursor's node

    /** Everything but the cursor's position. */
    ghost predicate Linked()
      reads this`nodes, this`root, this`capacity, nodes
    {
      && baseSize >= 1
      && |nodes| >= 1 && nodes[0] == root
      && Shape(nodes, baseSize)
      && (forall i :: 0 <= i < |nodes| - 1 ==> nodes[i].next == nodes[i + 1])
      && nodes[|nodes| - 1].next == null
      && capacity == Offset(|nodes|, baseSize)
    }

    /** The cursor's node is the one holding `position`, or none exactly at capacity. */
    ghost predicate Pointed()
      reads this
    {
      if position == capacity then cur == null && at == |nodes|
      else at < |nodes| && cur == nodes[at] && Offset(at, baseSize) <= position < Offset(at, baseSize) + baseSize
    }

    ghost predicate Valid()
      reads this, nodes
    {
      Linked() && position <= size <= capacity && Pointed()
    }

    /** All the bytes the nodes hold, written or not. */
    ghost function Flat(): (s: seq<byte>)
      reads this`nodes, this`root, this`capacity, nodes, Buffers(nodes)
      requires Linked()
      ensures |s| == capacity
    {
      FlattenLength(ChunksOf(nodes), baseSize);
      Flatten(ChunksOf(nodes))
    }

    ghost function View(): (v: Content)
      reads this, nodes, Buffers(nodes)
      requires Valid()
      ensures v.Valid()
    {
      Content(Flat()[..size], position)
    }

    lemma NodeBytes(k: nat, from: nat, to: nat)
      requires Linked() && k < |nodes| && from <= to <= baseSize
      ensures Offset(k, baseSize) + to <= capacity
      ensures nodes[k].ptr[from..to] == Flat()[Offset(k, baseSize) + from..Offset(k, baseSize) + to]
    {
      FlattenSlice(ChunksOf(nodes), baseSize, k, from, to);
    }

    /** Moving the cursor leaves the bytes alone. */
    twostate lemma SameFlat()
      requires old(Linked()) && Linked() && nodes == old(nodes)
      requires forall i :: 0 <= i < |nodes| ==> nodes[i].ptr[..] == old(nodes[i].ptr[..])
      ensures Flat() == old(Flat())
    {
      assert ChunksOf(nodes) == old(ChunksOf(nodes));
    }

    constructor (base_size: nat)
      requires base_size >= 1
      ensures Valid() && fresh(nodes) && fresh(Buffers(nodes))
      ensures baseSize == base_size == capacity && order == Big
      ensures View() == Content([], 0)
    {
      baseSize := base_size;
      position := 0;
      capacity := base_size;
      size := 0;
      var node := new Node(base_size);
      root := node;
      cur := node;
      order := Big;
      nodes := [node];
      at := 0;
    }

    method SetIsLittleEndian(value: bool)
      requires Valid()
      modifies this`order
      ensures Valid() && View() == old(View())
      ensures order == if value then Little else Big
    {
      order := if value then Little else Big;
      SameFlat();
    }

    function GetReadSize(): (n: nat)
      requires Valid()
      reads this, nodes
    {
      size - position
    }

    /** Copies into the k-th node's buffer; the flat sequence changes at the same place. */
    method CopyIn(ghost k: nat, buf: array<byte>, npos: nat, src: seq<byte>)
      requires Linked() && k < |nodes| && buf == nodes[k].ptr
      requires npos + |src| <= baseSize
      modifies buf
      ensures Linked()
      ensures Offset(k, baseSize) + npos + |src| <= capacity
      ensures Flat() == Splice(old(Flat()), Offset(k, baseSize) + npos, src)
    {
      ghost var before := ChunksOf(nodes);
      Memcpy(buf, npos, src);
      FlattenSplice(before, baseSize, k, npos, src);
      OffsetMono(k, |nodes|, baseSize);
      assert ChunksOf(nodes) == before[k := Splice(before[k], npos, src)];
    }

    method AppendNode(tail: Node) returns (node: Node)
      requires Linked() && tail == nodes[|nodes| - 1]
      modifies tail`next, this`nodes, this`capacity
      ensures Linked() && nodes == old(nodes) + [node]
      ensures capacity == old(capacity) + baseSize
      ensures fresh(node) && fresh(node.ptr)
    {
      node := new Node(baseSize);
      tail.next := node;
      capacity := capacity + baseSize;
      nodes := nodes + [node];
    }

    /** Walks from the root to the last node. */
    method FindTail() returns (tmp: Node)
      requires Linked()
      ensures tmp == nodes[|nodes| - 1]
    {
      tmp := root;
      ghost var k := 0;
      while tmp.next != null
        invariant k < |nodes| && tmp == nodes[k]
        invariant k < |nodes| - 1 ==> tmp.next == nodes[k + 1]
        decreases |nodes| - k
      {
        tmp := tmp.next;
        k := k + 1;
      }
    }

    /** Appends `count` nodes and returns the first of them. */
    method Extend(tail: Node, count: nat) returns (first: Node?)
      requires Linked() && tail == nodes[|nodes| - 1]
      modifies this`nodes, this`capacity, nodes
      ensures Linked() && old(nodes) <= nodes && |nodes| == |old(nodes)| + count
      ensures capacity == old(capacity) + Offset(count, baseSize)
      ensures if count == 0 then first == null else first == nodes[|old(nodes)|]
      ensures Fresh(|old(nodes)|)
    {
      var tmp := tail;
      first := null;
      var i := 0;
      while i < count
        invariant 0 <= i <= count
        invariant Linked() && old(nodes) <= nodes && |nodes| == |old(nodes)| + i
        invariant tmp == nodes[|nodes| - 1] && (tmp == tail || fresh(tmp))
        invariant capacity == old(capacity) + Offset(i, baseSize)
        invariant if i == 0 then first == null else first == nodes[|old(nodes)|]
        invariant Fresh(|old(nodes)|)
      {
        var node := AppendNode(tmp);
        if first == null {
          first := node;
        }
        tmp := node;
        i := i + 1;
      }
    }

    /** The nodes from the n-th on are new. */
    twostate predicate Fresh(n: nat)
      reads this
    {
      forall i :: n <= i < |nodes| ==> fresh(nodes[i]) && fresh(nodes[i].ptr)
    }

    /** Every node is an old one or new: what a caller may go on modifying. */
    twostate predicate Grown()
      reads this
    {
      forall i :: 0 <= i < |nodes| ==>
        (nodes[i] in old(nodes) || fresh(nodes[i])) && (nodes[i].ptr in old(Buffers(nodes)) || fresh(nodes[i].ptr))
    }

    /** Makes room for `n` bytes from the cursor on; nothing a caller can see changes. */
    method AddCapacity(n: nat)
      requires Valid()
      modifies this, nodes
      ensures Valid() && Fresh(|old(nodes)|)
      ensures old(nodes) <= nodes && old(Flat()) <= Flat()
      ensures position == old(position) && size == old(size) && order == old(order)
      ensures capacity - position >= n
      ensures capacity == old(capacity) || capacity - position < n + baseSize
    {
      if n == 0 {
        return;
      }
      var old_cap := capacity - position;
      if old_cap >= n {
        return;
      }
      ghost var before := ChunksOf(nodes);
      AddNodes(n - old_cap);
      PrefixKept(before, ChunksOf(nodes));
    }

    method AddNodes(missing: nat)
      requires Valid() && missing > 0
      modifies this`cur, this`nodes, this`capacity, nodes
      ensures Valid() && Fresh(|old(nodes)|) && old(nodes) <= nodes
      ensures missing <= capacity - old(capacity) < missing + baseSize
    {
      var old_cap := capacity - position;
      var count := NodesFor(missing, baseSize);
      var tmp := FindTail();
      var first := Extend(tmp, count);
      if old_cap == 0 {
        cur := first;
      }
    }

    /** Moves the cursor over `n` bytes of its node, on to the next node when that one is exhausted. */
    method Step(npos: nat, n: nat)
      requires Linked() && Pointed() && position < capacity
      requires position == Offset(at, baseSize) + npos && npos + n <= baseSize
      modifies this`position, this`cur, this`at
      ensures Linked() && Pointed()
      ensures position == old(position) + n <= capacity
      ensures npos + n == baseSize && position < capacity ==> position == Offset(at, baseSize)
      ensures Flat() == old(Flat())
    {
      hide Flat;
      OffsetMono(at, |nodes|, baseSize);
      if at + 1 < |nodes| {
        OffsetMono(at + 1, |nodes|, baseSize);
      }
      if cur.size == npos + n {
        cur := cur.next;
        at := at + 1;
      }
      position := position + n;
      SameFlat();
    }

    /** The offset of a position of the cursor's node inside that node. */
    function NodeOffset(p: nat, ghost k: nat): (npos: nat)
      requires baseSize >= 1 && Offset(k, baseSize) <= p < Offset(k, baseSize) + baseSize
      ensures npos == p - Offset(k, baseSize)
    {
      Locate(p, k, baseSize);
      p % baseSize
    }

    /** Writes at the cursor, over the old bytes or past the end. */
    method Write(buf: seq<byte>)
      requires Valid()
      modifies this, nodes, Buffers(nodes)
      ensures Valid() && Grown()
      ensures order == old(order)
      ensures View() == old(View()).Write(buf)
    {
      hide Splice, Flat, View, Shape, Content.Write;
      if |buf| == 0 {
        WriteNothing(View(), buf);
        return;
      }
      Reserve(|buf|);
      Overwrite(buf);
    }

    /** As `AddCapacity`, seen by a caller. */
    method Reserve(n: nat)
      requires Valid()
      modifies this, nodes
      ensures Valid() && Grown() && capacity - position >= n
      ensures order == old(order)
      ensures View() == old(View())
    {
      hide Splice, Flat, Shape;
      AddCapacity(n);
    }

    /** A write for which there is room. */
    method Overwrite(buf: seq<byte>)
      requires Valid() && |buf| > 0 && capacity - position >= |buf|
      modifies this`position, this`cur, this`at, this`size, Buffers(nodes)
      ensures Valid()
      ensures View() == old(View()).Write(buf)
    {
      hide Splice, Flat, Shape, Content.Write;
      ghost var flat := Flat();
      WriteNodes(buf);
      ghost var after := Flat();
      if position > size {
        size := position;
      }
      WriteView(flat, after, old(position), old(size), buf);
    }

    lemma AtNode()
      requires Linked() && Pointed() && position < capacity
      ensures baseSize >= 1 && cur != null && cur.size == baseSize
      ensures Offset(at, baseSize) <= position < Offset(at, baseSize) + baseSize
    {}

    /** The copying loop of a write, once there is room. */
    method WriteNodes(buf: seq<byte>)
      requires Linked() && Pointed() && |buf| > 0 && position + |buf| <= capacity
      modifies this`position, this`cur, this`at, Buffers(nodes)
      ensures Linked() && Pointed()
      ensures position == old(position) + |buf|
      ensures Flat() == Splice(old(Flat()), old(position), buf)
    {
      hide Splice, Flat, Linked, Pointed, NodeOffset;
      ghost var flat, start := Flat(), position;
      SpliceEmpty(flat, start);
      assert buf[..0] == [] && buf[..|buf|] == buf;
      var n := |buf|;
      AtNode();
      var npos := NodeOffset(position, at);
      var ncap := cur.size - npos;
      var bpos := 0;
      while n > 0
        invariant Linked() && Pointed()
        invariant 0 <= n && 0 <= bpos && bpos + n == |buf|
        invariant position == start + bpos && position + n <= capacity == |flat|
        invariant n > 0 ==> position == Offset(at, baseSize) + npos && 0 <= npos < baseSize && ncap == baseSize - npos
        invariant Flat() == Splice(flat, start, buf[..bpos])
      {
        if ncap >= n {
          PutPiece(npos, buf, bpos, n, flat, start);
          bpos := bpos + n;
          n := 0;
        } else {
          PutPiece(npos, buf, bpos, ncap, flat, start);
          bpos := bpos + ncap;
          n := n - ncap;
          AtNode();
          ncap := cur.size;
          npos := 0;
        }
      }
    }

    /** The next `n` bytes of a buffer whose first `i` are already in place. */
    method PutPiece(npos: nat, buf: seq<byte>, i: nat, n: nat, ghost flat: seq<byte>, ghost start: nat)
      requires Linked() && Pointed() && position < capacity
      requires position == Offset(at, baseSize) + npos && npos + n <= baseSize
      requires i + n <= |buf| && start + i + n <= |flat| && position == start + i
      requires Flat() == Splice(flat, start, buf[..i])
      modifies this`position, this`cur, this`at, Buffers(nodes)
      ensures Linked() && Pointed()
      ensures position == old(position) + n <= capacity
      ensures npos + n == baseSize && position < capacity ==> position == Offset(at, baseSize)
      ensures Flat() == Splice(flat, start, buf[..i + n])
    {
      hide Splice, Flat, Linked, Pointed;
      SpliceNext(flat, start, buf, i, i + n);
      Put(npos, buf[i..i + n]);
    }

    /** Copies a piece into the cursor's node and moves the cursor over it. */
    method Put(npos: nat, src: seq<byte>)
      requires Linked() && Pointed() && position < capacity
      requires position == Offset(at, baseSize) + npos && npos + |src| <= baseSize
      modifies this`position, this`cur, this`at, Buffers(nodes)
      ensures Linked() && Pointed()
      ensures position == old(position) + |src| <= capacity
      ensures npos + |src| == baseSize && position < capacity ==> position == Offset(at, baseSize)
      ensures Flat() == Splice(old(Flat()), old(position), src)
    {
      hide Splice, Flat;
      CopyIn(at, cur.ptr, npos, src);
      Step(npos, |src|);
    }

    static lemma WriteNothing(v: Content, buf: seq<byte>)
      requires v.Valid() && buf == []
      ensures v.Write(buf) == v
    {}

    static lemma WriteView(before: seq<byte>, after: seq<byte>, p: nat, z: nat, buf: seq<byte>)
      requires p <= z <= |before| && p + |buf| <= |before|
      requires after == Splice(before, p, buf)
      ensures var z' := if p + |buf| > z then p + |buf| else z;
              Content(after[..z'], p + |buf|) == Content(before[..z], p).Write(buf)
    {}

    /** Takes a piece of the cursor's node and moves the cursor over it. */
    method Take(npos: nat, n: nat) returns (piece: seq<byte>)
      requires Linked() && Pointed() && position < capacity
      requires position == Offset(at, baseSize) + npos && npos + n <= baseSize
      modifies this`position, this`cur, this`at
      ensures Linked() && Pointed()
      ensures position == old(position) + n <= capacity
      ensures npos + n == baseSize && position < capacity ==> position == Offset(at, baseSize)
      ensures Flat() == old(Flat()) && piece == Flat()[old(position)..position]
    {
      hide Flat;
      NodeBytes(at, npos, npos + n);
      piece := cur.ptr[npos..npos + n];
      Step(npos, n);
    }

    /**
      Reads at the cursor.  Asking for more than is unread throws and changes nothing.  The node is looked at
      before the count is, so reading nothing where there is no node follows a null pointer.
     */
    method Read(n: nat) returns (r: ReadOutcome)
      requires Valid()
      modifies this`position, this`cur, this`at
      ensures Valid()
      ensures r.OutOfRange? <==> n > |old(View()).Unread()|
      ensures r.NullNode? <==> n == 0 && old(position) == capacity
      ensures r.Bytes? ==> r.data == old(View()).Unread()[..n] && View() == old(View()).Advance(n)
      ensures !r.Bytes? ==> View() == old(View())
    {
      hide Flat, Shape;
      if n > GetReadSize() {
        return OutOfRange;
      }
      if cur == null {
        return NullNode;
      }
      ghost var flat := Flat();
      var data := ReadNodes(n);
      Cut(flat, old(position), size, n);
      r := Bytes(data);
    }

    /** The copying loop of a read. */
    method ReadNodes(n: nat) returns (data: seq<byte>)
      requires Linked() && Pointed() && position < capacity && position + n <= capacity
      modifies this`position, this`cur, this`at
      ensures Linked() && Pointed()
      ensures position == old(position) + n
      ensures Flat() == old(Flat()) && data == Flat()[old(position)..position]
    {
      hide Flat, Linked, Pointed, NodeOffset;
      var left := n;
      AtNode();
      var npos := NodeOffset(position, at);
      ghost var flat, start := Flat(), position;
      var ncap := cur.size - npos;
      data := [];
      while left > 0
        invariant Linked() && Pointed() && Flat() == flat
        invariant 0 <= left <= n && |data| + left == n
        invariant position == start + |data| && position + left <= capacity
        invariant left > 0 ==>
            position == Offset(at, baseSize) + npos && 0 <= npos < baseSize && ncap == baseSize - npos
        invariant data == flat[start..position]
      {
        if ncap >= left {
          var piece := Take(npos, left);
          data := data + piece;
          left := 0;
        } else {
          var piece := Take(npos, ncap);
          data := data + piece;
          left := left - ncap;
          AtNode();
          ncap := cur.size;
          npos := 0;
        }
      }
    }

    /** Moves the cursor anywhere up to the capacity; moving past the size mark extends it over what the nodes hold. */
    method SetPosition(v: nat) returns (ok: bool)
      requires Valid()
      modifies this`position, this`size, this`cur, this`at
      ensures Valid()
      ensures ok <==> v <= capacity
      ensures Flat() == old(Flat())
      ensures ok ==> View() == Content(Flat()[..if v > old(size) then v else old(size)], v)
      ensures !ok ==> View() == old(View())
    {
      hide Flat;
      if v > capacity {
        return false;
      }
      position := v;
      if position > size {
        size := position;
      }
      Seek();
      SameFlat();
      return true;
    }

    /** Finds the node that holds the position; exactly at a node's end that is the next one, or none. */
    method Seek()
      requires Linked() && position <= capacity
      modifies this`cur, this`at
      ensures Linked() && Pointed()
    {
      var left := Walk();
      OffsetMono(at, |nodes|, baseSize);
      if at + 1 < |nodes| {
        OffsetMono(at + 1, |nodes|, baseSize);
      }
      if left == cur.size {
        cur := cur.next;
        at := at + 1;
      }
    }

    /** Walks from the root until what is left fits into the node. */
    method Walk() returns (left: nat)
      requires Linked() && position <= capacity
      modifies this`cur, this`at
      ensures Linked() && at < |nodes| && cur == nodes[at]
      ensures left <= baseSize && Offset(at, baseSize) + left == position
    {
      left := position;
      cur := root;
      at := 0;
      while left > cur.size
        invariant Linked() && at < |nodes| && cur == nodes[at]
        invariant 0 <= left && Offset(at, baseSize) + left == position
        decreases left
      {
        left := left - cur.size;
        assert Offset(at + 1, baseSize) == Offset(at, baseSize) + baseSize;
        cur := cur.next;
        at := at + 1;
      }
    }

    /** Drops every node but the root. */
    method Clear()
      requires Valid()
      modifies this, root`next
      ensures Valid() && Grown()
      ensures View() == Content([], 0)
      ensures capacity == baseSize && order == old(order)
    {
      position := 0;
      size := 0;
      capacity := baseSize;
      cur := root;
      root.next := null;
      nodes := [root];
      at := 0;
    }

    // ----- reading without moving

    /** Where a positioned read really starts: the cursor's node, at the offset the position has in its own. */
    ghost function Reached(p: nat): nat
      requires baseSize >= 1
      reads this`at
    {
      Offset(at, baseSize) + p % baseSize
    }

    /** A positioned read starts where it was told to exactly when that lies in the cursor's node. */
    lemma ReachedExactly(p: nat)
      requires Valid() && position < capacity
      ensures Reached(p) == p <==> p / baseSize == position / baseSize
    {
      Locate(position, at, baseSize);
      SameChunk(p, at, baseSize);
    }

    /**
      Reads at a given position without moving.  The room left is computed in 64 bits, so it wraps for a
      position past the size mark; walking off the last node follows a null pointer.
     */
    method ReadAt(n: nat, p: nat) returns (r: ReadOutcome)
      requires Valid() && p < WORD && size < WORD
      ensures r.OutOfRange? <==> n > if p <= size then size - p else WORD + size - p
      ensures !r.OutOfRange? && position == capacity ==> r.NullNode?
      ensures !r.OutOfRange? && position < capacity ==>
                r == if Reached(p) + n <= capacity then Bytes(Flat()[Reached(p)..Reached(p) + n]) else NullNode
    {
      if n > (if p <= size then size - p else WORD + size - p) {
        return OutOfRange;
      }
      if cur == null {
        return NullNode;
      }
      var npos := Remainder(p, baseSize);
      r := ReadFrom(cur, at, npos, n);
    }

    /** The copying loop of a positioned read, from offset `from` of node `k`. */
    method ReadFrom(start: Node, ghost k: nat, from: nat, n: nat) returns (r: ReadOutcome)
      requires Linked() && k < |nodes| && start == nodes[k] && from < baseSize
      ensures var q := Offset(k, baseSize) + from;
              r == if q + n <= capacity then Bytes(Flat()[q..q + n]) else NullNode
    {
      hide Flat;
      var node, npos, ncap, left, data := start, from, start.size - from, n, [];
      ghost var j: nat, q: nat := k, Offset(k, baseSize) + from;
      OffsetMono(k, |nodes|, baseSize);
      while left > 0
        invariant j < |nodes| && node == nodes[j]
        invariant 0 <= left && 0 <= npos < baseSize && ncap == baseSize - npos
        invariant Offset(j, baseSize) + npos == q + |data| <= capacity || left == 0
        invariant |data| + left == n && q + |data| <= capacity
        invariant data == Flat()[q..q + |data|]
        decreases left
      {
        OffsetMono(j, |nodes|, baseSize);
        if ncap >= left {
          data := Extended(data, node, j, npos, left, q);
          left := 0;
        } else {
          data := Extended(data, node, j, npos, ncap, q);
          left := left - ncap;
          assert j < |nodes| - 1 ==> nodes[j].next == nodes[j + 1];
          if node.next == null {
            return NullNode;
          }
          node := node.next;
          j := j + 1;
          ncap := node.size;
          npos := 0;
        }
      }
      r := Bytes(data);
    }

    method Extended(data: seq<byte>, node: Node, ghost j: nat, npos: nat, n: nat, ghost q: nat)
        returns (more: seq<byte>)
      requires Linked() && j < |nodes| && node == nodes[j] && npos + n <= baseSize
      requires q + |data| == Offset(j, baseSize) + npos <= capacity && data == Flat()[q..q + |data|]
      ensures |more| == |data| + n && q + |more| <= capacity && more == Flat()[q..q + |more|]
    {
      hide Flat;
      NodeBytes(j, npos, npos + n);
      more := data + node.ptr[npos..npos + n];
      Join(Flat(), q, q + |data|, q + |data| + n);
    }

    /** The unread bytes; the cursor's own position is one a positioned read gets right. */
    method ToString() returns (str: seq<byte>)
      requires Valid() && size < WORD
      ensures str == View().Unread()
    {
      hide Flat;
      if GetReadSize() == 0 {
        return [];
      }
      ReachedExactly(position);
      var r := ReadAt(GetReadSize(), position);
      str := r.data;
    }

    // ----- scatter and gather

    /** The slices that cover `n` bytes from position `p` of node `k` on: one per node, the last one cut. */
    ghost function Plan(k: nat, p: nat, n: nat): (slices: seq<Slice>)
      requires Shape(nodes, baseSize) && baseSize >= 1
      requires n > 0 ==> k < |nodes| && Offset(k, baseSize) <= p < Offset(k, baseSize) + baseSize
      requires p + n <= Offset(|nodes|, baseSize)
      reads this`nodes
      decreases n
    {
      if n == 0 then [] else
        var off := p - Offset(k, baseSize);
        var room := baseSize - off;
        if room >= n then [Slice(nodes[k].ptr, off, n)]
        else
          assert k + 1 != |nodes|;
          [Slice(nodes[k].ptr, off, room)] + Plan(k + 1, p + room, n - room)
    }

    lemma PlanStep(k: nat, p: nat, n: nat)
      requires Shape(nodes, baseSize) && baseSize >= 1 && p + n <= Offset(|nodes|, baseSize)
      requires n > 0 && k < |nodes| && Offset(k, baseSize) <= p < Offset(k, baseSize) + baseSize
      ensures var off := p - Offset(k, baseSize); var room := baseSize - off;
              if room >= n then Plan(k, p, n) == [Slice(nodes[k].ptr, off, n)]
              else
                && k + 1 < |nodes|
                && Plan(k, p, n) == [Slice(nodes[k].ptr, off, room)] + Plan(k + 1, p + room, n - room)
    {
      assert k + 1 >= |nodes| ==> k + 1 == |nodes|;
    }

    /** The loop that lists the slices from the cursor on. */
    method CollectSlices(n: nat) returns (slices: seq<Slice>)
      requires Linked() && Pointed() && position + n <= capacity && n > 0
      ensures slices == Plan(at, position, n)
    {
      hide Flat, Plan;
      var left := n;
      var npos := NodeOffset(position, at);
      var ncap := cur.size - npos;
      var node: Node? := cur;
      slices := [];
      ghost var k, p := at, position;
      while left > 0
        invariant 0 <= left && 0 <= k && 0 <= p && p + left == position + n
        invariant left > 0 ==> k < |nodes| && node == nodes[k]
        invariant left > 0 ==> p == Offset(k, baseSize) + npos && 0 <= npos < baseSize && ncap == baseSize - npos
        invariant if left == 0 then slices == Plan(at, position, n)
                  else slices + Plan(k, p, left) == Plan(at, position, n)
      {
        PlanStep(k, p, left);
        if ncap >= left {
          slices := slices + [Slice(node.ptr, npos, left)];
          p := p + left;
          left := 0;
        } else {
          Regroup(slices, Slice(node.ptr, npos, ncap), Plan(k + 1, p + ncap, left - ncap));
          slices := slices + [Slice(node.ptr, npos, ncap)];
          left := left - ncap;
          p := p + ncap;
          assert nodes[k].next == nodes[k + 1];
          node := node.next;
          k := k + 1;
          ncap := node.size;
          npos := 0;
        }
      }
    }

    lemma {:induction false} PlanInBounds(k: nat, p: nat, n: nat)
      requires Shape(nodes, baseSize) && baseSize >= 1 && p + n <= Offset(|nodes|, baseSize)
      requires n > 0 ==> k < |nodes| && Offset(k, baseSize) <= p < Offset(k, baseSize) + baseSize
      ensures InBounds(Plan(k, p, n))
      decreases n
    {
      if n > 0 {
        var room := baseSize - (p - Offset(k, baseSize));
        if room < n {
          PlanInBounds(k + 1, p + room, n - room);
        }
      }
    }

    lemma OneSlice(k: nat, off: nat, n: nat)
      requires Linked() && k < |nodes| && off + n <= baseSize
      ensures Offset(k, baseSize) + off + n <= capacity
      ensures Slice(nodes[k].ptr, off, n).buf[off..off + n]
          == Flat()[Offset(k, baseSize) + off..Offset(k, baseSize) + off + n]
      ensures InBounds([Slice(nodes[k].ptr, off, n)])
      ensures Gather([Slice(nodes[k].ptr, off, n)]) == Flat()[Offset(k, baseSize) + off..Offset(k, baseSize) + off + n]
    {
      hide Flat;
      NodeBytes(k, off, off + n);
    }

    /** What the slices cover is the flat range itself. */
    lemma {:induction false} PlanGathers(k: nat, p: nat, n: nat)
      requires Linked() && p + n <= capacity
      requires n > 0 ==> k < |nodes| && Offset(k, baseSize) <= p < Offset(k, baseSize) + baseSize
      ensures InBounds(Plan(k, p, n))
      ensures Gather(Plan(k, p, n)) == Flat()[p..p + n]
      decreases n
    {
      hide Flat, InBounds, Gather;
      PlanInBounds(k, p, n);
      if n == 0 {
        GatherNone();
      } else {
        hide Plan;
        PlanStep(k, p, n);
        var off := p - Offset(k, baseSize);
        var room := baseSize - off;
        OneSlice(k, off, if room >= n then n else room);
        if room < n {
          PlanGathers(k + 1, p + room, n - room);
          GatherFirst(Slice(nodes[k].ptr, off, room), Plan(k + 1, p + room, n - room));
          Join(Flat(), p, p + room, p + n);
        }
      }
    }

    /** Lists the unread bytes, at most `len` of them, without copying. */
    method GetReadBuffers(len: nat) returns (slices: seq<Slice>, n: nat)
      requires Valid()
      ensures n == if len < |View().Unread()| then len else |View().Unread()|
      ensures InBounds(slices) && (slices == [] <==> n == 0)
      ensures Gather(slices) == View().Unread()[..n]
    {
      hide Flat, Shape;
      n := if GetReadSize() < len then GetReadSize() else len;
      slices := [];
      if n == 0 {
        return;
      }
      slices := CollectSlices(n);
      PlanGathers(at, position, n);
      Cut(Flat(), position, size, n);
    }

    /** Makes room for `len` bytes and lists where they go; nothing a caller can see changes. */
    method GetWriteBuffers(len: nat) returns (slices: seq<Slice>)
      requires Valid()
      modifies this, nodes
      ensures Valid() && Grown() && View() == old(View()) && order == old(order)
      ensures capacity - position >= len && (len > 0 ==> position < capacity)
      ensures slices == Plan(at, position, len) && (slices == [] <==> len == 0)
    {
      hide Flat, Shape;
      slices := [];
      if len == 0 {
        return;
      }
      Reserve(len);
      label reserved:
      slices := CollectSlices(len);
      SameFlat@reserved();
    }

    /** An outside writer fills slices in order with as many bytes as it has. */
    method Scatter(slices: seq<Slice>, data: seq<byte>, ghost k: nat, ghost p: nat, ghost n: nat)
      requires Linked() && |data| <= n && p + n <= capacity
      requires n > 0 ==> k < |nodes| && Offset(k, baseSize) <= p < Offset(k, baseSize) + baseSize
      requires slices == Plan(k, p, n)
      modifies Buffers(nodes)
      ensures Linked() && Flat() == Splice(old(Flat()), p, data)
      decreases |data|
    {
      hide Flat, Splice;
      if |data| == 0 {
        SpliceEmpty(Flat(), p);
        return;
      }
      var s := slices[0];
      if |data| <= s.len {
        CopyIn(k, s.buf, s.off, data);
      } else {
        ghost var flat := Flat();
        CopyIn(k, s.buf, s.off, data[..s.len]);
        Scatter(slices[1..], data[s.len..], k + 1, p + s.len, n - s.len);
        SpliceNext(flat, p, data, s.len, |data|);
        assert data[..|data|] == data && data[s.len..|data|] == data[s.len..];
      }
    }
  }

  ghost function SliceBuffers(slices: seq<Slice>): set<array<byte>>
  {
    set s | s in slices :: s.buf
  }

  ghost predicate InBounds(slices: seq<Slice>)
  {
    forall i :: 0 <= i < |slices| ==> slices[i].off + slices[i].len <= slices[i].buf.Length
  }

  /** The bytes a sequence of slices stands for. */
  ghost function Gather(slices: seq<Slice>): seq<byte>
    requires InBounds(slices)
    reads SliceBuffers(slices)
  {
    if slices == [] then []
    else slices[0].buf[slices[0].off..slices[0].off + slices[0].len] + Gather(slices[1..])
  }

  method Remainder(p: nat, b: nat) returns (r: nat)
    requires b > 0
    ensures r == p % b
  {
    r := p % b;
  }

  lemma Join(s: seq<byte>, a: nat, b: nat, c: nat)
    requires a <= b <= c <= |s|
    ensures s[a..b] + s[b..c] == s[a..c]
  {}

  lemma Cut(s: seq<byte>, p: nat, z: nat, n: nat)
    requires p + n <= z <= |s|
    ensures s[..z][p..][..n] == s[p..p + n]
  {}

  lemma Regroup(a: seq<Slice>, s: Slice, b: seq<Slice>)
    ensures a + ([s] + b) == (a + [s]) + b
  {}

  lemma GatherNone()
    ensures InBounds([]) && Gather([]) == []
  {}

  lemma GatherFirst(s: Slice, rest: seq<Slice>)
    requires s.off + s.len <= s.buf.Length && InBounds(rest)
    ensures InBounds([s] + rest)
    ensures Gather([s] + rest) == s.buf[s.off..s.off + s.len] + Gather(rest)
  {
    assert ([s] + rest)[1..] == rest;
  }

  // ----- inputs at which reading goes wrong

  lemma WriteFirst(file: seq<byte>)
    ensures Content([], 0).Write(file) == Content(file, |file|)
  {}

  /** Nothing is read from a full array of one byte with the cursor at its end: that follows a null pointer. */
  method ReadNothingAtEnd() returns (ba: ByteArray, r: ReadOutcome)
    ensures ba.Valid() && |ba.View().Unread()| == 0 && r.NullNode?
  {
    hide ByteArray.Flat, Shape;
    ba := new ByteArray(1);
    var ok := ba.SetPosition(1);
    r := ba.Read(0);
  }

  const EIGHT: seq<byte> := [1, 2, 3, 4, 5, 6, 7, 8]

  lemma FifthByte(flat: seq<byte>)
    requires |flat| >= 8 && flat[..8] == EIGHT
    ensures flat[4..5] == [5]
  {
    assert flat[4] == flat[..8][4];
  }

  /** The cursor is in the second node of four. */
  lemma SecondNode(ba: ByteArray)
    requires ba.Valid() && ba.baseSize == 4 && ba.position == 4 < ba.capacity
    ensures ba.Reached(0) == 4
  {
    Locate(4, ba.at, 4);
    assert Offset(1, 4) == 4 + Offset(0, 4);
  }

  /** Eight bytes in nodes of four, the cursor at the fifth: reading the first byte gives the fifth. */
  method ReadElsewhere() returns (ba: ByteArray, r: ReadOutcome)
    ensures ba.Valid() && ba.View().data == EIGHT && r == Bytes([5])
  {
    hide ByteArray.Flat, ByteArray.Pointed, ByteArray.Reached, Shape;
    ba := new ByteArray(4);
    ba.Write(EIGHT);
    WriteFirst(EIGHT);
    assert |ba.View().data| == ba.size == 8;
    ghost var flat := ba.Flat();
    FifthByte(flat);
    var ok := ba.SetPosition(4);
    SecondNode(ba);
    label moved:
    r := ba.ReadAt(1, 0);
    ba.SameFlat@moved();
  }
}
