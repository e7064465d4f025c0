/** The byte array against the outside: files and vectored socket input and output. */
module Streams {
  import opened Bits
  import opened Chunks
  import opened ByteArrays

  /** Dumping computes the length of each piece; a negative one breaks the stream, and a piece needs a node. */
  datatype DumpOutcome = Dumped(file: seq<byte>) | BadLength | NoNode

  /** When a dump is right: nothing unread, or a node-aligned cursor, or at least one node's worth unread. */
  predicate Dumpable(position: nat, unread: nat, baseSize: nat)
    requires baseSize >= 1
  {
    unread == 0 || position % baseSize == 0 || unread >= baseSize
  }

  /** Writes the unread bytes to a file, node by node; it is complete exactly when the cursor allows it. */
  method Dump(ba: ByteArray) returns (r: DumpOutcome)
    requires ba.Valid()
    ensures r.Dumped? <==> Dumpable(ba.position, ba.size - ba.position, ba.baseSize)
    ensures r.Dumped? ==> r.file == ba.View().Unread()
  {
    hide ByteArray.Flat, Dumpable, OffsetInNode, ByteArray.Linked, ByteArray.Pointed, Offset;
    StartNode(ba);
    var left, pos, node, file := ba.GetReadSize(), ba.position, ba.cur, [];
    ghost var b, n := ba.baseSize, |ba.nodes|;
    ghost var c: nat, j: nat := ba.at, ba.at;
    ghost var good := Dumpable(ba.position, left, b);
    ghost var flat := ba.Flat();
    DumpableInNode(pos, left, j, b);
    while left > 0
      invariant 0 <= left && pos + left == ba.size
      invariant c <= n && node == (if c < n then ba.nodes[c] else null)
      invariant left > 0 ==> Offset(j, b) <= pos < Offset(j, b) + b
      invariant good && left > 0 ==> j == c < n && (pos == Offset(c, b) || left >= b)
      invariant ba.Flat() == flat
      invariant good ==> ba.position <= pos && file == flat[ba.position..pos]
      invariant !good ==> 0 < left < b && Offset(j, b) < pos
      decreases n - c
    {
      var diff := OffsetInNode(pos, ba.baseSize, j);
      var len := (if left > ba.baseSize then ba.baseSize else left) - diff;
      if node == null {
        return NoNode;
      }
      if len < 0 {
        return BadLength;
      }
      AppendPiece(ba, file, node, c, diff, len, good, pos, flat);
      file := file + node.ptr[diff..diff + len];
      NextNode(ba, c);
      node := node.next;
      c := c + 1;
      pos := pos + len;
      left := left - len;
      if good && left > 0 {
        j := c;
        OffsetMono(c, n, b);
      }
    }
    Suffix(ba.Flat(), ba.position, ba.size);
    r := Dumped(file);
  }

  /** Seven bytes in nodes of four, read up to the fifth: the last two are never dumped. */
  method DumpShortTail() returns (ba: ByteArray, r: DumpOutcome)
    ensures ba.Valid() && |ba.View().Unread()| == 2 && !r.Dumped?
  {
    hide ByteArray.Flat, Shape;
    ba := new ByteArray(4);
    ba.Write([1, 2, 3, 4, 5, 6, 7]);
    var ok := ba.SetPosition(5);
    r := Dump(ba);
  }

  lemma StartNode(ba: ByteArray)
    requires ba.Valid()
    ensures ba.baseSize >= 1 && ba.at <= |ba.nodes| && ba.cur == (if ba.at < |ba.nodes| then ba.nodes[ba.at] else null)
    ensures ba.size <= ba.capacity == Offset(|ba.nodes|, ba.baseSize)
    ensures ba.position < ba.size ==>
              ba.at < |ba.nodes| && Offset(ba.at, ba.baseSize) <= ba.position < Offset(ba.at, ba.baseSize) + ba.baseSize
  {}

  lemma NextNode(ba: ByteArray, c: nat)
    requires ba.Valid() && c < |ba.nodes|
    ensures ba.nodes[c].next == (if c + 1 < |ba.nodes| then ba.nodes[c + 1] else null)
    ensures Offset(c + 1, ba.baseSize) == Offset(c, ba.baseSize) + ba.baseSize
  {
    assert c + 1 < |ba.nodes| ==> ba.nodes[c].next == ba.nodes[c + 1];
  }

  lemma DumpableInNode(pos: nat, left: nat, j: nat, b: nat)
    requires b > 0 && (left > 0 ==> Offset(j, b) <= pos < Offset(j, b) + b)
    ensures Dumpable(pos, left, b) <==> left == 0 || pos == Offset(j, b) || left >= b
  {
    if left > 0 {
      Locate(pos, j, b);
    }
  }

  function OffsetInNode(p: nat, b: nat, ghost j: nat): (diff: nat)
    requires b > 0 && Offset(j, b) <= p < Offset(j, b) + b
    ensures diff == p - Offset(j, b)
  {
    Locate(p, j, b);
    p % b
  }

  lemma AppendPiece(ba: ByteArray, file: seq<byte>, node: Node, c: nat, diff: nat, len: nat, good: bool, pos: nat,
      flat: seq<byte>)
    requires ba.Valid() && c < |ba.nodes| && node == ba.nodes[c] && diff + len <= ba.baseSize
    requires good ==> pos == Offset(c, ba.baseSize) + diff && ba.position <= pos <= ba.capacity
    requires ba.Flat() == flat && (good ==> file == flat[ba.position..pos])
    ensures diff + len <= node.ptr.Length
    ensures good ==> pos + len <= |flat| && file + node.ptr[diff..diff + len] == flat[ba.position..pos + len]
  {
    hide ByteArray.Flat;
    ba.NodeBytes(c, diff, diff + len);
    if good {
      Join(flat, ba.position, pos, pos + len);
    }
  }

  lemma Suffix(s: seq<byte>, p: nat, z: nat)
    requires p <= z <= |s|
    ensures s[p..z] == s[..z][p..]
  {}

  /** Appends a file at the cursor, a node's worth at a time, until a short read marks its end. */
  method Load(ba: ByteArray, file: seq<byte>)
    requires ba.Valid()
    modifies ba, ba.nodes, Buffers(ba.nodes)
    ensures ba.Valid() && ba.Grown() && ba.order == old(ba.order)
    ensures ba.View() == old(ba.View()).Write(file)
  {
    hide ByteArray.Flat, ByteArray.View, ByteArray.Pointed, Shape, Content.Write, Offset;
    var off, eof := 0, false;
    ghost var start := ba.View();
    WriteAll(start, file);
    while !eof
      invariant ba.Valid() && ba.Grown() && ba.order == old(ba.order)
      invariant 0 <= off <= |file| && (eof ==> off == |file|)
      invariant ba.View() == start.Write(file[..off])
      decreases |file| - off, !eof
    {
      var count := if |file| - off < ba.baseSize then |file| - off else ba.baseSize;
      eof := count < ba.baseSize;
      WriteMore(start, file, off, off + count);
      ba.Write(file[off..off + count]);
      off := off + count;
    }
  }

  lemma WriteAll(v: Content, file: seq<byte>)
    requires v.Valid()
    ensures v.Write(file[..0]) == v && file[..|file|] == file
  {
    assert v.data[..v.pos] + file[..0] + v.data[v.pos..] == v.data;
  }

  /** Writing a buffer piece by piece is writing it at once. */
  lemma WriteMore(v: Content, file: seq<byte>, i: nat, j: nat)
    requires v.Valid() && i <= j <= |file|
    ensures v.Write(file[..i]).Write(file[i..j]) == v.Write(file[..j])
  {
    assert file[..i] + file[i..j] == file[..j];
    var w := v.Write(file[..i]);
    assert w.data[..w.pos] == v.data[..v.pos] + file[..i];
    if v.pos + j <= |v.data| {
      assert w.data[w.pos + (j - i)..] == v.data[v.pos + j..];
    }
  }

  /** A dump that is complete, loaded into a fresh array of any node size, gives the same bytes back. */
  method Transfer(src: ByteArray, baseSize: nat) returns (ok: bool, dst: ByteArray)
    requires src.Valid() && baseSize >= 1
    ensures ok <==> Dumpable(src.position, src.size - src.position, src.baseSize)
    ensures fresh(dst) && dst.Valid() && dst.baseSize == baseSize
    ensures src.Valid() && src.View() == old(src.View())
    ensures ok ==> dst.View() == Content(src.View().Unread(), |src.View().Unread()|)
  {
    hide ByteArray.Flat, ByteArray.Linked, ByteArray.Pointed, Shape, Offset, Dumpable, Content.Write;
    dst := new ByteArray(baseSize);
    var r := Dump(src);
    label dumped:
    ok := r.Dumped?;
    if ok {
      Load(dst, r.file);
      WriteFirst(r.file);
    }
    src.SameFlat();
    src.SameFlat@dumped();
  }

  /** Vectored input and output takes the address of the first slice, whether or not there is one. */
  datatype Vectored = Moved | NoSlice

  /**
    Receiving into an array: room is made, the outside fills what it has of it, and the cursor moves over that.
    The result is what writing the received bytes would have given.  Receiving nothing looks at a slice that is not
    there.
   */
  method Receive(ba: ByteArray, length: nat, incoming: seq<byte>) returns (r: Vectored)
    requires ba.Valid() && |incoming| <= length
    modifies ba, ba.nodes, Buffers(ba.nodes)
    ensures ba.Valid() && ba.Grown() && ba.order == old(ba.order)
    ensures r.NoSlice? <==> length == 0
    ensures ba.View() == old(ba.View()).Write(incoming)
  {
    hide ByteArray.Flat, Splice, Shape, Content.Write, ByteArray.Plan;
    var slices := ba.GetWriteBuffers(length);
    if |slices| == 0 {
      WriteAll(ba.View(), incoming);
      return NoSlice;
    }
    ghost var before := ba.Flat();
    ba.Scatter(slices, incoming, ba.at, ba.position, length);
    ByteArray.WriteView(before, ba.Flat(), ba.position, ba.size, incoming);
    if |incoming| > 0 {
      var ok := ba.SetPosition(ba.position + |incoming|);
    }
    r := Moved;
  }

  /**
    Sending from an array: the outside takes the first `accepted` bytes of the slices it is offered, and the
    cursor moves over them.  What it takes is what reading would have given.  With nothing to send it looks at a slice
    that is not there.
   */
  method Send(ba: ByteArray, length: nat, accepted: nat) returns (r: Vectored, sent: seq<byte>)
    requires ba.Valid() && accepted <= length && accepted <= ba.size - ba.position
    modifies ba`position, ba`cur, ba`at, ba`size
    ensures ba.Valid()
    ensures r.NoSlice? <==> length == 0 || |old(ba.View()).Unread()| == 0
    ensures sent == old(ba.View()).Unread()[..accepted]
    ensures ba.View() == old(ba.View()).Advance(accepted)
  {
    hide ByteArray.Flat, ByteArray.Pointed, Shape, Offset;
    var slices, n := ba.GetReadBuffers(length);
    ba.SameFlat();
    if |slices| == 0 {
      return NoSlice, [];
    }
    sent := Drain(slices, accepted);
    ba.SameFlat();
    if accepted > 0 {
      var ok := ba.SetPosition(ba.position + accepted);
    }
    r := Moved;
  }

  /** The outside reads slices in order until it has as many bytes as it wants. */
  method Drain(slices: seq<Slice>, want: nat) returns (data: seq<byte>)
    requires InBounds(slices) && want <= |Gather(slices)|
    ensures data == old(Gather(slices)[..want])
  {
    if want == 0 {
      return [];
    }
    var s := slices[0];
    if want <= s.len {
      data := s.buf[s.off..s.off + want];
    } else {
      data := s.buf[s.off..s.off + s.len];
      var rest := Drain(slices[1..], want - s.len);
      data := data + rest;
    }
  }
}
