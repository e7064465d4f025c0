/** The typed writers and readers of the byte array. */
module Codec {
  import opened Options
  import opened Bits
  import opened Endian
  import opened ByteArrays
  import Varint
  import Zigzag

  /** A value together with the pair of functions that writes and reads it. */
  datatype Value =
    | Fint(w: nat, i: int)       // fixed width, signed: 1, 2, 4 or 8 bytes
    | Fuint(w: nat, u: nat)      // fixed width, unsigned
    | Vint(bits: nat, i: int)    // zigzag and seven-bit groups: 32 or 64 bits
    | Vuint(bits: nat, u: nat)   // seven-bit groups
    | Float(u: nat)              // bit pattern of a float
    | Double(u: nat)             // bit pattern of a double
    | Str(w: nat, s: seq<byte>)  // a length of 2, 4 or 8 bytes, then the bytes

  datatype Kind = KFint(w: nat) | KFuint(w: nat) | KVint(bits: nat) | KVuint(bits: nat) | KFloat | KDouble
      | KStr(w: nat)

  predicate FixedWidth(w: nat) { w == 1 || w == 2 || w == 4 || w == 8 }

  predicate KindOk(k: Kind)
  {
    match k
    case KFint(w) => FixedWidth(w)
    case KFuint(w) => FixedWidth(w)
    case KVint(bits) => bits == 32 || bits == 64
    case KVuint(bits) => bits == 32 || bits == 64
    case KFloat => true
    case KDouble => true
    case KStr(w) => w == 2 || w == 4 || w == 8
  }

  function KindOf(v: Value): Kind
  {
    match v
    case Fint(w, _) => KFint(w)
    case Fuint(w, _) => KFuint(w)
    case Vint(bits, _) => KVint(bits)
    case Vuint(bits, _) => KVuint(bits)
    case Float(_) => KFloat
    case Double(_) => KDouble
    case Str(w, _) => KStr(w)
  }

  /** The value is one of the C++ parameter's type. */
  predicate Typed(v: Value)
  {
    KindOk(KindOf(v)) &&
    match v
    case Fint(w, i) => IsSigned(i, 8 * w)
    case Fuint(w, u) => u < Pow2(8 * w)
    case Vint(bits, i) => IsSigned(i, bits)
    case Vuint(bits, u) => u < Pow2(bits)
    case Float(u) => u < Pow2(32)
    case Double(u) => u < Pow2(64)
    case Str(_, _) => true
  }

  /** The length field can hold the length. */
  predicate Fits(v: Value)
  {
    v.Str? ==> |v.s| < Pow2(8 * v.w)
  }

  // ----- what is written, as a function of value, array order and host order

  function Image(v: Value, order: Order, host: Order): seq<byte>
    requires Typed(v)
  {
    match v
    case Fint(w, i) => Written(ToUnsigned(i, 8 * w), w, order, host)
    case Fuint(w, u) => Written(u, w, order, host)
    case Vint(bits, i) => Varint.Encode(Zigzag.Encode(i, bits))
    case Vuint(bits, u) => Varint.Encode(u)
    case Float(u) => Written(u, 4, order, host)
    case Double(u) => Written(u, 8, order, host)
    case Str(w, s) => Written(Truncate(|s|, w), w, order, host) + s
  }

  /** Conversion of a length to an unsigned word of w bytes. */
  function Truncate(n: nat, w: nat): (r: nat)
    ensures r < Pow2(8 * w) && r <= n
    ensures r == n <==> n < Pow2(8 * w)
  {
    ModSmall(n, Pow2(8 * w));
    n % Pow2(8 * w)
  }

  lemma ModSmall(n: nat, m: nat)
    requires m > 0
    ensures n % m <= n && (n % m == n <==> n < m)
  {
    if n < m {
      DivModUnique(n, m, 0, n);
    } else {
      assert n == (n / m) * m + n % m;
    }
  }

  function Images(vs: seq<Value>, order: Order, host: Order): seq<byte>
    requires forall i :: 0 <= i < |vs| ==> Typed(vs[i])
  {
    if vs == [] then [] else Image(vs[0], order, host) + Images(vs[1..], order, host)
  }

  // ----- what a reader does with the unread bytes

  /** A reader returns a value, or throws; either way it has moved over `used` bytes. */
  datatype Parse = Parsed(value: Value, used: nat) | Throws(used: nat)

  function ReadAs(k: Kind, bs: seq<byte>, order: Order, host: Order): (r: Parse)
    requires KindOk(k)
    ensures r.used <= |bs|
    ensures r.Parsed? ==> Typed(r.value) && KindOf(r.value) == k
  {
    match k
    case KFint(w) =>
      if |bs| < w then Throws(0) else
        ReadBackIsWireOrder(bs[..w], order, host);
        Parsed(Fint(w, ToSigned(ReadBack(bs[..w], order, host), 8 * w)), w)
    case KFuint(w) =>
      if |bs| < w then Throws(0) else
        ReadBackIsWireOrder(bs[..w], order, host);
        Parsed(Fuint(w, ReadBack(bs[..w], order, host)), w)
    case KFloat =>
      if |bs| < 4 then Throws(0) else
        ReadBackIsWireOrder(bs[..4], order, host);
        Parsed(Float(ReadBack(bs[..4], order, host)), 4)
    case KDouble =>
      if |bs| < 8 then Throws(0) else
        ReadBackIsWireOrder(bs[..8], order, host);
        Parsed(Double(ReadBack(bs[..8], order, host)), 8)
    case KVuint(bits) =>
      (match Varint.ScanFrom(bs, 0, 0, bits)
       case Short => Throws(|bs|)
       case Done(u, used) =>
         ScanBound(bs, 0, 0, bits);
         Parsed(Vuint(bits, u), used))
    case KVint(bits) =>
      (match Varint.ScanFrom(bs, 0, 0, bits)
       case Short => Throws(|bs|)
       case Done(u, used) =>
         ScanBound(bs, 0, 0, bits);
         Zigzag.DecodeValue(u, bits);
         Parsed(Vint(bits, Zigzag.Decode(u, bits)), used))
    case KStr(w) =>
      if |bs| < w then Throws(0) else
        var n := ReadBack(bs[..w], order, host);
        if |bs| < w + n then Throws(w) else Parsed(Str(w, bs[w..w + n]), w + n)
  }

  lemma {:induction false} ScanBound(bs: seq<byte>, i: nat, acc: nat, bits: nat)
    requires acc < Pow2(bits) && i <= |bs|
    ensures var r := Varint.ScanFrom(bs, i, acc, bits);
            r.Done? ==> r.value < Pow2(bits) && r.used <= |bs|
    decreases |bs| - i
  {
    if i < Varint.MaxGroups(bits) && i < |bs| && bs[i] >= 128 {
      ScanBound(bs, i + 1, Varint.Merge(acc, bs[i], i, bits), bits);
    }
  }

  // ----- the format

  /** The number bytes denote in the array's order. */
  function Denotes(order: Order, bs: seq<byte>): nat
  {
    if order == Little then FromLittle(bs) else FromBig(bs)
  }

  lemma WordOnWire(u: nat, w: nat, order: Order, host: Order)
    requires u < Pow2(8 * w)
    ensures |Written(u, w, order, host)| == w && Denotes(order, Written(u, w, order, host)) == u
  {
    WrittenIsWireOrder(u, w, order, host);
    FixedRoundTrip(u, w, order, host, host);
    ReadBackIsWireOrder(Written(u, w, order, host), order, host);
  }

  /**
    The bytes of each kind of value, whatever host writes them: fixed-width words in the array's order, in two's
    complement when signed, 4 and 8 bytes for floats; variable-length ones as groups of their value, zigzag when signed;
    and a string's length, as much of it as fits its field, before its bytes.
   */
  lemma WireFormat(v: Value, order: Order, host: Order)
    requires Typed(v)
    ensures var bs := Image(v, order, host);
            match v
            case Fint(w, i) => |bs| == w && Denotes(order, bs) == if i >= 0 then i else i + Pow2(8 * w)
            case Fuint(w, u) => |bs| == w && Denotes(order, bs) == u
            case Float(u) => |bs| == 4 && Denotes(order, bs) == u
            case Double(u) => |bs| == 8 && Denotes(order, bs) == u
            case Vuint(_, u) => Varint.WellFormed(bs) && Varint.Value(bs) == u
            case Vint(_, i) => Varint.WellFormed(bs) && Varint.Value(bs) == if i >= 0 then 2 * i else -2 * i - 1
            case Str(w, s) =>
              |bs| == w + |s| && Denotes(order, bs[..w]) == |s| % Pow2(8 * w) && bs[w..] == s
  {
    hide Written, Pow2, Varint.Encode, Zigzag.Encode, Denotes, Varint.WellFormed, Varint.Value;
    match v
    case Fint(w, i) => WordOnWire(ToUnsigned(i, 8 * w), w, order, host);
    case Fuint(w, u) => WordOnWire(u, w, order, host);
    case Float(u) => WordOnWire(u, 4, order, host);
    case Double(u) => WordOnWire(u, 8, order, host);
    case Vuint(bits, u) => Varint.EncodeDenotes(u);
    case Vint(bits, i) =>
      Zigzag.EncodeValue(i, bits);
      Varint.EncodeDenotes(Zigzag.Encode(i, bits));
    case Str(w, s) =>
      var n := Truncate(|s|, w);
      WordOnWire(n, w, order, host);
      assert Image(v, order, host)[..w] == Written(n, w, order, host);
  }

  // ----- reading undoes writing

  /**
    The matching reader gets the value back from its image, whatever follows and whatever hosts wrote and read
    it, exactly when the length field could hold the length.
   */
  lemma RoundTrip(v: Value, rest: seq<byte>, order: Order, writer: Order, reader: Order)
    requires Typed(v)
    ensures Fits(v) <==> ReadAs(KindOf(v), Image(v, order, writer) + rest, order, reader)
                         == Parsed(v, |Image(v, order, writer)|)
    ensures var p := ReadAs(KindOf(v), Image(v, order, writer) + rest, order, reader);
            Fits(v) <==> p.Parsed? && p.value == v
  {
    hide Written, ReadBack, Varint.ScanFrom, Varint.Encode, Zigzag.Encode, Zigzag.Decode, Truncate, Pow2;
    var image := Image(v, order, writer);
    var bs := image + rest;
    match v
    case Fint(w, i) =>
      assert bs[..w] == image;
      FixedRoundTrip(ToUnsigned(i, 8 * w), w, order, writer, reader);
    case Fuint(w, u) =>
      assert bs[..w] == image;
      FixedRoundTrip(u, w, order, writer, reader);
    case Float(u) =>
      assert bs[..4] == image;
      FixedRoundTrip(u, 4, order, writer, reader);
    case Double(u) =>
      assert bs[..8] == image;
      FixedRoundTrip(u, 8, order, writer, reader);
    case Vuint(bits, u) =>
      Varint.SelfDelimiting(u, rest, bits);
    case Vint(bits, i) =>
      Zigzag.Bijection(i, 0, bits);
      Varint.SelfDelimiting(Zigzag.Encode(i, bits), rest, bits);
    case Str(w, s) =>
      StringRoundTrip(w, s, rest, order, writer, reader);
  }

  lemma StringRoundTrip(w: nat, s: seq<byte>, rest: seq<byte>, order: Order, writer: Order, reader: Order)
    requires Typed(Str(w, s))
    ensures ReadAs(KStr(w), Image(Str(w, s), order, writer) + rest, order, reader)
         == Parsed(Str(w, s[..Truncate(|s|, w)]), w + Truncate(|s|, w))
    ensures s[..Truncate(|s|, w)] == s <==> |s| < Pow2(8 * w)
  {
    hide Written, ReadBack, Pow2;
    var n := Truncate(|s|, w);
    FixedRoundTrip(n, w, order, writer, reader);
    var bs := Image(Str(w, s), order, writer) + rest;
    assert bs[..w] == Written(n, w, order, writer);
    assert bs[w..w + n] == s[..n];
  }

  /** A string one byte longer than a 16-bit length can say comes back empty. */
  lemma LongStringComesBackEmpty(s: seq<byte>, order: Order, writer: Order, reader: Order)
    requires |s| == 0x10000
    ensures Typed(Str(2, s))
    ensures ReadAs(KStr(2), Image(Str(2, s), order, writer), order, reader) == Parsed(Str(2, []), 2)
  {
    hide Image, ReadAs;
    Pow16();
    StringRoundTrip(2, s, [], order, writer, reader);
    assert Image(Str(2, s), order, writer) + [] == Image(Str(2, s), order, writer);
  }

  lemma Pow16()
    ensures Pow2(16) == 0x10000
  {
    assert Pow2(4) == 16;
    assert Pow2(8) == 256;
    assert Pow2(12) == 4096;
  }

  // ----- mixed lists

  predicate AllTyped(vs: seq<Value>)
  {
    forall i :: 0 <= i < |vs| ==> Typed(vs[i])
  }

  predicate AllFit(vs: seq<Value>)
  {
    forall i :: 0 <= i < |vs| ==> Fits(vs[i])
  }

  function Kinds(vs: seq<Value>): (ks: seq<Kind>)
    ensures |ks| == |vs|
  {
    if vs == [] then [] else [KindOf(vs[0])] + Kinds(vs[1..])
  }

  /** The values read in turn until one throws, and how many bytes were moved over. */
  datatype Batch = Batch(values: seq<Value>, used: nat, complete: bool)

  function ReadAll(ks: seq<Kind>, bs: seq<byte>, order: Order, host: Order): (b: Batch)
    requires forall i :: 0 <= i < |ks| ==> KindOk(ks[i])
    ensures b.used <= |bs|
  {
    if ks == [] then Batch([], 0, true) else
      var p := ReadAs(ks[0], bs, order, host);
      if p.Throws? then Batch([], p.used, false) else
        var rest := ReadAll(ks[1..], bs[p.used..], order, host);
        Batch([p.value] + rest.values, p.used + rest.used, rest.complete)
  }

  lemma {:induction false} KindsOk(vs: seq<Value>)
    requires AllTyped(vs)
    ensures forall i :: 0 <= i < |vs| ==> Kinds(vs)[i] == KindOf(vs[i]) && KindOk(Kinds(vs)[i])
  {
    if vs != [] {
      KindsOk(vs[1..]);
    }
  }

  /** The bytes of a list: the first value's, then the rest's. */
  lemma ImagesSplit(vs: seq<Value>, rest: seq<byte>, order: Order, writer: Order)
    requires AllTyped(vs) && vs != []
    ensures var image, after := Image(vs[0], order, writer), Images(vs[1..], order, writer) + rest;
            && Images(vs, order, writer) + rest == image + after && (image + after)[|image|..] == after
            && |Images(vs, order, writer)| == |image| + |Images(vs[1..], order, writer)|
  {
    hide Image;
  }

  /** How one more value in front changes what is read. */
  lemma ReadOneMore(vs: seq<Value>, bs: seq<byte>, p: Parse, order: Order, reader: Order)
    requires AllTyped(vs) && vs != [] && p == ReadAs(KindOf(vs[0]), bs, order, reader)
    requires forall i :: 0 <= i < |vs| ==> KindOk(Kinds(vs)[i])
    requires forall i :: 0 <= i < |vs| - 1 ==> KindOk(Kinds(vs[1..])[i])
    ensures ReadAll(Kinds(vs), bs, order, reader) ==
              if p.Throws? then Batch([], p.used, false) else
                var b := ReadAll(Kinds(vs[1..]), bs[p.used..], order, reader);
                Batch([p.value] + b.values, p.used + b.used, b.complete)
  {
    hide ReadAs;
    assert Kinds(vs)[1..] == Kinds(vs[1..]);
  }

  lemma FitMore(vs: seq<Value>)
    requires vs != []
    ensures AllFit(vs) <==> Fits(vs[0]) && AllFit(vs[1..])
  {
    assert forall i :: 0 <= i < |vs| - 1 ==> vs[1..][i] == vs[i + 1];
  }

  /** The whole list comes back, leaving exactly what follows it, if and only if every length field was wide enough. */
  lemma {:induction false} ListRoundTrip(vs: seq<Value>, rest: seq<byte>, order: Order, writer: Order, reader: Order)
    requires AllTyped(vs)
    ensures forall i :: 0 <= i < |vs| ==> KindOk(Kinds(vs)[i])
    ensures var b := ReadAll(Kinds(vs), Images(vs, order, writer) + rest, order, reader);
            && (AllFit(vs) ==> b == Batch(vs, |Images(vs, order, writer)|, true))
            && (AllFit(vs) <==> b.complete && b.values == vs)
  {
    hide ReadAs, Image, Fits;
    KindsOk(vs);
    if vs != [] {
      hide ReadAll, Kinds, Images, AllFit;
      var bs, after := Images(vs, order, writer) + rest, Images(vs[1..], order, writer) + rest;
      ImagesSplit(vs, rest, order, writer);
      RoundTrip(vs[0], after, order, writer, reader);
      ListRoundTrip(vs[1..], rest, order, writer, reader);
      ReadOneMore(vs, bs, ReadAs(KindOf(vs[0]), bs, order, reader), order, reader);
      FitMore(vs);
      assert vs == [vs[0]] + vs[1..];
    }
  }

  // ----- the writers and readers themselves

  /** A fixed-width word: swapped when the orders differ, then its memory copied in. */
  method WriteWord(ba: ByteArray, u: nat, w: nat, host: Order)
    requires ba.Valid() && FixedWidth(w)
    modifies ba, ba.nodes, Buffers(ba.nodes)
    ensures ba.Valid() && ba.Grown() && ba.order == old(ba.order)
    ensures ba.View() == old(ba.View()).Write(Written(u, w, ba.order, host))
  {
    hide ByteArray.View, Content.Write, Shape;
    var value := u;
    if w > 1 {
      if ba.order != host {
        value := Swap(value, w);
      }
    } else {
      OneByte(u);
    }
    ba.Write(Store(value, w, host));
  }

  lemma OneByte(u: nat)
    ensures forall host :: Written(u, 1, Little, host) == Written(u, 1, Big, host) == Store(u, 1, host)
  {
    forall host ensures Written(u, 1, Little, host) == Written(u, 1, Big, host) == Store(u, 1, host) {
      WrittenIsWireOrder(u, 1, Little, host);
      WrittenIsWireOrder(u, 1, Big, host);
      assert LittleBytes(u, 1) == [u % 256] + LittleBytes(u / 256, 0);
      assert BigBytes(u, 1) == BigBytes(u / 256, 0) + [u % 256];
    }
  }

  /** Seven-bit groups collected in a buffer of 5 or 10 bytes. */
  method WriteGroups(ba: ByteArray, u: nat, bits: nat)
    requires ba.Valid() && bits > 0 && u < Pow2(bits)
    modifies ba, ba.nodes, Buffers(ba.nodes)
    ensures ba.Valid() && ba.Grown() && ba.order == old(ba.order)
    ensures ba.View() == old(ba.View()).Write(Varint.Encode(u))
  {
    hide ByteArray.View, ByteArray.Flat, Content.Write, Shape;
    ghost var start := ba.View();
    var groups := Groups(u, bits);
    assert ba.View() == start by {
      ba.SameFlat();
    }
    ba.Write(groups);
  }

  /** The next group of a value that has more than one, or its last. */
  lemma EncodeStep(value: nat)
    ensures value >= 0x80 ==> Or(And(value, 0x7F), 0x80) < 256
    ensures Varint.Encode(value) == if value < 0x80 then [value]
                                    else [Or(And(value, 0x7F), 0x80)] + Varint.Encode(value / 128)
  {
    hide And, Or;
    Varint.GroupByte(value);
  }

  method Groups(u: nat, bits: nat) returns (groups: seq<byte>)
    requires bits > 0 && u < Pow2(bits)
    ensures groups == Varint.Encode(u)
  {
    hide Varint.Encode, Varint.MaxGroups, Pow2, And, Or;
    Varint.FitsBuffer(u, bits);
    var tmp := new byte[Varint.MaxGroups(bits)];
    var i, value := 0, u;
    while value >= 0x80
      invariant 0 <= i && i + |Varint.Encode(value)| == |Varint.Encode(u)| <= tmp.Length
      invariant tmp[..i] + Varint.Encode(value) == Varint.Encode(u)
      decreases value
    {
      EncodeStep(value);
      tmp[i] := Or(And(value, 0x7F), 0x80);
      assert tmp[..i + 1] == tmp[..i] + [tmp[i]];
      i := i + 1;
      value := value / 128;
    }
    EncodeStep(value);
    tmp[i] := value;
    assert tmp[..i + 1] == tmp[..i] + [tmp[i]];
    i := i + 1;
    groups := tmp[..i];
  }

  method WriteValue(ba: ByteArray, v: Value, host: Order)
    requires ba.Valid() && Typed(v)
    modifies ba, ba.nodes, Buffers(ba.nodes)
    ensures ba.Valid() && ba.Grown() && ba.order == old(ba.order)
    ensures ba.View() == old(ba.View()).Write(Image(v, ba.order, host))
  {
    hide ByteArray.View, Content.Write, Shape, Written, Varint.Encode, Zigzag.Encode, Pow2, Truncate;
    match v
    case Fint(w, i) => WriteWord(ba, ToUnsigned(i, 8 * w), w, host);
    case Fuint(w, u) => WriteWord(ba, u, w, host);
    case Vint(bits, i) => WriteGroups(ba, Zigzag.Encode(i, bits), bits);
    case Vuint(bits, u) => WriteGroups(ba, u, bits);
    case Float(u) => WriteWord(ba, u, 4, host);
    case Double(u) => WriteWord(ba, u, 8, host);
    case Str(w, s) =>
      ghost var start := ba.View();
      WriteWord(ba, Truncate(|s|, w), w, host);
      ba.Write(s);
      WriteJoin(start, Written(Truncate(|s|, w), w, ba.order, host), s);
  }

  lemma WriteJoin(v: Content, a: seq<byte>, b: seq<byte>)
    requires v.Valid()
    ensures v.Write(a).Write(b) == v.Write(a + b)
  {
    var w := v.Write(a);
    assert w.data[..w.pos] == v.data[..v.pos] + a;
    if v.pos + |a| + |b| <= |v.data| {
      assert w.data[w.pos + |b|..] == v.data[v.pos + |a| + |b|..];
    }
  }

  /** A fixed-width word: its memory copied out, then swapped when the orders differ. */
  method ReadWord(ba: ByteArray, w: nat, host: Order) returns (r: Option<nat>)
    requires ba.Valid() && FixedWidth(w)
    modifies ba`position, ba`cur, ba`at
    ensures ba.Valid()
    ensures var unread := old(ba.View()).Unread();
            if |unread| < w then r == None && ba.View() == old(ba.View())
            else r == Some(ReadBack(unread[..w], ba.order, host)) && ba.View() == old(ba.View()).Advance(w)
  {
    hide ByteArray.View, Shape;
    var got := ba.Read(w);
    if !got.Bytes? {
      return None;
    }
    var value := Load(got.data, host);
    if w > 1 {
      if ba.order != host {
        value := Swap(value, w);
      }
    } else {
      OneByteBack(got.data);
    }
    r := Some(value);
  }

  lemma OneByteBack(bs: seq<byte>)
    requires |bs| == 1
    ensures forall order, host :: ReadBack(bs, order, host) == Load(bs, host) == bs[0]
  {
    assert bs[1..] == [] && bs[..|bs| - 1] == [];
    assert FromLittle(bs) == bs[0] + 256 * FromLittle([]) && FromBig(bs) == bs[0] + 256 * FromBig([]);
    forall order, host ensures ReadBack(bs, order, host) == Load(bs, host) == bs[0] {
      ReadBackIsWireOrder(bs, order, host);
    }
  }

  /** Seven-bit groups, one byte at a time; running out of bytes throws after all of them are consumed. */
  method ReadGroups(ba: ByteArray, bits: nat, host: Order) returns (r: Option<nat>)
    requires ba.Valid() && bits > 0
    modifies ba`position, ba`cur, ba`at
    ensures ba.Valid()
    ensures var unread := old(ba.View()).Unread();
            match Varint.ScanFrom(unread, 0, 0, bits)
            case Short => r == None && ba.View() == old(ba.View()).Advance(|unread|)
            case Done(u, used) => r == Some(u) && used <= |unread| && ba.View() == old(ba.View()).Advance(used)
  {
    hide ByteArray.View, Shape, Varint.Merge, ReadBack;
    ghost var start := ba.View();
    ghost var unread := start.Unread();
    var acc, i := 0, 0;
    while i < Varint.MaxGroups(bits)
      invariant ba.Valid() && 0 <= i <= |unread| && 0 <= acc < Pow2(bits)
      invariant ba.View() == start.Advance(i)
      invariant Varint.ScanFrom(unread, i, acc, bits) == Varint.ScanFrom(unread, 0, 0, bits)
    {
      var b := ReadWord(ba, 1, host);
      if b.None? {
        return None;
      }
      SingleByte(unread[i..], ba.order, host);
      acc := Varint.Merge(acc, b.value, i, bits);
      i := i + 1;
      if b.value < 0x80 {
        break;
      }
    }
    r := Some(acc);
  }

  lemma SingleByte(bs: seq<byte>, order: Order, host: Order)
    requires |bs| > 0
    ensures ReadBack(bs[..1], order, host) == bs[0]
  {
    OneByteBack(bs[..1]);
  }

  datatype Got = Got(value: Value) | Thrown

  /** Each reader does to the array what `ReadAs` says of its unread bytes. */
  method ReadValue(ba: ByteArray, k: Kind, host: Order) returns (r: Got)
    requires ba.Valid() && KindOk(k)
    modifies ba`position, ba`cur, ba`at
    ensures ba.Valid()
    ensures var p := ReadAs(k, old(ba.View()).Unread(), ba.order, host);
            ba.View() == old(ba.View()).Advance(p.used) && r == if p.Parsed? then Got(p.value) else Thrown
  {
    hide ByteArray.View, Shape, ReadBack, Varint.ScanFrom, Zigzag.Decode, Pow2;
    ghost var start := ba.View();
    match k
    case KFint(w) =>
      ReadBounds(start.Unread(), w, ba.order, host);
      var u := ReadWord(ba, w, host);
      r := if u.None? then Thrown else Got(Fint(w, ToSigned(u.value, 8 * w)));
    case KFuint(w) =>
      var u := ReadWord(ba, w, host);
      r := if u.None? then Thrown else Got(Fuint(w, u.value));
    case KFloat =>
      var u := ReadWord(ba, 4, host);
      r := if u.None? then Thrown else Got(Float(u.value));
    case KDouble =>
      var u := ReadWord(ba, 8, host);
      r := if u.None? then Thrown else Got(Double(u.value));
    case KVuint(bits) =>
      var u := ReadGroups(ba, bits, host);
      r := if u.None? then Thrown else Got(Vuint(bits, u.value));
    case KVint(bits) =>
      ScanBound(start.Unread(), 0, 0, bits) by { assert Pow2(bits) > 0; }
      var u := ReadGroups(ba, bits, host);
      r := if u.None? then Thrown else Got(Vint(bits, Zigzag.Decode(u.value, bits)));
    case KStr(w) =>
      r := ReadString(ba, w, host);
  }

  lemma ReadBounds(bs: seq<byte>, w: nat, order: Order, host: Order)
    ensures |bs| >= w ==> ReadBack(bs[..w], order, host) < Pow2(8 * w)
  {
    if |bs| >= w {
      ReadBackIsWireOrder(bs[..w], order, host);
    }
  }

  lemma UnreadSlice(v: Content, w: nat, n: nat)
    requires v.Valid() && w + n <= |v.Unread()|
    ensures v.data[v.pos + w..][..n] == v.Unread()[w..w + n]
  {}

  method ReadString(ba: ByteArray, w: nat, host: Order) returns (r: Got)
    requires ba.Valid() && KindOk(KStr(w))
    modifies ba`position, ba`cur, ba`at
    ensures ba.Valid()
    ensures var p := ReadAs(KStr(w), old(ba.View()).Unread(), ba.order, host);
            ba.View() == old(ba.View()).Advance(p.used) && r == if p.Parsed? then Got(p.value) else Thrown
  {
    hide ByteArray.View, ByteArray.Linked, ByteArray.Pointed, Shape, ReadBack, Pow2;
    ghost var start := ba.View();
    var n := ReadWord(ba, w, host);
    if n.None? {
      return Thrown;
    }
    var buff := [];
    if n.value > 0 {
      var got := ba.Read(n.value);
      if !got.Bytes? {
        return Thrown;
      }
      buff := got.data;
    }
    UnreadSlice(start, w, n.value);
    r := Got(Str(w, buff));
  }

  method WriteValues(ba: ByteArray, vs: seq<Value>, host: Order)
    requires ba.Valid() && AllTyped(vs)
    modifies ba, ba.nodes, Buffers(ba.nodes)
    ensures ba.Valid() && ba.Grown() && ba.order == old(ba.order)
    ensures ba.View() == old(ba.View()).Write(Images(vs, ba.order, host))
  {
    hide ByteArray.View, ByteArray.Linked, ByteArray.Pointed, Content.Write, Shape, Image, Typed;
    ghost var start := ba.View();
    if vs == [] {
      ByteArray.WriteNothing(start, []);
      return;
    }
    WriteValue(ba, vs[0], host);
    WriteValues(ba, vs[1..], host);
    WriteJoin(start, Image(vs[0], ba.order, host), Images(vs[1..], ba.order, host));
  }

  method ReadValues(ba: ByteArray, ks: seq<Kind>, host: Order) returns (values: seq<Value>, complete: bool)
    requires ba.Valid() && forall i :: 0 <= i < |ks| ==> KindOk(ks[i])
    modifies ba`position, ba`cur, ba`at
    ensures ba.Valid()
    ensures var b := ReadAll(ks, old(ba.View()).Unread(), ba.order, host);
            ba.View() == old(ba.View()).Advance(b.used) && values == b.values && complete == b.complete
  {
    hide ByteArray.View, Shape, ReadAs, KindOk;
    if ks == [] {
      return [], true;
    }
    ghost var start := ba.View();
    var got := ReadValue(ba, ks[0], host);
    if got.Thrown? {
      return [], false;
    }
    ghost var used := ReadAs(ks[0], start.Unread(), ba.order, host).used;
    assert start.Advance(used).Unread() == start.Unread()[used..];
    values, complete := ReadValues(ba, ks[1..], host);
    values := [got.value] + values;
  }

  /** A new array holding a list, rewound. */
  method Pack(baseSize: nat, little: bool, vs: seq<Value>, host: Order) returns (ba: ByteArray)
    requires baseSize >= 1 && AllTyped(vs)
    ensures fresh(ba) && ba.Valid() && ba.order == (if little then Little else Big)
    ensures ba.View() == Content(Images(vs, ba.order, host), 0)
  {
    hide ByteArray.Flat, ByteArray.Linked, ByteArray.Pointed, Shape, Images, Typed;
    ba := new ByteArray(baseSize);
    ba.SetIsLittleEndian(little);
    WriteValues(ba, vs, host);
    var ok := ba.SetPosition(0);
    assert ba.View().data == Images(vs, ba.order, host);
  }

  /** Write a list, rewind, read it back with the matching readers. */
  method Exchange(baseSize: nat, little: bool, vs: seq<Value>, host: Order)
      returns (values: seq<Value>, complete: bool, unread: nat)
    requires baseSize >= 1 && AllTyped(vs)
    ensures AllFit(vs) <==> complete && values == vs
    ensures AllFit(vs) ==> unread == 0
  {
    hide ByteArray.Flat, Shape, ReadAll, Images, Kinds, Typed, KindOk;
    var ba := Pack(baseSize, little, vs, host);
    ghost var image := Images(vs, ba.order, host);
    ListRoundTrip(vs, [], ba.order, host, host);
    assert image + [] == image;
    values, complete := ReadValues(ba, Kinds(vs), host);
    unread := ba.GetReadSize();
  }

  /** A string of 65536 bytes with a 16-bit length does not come back. */
  method ExchangeLongString(host: Order) returns (sent: seq<Value>, values: seq<Value>, complete: bool)
    ensures |sent| == 1 && sent[0].Str? && sent[0].w == 2 && |sent[0].s| == 0x10000
    ensures !(complete && values == sent)
  {
    Pow16();
    sent := [Str(2, seq(0x10000, _ => 0))];
    var unread;
    values, complete, unread := Exchange(4096, false, sent, host);
    assert !Fits(sent[0]);
  }
}
