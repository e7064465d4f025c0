/** Byte order: how a fixed-width word lies in memory and what byte swapping does to it. */
module Endian {
  import opened Bits

  datatype Order = Little | Big

  /** The bytes of a w-byte word, least significant first. */
  function LittleBytes(v: nat, w: nat): (bs: seq<byte>)
    ensures |bs| == w
  {
    if w == 0 then [] else [v % 256] + LittleBytes(v / 256, w - 1)
  }

  /** The bytes of a w-byte word, most significant first. */
  function BigBytes(v: nat, w: nat): (bs: seq<byte>)
    ensures |bs| == w
  {
    if w == 0 then [] else BigBytes(v / 256, w - 1) + [v % 256]
  }

  function FromLittle(bs: seq<byte>): nat
  {
    if bs == [] then 0 else bs[0] + 256 * FromLittle(bs[1..])
  }

  function FromBig(bs: seq<byte>): nat
  {
    if bs == [] then 0 else bs[|bs| - 1] + 256 * FromBig(bs[..|bs| - 1])
  }

  /** The word with its w bytes in reverse order, by shifting each low byte to the top. */
  function Swap(v: nat, w: nat): nat
  {
    if w == 0 then 0 else (v % 256) * Pow2(8 * (w - 1)) + Swap(v / 256, w - 1)
  }

  /** A word as the host stores it. */
  function Store(v: nat, w: nat, host: Order): (bs: seq<byte>)
    ensures |bs| == w
  {
    if host == Little then LittleBytes(v, w) else BigBytes(v, w)
  }

  /** A word as the host loads it. */
  function Load(bs: seq<byte>, host: Order): nat
  {
    if host == Little then FromLittle(bs) else FromBig(bs)
  }

  /** What a fixed-width writer puts in the array: swapped first when the orders differ. */
  function Written(v: nat, w: nat, order: Order, host: Order): (bs: seq<byte>)
    ensures |bs| == w
  {
    Store(if order != host then Swap(v, w) else v, w, host)
  }

  /** What a fixed-width reader makes of the bytes it loads. */
  function ReadBack(bs: seq<byte>, order: Order, host: Order): nat
  {
    if order == host then Load(bs, host) else Swap(Load(bs, host), |bs|)
  }

  // ----- the bytes of a sum of a low part and a top byte

  lemma {:induction false} AppendTop(x: nat, y: byte, w: nat)
    requires x < Pow2(8 * w)
    ensures LittleBytes(y * Pow2(8 * w) + x, w + 1) == LittleBytes(x, w) + [y]
    ensures BigBytes(y * Pow2(8 * w) + x, w + 1) == [y] + BigBytes(x, w)
  {
    var z := y * Pow2(8 * w) + x;
    if w == 0 {
      assert z == y;
      assert LittleBytes(y, 1) == [y] + LittleBytes(0, 0);
      assert BigBytes(y, 1) == BigBytes(0, 0) + [y];
    } else {
      TopByte(w);
      var p := Pow2(8 * (w - 1));
      assert z == 256 * (y * p) + x;
      LowByte(y * p, x);
      AppendTop(x / 256, y, w - 1);
      assert LittleBytes(z, w + 1) == [x % 256] + (LittleBytes(x / 256, w - 1) + [y]);
      assert BigBytes(z, w + 1) == ([y] + BigBytes(x / 256, w - 1)) + [x % 256];
    }
  }

  lemma LowByte(m: nat, x: nat)
    ensures (256 * m + x) % 256 == x % 256 && (256 * m + x) / 256 == m + x / 256
  {}

  lemma TopByte(w: nat)
    requires w > 0
    ensures Pow2(8 * w) == 256 * Pow2(8 * (w - 1))
  {
    Pow2Add(8, 8 * (w - 1));
    assert Pow2(8) == 256;
  }

  lemma {:induction false} SwapBound(v: nat, w: nat)
    ensures Swap(v, w) < Pow2(8 * w)
  {
    if w > 0 {
      SwapBound(v / 256, w - 1);
      TopByte(w);
      ByteTimes(v % 256, Pow2(8 * (w - 1)));
    }
  }

  lemma ByteTimes(r: byte, p: nat)
    ensures r * p + p <= 256 * p
  {
    assert (255 - r) * p >= 0;
  }

  /** Swapping a word reverses its bytes in either memory order. */
  lemma {:induction false} SwapReverses(v: nat, w: nat)
    ensures LittleBytes(Swap(v, w), w) == BigBytes(v, w)
    ensures BigBytes(Swap(v, w), w) == LittleBytes(v, w)
  {
    if w > 0 {
      SwapBound(v / 256, w - 1);
      AppendTop(Swap(v / 256, w - 1), v % 256, w - 1);
      SwapReverses(v / 256, w - 1);
    }
  }

  lemma {:induction false} LittleInverse(v: nat, w: nat)
    requires v < Pow2(8 * w)
    ensures FromLittle(LittleBytes(v, w)) == v
  {
    if w > 0 {
      TopByte(w);
      LittleInverse(v / 256, w - 1);
      assert LittleBytes(v, w)[1..] == LittleBytes(v / 256, w - 1);
    }
  }

  lemma {:induction false} BigInverse(v: nat, w: nat)
    requires v < Pow2(8 * w)
    ensures FromBig(BigBytes(v, w)) == v
  {
    if w > 0 {
      TopByte(w);
      BigInverse(v / 256, w - 1);
      assert BigBytes(v, w)[..w - 1] == BigBytes(v / 256, w - 1);
    }
  }

  lemma {:induction false} LittleSurjective(bs: seq<byte>)
    ensures FromLittle(bs) < Pow2(8 * |bs|)
    ensures LittleBytes(FromLittle(bs), |bs|) == bs
  {
    if bs != [] {
      TopByte(|bs|);
      LittleSurjective(bs[1..]);
      assert bs == [bs[0]] + bs[1..];
    }
  }

  lemma {:induction false} BigSurjective(bs: seq<byte>)
    ensures FromBig(bs) < Pow2(8 * |bs|)
    ensures BigBytes(FromBig(bs), |bs|) == bs
  {
    if bs != [] {
      TopByte(|bs|);
      BigSurjective(bs[..|bs| - 1]);
      assert bs == bs[..|bs| - 1] + [bs[|bs| - 1]];
    }
  }

  lemma SwapInvolution(v: nat, w: nat)
    requires v < Pow2(8 * w)
    ensures Swap(v, w) < Pow2(8 * w) && Swap(Swap(v, w), w) == v
  {
    SwapBound(v, w);
    SwapBound(Swap(v, w), w);
    SwapReverses(v, w);
    SwapReverses(Swap(v, w), w);
    LittleInverse(v, w);
    LittleInverse(Swap(Swap(v, w), w), w);
  }

  /** The bytes written depend on the array's order alone, not on the host's. */
  lemma WrittenIsWireOrder(v: nat, w: nat, order: Order, host: Order)
    ensures Written(v, w, order, host) == if order == Little then LittleBytes(v, w) else BigBytes(v, w)
  {
    SwapReverses(v, w);
  }

  /** The value read depends on the array's order alone, not on the host's. */
  lemma ReadBackIsWireOrder(bs: seq<byte>, order: Order, host: Order)
    ensures ReadBack(bs, order, host) == if order == Little then FromLittle(bs) else FromBig(bs)
    ensures ReadBack(bs, order, host) < Pow2(8 * |bs|)
  {
    var w := |bs|;
    LittleSurjective(bs);
    BigSurjective(bs);
    if order != host {
      var v := Load(bs, host);
      SwapBound(v, w);
      SwapReverses(v, w);
      LittleInverse(Swap(v, w), w);
      BigInverse(Swap(v, w), w);
    }
  }

  /** Reading undoes writing, even when writer and reader run on hosts of different order. */
  lemma FixedRoundTrip(v: nat, w: nat, order: Order, writer: Order, reader: Order)
    requires v < Pow2(8 * w)
    ensures ReadBack(Written(v, w, order, writer), order, reader) == v
  {
    WrittenIsWireOrder(v, w, order, writer);
    ReadBackIsWireOrder(Written(v, w, order, writer), order, reader);
    LittleInverse(v, w);
    BigInverse(v, w);
  }
}
