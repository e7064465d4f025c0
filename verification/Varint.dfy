/** Seven-bit group encoding of unsigned words, least significant group first. */
module Varint {
  import opened Bits
  import Zigzag

  /** What the encoder emits: groups with the high bit set while more follow. */
  function Encode(v: nat): (bs: seq<byte>)
    ensures |bs| > 0
  {
    if v < 128 then [v] else [v % 128 + 128] + Encode(v / 128)
  }

  /** The byte holding a group that is followed by more, as mask and or. */
  lemma GroupByte(v: nat)
    ensures Or(And(v, 0x7F), 0x80) == v % 128 + 128
  {
    assert Pow2(7) == 128;
    AndMask(v / 128, v % 128, 7);
    OrAbove(v % 128, 1, 7);
  }

  // ----- the format, independently of encoder and decoder

  /** A well-formed group sequence: exactly the last byte has its high bit clear. */
  predicate WellFormed(bs: seq<byte>)
  {
    |bs| > 0 && bs[|bs| - 1] < 128 && forall i :: 0 <= i < |bs| - 1 ==> bs[i] >= 128
  }

  /** The number a group sequence denotes: unsigned LEB128, section 7.6 of DWARF Version 5. */
  function Value(bs: seq<byte>): nat
  {
    if bs == [] then 0 else bs[0] % 128 + 128 * Value(bs[1..])
  }

  lemma {:induction false} EncodeDenotes(v: nat)
    ensures WellFormed(Encode(v)) && Value(Encode(v)) == v
  {
    if v < 128 {
      assert Encode(v)[1..] == [];
    } else {
      EncodeDenotes(v / 128);
      assert Encode(v)[1..] == Encode(v / 128);
    }
  }

  lemma {:induction false} ValueBound(bs: seq<byte>)
    ensures Value(bs) < Pow2(7 * |bs|)
  {
    if bs != [] {
      ValueBound(bs[1..]);
      Pow2Add(7, 7 * |bs[1..]|);
      assert 7 * |bs| == 7 + 7 * |bs[1..]|;
      assert Pow2(7) == 128;
    }
  }

  /** No well-formed sequence for the same number is shorter, and only the encoder's own is as short. */
  lemma {:induction false} Minimal(bs: seq<byte>, v: nat)
    requires WellFormed(bs) && Value(bs) == v
    ensures |Encode(v)| <= |bs|
    ensures |Encode(v)| == |bs| ==> bs == Encode(v)
  {
    if |bs| == 1 {
      assert bs[1..] == [];
      assert v == bs[0] && bs == [v];
    } else {
      var rest := bs[1..];
      assert WellFormed(rest);
      Minimal(rest, Value(rest));
      LowGroup(bs[0] % 128, Value(rest));
      if v >= 128 {
        assert bs == [bs[0]] + rest;
      }
    }
  }

  lemma LowGroup(r: nat, q: nat)
    requires r < 128
    ensures (r + 128 * q) / 128 == q && (r + 128 * q) % 128 == r
  {}

  /** The length is k exactly when the number needs k groups. */
  lemma {:induction false} LengthExact(v: nat)
    ensures v < Pow2(7 * |Encode(v)|)
    ensures |Encode(v)| > 1 ==> v >= Pow2(7 * (|Encode(v)| - 1))
  {
    assert Pow2(7) == 128;
    if v >= 128 {
      var n := |Encode(v / 128)|;
      LengthExact(v / 128);
      assert |Encode(v)| == n + 1;
      Pow2Add(7, 7 * n);
      assert 7 * |Encode(v)| == 7 + 7 * n;
      if n > 1 {
        Pow2Add(7, 7 * (n - 1));
        assert 7 * n == 7 + 7 * (n - 1);
      }
    }
  }

  /** The decoder's loop bound: groups at shifts 0, 7, 14, ... below the register width. */
  function MaxGroups(bits: nat): nat
  {
    (bits + 6) / 7
  }

  /** Every word fits the encoder's buffer: 5 bytes for 32 bits, 10 bytes for 64 bits. */
  lemma FitsBuffer(v: nat, bits: nat)
    requires bits > 0 && v < Pow2(bits)
    ensures |Encode(v)| <= MaxGroups(bits)
    ensures MaxGroups(32) == 5 && MaxGroups(64) == 10
  {
    LengthExact(v);
    var n := |Encode(v)|;
    if n > MaxGroups(bits) {
      assert 7 * (n - 1) >= bits;
      Pow2Mono(bits, 7 * (n - 1));
      assert false;
    }
  }

  lemma {:induction false} LengthMonotone(a: nat, b: nat)
    requires a <= b
    ensures |Encode(a)| <= |Encode(b)|
  {
    if a >= 128 {
      LengthMonotone(a / 128, b / 128);
    }
  }

  /** A signed value of strictly smaller magnitude, or of smaller magnitude and the same sign, is never longer. */
  lemma SignedLengthMonotone(a: int, b: int, n: nat)
    requires n > 0 && IsSigned(a, n) && IsSigned(b, n)
    requires var ma := if a < 0 then -a else a; var mb := if b < 0 then -b else b;
             ma < mb || (ma <= mb && (a < 0 <==> b < 0))
    ensures |Encode(Zigzag.Encode(a, n))| <= |Encode(Zigzag.Encode(b, n))|
  {
    Zigzag.EncodeValue(a, n);
    Zigzag.EncodeValue(b, n);
    LengthMonotone(Zigzag.Encode(a, n), Zigzag.Encode(b, n));
  }

  /** At equal magnitude the sign can cost a byte: 64 takes two bytes, -64 takes one. */
  lemma EqualMagnitudeDiffers(n: nat)
    requires n >= 8
    ensures IsSigned(64, n) && IsSigned(-64, n)
    ensures |Encode(Zigzag.Encode(64, n))| == 2 && |Encode(Zigzag.Encode(-64, n))| == 1
  {
    Pow2Mono(8, n);
    assert Pow2(8) == 256;
    Zigzag.EncodeValue(64, n);
    Zigzag.EncodeValue(-64, n);
    assert Encode(128) == [128] + Encode(1);
  }

  // ----- the decoder on arbitrary input

  datatype Scan = Done(value: nat, used: nat) | Short

  /**
    The decoder's loop from group `i` on, with `acc` collected so far: it stops after a byte below 128 or
    after the last group of the register; each group is shifted into an n-bit register and or-ed in.
   */
  function ScanFrom(bs: seq<byte>, i: nat, acc: nat, bits: nat): (r: Scan)
    requires acc < Pow2(bits)
    ensures r.Done? ==> i <= r.used <= |bs| || i >= MaxGroups(bits)
    decreases MaxGroups(bits) - i
  {
    if i >= MaxGroups(bits) then Done(acc, i)
    else if i >= |bs| then Short
    else
      var acc' := Merge(acc, bs[i], i, bits);
      if bs[i] < 128 then Done(acc', i + 1) else ScanFrom(bs, i + 1, acc', bits)
  }

  /** One group or-ed into the register: shifted left, cut to `bits` bits. */
  function Merge(acc: nat, b: byte, i: nat, bits: nat): (r: nat)
    requires acc < Pow2(bits) && i < MaxGroups(bits)
    ensures r < Pow2(bits)
  {
    var shifted := ShiftLeft(And(b, 0x7F), 7 * i, bits);
    OrBound(acc, shifted, bits);
    Or(acc, shifted)
  }

  /** Left shift in a register of the given width: bits above it are lost. */
  function ShiftLeft(v: nat, k: nat, bits: nat): (r: nat)
    requires k < bits
    ensures r < Pow2(bits)
  {
    Pow2Add(bits - k, k);
    ShiftBound(v % Pow2(bits - k), bits - k, k);
    (v % Pow2(bits - k)) * Pow2(k)
  }

  lemma ShiftLeftExact(v: nat, k: nat, bits: nat)
    requires k < bits && v < Pow2(bits - k)
    ensures ShiftLeft(v, k, bits) == v * Pow2(k)
  {
    DivModUnique(v, Pow2(bits - k), 0, v);
  }

  lemma ShiftBound(v: nat, m: nat, k: nat)
    requires v < Pow2(m)
    ensures v * Pow2(k) < Pow2(m) * Pow2(k)
  {}

  lemma {:induction false} OrBound(a: nat, b: nat, n: nat)
    requires a < Pow2(n) && b < Pow2(n)
    ensures Or(a, b) < Pow2(n)
  {
    if n > 0 && !(a == 0 && b == 0) {
      OrBound(a / 2, b / 2, n - 1);
    }
  }

  /** Decoding the encoder's bytes, whatever follows them, yields the value and consumes exactly them. */
  lemma SelfDelimiting(v: nat, rest: seq<byte>, bits: nat)
    requires bits > 0 && v < Pow2(bits)
    ensures ScanFrom(Encode(v) + rest, 0, 0, bits) == Done(v, |Encode(v)|)
  {
    FitsBuffer(v, bits);
    assert [] + Encode(v) + rest == Encode(v) + rest;
    ScanSuffix([], v, 0, rest, bits);
  }

  /** The loop invariant of the decoder: `acc` is below the next shift and the suffix still denotes `v`. */
  lemma {:induction false} ScanSuffix(front: seq<byte>, v: nat, acc: nat, rest: seq<byte>, bits: nat)
    requires acc < Pow2(7 * |front|) && acc + v * Pow2(7 * |front|) < Pow2(bits)
    requires acc < Pow2(bits)
    requires |front| + |Encode(v)| <= MaxGroups(bits)
    ensures ScanFrom(front + Encode(v) + rest, |front|, acc, bits)
         == Done(acc + v * Pow2(7 * |front|), |front| + |Encode(v)|)
    decreases v
  {
    var i := |front|;
    var bs := front + Encode(v) + rest;
    hide Pow2, Merge, MaxGroups;
    assert bs[i] == Encode(v)[0];
    MergeAdds(acc, bs[i], v, i, bits);
    if v >= 128 {
      var front' := front + [bs[i]];
      assert bs == front' + Encode(v / 128) + rest;
      NextGroup(v, acc, i);
      ScanSuffix(front', v / 128, acc + (v % 128) * Pow2(7 * i), rest, bits);
    } else {
      assert v % 128 == v;
    }
  }

  /** Moving on by a group: the rest counts for 128 times as much. */
  lemma NextGroup(v: nat, acc: nat, i: nat)
    ensures Pow2(7 * (i + 1)) == Pow2(7 + 7 * i)
    ensures acc + (v % 128) * Pow2(7 * i) + (v / 128) * Pow2(7 * (i + 1)) == acc + v * Pow2(7 * i)
  {
    Pow2Add(7, 7 * i);
    assert 7 * (i + 1) == 7 + 7 * i;
    SplitGroup(v, Pow2(7 * i), Pow2(7 * (i + 1)));
  }

  lemma SplitGroup(v: nat, p: nat, p': nat)
    requires p' == 128 * p
    ensures v * p == (v % 128) * p + (v / 128) * p'
  {
    var w, r := v / 128, v % 128;
    assert v == 128 * w + r;
    assert v * p == 128 * w * p + r * p;
  }

  lemma MulMono(a: nat, b: nat, p: nat)
    ensures a <= b ==> a * p <= b * p
  {
    if a <= b {
      assert b * p == a * p + (b - a) * p;
    }
  }

  lemma Cancel(v: nat, m: nat, p: nat)
    requires v * p < m * p
    ensures v < m
  {
    MulMono(m, v, p);
  }

  lemma MergeAdds(acc: nat, b: byte, v: nat, i: nat, bits: nat)
    requires acc < Pow2(7 * i) && acc < Pow2(bits) && i < MaxGroups(bits)
    requires acc + v * Pow2(7 * i) < Pow2(bits)
    requires b % 128 == v % 128
    ensures Merge(acc, b, i, bits) == acc + (v % 128) * Pow2(7 * i)
    ensures acc + (v % 128) * Pow2(7 * i) < Pow2(7 + 7 * i)
  {
    FitsRegister(v, acc, 7 * i, bits);
    MergeGroup(acc, b, v % 128, 7 * i, bits);
    Pow2Add(7, 7 * i);
    LessGroup(v % 128, Pow2(7 * i));
  }

  lemma FitsRegister(v: nat, acc: nat, k: nat, bits: nat)
    requires k < bits && acc + v * Pow2(k) < Pow2(bits)
    ensures v < Pow2(bits - k)
  {
    Pow2Add(bits - k, k);
    Cancel(v, Pow2(bits - k), Pow2(k));
  }

  lemma MergeGroup(acc: nat, b: byte, r: nat, k: nat, bits: nat)
    requires k < bits && acc < Pow2(k) && b % 128 == r < Pow2(bits - k)
    ensures Or(acc, ShiftLeft(And(b, 0x7F), k, bits)) == acc + r * Pow2(k)
  {
    assert And(b, 0x7F) == r by {
      assert Pow2(7) == 128;
      AndMask(b / 128, r, 7);
    }
    ShiftLeftExact(r, k, bits);
    OrAbove(acc, r, k);
  }

  lemma LessGroup(r: nat, p: nat)
    requires r < 128
    ensures r * p + p <= 128 * p
  {
    assert (128 - r - 1) * p >= 0;
  }
}
