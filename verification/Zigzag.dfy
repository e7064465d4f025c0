/** Zigzag mapping of signed to unsigned words, for any register width. */
module Zigzag {
  import opened Bits

  /** Two's-complement negation in an n-bit register. */
  function Negate(u: nat, n: nat): (r: nat)
    requires u < Pow2(n)
    ensures r < Pow2(n)
  {
    if u == 0 then 0 else Pow2(n) - u
  }

  /** Reduction of a value below 2^(n+1) to an n-bit register. */
  function Wrap(u: nat, n: nat): (r: nat)
    requires u < 2 * Pow2(n)
    ensures r < Pow2(n)
  {
    if u < Pow2(n) then u else u - Pow2(n)
  }

  /** A negative value is negated, doubled and decremented; every operation wraps at n bits. */
  function Encode(v: int, n: nat): (u: nat)
    requires n > 0 && IsSigned(v, n)
    ensures u < Pow2(n)
  {
    if v < 0 then
      var doubled := Wrap(2 * Negate(ToUnsigned(v, n), n), n);
      if doubled == 0 then Pow2(n) - 1 else doubled - 1
    else
      Wrap(2 * v, n)
  }

  /** The shifted word is xor-ed with all ones when the low bit is set, with zero otherwise. */
  function Decode(u: nat, n: nat): int
    requires n > 0 && u < Pow2(n)
  {
    DecodeInRange(u, n);
    ToSigned(Xor(u / 2, Negate(And(u, 1), n)), n)
  }

  lemma AndOne(u: nat)
    ensures And(u, 1) == u % 2
  {
    AndMask(u / 2, u % 2, 1);
  }

  lemma DecodeInRange(u: nat, n: nat)
    requires n > 0 && u < Pow2(n)
    ensures And(u, 1) == u % 2 < Pow2(n)
    ensures Xor(u / 2, Negate(And(u, 1), n)) == if u % 2 == 0 then u / 2 else Pow2(n) - 1 - u / 2
  {
    AndOne(u);
    XorZero(u / 2);
    XorOnes(u / 2, n);
  }

  /** In plain arithmetic: 0, -1, 1, -2, 2, ... are numbered 0, 1, 2, 3, 4, ... */
  lemma EncodeValue(v: int, n: nat)
    requires n > 0 && IsSigned(v, n)
    ensures Encode(v, n) == if v >= 0 then 2 * v else -2 * v - 1
  {}

  lemma DecodeValue(u: nat, n: nat)
    requires n > 0 && u < Pow2(n)
    ensures Decode(u, n) == if u % 2 == 0 then u / 2 else -1 - u / 2
    ensures IsSigned(Decode(u, n), n)
  {
    DecodeInRange(u, n);
  }

  /** Encoding and decoding are inverse bijections between all signed and all unsigned words. */
  lemma Bijection(v: int, u: nat, n: nat)
    requires n > 0 && IsSigned(v, n) && u < Pow2(n)
    ensures Decode(Encode(v, n), n) == v
    ensures IsSigned(Decode(u, n), n) && Encode(Decode(u, n), n) == u
  {
    EncodeValue(v, n);
    DecodeValue(Encode(v, n), n);
    DecodeValue(u, n);
    EncodeValue(Decode(u, n), n);
  }
}
