/**
  Machine words as natural numbers.  The bitwise operators are defined bit by bit, so that the
  shift-and-or arithmetic of the codecs can be related to plain arithmetic by lemmas.
 */
module Bits {
  type byte = b: int | 0 <= b < 256

  function Pow2(n: nat): (r: nat)
    ensures r > 0
  {
    if n == 0 then 1 else 2 * Pow2(n - 1)
  }

  function And(a: nat, b: nat): nat
  {
    if a == 0 || b == 0 then 0
    else (if a % 2 == 1 && b % 2 == 1 then 1 else 0) + 2 * And(a / 2, b / 2)
  }

  function Or(a: nat, b: nat): nat
    decreases a + b
  {
    if a == 0 && b == 0 then 0
    else (if a % 2 == 1 || b % 2 == 1 then 1 else 0) + 2 * Or(a / 2, b / 2)
  }

  function Xor(a: nat, b: nat): nat
    decreases a + b
  {
    if a == 0 && b == 0 then 0
    else (if a % 2 != b % 2 then 1 else 0) + 2 * Xor(a / 2, b / 2)
  }

  predicate IsSigned(v: int, n: nat)
  {
    0 <= 2 * v + Pow2(n) && 2 * v < Pow2(n)
  }

  /** The two's-complement bit pattern of `v` in an n-bit register: C++ conversion to unsigned. */
  function ToUnsigned(v: int, n: nat): (u: nat)
    requires IsSigned(v, n)
    ensures u < Pow2(n)
  {
    if v >= 0 then v else v + Pow2(n)
  }

  /** The signed reading of an n-bit pattern: C++ conversion to signed. */
  function ToSigned(u: nat, n: nat): (v: int)
    requires u < Pow2(n)
    ensures n > 0 ==> IsSigned(v, n) && ToUnsigned(v, n) == u
  {
    if 2 * u < Pow2(n) then u else u - Pow2(n)
  }

  lemma {:induction false} Pow2Add(m: nat, n: nat)
    ensures Pow2(m + n) == Pow2(m) * Pow2(n)
  {
    if m > 0 {
      Pow2Add(m - 1, n);
    }
  }

  lemma {:induction false} Pow2Mono(m: nat, n: nat)
    requires m <= n
    ensures Pow2(m) <= Pow2(n)
  {
    if m < n {
      Pow2Mono(m, n - 1);
    }
  }

  lemma MulAtLeast(d: int, m: nat)
    ensures d >= 1 ==> d * m >= m
    ensures d <= -1 ==> d * m <= -(m as int)
  {
    if d >= 1 {
      assert d * m == m + (d - 1) * m;
    }
    if d <= -1 {
      assert -d * m == m + (-d - 1) * m;
    }
  }

  /** Quotient and remainder are determined by the division equation. */
  lemma DivModUnique(a: int, m: nat, q: int, r: int)
    requires m > 0 && a == q * m + r && 0 <= r < m
    ensures a / m == q && a % m == r
  {
    var d := a / m - q;
    assert a == (a / m) * m + a % m;
    assert d * m == r - a % m;
    MulAtLeast(d, m);
  }

  lemma {:induction false} OrZero(b: nat)
    ensures Or(0, b) == b
  {
    if b > 0 {
      OrZero(b / 2);
    }
  }

  /** Or-ing a value into bits that lie above another value adds the two. */
  lemma {:induction false} OrAbove(a: nat, q: nat, i: nat)
    requires a < Pow2(i)
    ensures Or(a, q * Pow2(i)) == a + q * Pow2(i)
  {
    var b := q * Pow2(i);
    if i == 0 {
      OrZero(b);
    } else {
      var b' := q * Pow2(i - 1);
      assert b == 2 * b';
      OrAbove(a / 2, q, i - 1);
    }
  }

  /** Masking with i ones keeps what is below 2^i. */
  lemma {:induction false} AndMask(q: nat, r: nat, i: nat)
    requires r < Pow2(i)
    ensures And(q * Pow2(i) + r, Pow2(i) - 1) == r
  {
    if i > 0 {
      var m := Pow2(i - 1);
      assert q * Pow2(i) == 2 * (q * m);
      AndMask(q, r / 2, i - 1);
    }
  }

  lemma {:induction false} XorZero(a: nat)
    ensures Xor(a, 0) == a
  {
    if a > 0 {
      XorZero(a / 2);
    }
  }

  /** Xor with n ones is the n-bit complement. */
  lemma {:induction false} XorOnes(a: nat, n: nat)
    requires a < Pow2(n)
    ensures Xor(a, Pow2(n) - 1) == Pow2(n) - 1 - a
  {
    if n > 0 {
      assert (Pow2(n) - 1) / 2 == Pow2(n - 1) - 1;
      XorOnes(a / 2, n - 1);
    }
  }
}
