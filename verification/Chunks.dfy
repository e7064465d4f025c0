/** Equal-sized chunks laid end to end: the arithmetic between a node list and a flat sequence. */
module Chunks {
  import opened Bits

  /** Where chunk `k` begins: `k * b`, as repeated addition. */
  function Offset(k: nat, b: nat): nat
  {
    if k == 0 then 0 else Offset(k - 1, b) + b
  }

  function Flatten(cs: seq<seq<byte>>): seq<byte>
  {
    if cs == [] then [] else cs[0] + Flatten(cs[1..])
  }

  predicate Uniform(cs: seq<seq<byte>>, b: nat)
  {
    forall i :: 0 <= i < |cs| ==> |cs[i]| == b
  }

  /** `s` with the bytes from `at` on replaced by `src`. */
  function Splice(s: seq<byte>, at: nat, src: seq<byte>): (r: seq<byte>)
    requires at + |src| <= |s|
    ensures |r| == |s|
  {
    s[..at] + src + s[at + |src|..]
  }

  lemma {:induction false} OffsetIsProduct(k: nat, b: nat)
    ensures Offset(k, b) == k * b
  {
    if k > 0 {
      OffsetIsProduct(k - 1, b);
      assert k * b == (k - 1) * b + b;
    }
  }

  lemma {:induction false} OffsetMono(k: nat, n: nat, b: nat)
    requires k < n
    ensures Offset(k, b) + b <= Offset(n, b)
  {
    if k < n - 1 {
      OffsetMono(k, n - 1, b);
    }
  }

  /** Rounding up to whole chunks makes enough room. */
  lemma CeilingCovers(n: nat, b: nat)
    requires b > 0
    ensures Offset((n + b - 1) / b, b) >= n
    ensures Offset((n + b - 1) / b, b) < n + b
  {
    var q := (n + b - 1) / b;
    OffsetIsProduct(q, b);
    assert n + b - 1 == q * b + (n + b - 1) % b;
  }

  /** The offset inside a node, `p % b`, from the chunk that holds `p`. */
  lemma Locate(p: nat, k: nat, b: nat)
    requires b > 0 && Offset(k, b) <= p < Offset(k, b) + b
    ensures p / b == k && p % b == p - Offset(k, b)
  {
    OffsetIsProduct(k, b);
    DivModUnique(p, b, k, p - Offset(k, b));
  }

  /** Chunk `k` with the offset of `p` is `p` itself exactly when `p` lies in chunk `k`. */
  lemma SameChunk(p: nat, k: nat, b: nat)
    requires b > 0
    ensures Offset(k, b) + p % b == p <==> p / b == k
  {
    var q, r := p / b, p % b;
    OffsetIsProduct(k, b);
    assert p == q * b + r;
    assert (q - k) * b == q * b - k * b;
    MulAtLeast(q - k, b);
  }

  lemma {:induction false} FlattenLength(cs: seq<seq<byte>>, b: nat)
    requires Uniform(cs, b)
    ensures |Flatten(cs)| == Offset(|cs|, b)
  {
    if cs != [] {
      FlattenLength(cs[1..], b);
    }
  }

  /** A piece of chunk `k` is the same piece of the flat sequence. */
  lemma {:induction false} FlattenSlice(cs: seq<seq<byte>>, b: nat, k: nat, from: nat, to: nat)
    requires Uniform(cs, b) && k < |cs| && from <= to <= b
    ensures Offset(k, b) + to <= |Flatten(cs)|
    ensures Flatten(cs)[Offset(k, b) + from..Offset(k, b) + to] == cs[k][from..to]
  {
    FlattenLength(cs, b);
    OffsetMono(k, |cs|, b);
    if k > 0 {
      var rest := cs[1..];
      FlattenSlice(rest, b, k - 1, from, to);
      var at := Offset(k - 1, b);
      assert Flatten(cs)[b + at + from..b + at + to] == Flatten(rest)[at + from..at + to];
    }
  }

  lemma SpliceFront(head: seq<byte>, tail: seq<byte>, at: nat, src: seq<byte>)
    requires at + |src| <= |head|
    ensures Splice(head, at, src) + tail == Splice(head + tail, at, src)
  {}

  /** Replacing bytes inside one chunk replaces the same bytes of the flat sequence. */
  lemma {:induction false} FlattenSplice(cs: seq<seq<byte>>, b: nat, k: nat, off: nat, src: seq<byte>)
    requires Uniform(cs, b) && k < |cs| && off + |src| <= b
    ensures Offset(k, b) + off + |src| <= |Flatten(cs)|
    ensures Flatten(cs[k := Splice(cs[k], off, src)]) == Splice(Flatten(cs), Offset(k, b) + off, src)
  {
    hide Splice;
    FlattenLength(cs, b);
    OffsetMono(k, |cs|, b);
    var cs' := cs[k := Splice(cs[k], off, src)];
    var rest := cs[1..];
    if k == 0 {
      assert cs'[1..] == rest;
      SpliceFront(cs[0], Flatten(rest), off, src);
    } else {
      FlattenSplice(rest, b, k - 1, off, src);
      assert cs'[1..] == rest[k - 1 := Splice(rest[k - 1], off, src)];
      SpliceShift(cs[0], Flatten(rest), Offset(k - 1, b) + off, src);
    }
  }

  lemma SpliceShift(head: seq<byte>, tail: seq<byte>, at: nat, src: seq<byte>)
    requires at + |src| <= |tail|
    ensures head + Splice(tail, at, src) == Splice(head + tail, |head| + at, src)
  {}

  lemma SpliceEmpty(s: seq<byte>, at: nat)
    requires at <= |s|
    ensures Splice(s, at, []) == s
  {}

  /** Two adjacent pieces of a buffer, spliced one after the other. */
  lemma SpliceNext(s: seq<byte>, at: nat, buf: seq<byte>, i: nat, j: nat)
    requires i <= j <= |buf| && at + j <= |s|
    ensures Splice(Splice(s, at, buf[..i]), at + i, buf[i..j]) == Splice(s, at, buf[..j])
  {
    assert buf[..i] + buf[i..j] == buf[..j];
  }

  lemma {:induction false} FlattenPrefix(cs: seq<seq<byte>>, n: nat)
    requires n <= |cs|
    ensures Flatten(cs[..n]) <= Flatten(cs)
  {
    if n > 0 {
      FlattenPrefix(cs[1..], n - 1);
      assert cs[..n][1..] == cs[1..][..n - 1];
    }
  }
}
