/** HKDF (RFC 5869) as `hkdf` computes it, over HMAC-SHA-256. */
module Hkdf {
  type Octet = bv8
  type Octets = seq<Octet>

  /** HMAC-SHA-256: key and message to 32 octets. */
  type Hmac = f: (Octets, Octets) -> Octets | forall k, m :: |f(k, m)| == 32
    witness (k: Octets, m: Octets) => seq(32, i => 0)

  function Octet8(n: nat): Octet {
    (n % 256) as bv8
  }

  /** T(n) of RFC 5869 section 2.3; the counter octet wraps, where the RFC stops at 255. */
  function Block(hmac: Hmac, prk: Octets, info: Octets, n: nat): Octets {
    if n == 0 then [] else hmac(prk, Block(hmac, prk, info, n - 1) + info + [Octet8(n)])
  }

  /** T(1) | T(2) | ... | T(n) */
  function Blocks(hmac: Hmac, prk: Octets, info: Octets, n: nat): (r: Octets)
    ensures |r| == 32 * n
  {
    if n == 0 then [] else Blocks(hmac, prk, info, n - 1) + Block(hmac, prk, info, n)
  }

  function Extract(hmac: Hmac, key: Octets, salt: Octets): Octets {
    hmac(if |salt| == 0 then seq(32, i => 0) else salt, key)
  }

  /** The first `size` octets of the blocks. */
  function Derive(hmac: Hmac, key: Octets, salt: Octets, info: Octets, size: nat): (r: Octets)
    ensures |r| == size
  {
    Blocks(hmac, Extract(hmac, key, salt), info, (size + 31) / 32)[..size]
  }

  lemma {:induction false} BlocksGrow(hmac: Hmac, prk: Octets, info: Octets, n: nat, m: nat)
    requires n <= m
    ensures Blocks(hmac, prk, info, n) <= Blocks(hmac, prk, info, m)
    decreases m
  {
    if n < m {
      BlocksGrow(hmac, prk, info, n, m - 1);
    }
  }

  /** A shorter mask is a prefix of a longer one. */
  lemma PrefixOfLonger(hmac: Hmac, key: Octets, salt: Octets, info: Octets, n: nat, m: nat)
    requires n <= m
    ensures Derive(hmac, key, salt, info, n) == Derive(hmac, key, salt, info, m)[..n]
  {
    BlocksGrow(hmac, Extract(hmac, key, salt), info, (n + 31) / 32, (m + 31) / 32);
  }

  /** `okm.set(t.slice(0, count), offset)` */
  method CopyInto(okm: array<Octet>, offset: nat, t: Octets, count: nat)
    requires count <= |t| && offset + count <= okm.Length
    modifies okm
    ensures okm[..offset + count] == old(okm[..offset]) + t[..count]
  {
    forall i | 0 <= i < count {
      okm[offset + i] := t[i];
    }
  }

  /** The octets written after one more block. */
  lemma NextBlock(hmac: Hmac, prk: Octets, info: Octets, n: nat, count: nat)
    requires count <= |Block(hmac, prk, info, n + 1)| == 32
    ensures Blocks(hmac, prk, info, n)[..32 * n] + Block(hmac, prk, info, n + 1)[..count]
         == Blocks(hmac, prk, info, n + 1)[..32 * n + count]
  {
    hide Block;
    assert Blocks(hmac, prk, info, n)[..32 * n] == Blocks(hmac, prk, info, n);
  }

  /** The octets of the first `n` blocks that fit in `size`. */
  ghost predicate Expanded(hmac: Hmac, prk: Octets, info: Octets, n: nat, size: nat, okm: Octets) {
    |okm| == (if 32 * n <= size then 32 * n else size) && okm == Blocks(hmac, prk, info, n)[..|okm|]
  }

  lemma ExpandedNext(hmac: Hmac, prk: Octets, info: Octets, n: nat, size: nat, okm: Octets, count: nat)
    requires Expanded(hmac, prk, info, n, size, okm) && 32 * n < size
    requires count == if size - 32 * n < 32 then size - 32 * n else 32
    requires |Block(hmac, prk, info, n + 1)| == 32
    ensures Expanded(hmac, prk, info, n + 1, size, okm + Block(hmac, prk, info, n + 1)[..count])
  {
    NextBlock(hmac, prk, info, n, count);
    hide Block, Blocks;
  }

  /** One turn of the expand loop: the next block, and how much of it was written. */
  method ExpandOnce(hmac: Hmac, prk: Octets, info: Octets, okm: array<Octet>, offset: nat, counter: nat, last: Octets)
    returns (t: Octets, count: nat)
    requires counter >= 1 && last == Block(hmac, prk, info, counter - 1)
    requires offset == 32 * (counter - 1) < okm.Length
    requires Expanded(hmac, prk, info, counter - 1, okm.Length, okm[..offset])
    modifies okm
    ensures t == Block(hmac, prk, info, counter)
    ensures count == if okm.Length - offset < 32 then okm.Length - offset else 32
    ensures Expanded(hmac, prk, info, counter, okm.Length, okm[..offset + count])
  {
    t := hmac(prk, last + info + [Octet8(counter)]);
    count := if okm.Length - offset < |t| then okm.Length - offset else |t|;
    ExpandedNext(hmac, prk, info, counter - 1, okm.Length, okm[..offset], count);
    hide Block, Blocks, Octet8, Expanded;
    CopyInto(okm, offset, t, count);
  }

  method DeriveBits(hmac: Hmac, key: Octets, salt: Octets, info: Octets, size: nat) returns (okm: array<Octet>)
    ensures fresh(okm) && okm[..] == Derive(hmac, key, salt, info, size)
  {
    var prk := Extract(hmac, key, salt);
    okm := new Octet[size](_ => 0);
    var last: Octets := [];
    var offset: nat := 0;
    var counter := 1;
    while offset < size
      invariant counter >= 1 && last == Block(hmac, prk, info, counter - 1)
      invariant offset == if 32 * (counter - 1) <= size then 32 * (counter - 1) else size
      invariant 32 * (counter - 1) < size + 32
      invariant Expanded(hmac, prk, info, counter - 1, size, okm[..offset])
      decreases size - offset
    {
      hide Block, Blocks, Expanded;
      var t, count := ExpandOnce(hmac, prk, info, okm, offset, counter, last);
      offset := offset + count;
      last := t;
      counter := counter + 1;
    }
    assert counter - 1 == (size + 31) / 32;
    assert okm[..] == okm[..offset];
  }
}
