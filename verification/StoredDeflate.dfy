/** The simplest compressor: one stored block. It meets what the pack builder relies on. */
module StoredDeflate {
  import opened Bytes
  import F = DeflateFormat
  import P = PackInverts

  /** A zlib stream of one final stored block. */
  function Deflate(raw: seq<Byte>): seq<Byte> {
    if |raw| < 0x10000 then [0x78, 1, 1] + F.StoredHead(|raw|) + raw + ADLER else []
  }

  const PAD: seq<Bit> := [0, 0, 0, 0, 0]
  const ADLER: seq<Byte> := [0, 0, 0, 0]

  function StreamOf(raw: seq<Byte>): F.Stream {
    F.Stream(0x78, 1, [F.StoredBlock(PAD, raw)], [], ADLER)
  }

  lemma {:induction false} RawBitsJoin(a: seq<Byte>, b: seq<Byte>)
    ensures RawBits(a + b) == RawBits(a) + RawBits(b)
    decreases |a|
  {
    if a == [] {
      assert a + b == b;
    } else {
      assert (a + b)[1..] == a[1..] + b;
      RawBitsJoin(a[1..], b);
      hide LsbBits;
    }
  }

  lemma {:induction false} LsbBitsAt(v: nat, n: nat, k: nat)
    requires k < n
    ensures LsbBits(v, n)[k] == Shr(v, k) % 2
    decreases n
  {
    if k > 0 {
      LsbBitsAt(v / 2, n - 1, k - 1);
    }
  }

  lemma {:induction false} RawBitsAt(raw: seq<Byte>, j: nat, i: nat)
    requires j < |raw| && i < 8
    ensures RawBits(raw)[8 * j + i] == LsbBits(raw[j], 8)[i]
    decreases j
  {
    hide LsbBits;
    if j > 0 {
      RawBitsAt(raw[1..], j - 1, i);
      assert RawBits(raw)[8 * j + i] == RawBits(raw[1..])[8 * (j - 1) + i];
    }
  }

  /** Bytes hold their own bits. */
  lemma RawBitsHold(z: seq<Byte>)
    ensures Holds(z, 0, RawBits(z))
  {
    forall k | 0 <= k < |RawBits(z)| ensures BitAt(z, 0 + k) == RawBits(z)[k] {
      var j, i := k / 8, k % 8;
      RawBitsAt(z, j, i);
      LsbBitsAt(z[j], 8, i);
      hide RawBits, LsbBits;
      assert 8 * j + i == k;
    }
  }

  lemma FirstByteBits()
    ensures LsbBits(1, 1) + (LsbBits(0, 2) + PAD) == RawBits([1])
  {
    assert RawBits([1]) == LsbBits(1, 8) + RawBits([]) == LsbBits(1, 8);
    hide RawBits;
    assert LsbBits(1, 8) == [1] + LsbBits(0, 7);
    assert LsbBits(0, 7) == [0] + LsbBits(0, 6);
    assert LsbBits(0, 6) == [0] + LsbBits(0, 5);
    assert LsbBits(0, 5) == [0] + LsbBits(0, 4);
    assert LsbBits(0, 4) == [0] + LsbBits(0, 3);
    assert LsbBits(0, 3) == [0] + LsbBits(0, 2);
    assert LsbBits(0, 2) == [0] + LsbBits(0, 1);
    assert LsbBits(0, 1) == [0] && LsbBits(1, 1) == [1];
  }

  lemma SingleBlock(b: F.Block, pos: nat, out: seq<Byte>)
    requires F.WfBlock(b, pos + 3, |out|)
    ensures F.WfBlocks([b], pos, out) && F.BlocksBits([b], pos, out) == F.BlockBits(b, 1, pos, |out|)
    ensures F.BlocksMeaning([b], pos, out) == F.BlockMeaning(b, pos + 3, out)
  {
    hide F.WfBlock, F.BlockBits, F.BlockMeaning;
  }

  lemma StoredBits(raw: seq<Byte>)
    requires |raw| < 0x10000
    ensures var b := F.StoredBlock(PAD, raw);
      && F.WfBlock(b, 19, 0) && F.BlockMeaning(b, 19, []) == raw
      && F.BlockBits(b, 1, 16, 0) == LsbBits(1, 1) + (LsbBits(0, 2) + (PAD + (RawBits(F.StoredHead(|raw|)) + RawBits(raw))))
  {
    hide LsbBits, RawBits, F.StoredHead, F.WfTokens, F.WfDynamicHeader, F.TokensBits, F.TokensMeaning;
  }

  lemma BlockStands(raw: seq<Byte>)
    requires |raw| < 0x10000
    ensures F.WfBlocks(StreamOf(raw).blocks, 16, [])
    ensures F.BlocksBits(StreamOf(raw).blocks, 16, []) == RawBits([1]) + (RawBits(F.StoredHead(|raw|)) + RawBits(raw))
    ensures F.BlocksMeaning(StreamOf(raw).blocks, 16, []) == raw
  {
    hide LsbBits, RawBits, F.WfBlock, F.BlockBits, F.BlockMeaning, F.WfBlocks, F.BlocksBits, F.BlocksMeaning;
    StoredBits(raw);
    SingleBlock(F.StoredBlock(PAD, raw), 16, []);
    FirstByteBits();
    Regrouped(LsbBits(1, 1), LsbBits(0, 2), PAD, RawBits(F.StoredHead(|raw|)) + RawBits(raw));
  }

  lemma Regrouped(a: seq<Bit>, b: seq<Bit>, c: seq<Bit>, d: seq<Bit>)
    ensures a + (b + (c + d)) == (a + (b + c)) + d
  {
  }

  lemma StreamBytes(raw: seq<Byte>)
    requires |raw| < 0x10000
    ensures F.WfStream(StreamOf(raw)) && F.StreamBits(StreamOf(raw)) == RawBits(Deflate(raw))
  {
    hide F.WfBlocks, F.BlocksBits, F.BlocksMeaning, LsbBits, RawBits;
    BlockStands(raw);
    var head: seq<Byte> := F.StoredHead(|raw|);
    JoinFive([0x78, 1], [1], head, raw, ADLER);
    assert [0x78, 1] + [1] == [0x78, 1, 1];
    Bracketed(RawBits([0x78, 1]), RawBits([1]), RawBits(head), RawBits(raw), RawBits(ADLER));
  }

  /** For every object below 64 KiB the stored block is a well-formed stream that stands for it. */
  lemma StoredDeflates(raw: seq<Byte>)
    requires |raw| < 0x10000
    ensures P.Deflates(Deflate, raw)
  {
    hide F.WfStream, F.StreamBits, F.BlocksMeaning, RawBits;
    StreamBytes(raw);
    BlockStands(raw);
    RawBitsHold(Deflate(raw));
    assert P.IsStreamOf(StreamOf(raw), Deflate(raw), raw);
  }

  lemma JoinFive(a: seq<Byte>, b: seq<Byte>, c: seq<Byte>, d: seq<Byte>, e: seq<Byte>)
    ensures RawBits(a + b + c + d + e) == RawBits(a) + RawBits(b) + RawBits(c) + RawBits(d) + RawBits(e)
  {
    hide RawBits;
    RawBitsJoin(a, b);
    RawBitsJoin(a + b, c);
    RawBitsJoin(a + b + c, d);
    RawBitsJoin(a + b + c + d, e);
  }

  lemma Bracketed(a: seq<Bit>, b: seq<Bit>, c: seq<Bit>, d: seq<Bit>, e: seq<Bit>)
    ensures a + ((b + (c + d)) + ([] + e)) == a + b + c + d + e
  {
  }
}
