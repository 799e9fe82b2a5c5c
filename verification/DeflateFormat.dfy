/**
 The zlib stream format (RFC 1950 section 2.2, RFC 1951 section 3.2) as a grammar: what a stream
 is, the bits it is written as, and the bytes it stands for.
 */
module DeflateFormat {
  import opened Bytes
  import opened Huffman
  import opened Zlib

  /** A literal byte, or a copy given by its length and distance symbols and their extra bits. */
  datatype Token =
    | Literal(b: Byte)
    | Match(li: nat, lx: nat, di: nat, dx: nat)

  /** A code length, or a run of them. */
  datatype ClOp =
    | OneLength(l: nat)
    | RepeatPrevious(n: nat)
    | ShortZeros(n: nat)
    | LongZeros(n: nat)

  datatype Block =
    | StoredBlock(pad: seq<Bit>, raw: seq<Byte>)
    | FixedBlock(tokens: seq<Token>)
    | DynamicBlock(hlit: nat, hdist: nat, hclen: nat, cl: seq<nat>, ops: seq<ClOp>, tokens: seq<Token>)

  /** Header bytes, blocks, the padding of the last byte, and four checksum bytes. */
  datatype Stream = Stream(cmf: Byte, flg: Byte, blocks: seq<Block>, pad: seq<Bit>, adler: seq<Byte>)

  // ---------- tokens ----------

  ghost predicate WfTables(tb: Tables) {
    && !OverSubscribed(tb.lit) && !OverSubscribed(tb.dist)
    && Used(tb.lit, END_OF_BLOCK)
  }

  /** The token's symbols have codes and its extra bits fit. */
  ghost predicate Encodable(tb: Tables, t: Token) {
    match t
    case Literal(b) => Used(tb.lit, b)
    case Match(li, lx, di, dx) =>
      && li < 29 && lx < Pow2(LengthExtra(li)) && Used(tb.lit, 257 + li)
      && di < 30 && dx < Pow2(DistExtra(di)) && Used(tb.dist, di)
  }

  ghost predicate WfToken(tb: Tables, t: Token, written: nat) {
    && Encodable(tb, t)
    && (t.Match? ==> 1 <= DistBase(t.di) + t.dx <= written)
  }

  function TokenSize(t: Token): nat
    requires t.Match? ==> t.li < 29
  {
    if t.Literal? then 1 else LengthBase(t.li) + t.lx
  }

  ghost predicate WfTokens(tb: Tables, tokens: seq<Token>, written: nat) {
    tokens == [] ||
    (WfToken(tb, tokens[0], written) && WfTokens(tb, tokens[1..], written + TokenSize(tokens[0])))
  }

  function TokenBits(tb: Tables, t: Token): seq<Bit>
    requires Encodable(tb, t)
  {
    match t
    case Literal(b) => SymbolBits(tb.lit, b)
    case Match(li, lx, di, dx) =>
      SymbolBits(tb.lit, 257 + li) + (LsbBits(lx, LengthExtra(li))
      + (SymbolBits(tb.dist, di) + LsbBits(dx, DistExtra(di))))
  }

  /** The tokens of a block and its end-of-block symbol. */
  function TokensBits(tb: Tables, tokens: seq<Token>, written: nat): seq<Bit>
    requires WfTables(tb) && WfTokens(tb, tokens, written)
  {
    if tokens == [] then SymbolBits(tb.lit, END_OF_BLOCK)
    else TokenBits(tb, tokens[0]) + TokensBits(tb, tokens[1..], written + TokenSize(tokens[0]))
  }

  /** A copy repeats the last `dist` bytes periodically, however long it is. */
  function Repeated(out: seq<Byte>, dist: nat, len: nat): (r: seq<Byte>)
    requires 1 <= dist <= |out|
    ensures |r| == len
  {
    seq<Byte>(len, (i: nat) => out[|out| - dist + i % dist])
  }

  function TokenMeaning(tb: Tables, t: Token, out: seq<Byte>): (r: seq<Byte>)
    requires WfToken(tb, t, |out|)
    ensures |r| == |out| + TokenSize(t)
  {
    match t
    case Literal(b) => out + [b]
    case Match(li, lx, di, dx) => out + Repeated(out, DistBase(di) + dx, LengthBase(li) + lx)
  }

  function TokensMeaning(tb: Tables, tokens: seq<Token>, out: seq<Byte>): seq<Byte>
    requires WfTokens(tb, tokens, |out|)
    decreases |tokens|
  {
    if tokens == [] then out else TokensMeaning(tb, tokens[1..], TokenMeaning(tb, tokens[0], out))
  }

  // ---------- code lengths of a dynamic block ----------

  ghost predicate EncodableOp(cl: seq<nat>, op: ClOp) {
    match op
    case OneLength(l) => l < 16 && Used(cl, l)
    case RepeatPrevious(n) => 3 <= n < 7 && Used(cl, 16)
    case ShortZeros(n) => 3 <= n < 11 && Used(cl, 17)
    case LongZeros(n) => 11 <= n < 139 && Used(cl, 18)
  }

  ghost predicate WfOp(cl: seq<nat>, op: ClOp, written: nat) {
    EncodableOp(cl, op) && (op.RepeatPrevious? ==> written > 0)
  }

  function OpBits(cl: seq<nat>, op: ClOp): seq<Bit>
    requires EncodableOp(cl, op)
  {
    match op
    case OneLength(l) => SymbolBits(cl, l)
    case RepeatPrevious(n) => SymbolBits(cl, 16) + LsbBits(n - 3, 2)
    case ShortZeros(n) => SymbolBits(cl, 17) + LsbBits(n - 3, 3)
    case LongZeros(n) => SymbolBits(cl, 18) + LsbBits(n - 11, 7)
  }

  function Expand(op: ClOp, acc: seq<nat>): seq<nat> {
    match op
    case OneLength(l) => acc + [l]
    case RepeatPrevious(n) => acc + seq(n, i => if |acc| > 0 then acc[|acc| - 1] else 0)
    case ShortZeros(n) => acc + seq(n, i => 0)
    case LongZeros(n) => acc + seq(n, i => 0)
  }

  function ExpandAll(ops: seq<ClOp>, acc: seq<nat>): seq<nat>
    decreases |ops|
  {
    if ops == [] then acc else ExpandAll(ops[1..], Expand(ops[0], acc))
  }

  /** The operations produce exactly `total` lengths, and no operation starts after that. */
  ghost predicate WfOps(cl: seq<nat>, ops: seq<ClOp>, acc: seq<nat>, total: nat)
    decreases |ops|
  {
    if ops == [] then |acc| == total
    else |acc| < total && WfOp(cl, ops[0], |acc|) && WfOps(cl, ops[1..], Expand(ops[0], acc), total)
  }

  function OpsBits(cl: seq<nat>, ops: seq<ClOp>, acc: seq<nat>, total: nat): seq<Bit>
    requires WfOps(cl, ops, acc, total)
    decreases |ops|
  {
    if ops == [] then [] else OpBits(cl, ops[0]) + OpsBits(cl, ops[1..], Expand(ops[0], acc), total)
  }

  /** The first `n` code-length code lengths, in transmission order. */
  function ClBits(cl: seq<nat>, n: nat): seq<Bit>
    requires |cl| == 19 && n <= 19
  {
    if n == 0 then [] else ClBits(cl, n - 1) + LsbBits(cl[CL_ORDER[n - 1]], 3)
  }

  // ---------- blocks ----------

  function BlockTables(b: Block): Tables
    requires b.DynamicBlock? ==> b.hlit <= |ExpandAll(b.ops, [])|
  {
    if b.DynamicBlock? then
      var lengths := ExpandAll(b.ops, []);
      Tables(lengths[..b.hlit], lengths[b.hlit..])
    else FixedTables()
  }

  ghost predicate WfDynamicHeader(b: Block)
    requires b.DynamicBlock?
  {
    && 257 <= b.hlit < 289 && 1 <= b.hdist < 33 && 4 <= b.hclen < 20
    && |b.cl| == 19 && (forall i :: 0 <= i < 19 ==> b.cl[i] < 8)
    && (forall i :: b.hclen <= i < 19 ==> b.cl[CL_ORDER[i]] == 0)
    && !OverSubscribed(b.cl)
    && WfOps(b.cl, b.ops, [], b.hlit + b.hdist)
    && b.hlit <= |ExpandAll(b.ops, [])|
  }

  /** A block whose body starts at bit `pos`, after `written` bytes of output. */
  ghost predicate WfBlock(b: Block, pos: nat, written: nat) {
    match b
    case StoredBlock(pad, raw) => (pos + |pad|) % 8 == 0 && |pad| < 8 && |raw| < 0x10000
    case FixedBlock(tokens) => WfTables(FixedTables()) && WfTokens(FixedTables(), tokens, written)
    case DynamicBlock(_, _, _, _, _, tokens) =>
      && WfDynamicHeader(b)
      && WfTables(BlockTables(b))
      && WfTokens(BlockTables(b), tokens, written)
  }

  /** LEN and its ones' complement NLEN, low byte first. */
  function StoredHead(n: nat): seq<Byte>
    requires n < 0x10000
  {
    [n % 256, n / 256, 255 - n % 256, 255 - n / 256]
  }

  function HeaderBits(b: Block): seq<Bit>
    requires b.DynamicBlock? && WfDynamicHeader(b)
  {
    LsbBits(b.hlit - 257, 5) + (LsbBits(b.hdist - 1, 5) + (LsbBits(b.hclen - 4, 4)
    + (ClBits(b.cl, b.hclen) + OpsBits(b.cl, b.ops, [], b.hlit + b.hdist))))
  }

  function BodyBits(b: Block, pos: nat, written: nat): seq<Bit>
    requires WfBlock(b, pos, written)
  {
    match b
    case StoredBlock(pad, raw) =>
      pad + (RawBits(StoredHead(|raw|)) + RawBits(raw))
    case FixedBlock(tokens) => TokensBits(FixedTables(), tokens, written)
    case DynamicBlock(_, _, _, _, _, tokens) =>
      HeaderBits(b) + TokensBits(BlockTables(b), tokens, written)
  }

  function BlockMeaning(b: Block, pos: nat, out: seq<Byte>): seq<Byte>
    requires WfBlock(b, pos, |out|)
  {
    match b
    case StoredBlock(_, raw) => out + raw
    case FixedBlock(tokens) => TokensMeaning(FixedTables(), tokens, out)
    case DynamicBlock(_, _, _, _, _, tokens) => TokensMeaning(BlockTables(b), tokens, out)
  }

  function BlockType(b: Block): nat {
    if b.StoredBlock? then 0 else if b.FixedBlock? then 1 else 2
  }

  /** The bit after a block whose three header bits start at `pos`. */
  function NextPos(b: Block, pos: nat, written: nat): nat
    requires WfBlock(b, pos + 3, written)
  {
    pos + 3 + |BodyBits(b, pos + 3, written)|
  }

  ghost predicate WfBlocks(blocks: seq<Block>, pos: nat, out: seq<Byte>)
    decreases |blocks|
  {
    && |blocks| > 0
    && var b := blocks[0];
    && WfBlock(b, pos + 3, |out|)
    && (|blocks| > 1 ==> WfBlocks(blocks[1..], NextPos(b, pos, |out|), BlockMeaning(b, pos + 3, out)))
  }

  function BlockBits(b: Block, final: Bit, pos: nat, written: nat): (bits: seq<Bit>)
    requires WfBlock(b, pos + 3, written)
    ensures |bits| == NextPos(b, pos, written) - pos
  {
    LsbBits(final, 1) + (LsbBits(BlockType(b), 2) + BodyBits(b, pos + 3, written))
  }

  /** All blocks in a row; only the last one carries the final flag. */
  function BlocksBits(blocks: seq<Block>, pos: nat, out: seq<Byte>): seq<Bit>
    requires WfBlocks(blocks, pos, out)
    decreases |blocks|
  {
    var b := blocks[0];
    if |blocks| == 1 then BlockBits(b, 1, pos, |out|)
    else (BlockBits(b, 0, pos, |out|)
          + BlocksBits(blocks[1..], NextPos(b, pos, |out|), BlockMeaning(b, pos + 3, out)))
  }

  function BlocksMeaning(blocks: seq<Block>, pos: nat, out: seq<Byte>): seq<Byte>
    requires WfBlocks(blocks, pos, out)
    decreases |blocks|
  {
    var b := blocks[0];
    if |blocks| == 1 then BlockMeaning(b, pos + 3, out)
    else BlocksMeaning(blocks[1..], NextPos(b, pos, |out|), BlockMeaning(b, pos + 3, out))
  }

  // ---------- streams ----------

  ghost predicate WfStream(s: Stream) {
    var cmf: int, flg: int := s.cmf, s.flg;
    && cmf % 16 == 8 && (256 * cmf + flg) % 31 == 0 && (flg / 32) % 2 == 0
    && WfBlocks(s.blocks, 16, [])
    && |s.pad| < 8 && (16 + |BlocksBits(s.blocks, 16, [])| + |s.pad|) % 8 == 0
    && |s.adler| == 4
  }

  function StreamBits(s: Stream): seq<Bit>
    requires WfStream(s)
  {
    RawBits([s.cmf, s.flg]) + (BlocksBits(s.blocks, 16, []) + (s.pad + RawBits(s.adler)))
  }

  /** The bytes a stream stands for. */
  function Meaning(s: Stream): seq<Byte>
    requires WfStream(s)
  {
    BlocksMeaning(s.blocks, 16, [])
  }

  /** The bytes a stream occupies. */
  function Length(s: Stream): nat
    requires WfStream(s)
  {
    |StreamBits(s)| / 8
  }

  /** The head of the buffer holds this stream; anything may follow. */
  ghost predicate StartsWith(data: seq<Byte>, s: Stream) {
    WfStream(s) && Holds(data, 0, StreamBits(s))
  }
}
