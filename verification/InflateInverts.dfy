/** The decoder inverts the stream format. */
module InflateInverts {
  import opened Bytes
  import opened Huffman
  import opened Zlib
  import opened DeflateFormat

  // ---------- copies ----------

  lemma {:induction false} CopyBackFrom(out: seq<Byte>, dist: nat, k: nat, len: nat)
    requires 1 <= dist <= |out| && k <= len
    ensures CopyBack(out + Repeated(out, dist, k), dist, len - k) == out + Repeated(out, dist, len)
    decreases len - k
  {
    if k < len {
      var cur := out + Repeated(out, dist, k);
      RepeatedNext(out, dist, k);
      assert cur + [cur[|cur| - dist]] == out + Repeated(out, dist, k + 1);
      CopyBackFrom(out, dist, k + 1, len);
    }
  }

  lemma RepeatedNext(out: seq<Byte>, dist: nat, k: nat)
    requires 1 <= dist <= |out|
    ensures (out + Repeated(out, dist, k))[|out| + k - dist] == Repeated(out, dist, k + 1)[k]
    ensures Repeated(out, dist, k + 1)[..k] == Repeated(out, dist, k)
  {
    if k >= dist {
      assert k % dist == (k - dist) % dist by { ModStep(k, dist); }
    }
  }

  lemma ModStep(k: nat, d: nat)
    requires 1 <= d <= k
    ensures k % d == (k - d) % d
  {
    var q, r := (k - d) / d, (k - d) % d;
    assert k - d == q * d + r;
    assert k == (q + 1) * d + r;
    ModUnique(k, d, q + 1, r);
  }

  lemma ModUnique(k: nat, d: nat, q: nat, r: nat)
    requires d > 0 && k == q * d + r && r < d
    ensures k % d == r
  {
    var q', r' := k / d, k % d;
    assert k == q' * d + r';
    if q > q' {
      AtLeastOne(q, q', d);
    } else if q' > q {
      AtLeastOne(q', q, d);
    }
  }

  lemma AtLeastOne(x: nat, y: nat, d: nat)
    requires x > y
    ensures x * d >= y * d + d
  {
    if x > y + 1 {
      AtLeastOne(x - 1, y, d);
    }
    assert x * d == (x - 1) * d + d;
  }

  /** The byte-by-byte copy, overlapping or not, repeats the last `dist` bytes periodically. */
  lemma CopyBackRepeats(out: seq<Byte>, dist: nat, len: nat)
    requires 1 <= dist <= |out|
    ensures CopyBack(out, dist, len) == out + Repeated(out, dist, len)
  {
    assert out + Repeated(out, dist, 0) == out;
    CopyBackFrom(out, dist, 0, len);
  }

  // ---------- tokens ----------

  lemma LengthRead(data: seq<Byte>, pos: nat, li: nat, lx: nat)
    requires li < 29 && lx < Pow2(LengthExtra(li))
    requires Holds(data, pos, LsbBits(lx, LengthExtra(li)))
    ensures CopyLength(Symbol(257 + li), data, pos) == (Number(LengthBase(li) + lx), pos + LengthExtra(li))
  {
    LsbBitsRead(data, pos, lx, LengthExtra(li));
  }

  lemma DistanceRead(data: seq<Byte>, pos: nat, di: nat, dx: nat)
    requires di < 30 && dx < Pow2(DistExtra(di))
    requires Holds(data, pos, LsbBits(dx, DistExtra(di)))
    ensures CopyDistance(Symbol(di), data, pos) == (Number(DistBase(di) + dx), pos + DistExtra(di))
  {
    LsbBitsRead(data, pos, dx, DistExtra(di));
  }

  ghost predicate ReadsAs(tb: Tables, data: seq<Byte>, pos: nat, out: seq<Byte>, out': seq<Byte>, pos': nat) {
    match Decode(tb.lit, data, pos)
    case BadCode => false
    case Decoded(sym, p) =>
      sym != Symbol(END_OF_BLOCK) && Zlib.Token(tb.dist, data, sym, p, out) == Next(out', pos')
  }

  /** The four fields of a match are where its bits are. */
  lemma MatchFields(data: seq<Byte>, pos: nat, s: seq<Bit>, le: seq<Bit>, d: seq<Bit>, de: seq<Bit>)
    requires Holds(data, pos, s + (le + (d + de)))
    ensures Holds(data, pos, s) && Holds(data, pos + |s|, le)
    ensures Holds(data, pos + |s| + |le|, d) && Holds(data, pos + |s| + |le| + |d|, de)
  {
    hide Holds;
    HoldsSplit(data, pos, s, le + (d + de));
    HoldsSplit(data, pos + |s|, le, d + de);
    HoldsSplit(data, pos + |s| + |le|, d, de);
  }

  /** Two symbols and their extra bits, one behind the other, are read as a copy. */
  lemma MatchDecoded(tb: Tables, data: seq<Byte>, li: nat, lx: nat, di: nat, dx: nat, out: seq<Byte>,
                     p: nat, p1: nat, p2: nat, p3: nat, end: nat)
    requires li < 29 && di < 30 && 1 <= DistBase(di) + dx <= |out|
    requires Decode(tb.lit, data, p) == Decoded(Symbol(257 + li), p1)
    requires CopyLength(Symbol(257 + li), data, p1) == (Number(LengthBase(li) + lx), p2)
    requires Decode(tb.dist, data, p2) == Decoded(Symbol(di), p3)
    requires CopyDistance(Symbol(di), data, p3) == (Number(DistBase(di) + dx), end)
    ensures ReadsAs(tb, data, p, out, out + Repeated(out, DistBase(di) + dx, LengthBase(li) + lx), end)
  {
    hide Decode, CopyLength, CopyDistance, CopyBack, Repeated, LengthBase, DistBase;
    CopyBackRepeats(out, DistBase(di) + dx, LengthBase(li) + lx);
  }

  lemma MatchBitsRead(tb: Tables, data: seq<Byte>, pos: nat, li: nat, lx: nat, di: nat, dx: nat, out: seq<Byte>)
    requires !OverSubscribed(tb.lit) && !OverSubscribed(tb.dist)
    requires li < 29 && lx < Pow2(LengthExtra(li)) && Used(tb.lit, 257 + li)
    requires di < 30 && dx < Pow2(DistExtra(di)) && Used(tb.dist, di) && 1 <= DistBase(di) + dx <= |out|
    requires Holds(data, pos, SymbolBits(tb.lit, 257 + li) + (LsbBits(lx, LengthExtra(li))
      + (SymbolBits(tb.dist, di) + LsbBits(dx, DistExtra(di)))))
    ensures ReadsAs(tb, data, pos, out, out + Repeated(out, DistBase(di) + dx, LengthBase(li) + lx),
      pos + tb.lit[257 + li] + LengthExtra(li) + tb.dist[di] + DistExtra(di))
  {
    hide Holds, LsbBits, Decode, OverSubscribed, Pow2, Repeated, ReadsAs, CopyLength, CopyDistance;
    hide LengthBase, DistBase, LengthExtra, DistExtra;
    var s, d := SymbolBits(tb.lit, 257 + li), SymbolBits(tb.dist, di);
    var le, de := LsbBits(lx, LengthExtra(li)), LsbBits(dx, DistExtra(di));
    hide SymbolBits, Used;
    var p1, p2, p3 := pos + |s|, pos + |s| + |le|, pos + |s| + |le| + |d|;
    MatchFields(data, pos, s, le, d, de);
    DecodeInverts(tb.lit, data, pos, 257 + li);
    LengthRead(data, p1, li, lx);
    DecodeInverts(tb.dist, data, p2, di);
    DistanceRead(data, p3, di, dx);
    MatchDecoded(tb, data, li, lx, di, dx, out, pos, p1, p2, p3, p3 + |de|);
  }

  lemma MatchRead(tb: Tables, t: DeflateFormat.Token, data: seq<Byte>, pos: nat, out: seq<Byte>)
    requires WfTables(tb) && WfToken(tb, t, |out|) && t.Match?
    requires Holds(data, pos, TokenBits(tb, t))
    ensures ReadsAs(tb, data, pos, out, TokenMeaning(tb, t, out), pos + |TokenBits(tb, t)|)
  {
    hide Holds, SymbolBits, LsbBits, Decode, OverSubscribed, Pow2, Repeated, ReadsAs, LengthBase, DistBase, LengthExtra, DistExtra;
    MatchBitsRead(tb, data, pos, t.li, t.lx, t.di, t.dx, out);
  }

  lemma TokenRead(tb: Tables, t: DeflateFormat.Token, data: seq<Byte>, pos: nat, out: seq<Byte>)
    requires WfTables(tb) && WfToken(tb, t, |out|)
    requires Holds(data, pos, TokenBits(tb, t))
    ensures ReadsAs(tb, data, pos, out, TokenMeaning(tb, t, out), pos + |TokenBits(tb, t)|)
    ensures |TokenBits(tb, t)| > 0
  {
    if t.Match? {
      MatchRead(tb, t, data, pos, out);
    } else {
      DecodeInverts(tb.lit, data, pos, t.b);
    }
  }

  lemma TokensStep(tb: Tables, data: seq<Byte>, pos: nat, out: seq<Byte>, out': seq<Byte>, pos': nat)
    requires ReadsAs(tb, data, pos, out, out', pos') && pos < 8 * |data|
    ensures Tokens(tb.lit, tb.dist, data, pos, out) == Tokens(tb.lit, tb.dist, data, pos', out')
  {
  }

  lemma {:induction false} TokensRead(tb: Tables, tokens: seq<DeflateFormat.Token>, data: seq<Byte>, pos: nat, out: seq<Byte>)
    requires WfTables(tb) && WfTokens(tb, tokens, |out|)
    requires Holds(data, pos, TokensBits(tb, tokens, |out|))
    ensures Tokens(tb.lit, tb.dist, data, pos, out)
         == Done(TokensMeaning(tb, tokens, out), pos + |TokensBits(tb, tokens, |out|)|)
    decreases |tokens|
  {
    hide Holds, SymbolBits, LsbBits, Decode, OverSubscribed, TokenBits, Zlib.Token, TokenMeaning;
    if tokens == [] {
      DecodeInverts(tb.lit, data, pos, END_OF_BLOCK);
    } else {
      var t := tokens[0];
      var head := TokenBits(tb, t);
      HoldsSplit(data, pos, head, TokensBits(tb, tokens[1..], |out| + TokenSize(t)));
      TokenRead(tb, t, data, pos, out);
      HoldsInside(data, pos, head);
      TokensStep(tb, data, pos, out, TokenMeaning(tb, t, out), pos + |head|);
      TokensRead(tb, tokens[1..], data, pos + |head|, TokenMeaning(tb, t, out));
    }
  }

  // ---------- dynamic block headers ----------

  /** Where each symbol's length comes in the transmission order. */
  const CL_PLACE: seq<nat> := [3, 17, 15, 13, 11, 9, 7, 5, 4, 6, 8, 10, 12, 14, 16, 18, 0, 1, 2]

  lemma {:induction false} ClLengthsAt(cl: seq<nat>, data: seq<Byte>, pos: nat, n: nat, s: nat)
    requires |cl| == 19 && n <= 19 && s < 19 && (forall i :: 0 <= i < 19 ==> cl[i] < 8)
    requires Holds(data, pos, ClBits(cl, n))
    ensures |ClBits(cl, n)| == 3 * n
    ensures ClLengths(data, pos, n)[s] == if CL_PLACE[s] < n then cl[s] else 0
  {
    hide Holds, LsbBits, BitsAt;
    if n > 0 {
      Pow2Values();
      var at := CL_ORDER[n - 1];
      var bits := LsbBits(cl[at], 3);
      HoldsSplit(data, pos, ClBits(cl, n - 1), bits);
      ClLengthsAt(cl, data, pos, n - 1, s);
      LsbBitsRead(data, pos + 3 * (n - 1), cl[at], 3);
      PlaceInverts(n - 1, s);
    }
  }

  lemma PlaceInverts(i: nat, s: nat)
    requires i < 19 && s < 19
    ensures CL_ORDER[CL_PLACE[s]] == s
    ensures CL_ORDER[i] == s <==> i == CL_PLACE[s]
  {
    assert forall k :: 0 <= k < 19 ==> CL_PLACE[CL_ORDER[k]] == k;
    assert forall k :: 0 <= k < 19 ==> CL_ORDER[CL_PLACE[k]] == k;
  }

  lemma ClLengthsRead(cl: seq<nat>, data: seq<Byte>, pos: nat, n: nat)
    requires |cl| == 19 && n <= 19 && (forall i :: 0 <= i < 19 ==> cl[i] < 8)
    requires forall i :: n <= i < 19 ==> cl[CL_ORDER[i]] == 0
    requires Holds(data, pos, ClBits(cl, n))
    ensures |ClBits(cl, n)| == 3 * n
    ensures ClLengths(data, pos, n) == cl
  {
    forall s | 0 <= s < 19 ensures |ClBits(cl, n)| == 3 * n && ClLengths(data, pos, n)[s] == cl[s] {
      ClLengthsAt(cl, data, pos, n, s);
      PlaceInverts(0, s);
    }
  }

  ghost predicate OpReadsAs(cl: seq<nat>, data: seq<Byte>, pos: nat, acc: seq<nat>, acc': seq<nat>, pos': nat) {
    match Decode(cl, data, pos)
    case BadCode => false
    case Decoded(sym, p) => ClToken(data, sym, p, acc) == (acc', pos')
  }

  lemma OpRead(cl: seq<nat>, op: ClOp, data: seq<Byte>, pos: nat, acc: seq<nat>)
    requires !OverSubscribed(cl) && WfOp(cl, op, |acc|)
    requires Holds(data, pos, OpBits(cl, op))
    ensures OpReadsAs(cl, data, pos, acc, Expand(op, acc), pos + |OpBits(cl, op)|)
  {
    hide Holds, SymbolBits, LsbBits, Decode, OverSubscribed, BitsAt, Pow2, Used;
    Pow2Values();
    match op
    case OneLength(l) =>
      DecodeInverts(cl, data, pos, l);
    case RepeatPrevious(n) =>
      Repeat(cl, data, pos, 16, n - 3, 2);
    case ShortZeros(n) =>
      Repeat(cl, data, pos, 17, n - 3, 3);
    case LongZeros(n) =>
      Repeat(cl, data, pos, 18, n - 11, 7);
  }

  lemma OpsStep(cl: seq<nat>, data: seq<Byte>, pos: nat, acc: seq<nat>, acc': seq<nat>, pos': nat, total: nat)
    requires OpReadsAs(cl, data, pos, acc, acc', pos') && |acc| < total && ShortLengths(acc)
    ensures ShortLengths(acc')
    ensures CodeLengths(cl, data, pos, acc, total) == CodeLengths(cl, data, pos', acc', total)
  {
  }

  lemma Repeat(cl: seq<nat>, data: seq<Byte>, pos: nat, s: nat, v: nat, n: nat)
    requires !OverSubscribed(cl) && Used(cl, s) && v < Pow2(n)
    requires Holds(data, pos, SymbolBits(cl, s) + LsbBits(v, n))
    ensures Decode(cl, data, pos) == Decoded(Symbol(s), pos + cl[s])
    ensures BitsAt(data, pos + cl[s], n) == v
  {
    HoldsSplit(data, pos, SymbolBits(cl, s), LsbBits(v, n));
    DecodeInverts(cl, data, pos, s);
    LsbBitsRead(data, pos + cl[s], v, n);
  }

  lemma {:induction false} OpsRead(cl: seq<nat>, ops: seq<ClOp>, data: seq<Byte>, pos: nat, acc: seq<nat>, total: nat)
    requires !OverSubscribed(cl) && WfOps(cl, ops, acc, total) && ShortLengths(acc)
    requires Holds(data, pos, OpsBits(cl, ops, acc, total))
    ensures CodeLengths(cl, data, pos, acc, total)
         == Next(ExpandAll(ops, acc), pos + |OpsBits(cl, ops, acc, total)|)
    ensures |ExpandAll(ops, acc)| == total
    decreases |ops|
  {
    hide Holds, SymbolBits, LsbBits, Decode, OverSubscribed, OpBits, ClToken, Expand;
    if ops != [] {
      var acc' := Expand(ops[0], acc);
      HoldsSplit(data, pos, OpBits(cl, ops[0]), OpsBits(cl, ops[1..], acc', total));
      OpRead(cl, ops[0], data, pos, acc);
      OpsStep(cl, data, pos, acc, acc', pos + |OpBits(cl, ops[0])|, total);
      OpsRead(cl, ops[1..], data, pos + |OpBits(cl, ops[0])|, acc', total);
    }
  }

  lemma DynamicTablesRead(b: Block, data: seq<Byte>, pos: nat)
    requires b.DynamicBlock? && WfDynamicHeader(b)
    requires Holds(data, pos, HeaderBits(b))
    ensures DynamicTables(data, pos) == Next(BlockTables(b), pos + |HeaderBits(b)|)
  {
    hide Holds, LsbBits, OverSubscribed, ClBits, OpsBits, ClLengths, CodeLengths, ExpandAll, WfOps;
    var f1, f2, f3 := LsbBits(b.hlit - 257, 5), LsbBits(b.hdist - 1, 5), LsbBits(b.hclen - 4, 4);
    var cls, ops := ClBits(b.cl, b.hclen), OpsBits(b.cl, b.ops, [], b.hlit + b.hdist);
    HoldsSplit(data, pos, f1, f2 + (f3 + (cls + ops)));
    HoldsSplit(data, pos + 5, f2, f3 + (cls + ops));
    HoldsSplit(data, pos + 10, f3, cls + ops);
    HoldsSplit(data, pos + 14, cls, ops);
    Pow2Values();
    LsbBitsRead(data, pos, b.hlit - 257, 5);
    LsbBitsRead(data, pos + 5, b.hdist - 1, 5);
    LsbBitsRead(data, pos + 10, b.hclen - 4, 4);
    ClLengthsRead(b.cl, data, pos + 14, b.hclen);
    OpsRead(b.cl, b.ops, data, pos + 14 + 3 * b.hclen, [], b.hlit + b.hdist);
  }

  // ---------- blocks ----------

  lemma StoredRead(b: Block, data: seq<Byte>, pos: nat, out: seq<Byte>)
    requires b.StoredBlock? && WfBlock(b, pos, |out|)
    requires Holds(data, pos, BodyBits(b, pos, |out|))
    ensures Stored(data, pos, out) == Done(out + b.raw, pos + |BodyBits(b, pos, |out|)|)
  {
    hide Holds, RawBits;
    var n := |b.raw|;
    var head: seq<Byte> := StoredHead(n);
    var at := (pos + |b.pad|) / 8;
    HoldsSplit(data, pos, b.pad, RawBits(head) + RawBits(b.raw));
    HoldsSplit(data, 8 * at, RawBits(head), RawBits(b.raw));
    RawBitsRead(data, at, head);
    RawBitsRead(data, at + 4, b.raw);
    assert at == (pos + 7) / 8;
    assert ByteAt(data, at + 0) == head[0] && ByteAt(data, at + 1) == head[1];
    assert ByteAt(data, at + 2) == head[2] && ByteAt(data, at + 3) == head[3];
    assert Word(data, at) == n && Word(data, at + 2) == 0xffff - n;
    assert RawBytes(data, at + 4, n) == b.raw;
  }

  lemma BodyRead(b: Block, data: seq<Byte>, pos: nat, out: seq<Byte>)
    requires WfBlock(b, pos, |out|)
    requires Holds(data, pos, BodyBits(b, pos, |out|))
    ensures Body(BlockType(b), data, pos, out) == Done(BlockMeaning(b, pos, out), pos + |BodyBits(b, pos, |out|)|)
  {
    hide Holds, TokensBits, HeaderBits, WfTables, DynamicTables, Tokens, FixedTables, WfTokens, TokensMeaning;
    match b
    case StoredBlock(pad, raw) =>
      StoredRead(b, data, pos, out);
    case FixedBlock(tokens) =>
      TokensRead(FixedTables(), tokens, data, pos, out);
    case DynamicBlock(_, _, _, _, _, tokens) =>
      var head := HeaderBits(b);
      HoldsSplit(data, pos, head, TokensBits(BlockTables(b), tokens, |out|));
      DynamicTablesRead(b, data, pos);
      TokensRead(BlockTables(b), tokens, data, pos + |head|, out);
  }

  lemma BlockRead(b: Block, final: Bit, data: seq<Byte>, pos: nat, out: seq<Byte>)
    requires WfBlock(b, pos + 3, |out|)
    requires Holds(data, pos, BlockBits(b, final, pos, |out|))
    ensures BitsAt(data, pos, 1) == final
    ensures Body(BitsAt(data, pos + 1, 2), data, pos + 3, out)
         == Done(BlockMeaning(b, pos + 3, out), NextPos(b, pos, |out|))
  {
    hide Holds, WfBlock, BodyBits, Body, BlockMeaning, LsbBits;
    var f, t, body := LsbBits(final, 1), LsbBits(BlockType(b), 2), BodyBits(b, pos + 3, |out|);
    HoldsSplit(data, pos, f, t + body);
    HoldsSplit(data, pos + 1, t, body);
    Pow2Values();
    LsbBitsRead(data, pos, final, 1);
    LsbBitsRead(data, pos + 1, BlockType(b), 2);
    BodyRead(b, data, pos + 3, out);
  }

  lemma {:induction false} BlocksRead(blocks: seq<Block>, data: seq<Byte>, pos: nat, out: seq<Byte>)
    requires WfBlocks(blocks, pos, out)
    requires Holds(data, pos, BlocksBits(blocks, pos, out))
    ensures Blocks(data, pos, out) == Done(BlocksMeaning(blocks, pos, out), pos + |BlocksBits(blocks, pos, out)|)
    decreases |blocks|
  {
    hide Holds, WfBlock, BlockBits, Body, BlockMeaning, BitsAt, NextPos;
    var b := blocks[0];
    if |blocks| == 1 {
      BlockRead(b, 1, data, pos, out);
    } else {
      var out', pos' := BlockMeaning(b, pos + 3, out), NextPos(b, pos, |out|);
      HoldsSplit(data, pos, BlockBits(b, 0, pos, |out|), BlocksBits(blocks[1..], pos', out'));
      BlockRead(b, 0, data, pos, out);
      BlocksRead(blocks[1..], data, pos', out');
    }
  }

  /**
   For every well-formed zlib stream, whatever follows it in the buffer, the decoder returns exactly
   the bytes the stream stands for and consumes exactly the stream. From 2^28 bytes on the program's
   bit position leaves the signed 32-bit range, so longer streams are not promised.
   */
  lemma InflateInvertsFormat(s: Stream, data: seq<Byte>)
    requires StartsWith(data, s) && Length(s) < 0x1000_0000
    ensures Inflate(data) == Ok(Inflated(Meaning(s), Length(s)))
  {
    hide Holds, RawBits, WfBlocks, BlocksBits, Blocks, BlocksMeaning;
    var head: seq<Byte> := [s.cmf, s.flg];
    var body := BlocksBits(s.blocks, 16, []);
    HoldsSplit(data, 0, RawBits(head), body + (s.pad + RawBits(s.adler)));
    HoldsSplit(data, 16, body, s.pad + RawBits(s.adler));
    HoldsInside(data, 0, StreamBits(s));
    RawBitsRead(data, 0, head);
    assert ByteAt(data, 0 + 0) == head[0] && ByteAt(data, 0 + 1) == head[1];
    BlocksRead(s.blocks, data, 16, []);
  }

  // ---------- the fixed tables ----------

  lemma {:induction false} ConstantRun(lens: seq<nat>, from: nat, n: nat, v: nat, l: nat)
    requires from <= n <= |lens| && forall i :: from <= i < n ==> lens[i] == v
    ensures |OfLength(lens, n, l)| == |OfLength(lens, from, l)| + if v == l then n - from else 0
    decreases n
  {
    if from < n {
      ConstantRun(lens, from, n - 1, v, l);
    }
  }

  /** RFC 1951 section 3.2.6. */
  function FixedLength(i: nat): nat {
    if i < 144 then 8 else if i < 256 then 9 else if i < 280 then 7 else 8
  }

  function FixedCount(l: nat): nat {
    if l == 7 then 24 else if l == 8 then 152 else if l == 9 then 112 else 0
  }

  lemma LiteralCounts(lit: seq<nat>, l: nat)
    requires |lit| == 288 && forall i :: 0 <= i < 288 ==> lit[i] == FixedLength(i)
    ensures Count(lit, l) == FixedCount(l)
  {
    assert |OfLength(lit, 0, l)| == 0;
    hide OfLength;
    ConstantRun(lit, 0, 144, 8, l);
    ConstantRun(lit, 144, 256, 9, l);
    ConstantRun(lit, 256, 280, 7, l);
    ConstantRun(lit, 280, 288, 8, l);
  }

  lemma DistanceCounts(dist: seq<nat>, l: nat)
    requires |dist| == 30 && forall i :: 0 <= i < 30 ==> dist[i] == 5
    ensures Count(dist, l) == if l == 5 then 30 else 0
  {
    assert |OfLength(dist, 0, l)| == 0;
    hide OfLength;
    ConstantRun(dist, 0, 30, 5, l);
  }

  lemma {:induction false} NoCodesBetween(lens: seq<nat>, l: nat, m: nat)
    requires l <= m <= MAXBITS
    requires forall k :: l < k <= m ==> Count(lens, k) == 0
    ensures Kraft(lens, m) == Kraft(lens, l)
  {
    if l < m {
      NoCodesBetween(lens, l, m - 1);
    }
  }

  lemma LiteralKraft(lit: seq<nat>)
    requires forall l :: 0 < l <= MAXBITS ==> Count(lit, l) == FixedCount(l)
    ensures Kraft(lit, MAXBITS) == 32768
  {
    hide Count;
    NoCodesBetween(lit, 0, 6);
    NoCodesBetween(lit, 9, MAXBITS);
    Pow2Values();
    assert Kraft(lit, 7) == 24 * 256;
    assert Kraft(lit, 8) == Kraft(lit, 7) + 152 * 128;
    assert Kraft(lit, 9) == Kraft(lit, 8) + 112 * 64;
  }

  lemma DistanceKraft(dist: seq<nat>)
    requires forall l :: 0 < l <= MAXBITS ==> Count(dist, l) == if l == 5 then 30 else 0
    ensures Kraft(dist, MAXBITS) == 30 * 1024
  {
    hide Count;
    NoCodesBetween(dist, 0, 4);
    NoCodesBetween(dist, 5, MAXBITS);
    Pow2Adds(5, 5);
    Pow2Values();
    assert Kraft(dist, 5) == 30 * 1024;
  }

  lemma FixedShape()
    ensures |FixedTables().lit| == 288 && forall i :: 0 <= i < 288 ==> FixedTables().lit[i] == FixedLength(i)
    ensures |FixedTables().dist| == 30 && forall i :: 0 <= i < 30 ==> FixedTables().dist[i] == 5
  {
  }

  lemma LiteralComplete(lit: seq<nat>)
    requires |lit| == 288 && forall i :: 0 <= i < 288 ==> lit[i] == FixedLength(i)
    ensures Kraft(lit, MAXBITS) == 32768
  {
    hide OfLength, Count, Kraft;
    forall l: nat ensures Count(lit, l) == FixedCount(l) {
      LiteralCounts(lit, l);
    }
    LiteralKraft(lit);
  }

  lemma DistanceIncomplete(dist: seq<nat>)
    requires |dist| == 30 && forall i :: 0 <= i < 30 ==> dist[i] == 5
    ensures Kraft(dist, MAXBITS) == 30 * 1024
  {
    hide OfLength, Count, Kraft;
    forall l: nat ensures Count(dist, l) == if l == 5 then 30 else 0 {
      DistanceCounts(dist, l);
    }
    DistanceKraft(dist);
  }

  /** Block type 1 is decodable: its literal code is complete and its distance code incomplete. */
  lemma FixedTablesWf()
    ensures WfTables(FixedTables())
    ensures Kraft(FixedTables().lit, MAXBITS) == Pow2(MAXBITS)
    ensures Kraft(FixedTables().dist, MAXBITS) < Pow2(MAXBITS)
  {
    hide OfLength, Count, Kraft, FixedTables, Pow2;
    FixedShape();
    LiteralComplete(FixedTables().lit);
    DistanceIncomplete(FixedTables().dist);
    Pow2Adds(8, 7);
    Pow2Values();
  }
}
