/** On which inputs the decoder returns: what happens when it reads past the end of its buffer. */
module InflateReturns {
  import opened Bytes
  import opened Wrappers
  import opened Huffman
  import opened Zlib
  import opened InflateInverts

  // ---------- past the end every bit is 0 ----------

  lemma {:induction false} PastEndAlike(lens: seq<nat>, data: seq<Byte>, p: nat, other: seq<Byte>, q: nat,
                                        len: nat, code: nat, first: nat, index: nat)
    requires p >= 8 * |data| && q >= 8 * |other|
    ensures match DecodeFrom(lens, data, p, len, code, first, index)
            case BadCode => DecodeFrom(lens, other, q, len, code, first, index) == BadCode
            case Decoded(sym, next) => DecodeFrom(lens, other, q, len, code, first, index) == Decoded(sym, q + (next - p))
    decreases MAXBITS + 1 - len
  {
    if len <= MAXBITS {
      BitPastEnd(data, p);
      BitPastEnd(other, q);
      PastEndAlike(lens, data, p + 1, other, q + 1, len + 1, 2 * code, 2 * (first + Count(lens, len)), index + Count(lens, len));
    }
  }

  /** What the all-zero code stands for, and its length. */
  function ZeroCode(lens: seq<nat>): Decoded {
    Decode(lens, [], 0)
  }

  lemma ZeroCodeRead(lens: seq<nat>, data: seq<Byte>, p: nat)
    requires p >= 8 * |data|
    ensures match ZeroCode(lens)
            case BadCode => Decode(lens, data, p) == BadCode
            case Decoded(sym, n) => Decode(lens, data, p) == Decoded(sym, p + n)
  {
    PastEndAlike(lens, [], 0, data, p, 1, 0, 0, 0);
  }

  lemma {:induction false} NoneShorter(lens: seq<nat>, l: nat)
    requires l >= 1 && forall k :: 1 <= k < l ==> Count(lens, k) == 0
    ensures Index(lens, l) == 0
  {
    if l > 1 {
      NoneShorter(lens, l - 1);
    }
  }

  lemma {:induction false} ZeroCodeFrom(lens: seq<nat>, l: nat, k: nat)
    requires 1 <= k <= l <= MAXBITS && Count(lens, l) > 0 && forall j :: 1 <= j < l ==> Count(lens, j) == 0
    ensures DecodeFrom(lens, [], k - 1, k, 0, 0, 0) == Decoded(Symbol(OfLength(lens, |lens|, l)[0]), l)
    decreases l - k
  {
    BitPastEnd([], k - 1);
    if k < l {
      ZeroCodeFrom(lens, l, k + 1);
    } else {
      NoneShorter(lens, l);
      TableSlice(lens, MAXBITS, l, 0);
    }
    hide OfLength, Table, Index, BitAt;
  }

  /** It stands for the first symbol of the shortest length in use. */
  lemma ZeroCodeIs(lens: seq<nat>, l: nat)
    requires 1 <= l <= MAXBITS && Count(lens, l) > 0 && forall k :: 1 <= k < l ==> Count(lens, k) == 0
    ensures ZeroCode(lens) == Decoded(Symbol(OfLength(lens, |lens|, l)[0]), l)
  {
    ZeroCodeFrom(lens, l, 1);
  }

  // ---------- the symbol loop ----------

  /** A distance read past the end is no error. */
  predicate DistanceReads(dist: seq<nat>, written: nat) {
    match ZeroCode(dist)
    case BadCode => false
    case Decoded(sym, _) => sym.Symbol? && sym.index < 30 ==> DistBase(sym.index) <= written
  }

  /** The all-zero code neither ends the block nor leads to an error. */
  predicate Endless(lit: seq<nat>, dist: seq<nat>, written: nat) {
    match ZeroCode(lit)
    case BadCode => false
    case Decoded(sym, _) => sym != Symbol(END_OF_BLOCK) && ((sym.Symbol? && sym.index < 256) || DistanceReads(dist, written))
  }

  lemma LengthPastEnd(sym: Symbol, data: seq<Byte>, p: nat)
    requires p >= 8 * |data|
    ensures CopyLength(sym, data, p).0
         == if sym.Symbol? && 257 <= sym.index < 286 then Number(LengthBase(sym.index - 257)) else NaN
    ensures CopyLength(sym, data, p).1 >= p
  {
    if sym.Symbol? && 257 <= sym.index < 286 {
      BitsPastEnd(data, p, LengthExtra(sym.index - 257));
    }
  }

  lemma DistancePastEnd(sym: Symbol, data: seq<Byte>, p: nat)
    requires p >= 8 * |data|
    ensures CopyDistance(sym, data, p).0 == if sym.Symbol? && sym.index < 30 then Number(DistBase(sym.index)) else NaN
  {
    if sym.Symbol? && sym.index < 30 {
      BitsPastEnd(data, p, DistExtra(sym.index));
    }
  }

  lemma TokenPastEnd(dist: seq<nat>, data: seq<Byte>, sym: Symbol, p: nat, out: seq<Byte>)
    requires p >= 8 * |data|
    ensures Zlib.Token(dist, data, sym, p, out).Next? <==> (sym.Symbol? && sym.index < 256) || DistanceReads(dist, |out|)
  {
    hide Decode, CopyLength, CopyDistance, Copy, DistBase;
    LengthPastEnd(sym, data, p);
    var p1 := CopyLength(sym, data, p).1;
    ZeroCodeRead(dist, data, p1);
    if Decode(dist, data, p1).Decoded? {
      DistancePastEnd(Decode(dist, data, p1).sym, data, Decode(dist, data, p1).next);
    }
  }

  /** Past the end the loop diverges exactly when the all-zero codes keep it going. */
  lemma PastEndIff(lit: seq<nat>, dist: seq<nat>, data: seq<Byte>, pos: nat, out: seq<Byte>)
    requires pos >= 8 * |data|
    ensures Tokens(lit, dist, data, pos, out).Diverges? <==> Endless(lit, dist, |out|)
  {
    hide Decode, ZeroCode, Zlib.Token, DistanceReads;
    ZeroCodeRead(lit, data, pos);
    if ZeroCode(lit).Decoded? {
      TokenPastEnd(dist, data, ZeroCode(lit).sym, pos + ZeroCode(lit).next, out);
    }
  }

  /** A pass of the loop that starts past the end and does not leave it. */
  ghost predicate Stuck(lit: seq<nat>, dist: seq<nat>, data: seq<Byte>, pos: nat, out: seq<Byte>) {
    && pos >= 8 * |data|
    && match Decode(lit, data, pos)
       case BadCode => false
       case Decoded(sym, p) => sym != Symbol(END_OF_BLOCK) && Zlib.Token(dist, data, sym, p, out).Next?
  }

  /** The state after that pass. */
  function Pass(lit: seq<nat>, dist: seq<nat>, data: seq<Byte>, pos: nat, out: seq<Byte>): (nat, seq<Byte>)
    requires Stuck(lit, dist, data, pos, out)
  {
    var d := Decode(lit, data, pos);
    var t := Zlib.Token(dist, data, d.sym, d.next, out);
    (t.pos, t.value)
  }

  lemma StuckIff(lit: seq<nat>, dist: seq<nat>, data: seq<Byte>, pos: nat, out: seq<Byte>)
    requires pos >= 8 * |data|
    ensures Stuck(lit, dist, data, pos, out) <==> Endless(lit, dist, |out|)
  {
    hide Decode, ZeroCode, Zlib.Token, DistanceReads;
    ZeroCodeRead(lit, data, pos);
    if ZeroCode(lit).Decoded? {
      TokenPastEnd(dist, data, ZeroCode(lit).sym, pos + ZeroCode(lit).next, out);
    }
  }

  lemma OutGrows(dist: seq<nat>, data: seq<Byte>, sym: Symbol, pos: nat, out: seq<Byte>)
    requires Zlib.Token(dist, data, sym, pos, out).Next?
    ensures |Zlib.Token(dist, data, sym, pos, out).value| >= |out|
  {
  }

  lemma EndlessGrows(lit: seq<nat>, dist: seq<nat>, n: nat, m: nat)
    requires Endless(lit, dist, n) && n <= m
    ensures Endless(lit, dist, m)
  {
    hide ZeroCode, DistBase;
  }

  /** Each such pass is followed by another: what `Diverges` stands for. */
  lemma PastEndLoops(lit: seq<nat>, dist: seq<nat>, data: seq<Byte>, pos: nat, out: seq<Byte>)
    requires Stuck(lit, dist, data, pos, out)
    ensures Tokens(lit, dist, data, pos, out).Diverges?
    ensures var (p, o) := Pass(lit, dist, data, pos, out); p > pos && Stuck(lit, dist, data, p, o)
  {
    var d := Decode(lit, data, pos);
    var (p, o) := Pass(lit, dist, data, pos, out);
    OutGrows(dist, data, d.sym, d.next, out);
    StuckIff(lit, dist, data, pos, out);
    EndlessGrows(lit, dist, |out|, |o|);
    StuckIff(lit, dist, data, p, o);
    hide Decode, Zlib.Token, Endless;
  }

  /** How much is written when the loop first starts a pass past the end, if it gets there. */
  ghost function Reached(lit: seq<nat>, dist: seq<nat>, data: seq<Byte>, pos: nat, out: seq<Byte>): Option<nat>
    decreases 8 * |data| - pos
  {
    if pos >= 8 * |data| then Some(|out|)
    else match Decode(lit, data, pos)
      case BadCode => None
      case Decoded(sym, p1) =>
        if sym == Symbol(END_OF_BLOCK) then None
        else match Zlib.Token(dist, data, sym, p1, out)
          case Fail(_) => None
          case Next(out', p2) => Reached(lit, dist, data, p2, out')
  }

  /** A block diverges exactly when its loop gets past the end and the all-zero codes keep it there. */
  lemma {:induction false} TokensDivergeIff(lit: seq<nat>, dist: seq<nat>, data: seq<Byte>, pos: nat, out: seq<Byte>)
    ensures var r := Reached(lit, dist, data, pos, out);
      Tokens(lit, dist, data, pos, out).Diverges? <==> r.Some? && Endless(lit, dist, r.value)
    decreases 8 * |data| - pos
  {
    hide Endless, Zlib.Token;
    if pos >= 8 * |data| {
      PastEndIff(lit, dist, data, pos, out);
    } else {
      var d := Decode(lit, data, pos);
      if d.Decoded? && d.sym != Symbol(END_OF_BLOCK) {
        var t := Zlib.Token(dist, data, d.sym, d.next, out);
        if t.Next? {
          TokensDivergeIff(lit, dist, data, t.pos, t.value);
        }
      }
      hide Decode;
    }
  }

  /** The all-zero code ends the block, or is no code at all. */
  predicate ZerosEnd(lit: seq<nat>) {
    ZeroCode(lit).BadCode? || ZeroCode(lit).sym == Symbol(END_OF_BLOCK)
  }

  /** Then the loop never diverges, wherever it starts. */
  lemma ZerosEndReturns(lit: seq<nat>, dist: seq<nat>, data: seq<Byte>, pos: nat, out: seq<Byte>)
    requires ZerosEnd(lit)
    ensures !Tokens(lit, dist, data, pos, out).Diverges?
  {
    TokensDivergeIff(lit, dist, data, pos, out);
    hide Tokens, Reached, ZeroCode;
  }

  lemma FixedZeros(lit: seq<nat>)
    requires |lit| == 288 && forall i :: 0 <= i < 288 ==> lit[i] == FixedLength(i)
    ensures ZeroCode(lit) == Decoded(Symbol(END_OF_BLOCK), 7)
  {
    hide ZeroCode, Count, OfLength;
    forall l: nat ensures Count(lit, l) == FixedCount(l) {
      LiteralCounts(lit, l);
    }
    ZeroCodeIs(lit, 7);
    RankOf(lit, END_OF_BLOCK);
    NoneOfLength(lit);
  }

  lemma NoneOfLength(lit: seq<nat>)
    requires |lit| == 288 && forall i :: 0 <= i < 288 ==> lit[i] == FixedLength(i)
    ensures |OfLength(lit, 256, 7)| == 0
  {
    assert |OfLength(lit, 0, 7)| == 0;
    hide OfLength;
    ConstantRun(lit, 0, 144, 8, 7);
    ConstantRun(lit, 144, 256, 9, 7);
  }

  // ---------- whole buffers ----------

  /** The block at `pos` is a dynamic one whose loop gets past the end for ever. */
  ghost predicate Sticks(data: seq<Byte>, pos: nat, out: seq<Byte>) {
    && BitsAt(data, pos + 1, 2) == 2
    && DynamicTables(data, pos + 3).Next?
    && var t := DynamicTables(data, pos + 3);
       var r := Reached(t.value.lit, t.value.dist, data, t.pos, out);
       r.Some? && Endless(t.value.lit, t.value.dist, r.value)
  }

  /** Some block from `pos` on does. */
  ghost predicate SomeSticks(data: seq<Byte>, pos: nat, out: seq<Byte>)
    decreases 8 * |data| - pos
  {
    var body := Body(BitsAt(data, pos + 1, 2), data, pos + 3, out);
    Sticks(data, pos, out)
    || (body.Done? && BitsAt(data, pos, 1) != 1
        && (BlockAdvances(data, pos, out); SomeSticks(data, body.pos, body.out)))
  }

  lemma BodyDivergesIff(data: seq<Byte>, pos: nat, out: seq<Byte>)
    ensures Body(BitsAt(data, pos + 1, 2), data, pos + 3, out).Diverges? <==> Sticks(data, pos, out)
  {
    hide BitsAt, Tokens, Reached, Endless, DynamicTables, FixedTables, ZeroCode;
    var btype := BitsAt(data, pos + 1, 2);
    if btype == 1 {
      FixedShape();
      FixedZeros(FixedTables().lit);
      ZerosEndReturns(FixedTables().lit, FixedTables().dist, data, pos + 3, out);
    } else if btype == 2 && DynamicTables(data, pos + 3).Next? {
      var t := DynamicTables(data, pos + 3);
      TokensDivergeIff(t.value.lit, t.value.dist, data, t.pos, out);
    }
  }

  lemma {:induction false} BlocksDivergeIff(data: seq<Byte>, pos: nat, out: seq<Byte>)
    ensures Blocks(data, pos, out).Diverges? <==> SomeSticks(data, pos, out)
    decreases 8 * |data| - pos
  {
    hide BitsAt, Body, Sticks;
    BodyDivergesIff(data, pos, out);
    var body := Body(BitsAt(data, pos + 1, 2), data, pos + 3, out);
    if body.Done? && BitsAt(data, pos, 1) != 1 {
      BlockAdvances(data, pos, out);
      BlocksDivergeIff(data, body.pos, body.out);
    }
  }

  /** The decoder gets as far as the blocks. */
  predicate HeaderPasses(data: seq<Byte>) {
    var cmf: int, flg: int := ByteAt(data, 0), ByteAt(data, 1);
    |data| >= 6 && cmf % 16 == 8 && (256 * cmf + flg) % 31 == 0 && (flg / 32) % 2 == 0
  }

  /**
   Exactly when the decoder does not return: some dynamic block runs past the end of the buffer, and its
   all-zero codes are neither the end of the block nor an error.
   */
  lemma NeverReturnsIff(data: seq<Byte>)
    ensures Inflate(data).NeverReturns? <==> HeaderPasses(data) && SomeSticks(data, 16, [])
  {
    hide Blocks, SomeSticks;
    BlocksDivergeIff(data, 16, []);
  }

  /** Every dynamic block from `pos` on ends at the all-zero code. */
  ghost predicate AllEnd(data: seq<Byte>, pos: nat, out: seq<Byte>)
    decreases 8 * |data| - pos
  {
    var body := Body(BitsAt(data, pos + 1, 2), data, pos + 3, out);
    && (BitsAt(data, pos + 1, 2) == 2 && DynamicTables(data, pos + 3).Next? ==> ZerosEnd(DynamicTables(data, pos + 3).value.lit))
    && (body.Done? && BitsAt(data, pos, 1) != 1 ==>
        (BlockAdvances(data, pos, out); AllEnd(data, body.pos, body.out)))
  }

  lemma {:induction false} NoneSticks(data: seq<Byte>, pos: nat, out: seq<Byte>)
    requires AllEnd(data, pos, out)
    ensures !SomeSticks(data, pos, out)
    decreases 8 * |data| - pos
  {
    hide BitsAt, Body, Reached, DynamicTables, ZeroCode;
    var body := Body(BitsAt(data, pos + 1, 2), data, pos + 3, out);
    if body.Done? && BitsAt(data, pos, 1) != 1 {
      BlockAdvances(data, pos, out);
      NoneSticks(data, body.pos, body.out);
    }
  }

  /** So the decoder returns on every buffer, whole or cut off, whose dynamic blocks, if any, end at it. */
  lemma AllEndReturns(data: seq<Byte>)
    requires AllEnd(data, 16, [])
    ensures !Inflate(data).NeverReturns?
  {
    NoneSticks(data, 16, []);
    NeverReturnsIff(data);
    hide Inflate, SomeSticks, AllEnd;
  }
}
