/**
 The zlib/DEFLATE decoder `inflateWithBounds`: what it computes on every input, and the method that
 computes it.
 */
module Zlib {
  import opened Bytes
  import opened Huffman
  import opened Wrappers

  datatype Error =
    | TooShort
    | BadHeader
    | PresetDictionary
    | StoredMismatch
    | BadBlockType
    | InvalidCode
    | DistanceBeforeStart

  const CL_ORDER: seq<nat> := [16, 17, 18, 0, 8, 7, 9, 6, 10, 5, 11, 4, 12, 3, 13, 2, 14, 1, 15]

  // ---------- symbols, lengths and distances ----------

  /** The extra bits of length symbol `257 + li`. */
  function LengthExtra(li: nat): nat {
    if li < 8 || li >= 28 then 0 else (li - 4) / 4
  }

  /** Each length symbol continues where the previous one ends; the last one is 258. */
  function LengthBase(li: nat): nat {
    if li == 0 then 3 else if li == 28 then 258 else LengthBase(li - 1) + Pow2(LengthExtra(li - 1))
  }

  function DistExtra(di: nat): nat {
    if di < 4 then 0 else (di - 2) / 2
  }

  /** Each distance symbol continues where the previous one ends. */
  function DistBase(di: nat): (b: nat)
    ensures b >= 1
  {
    if di == 0 then 1 else DistBase(di - 1) + Pow2(DistExtra(di - 1))
  }

  /** The four tables of the program, entry by entry. */
  lemma LengthTable()
    ensures LengthBase(0) == 3 && LengthBase(1) == 4 && LengthBase(2) == 5 && LengthBase(3) == 6 && LengthBase(4) == 7 && LengthBase(5) == 8
    ensures LengthBase(6) == 9 && LengthBase(7) == 10 && LengthBase(8) == 11 && LengthBase(9) == 13 && LengthBase(10) == 15 && LengthBase(11) == 17
    ensures LengthBase(12) == 19 && LengthBase(13) == 23 && LengthBase(14) == 27 && LengthBase(15) == 31 && LengthBase(16) == 35 && LengthBase(17) == 43
    ensures LengthBase(18) == 51 && LengthBase(19) == 59 && LengthBase(20) == 67 && LengthBase(21) == 83 && LengthBase(22) == 99 && LengthBase(23) == 115
    ensures LengthBase(24) == 131 && LengthBase(25) == 163 && LengthBase(26) == 195 && LengthBase(27) == 227 && LengthBase(28) == 258
    ensures LengthExtra(0) == 0 && LengthExtra(1) == 0 && LengthExtra(2) == 0 && LengthExtra(3) == 0 && LengthExtra(4) == 0 && LengthExtra(5) == 0
    ensures LengthExtra(6) == 0 && LengthExtra(7) == 0 && LengthExtra(8) == 1 && LengthExtra(9) == 1 && LengthExtra(10) == 1 && LengthExtra(11) == 1
    ensures LengthExtra(12) == 2 && LengthExtra(13) == 2 && LengthExtra(14) == 2 && LengthExtra(15) == 2 && LengthExtra(16) == 3 && LengthExtra(17) == 3
    ensures LengthExtra(18) == 3 && LengthExtra(19) == 3 && LengthExtra(20) == 4 && LengthExtra(21) == 4 && LengthExtra(22) == 4 && LengthExtra(23) == 4
    ensures LengthExtra(24) == 5 && LengthExtra(25) == 5 && LengthExtra(26) == 5 && LengthExtra(27) == 5 && LengthExtra(28) == 0
  {
  }

  lemma DistTable()
    ensures DistBase(0) == 1 && DistBase(1) == 2 && DistBase(2) == 3 && DistBase(3) == 4 && DistBase(4) == 5 && DistBase(5) == 7
    ensures DistBase(6) == 9 && DistBase(7) == 13 && DistBase(8) == 17 && DistBase(9) == 25 && DistBase(10) == 33 && DistBase(11) == 49
    ensures DistBase(12) == 65 && DistBase(13) == 97 && DistBase(14) == 129 && DistBase(15) == 193 && DistBase(16) == 257 && DistBase(17) == 385
    ensures DistBase(18) == 513 && DistBase(19) == 769 && DistBase(20) == 1025 && DistBase(21) == 1537 && DistBase(22) == 2049 && DistBase(23) == 3073
    ensures DistBase(24) == 4097 && DistBase(25) == 6145 && DistBase(26) == 8193 && DistBase(27) == 12289 && DistBase(28) == 16385 && DistBase(29) == 24577
    ensures DistExtra(0) == 0 && DistExtra(1) == 0 && DistExtra(2) == 0 && DistExtra(3) == 0 && DistExtra(4) == 1 && DistExtra(5) == 1
    ensures DistExtra(6) == 2 && DistExtra(7) == 2 && DistExtra(8) == 3 && DistExtra(9) == 3 && DistExtra(10) == 4 && DistExtra(11) == 4
    ensures DistExtra(12) == 5 && DistExtra(13) == 5 && DistExtra(14) == 6 && DistExtra(15) == 6 && DistExtra(16) == 7 && DistExtra(17) == 7
    ensures DistExtra(18) == 8 && DistExtra(19) == 8 && DistExtra(20) == 9 && DistExtra(21) == 9 && DistExtra(22) == 10 && DistExtra(23) == 10
    ensures DistExtra(24) == 11 && DistExtra(25) == 11 && DistExtra(26) == 12 && DistExtra(27) == 12 && DistExtra(28) == 13 && DistExtra(29) == 13
  {
  }

  /** The outcome of one step: a value and the next bit position, or an error. */
  datatype Step<T> = Next(value: T, pos: nat) | Fail(error: Error)

  /** The JavaScript value of a copy length or distance: a number, or `NaN` from a missing table entry. */
  datatype Number = Number(n: nat) | NaN

  /** Copies `len` bytes from `dist` back, one at a time, so the source may overlap the target. */
  function CopyBack(out: seq<Byte>, dist: nat, len: nat): (r: seq<Byte>)
    requires 1 <= dist <= |out|
    ensures |r| == |out| + len
    decreases len
  {
    if len == 0 then out else CopyBack(out + [out[|out| - dist]], dist, len - 1)
  }

  /** The base of a length symbol plus its extra bits; symbols without a base entry give `NaN`. */
  function CopyLength(sym: Symbol, data: seq<Byte>, pos: nat): (Number, nat) {
    if sym.Symbol? && 257 <= sym.index < 286 then
      var li := sym.index - 257;
      (Number(LengthBase(li) + BitsAt(data, pos, LengthExtra(li))), pos + LengthExtra(li))
    else (NaN, pos)
  }

  function CopyDistance(sym: Symbol, data: seq<Byte>, pos: nat): (r: (Number, nat))
    ensures r.0.Number? ==> r.0.n >= 1
    ensures r.1 >= pos
  {
    if sym.Symbol? && sym.index < 30 then
      (Number(DistBase(sym.index) + BitsAt(data, pos, DistExtra(sym.index))), pos + DistExtra(sym.index))
    else (NaN, pos)
  }

  /**
   The copy loop for any length and distance. A `NaN` length copies nothing; a `NaN` distance reads
   `undefined`, stored as 0, for every byte of the length.
   */
  function Copy(out: seq<Byte>, length: Number, distance: Number): seq<Byte>
    requires distance.Number? ==> 1 <= distance.n <= |out|
  {
    if length.NaN? then out
    else if distance.NaN? then out + Zeros(length.n)
    else CopyBack(out, distance.n, length.n)
  }

  /** One symbol of a compressed block other than the end-of-block symbol. */
  function Token(dist: seq<nat>, data: seq<Byte>, sym: Symbol, pos: nat, out: seq<Byte>): (r: Step<seq<Byte>>)
    ensures r.Next? ==> pos <= r.pos
  {
    if sym.Symbol? && sym.index < 256 then Next(out + [sym.index], pos)
    else
      var (length, p1) := CopyLength(sym, data, pos);
      match Decode(dist, data, p1)
      case BadCode => Fail(InvalidCode)
      case Decoded(dsym, p2) =>
        var (distance, p3) := CopyDistance(dsym, data, p2);
        if distance.Number? && distance.n > |out| then Fail(DistanceBeforeStart)
        else Next(Copy(out, length, distance), p3)
  }

  // ---------- whole blocks ----------

  /** `Diverges` marks inputs on which the program never leaves its symbol loop. */
  datatype Run = Done(out: seq<Byte>, pos: nat) | Error(error: Error) | Diverges

  const END_OF_BLOCK := 256

  /**
   The symbol loop of a compressed block. Past the end of the input every bit reads 0, so a symbol
   decoded there that neither ends the block nor fails is decoded again forever (`InflateReturns.PastEndLoops`).
   */
  function Tokens(lit: seq<nat>, dist: seq<nat>, data: seq<Byte>, pos: nat, out: seq<Byte>): (r: Run)
    ensures r.Done? ==> pos < r.pos
    decreases 8 * |data| - pos
  {
    match Decode(lit, data, pos)
    case BadCode => Error(InvalidCode)
    case Decoded(sym, p1) =>
      if sym == Symbol(END_OF_BLOCK) then Done(out, p1)
      else match Token(dist, data, sym, p1, out)
        case Fail(e) => Error(e)
        case Next(out', p2) =>
          if pos >= 8 * |data| then Diverges else Tokens(lit, dist, data, p2, out')
  }

  function Word(data: seq<Byte>, at: nat): nat {
    var low: int, high: int := ByteAt(data, at), ByteAt(data, at + 1);
    low + 256 * high
  }

  function RawBytes(data: seq<Byte>, at: nat, len: nat): (r: seq<Byte>)
    ensures |r| == len
  {
    seq<Byte>(len, (i: nat) => ByteAt(data, at + i))
  }

  /** A stored block: skip to a byte boundary, LEN, NLEN, then LEN raw bytes. */
  function Stored(data: seq<Byte>, pos: nat, out: seq<Byte>): (r: Run)
    ensures r.Done? ==> pos <= r.pos && pos < 8 * |data|
  {
    var at := (pos + 7) / 8;
    var len := Word(data, at);
    var nlen := Word(data, at + 2);
    if 0xffff - len != nlen then Error(StoredMismatch)
    else Done(out + RawBytes(data, at + 4, len), (at + 4 + len) * 8)
  }

  /** The code lengths of the code-length code, in the order the format lists them. */
  function ClLengths(data: seq<Byte>, pos: nat, n: nat): (cl: seq<nat>)
    requires n <= 19
    ensures |cl| == 19
    ensures forall i :: 0 <= i < 19 ==> cl[i] < 8
  {
    if n == 0 then seq(19, i => 0)
    else
      BitsAtBound(data, pos + 3 * (n - 1), 3);
      ClLengths(data, pos, n - 1)[CL_ORDER[n - 1] := BitsAt(data, pos + 3 * (n - 1), 3)]
  }

  /** What one code-length symbol appends; `undefined` before the first length counts as 0. */
  function ClToken(data: seq<Byte>, sym: Symbol, pos: nat, acc: seq<nat>): (r: (seq<nat>, nat))
    ensures |r.0| > |acc| && r.1 >= pos
  {
    if sym.Symbol? && sym.index < 16 then (acc + [sym.index], pos)
    else if sym == Symbol(16) then
      var prev := if |acc| > 0 then acc[|acc| - 1] else 0;
      (acc + seq(3 + BitsAt(data, pos, 2), i => prev), pos + 2)
    else if sym == Symbol(17) then (acc + seq(3 + BitsAt(data, pos, 3), i => 0), pos + 3)
    else (acc + seq(11 + BitsAt(data, pos, 7), i => 0), pos + 7)
  }

  function CodeLengths(cl: seq<nat>, data: seq<Byte>, pos: nat, acc: seq<nat>, total: nat): (r: Step<seq<nat>>)
    requires ShortLengths(acc)
    ensures r.Next? ==> |r.value| >= total && ShortLengths(r.value) && r.pos >= pos
    decreases total - |acc|
  {
    if |acc| >= total then Next(acc, pos)
    else match Decode(cl, data, pos)
      case BadCode => Fail(InvalidCode)
      case Decoded(sym, p1) =>
        var (acc', p2) := ClToken(data, sym, p1, acc);
        CodeLengths(cl, data, p2, acc', total)
  }

  datatype Tables = Tables(lit: seq<nat>, dist: seq<nat>)

  function FixedTables(): (t: Tables)
    ensures ShortLengths(t.lit) && ShortLengths(t.dist)
  {
    Tables(seq(144, i => 8) + seq(112, i => 9) + seq(24, i => 7) + seq(8, i => 8), seq(30, i => 5))
  }

  function TablesFrom(data: seq<Byte>, pos: nat, hlit: nat, hdist: nat, hclen: nat): (r: Step<Tables>)
    requires hclen <= 19
    ensures r.Next? ==> ShortLengths(r.value.lit) && ShortLengths(r.value.dist) && r.pos >= pos
  {
    match CodeLengths(ClLengths(data, pos, hclen), data, pos + 3 * hclen, [], hlit + hdist)
    case Fail(e) => Fail(e)
    case Next(lengths, p) => Next(Tables(lengths[..hlit], lengths[hlit..]), p)
  }

  /** The header of a dynamic block. */
  function DynamicTables(data: seq<Byte>, pos: nat): (r: Step<Tables>)
    ensures r.Next? ==> ShortLengths(r.value.lit) && ShortLengths(r.value.dist) && r.pos >= pos
  {
    BitsAtBound(data, pos + 10, 4);
    TablesFrom(data, pos + 14, BitsAt(data, pos, 5) + 257, BitsAt(data, pos + 5, 5) + 1, BitsAt(data, pos + 10, 4) + 4)
  }

  /** The body of one block, after its final flag and type. */
  function Body(btype: nat, data: seq<Byte>, pos: nat, out: seq<Byte>): (r: Run)
    ensures r.Done? ==> pos <= r.pos
    ensures r.Done? && btype == 0 ==> pos < 8 * |data|
  {
    if btype == 0 then Stored(data, pos, out)
    else if btype == 1 then Tokens(FixedTables().lit, FixedTables().dist, data, pos, out)
    else if btype == 2 then
      match DynamicTables(data, pos)
      case Fail(e) => Error(e)
      case Next(t, p) => Tokens(t.lit, t.dist, data, p, out)
    else Error(BadBlockType)
  }

  /** The block loop. */
  function Blocks(data: seq<Byte>, pos: nat, out: seq<Byte>): Run
    decreases 8 * |data| - pos
  {
    match Body(BitsAt(data, pos + 1, 2), data, pos + 3, out)
    case Error(e) => Error(e)
    case Diverges => Diverges
    case Done(out', p) =>
      if BitsAt(data, pos, 1) == 1 then Done(out', p)
      else
        BlockAdvances(data, pos, out);
        Blocks(data, p, out')
  }

  /** A block that starts past the end of the input reads as a stored block with a bad length. */
  lemma BlockAdvances(data: seq<Byte>, pos: nat, out: seq<Byte>)
    requires Body(BitsAt(data, pos + 1, 2), data, pos + 3, out).Done?
    ensures pos < 8 * |data|
    ensures Body(BitsAt(data, pos + 1, 2), data, pos + 3, out).pos > pos
  {
    if pos >= 8 * |data| {
      BitsPastEnd(data, pos + 1, 2);
      assert false;
    }
  }

  datatype Inflated = Inflated(bytes: seq<Byte>, consumed: nat)

  datatype Outcome = Ok(value: Inflated) | Throws(error: Error) | NeverReturns

  /** `inflateWithBounds` on any buffer. */
  function Inflate(data: seq<Byte>): Outcome {
    var cmf: int, flg: int := ByteAt(data, 0), ByteAt(data, 1);
    if |data| < 6 then Throws(TooShort)
    else if cmf % 16 != 8 || (256 * cmf + flg) % 31 != 0 then Throws(BadHeader)
    else if (flg / 32) % 2 == 1 then Throws(PresetDictionary)
    else match Blocks(data, 16, [])
      case Error(e) => Throws(e)
      case Diverges => NeverReturns
      case Done(out, pos) => Ok(Inflated(out, (pos + 7) / 8 + 4))
  }

  // ---------- where a block can end ----------

  lemma TokenEnd(dist: seq<nat>, data: seq<Byte>, sym: Symbol, pos: nat, out: seq<Byte>)
    requires Token(dist, data, sym, pos, out).Next?
    ensures Token(dist, data, sym, pos, out).pos <= pos + 33
  {
    hide Decode, LengthBase, DistBase, BitsAt, Copy;
  }

  /** A symbol loop that ends gets past the end of the input by one token and one symbol at most. */
  lemma {:induction false} TokensEnd(lit: seq<nat>, dist: seq<nat>, data: seq<Byte>, pos: nat, out: seq<Byte>)
    requires Tokens(lit, dist, data, pos, out).Done?
    ensures var p := Tokens(lit, dist, data, pos, out).pos;
      p <= pos + 15 || p <= 8 * |data| + 63
    decreases 8 * |data| - pos
  {
    hide Token;
    var d := Decode(lit, data, pos);
    if d.sym != Symbol(END_OF_BLOCK) {
      var t := Token(dist, data, d.sym, d.next, out);
      TokenEnd(dist, data, d.sym, d.next, out);
      hide Decode;
      TokensEnd(lit, dist, data, t.pos, t.value);
    }
  }

  lemma ClTokenEnd(data: seq<Byte>, sym: Symbol, pos: nat, acc: seq<nat>)
    requires ShortLengths(acc)
    ensures ClToken(data, sym, pos, acc).1 <= pos + 7 && ShortLengths(ClToken(data, sym, pos, acc).0)
  {
  }

  lemma {:induction false} CodeLengthsEnd(cl: seq<nat>, data: seq<Byte>, pos: nat, acc: seq<nat>, total: nat)
    requires ShortLengths(acc) && CodeLengths(cl, data, pos, acc, total).Next?
    ensures CodeLengths(cl, data, pos, acc, total).pos <= pos + if |acc| < total then 22 * (total - |acc|) else 0
    decreases total - |acc|
  {
    hide ClToken;
    if |acc| < total {
      var d := Decode(cl, data, pos);
      ClTokenEnd(data, d.sym, d.next, acc);
      var (acc', p) := ClToken(data, d.sym, d.next, acc);
      hide Decode;
      CodeLengthsEnd(cl, data, p, acc', total);
    }
  }

  lemma DynamicTablesEnd(data: seq<Byte>, pos: nat)
    requires DynamicTables(data, pos).Next?
    ensures DynamicTables(data, pos).pos <= pos + 7111
  {
    hide CodeLengths, ClLengths, BitsAt;
    Pow2Values();
    BitsAtBound(data, pos, 5);
    BitsAtBound(data, pos + 5, 5);
    BitsAtBound(data, pos + 10, 4);
    var hlit, hdist, hclen := BitsAt(data, pos, 5) + 257, BitsAt(data, pos + 5, 5) + 1, BitsAt(data, pos + 10, 4) + 4;
    CodeLengthsEnd(ClLengths(data, pos + 14, hclen), data, pos + 14 + 3 * hclen, [], hlit + hdist);
  }

  lemma StoredEnd(data: seq<Byte>, pos: nat, out: seq<Byte>)
    requires Stored(data, pos, out).Done?
    ensures Stored(data, pos, out).pos <= 8 * |data| + 0x8_0018
  {
  }

  lemma BodyEnd(btype: nat, data: seq<Byte>, pos: nat, out: seq<Byte>)
    requires Body(btype, data, pos, out).Done? && pos <= 8 * |data| + 3
    ensures Body(btype, data, pos, out).pos <= 8 * |data| + 0x8_0018
  {
    hide Stored, DynamicTables, Tokens, FixedTables;
    if btype == 0 {
      StoredEnd(data, pos, out);
    } else if btype == 1 {
      TokensEnd(FixedTables().lit, FixedTables().dist, data, pos, out);
    } else if btype == 2 {
      var t := DynamicTables(data, pos);
      DynamicTablesEnd(data, pos);
      TokensEnd(t.value.lit, t.value.dist, data, t.pos, out);
    }
  }

  // ---------- 32-bit positions ----------

  /**
   The program shifts and masks its bit position as a signed 32-bit number, and a stored block may claim 64 KiB
   more than there is. Up to this length no position it needs wraps.
   */
  const MAX_INPUT: nat := 0x0ffe_0000

  /** An element read at any index; outside the buffer it counts as 0. */
  function Octet(data: seq<Byte>, i: int): Byte {
    if 0 <= i < |data| then data[i] else 0
  }

  /** `p >> 3` */
  function BytePos(p: nat): int {
    ToInt32(p) / 8
  }

  lemma NoWrap(data: seq<Byte>, p: nat)
    requires |data| <= MAX_INPUT && p < TWO32
    ensures Octet(data, BytePos(p)) == ByteAt(data, p / 8)
    ensures p < TWO31 ==> BytePos(p) == p / 8
  {
  }

  /** Where a stored block starts that lies past the end of the buffer, nothing is read either way. */
  lemma NoWrapStored(data: seq<Byte>, p: nat, k: nat)
    requires |data| <= MAX_INPUT && p + 64 <= TWO32 && k < 4
    ensures Octet(data, BytePos(p) + k) == ByteAt(data, p / 8 + k)
    ensures p < TWO31 ==> BytePos(p) == p / 8
  {
  }

  // ---------- the program ----------

  /** The decoder's closure variables, `bitPos` and `out`, over one input buffer. */
  class Inflater {
    const data: seq<Byte>
    var bitPos: nat
    var out: seq<Byte>

    constructor (data: seq<Byte>)
      ensures this.data == data && bitPos == 16 && out == []
    {
      this.data := data;
      bitPos := 16;
      out := [];
    }

    /** The state and error flag are those of a finished run. */
    ghost predicate Reached(error: Option<Error>, run: Run)
      reads this
    {
      match run
      case Error(e) => error == Some(e)
      case Done(o, p) => error == None && out == o && bitPos == p
      case Diverges => false
    }

    ghost predicate ReadTo<T>(error: Option<Error>, value: T, step: Step<T>)
      reads this
    {
      match step
      case Fail(e) => error == Some(e)
      case Next(v, p) => error == None && value == v && bitPos == p
    }

    /** The next `k` bit positions are within 32 bits. */
    ghost predicate Room(k: nat)
      reads this
    {
      |data| <= MAX_INPUT && bitPos + k <= TWO32
    }

    method ReadBit() returns (b: Bit)
      requires Room(1)
      modifies this`bitPos
      ensures b == BitAt(data, old(bitPos)) && bitPos == old(bitPos) + 1
    {
      NoWrap(data, bitPos);
      b := Shr(Octet(data, BytePos(bitPos)), bitPos % 8) % 2;
      bitPos := bitPos + 1;
    }

    method ReadBits(n: nat) returns (v: nat)
      requires Room(n)
      modifies this`bitPos
      ensures v == BitsAt(data, old(bitPos), n) && bitPos == old(bitPos) + n
    {
      hide BitAt, BytePos, Octet;
      v := 0;
      var weight: nat := 1;
      for i := 0 to n
        invariant bitPos == old(bitPos) + i
        invariant v == BitsAt(data, old(bitPos), i) && weight == Pow2(i)
      {
        var b := ReadBit();
        v := v + b * weight;
        weight := 2 * weight;
      }
    }

    /** The closure returned by `makeDecoder`. */
    method DecodeSymbol(d: Decoder, ghost lens: seq<nat>) returns (found: bool, sym: Symbol)
      requires DecoderFor(d, lens) && Room(MAXBITS)
      modifies this`bitPos
      ensures match Decode(lens, data, old(bitPos))
              case BadCode => !found
              case Decoded(s, p) => found && sym == s && bitPos == p
    {
      hide BitAt, OfLength, Table;
      var code: nat, first: nat, index: nat := 0, 0, 0;
      var len: nat := 1;
      while len <= MAXBITS
        invariant 1 <= len <= MAXBITS + 1 && bitPos == old(bitPos) + len - 1
        invariant DecodeFrom(lens, data, bitPos, len, code, first, index) == Decode(lens, data, old(bitPos))
        invariant index == Index(lens, len)
      {
        var b := ReadBit();
        code := code + b;
        var cnt := d.count[len];
        if code - first < cnt {
          IndexBound(lens, len);
          var k := index + code - first;
          return true, if k < 0 then Undefined else Symbol(d.symbol[k]);
        }
        index := index + cnt;
        first := 2 * (first + cnt);
        code := 2 * code;
        len := len + 1;
      }
      return false, Undefined;
    }

    method CopyMatch(length: Number, distance: Number)
      requires distance.Number? ==> 1 <= distance.n <= |out|
      modifies this`out
      ensures out == Copy(old(out), length, distance)
    {
      if length.Number? {
        ghost var whole := Copy(out, length, distance);
        var from := |out| - if distance.Number? then distance.n else 0;
        for i := 0 to length.n
          invariant |out| == |old(out)| + i
          invariant distance.Number? ==> CopyBack(out, distance.n, length.n - i) == whole
          invariant distance.NaN? ==> out == old(out) + Zeros(i)
        {
          out := out + [if distance.Number? then out[from + i] else 0];
        }
      }
    }

    method ReadLength(sym: Symbol) returns (length: Number)
      requires Room(5)
      modifies this`bitPos
      ensures (length, bitPos) == CopyLength(sym, data, old(bitPos))
    {
      if sym.Symbol? && 257 <= sym.index < 286 {
        var extra := ReadBits(LengthExtra(sym.index - 257));
        length := Number(LengthBase(sym.index - 257) + extra);
      } else {
        length := NaN;
      }
    }

    method ReadDistance(sym: Symbol) returns (distance: Number)
      requires Room(13)
      modifies this`bitPos
      ensures (distance, bitPos) == CopyDistance(sym, data, old(bitPos))
    {
      if sym.Symbol? && sym.index < 30 {
        var extra := ReadBits(DistExtra(sym.index));
        distance := Number(DistBase(sym.index) + extra);
      } else {
        distance := NaN;
      }
    }

    method RunToken(dd: Decoder, ghost dist: seq<nat>, sym: Symbol) returns (error: Option<Error>)
      requires DecoderFor(dd, dist) && Room(33)
      modifies this
      ensures match Token(dist, data, sym, old(bitPos), old(out))
              case Fail(e) => error == Some(e)
              case Next(o, p) => error == None && out == o && bitPos == p
    {
      if sym.Symbol? && sym.index < 256 {
        out := out + [sym.index];
        return None;
      }
      var length := ReadLength(sym);
      var found, dsym := DecodeSymbol(dd, dist);
      if !found {
        return Some(InvalidCode);
      }
      var distance := ReadDistance(dsym);
      if distance.Number? && distance.n > |out| {
        return Some(DistanceBeforeStart);
      }
      CopyMatch(length, distance);
      return None;
    }

    method RunTokens(ld: Decoder, dd: Decoder, ghost lit: seq<nat>, ghost dist: seq<nat>) returns (error: Option<Error>)
      requires DecoderFor(ld, lit) && DecoderFor(dd, dist) && Room(48)
      requires !Tokens(lit, dist, data, bitPos, out).Diverges?
      modifies this
      ensures Reached(error, Tokens(lit, dist, data, old(bitPos), old(out)))
    {
      ghost var run := Tokens(lit, dist, data, bitPos, out);
      while true
        invariant Tokens(lit, dist, data, bitPos, out) == run && Room(48)
        decreases 8 * |data| - bitPos
      {
        ghost var pos, out0 := bitPos, out;
        var found, sym := DecodeSymbol(ld, lit);
        if !found {
          return Some(InvalidCode);
        }
        if sym == Symbol(END_OF_BLOCK) {
          return None;
        }
        ghost var next := bitPos;
        error := RunToken(dd, dist, sym);
        if error.Some? {
          return error;
        }
        TokenEnd(dist, data, sym, next, out0);
      }
    }

    /** LEN and NLEN behind the next byte boundary, and where that is. */
    method ReadStoredHead() returns (bytePos: int, len: nat, nlen: nat)
      requires Room(128)
      ensures var at := (bitPos + 7) / 8;
        len == Word(data, at) && nlen == Word(data, at + 2) && (0xffff - len == nlen ==> bytePos == at)
    {
      ghost var at := (bitPos + 7) / 8;
      bytePos := BytePos(bitPos + 7);
      NoWrapStored(data, bitPos + 7, 0);
      NoWrapStored(data, bitPos + 7, 1);
      NoWrapStored(data, bitPos + 7, 2);
      NoWrapStored(data, bitPos + 7, 3);
      hide BytePos, Octet;
      var low: int, high: int := Octet(data, bytePos), Octet(data, bytePos + 1);
      len := low + 256 * high;
      low, high := Octet(data, bytePos + 2), Octet(data, bytePos + 3);
      nlen := low + 256 * high;
    }

    method CopyStored(from: nat, len: nat)
      modifies this`out
      ensures out == old(out) + RawBytes(data, from, len)
    {
      ghost var raw := RawBytes(data, from, len);
      for i := 0 to len
        invariant out == old(out) + raw[..i]
      {
        var byte := Octet(data, from + i);
        assert byte == ByteAt(data, from + i) == raw[i];
        out := out + [byte];
        assert raw[..i + 1] == raw[..i] + [byte];
        assert old(out) + raw[..i] + [byte] == old(out) + (raw[..i] + [byte]);
      }
    }

    method RunStored() returns (error: Option<Error>)
      requires Room(128)
      modifies this
      ensures Reached(error, Stored(data, old(bitPos), old(out)))
    {
      var bytePos, len, nlen := ReadStoredHead();
      if 0xffff - len != nlen {
        return Some(StoredMismatch);
      }
      CopyStored(bytePos + 4, len);
      bitPos := (bytePos + 4 + len) * 8;
      return None;
    }

    method ReadClLengths(n: nat) returns (cl: seq<nat>)
      requires n <= 19 && Room(3 * n)
      modifies this`bitPos
      ensures cl == ClLengths(data, old(bitPos), n) && bitPos == old(bitPos) + 3 * n
    {
      cl := seq(19, i => 0);
      for i := 0 to n
        invariant cl == ClLengths(data, old(bitPos), i) && bitPos == old(bitPos) + 3 * i
      {
        var v := ReadBits(3);
        cl := cl[CL_ORDER[i] := v];
      }
    }

    method AppendLengths(sym: Symbol, acc: seq<nat>) returns (lengths: seq<nat>)
      requires Room(7)
      modifies this`bitPos
      ensures (lengths, bitPos) == ClToken(data, sym, old(bitPos), acc)
    {
      if sym.Symbol? && sym.index < 16 {
        lengths := acc + [sym.index];
      } else if sym == Symbol(16) {
        var repeat := ReadBits(2);
        var prev := if |acc| > 0 then acc[|acc| - 1] else 0;
        lengths := acc + seq(3 + repeat, i => prev);
      } else if sym == Symbol(17) {
        var repeat := ReadBits(3);
        lengths := acc + seq(3 + repeat, i => 0);
      } else {
        var repeat := ReadBits(7);
        lengths := acc + seq(11 + repeat, i => 0);
      }
    }

    method ReadCodeLengths(cd: Decoder, ghost cl: seq<nat>, total: nat) returns (error: Option<Error>, lengths: seq<nat>)
      requires DecoderFor(cd, cl) && Room(22 * total)
      modifies this`bitPos
      ensures ReadTo(error, lengths, CodeLengths(cl, data, old(bitPos), [], total))
    {
      lengths := [];
      ghost var all := CodeLengths(cl, data, bitPos, [], total);
      while |lengths| < total
        invariant ShortLengths(lengths) && bitPos <= old(bitPos) + 22 * |lengths|
        invariant CodeLengths(cl, data, bitPos, lengths, total) == all
        decreases total - |lengths|
      {
        var found, sym := DecodeSymbol(cd, cl);
        if !found {
          return Some(InvalidCode), [];
        }
        ClTokenEnd(data, sym, bitPos, lengths);
        lengths := AppendLengths(sym, lengths);
      }
      error := None;
    }

    method ReadTablesFrom(hlit: nat, hdist: nat, hclen: nat) returns (error: Option<Error>, t: Tables)
      requires hclen <= 19 && Room(3 * hclen + 22 * (hlit + hdist))
      modifies this`bitPos
      ensures ReadTo(error, t, TablesFrom(data, old(bitPos), hlit, hdist, hclen))
    {
      hide CodeLengths, ClLengths;
      var cl := ReadClLengths(hclen);
      var cd := MakeDecoder(cl);
      var lengths;
      error, lengths := ReadCodeLengths(cd, cl, hlit + hdist);
      t := if error == None then Tables(lengths[..hlit], lengths[hlit..]) else Tables([], []);
    }

    method ReadTables() returns (error: Option<Error>, t: Tables)
      requires Room(7111)
      modifies this`bitPos
      ensures ReadTo(error, t, DynamicTables(data, old(bitPos)))
    {
      hide BitsAt, TablesFrom;
      ghost var p := bitPos;
      var hlit := ReadBits(5);
      var hdist := ReadBits(5);
      var hclen := ReadBits(4);
      Pow2Values();
      BitsAtBound(data, p, 5);
      BitsAtBound(data, p + 5, 5);
      BitsAtBound(data, p + 10, 4);
      assert hlit == BitsAt(data, p, 5) && hdist == BitsAt(data, p + 5, 5) && hclen == BitsAt(data, p + 10, 4);
      error, t := ReadTablesFrom(hlit + 257, hdist + 1, hclen + 4);
    }

    method RunCompressed(t: Tables) returns (error: Option<Error>)
      requires ShortLengths(t.lit) && ShortLengths(t.dist) && Room(48)
      requires !Tokens(t.lit, t.dist, data, bitPos, out).Diverges?
      modifies this
      ensures Reached(error, Tokens(t.lit, t.dist, data, old(bitPos), old(out)))
    {
      var ld := MakeDecoder(t.lit);
      var dd := MakeDecoder(t.dist);
      error := RunTokens(ld, dd, t.lit, t.dist);
    }

    method RunBody(btype: nat) returns (error: Option<Error>)
      requires Room(8000)
      requires !Body(btype, data, bitPos, out).Diverges?
      modifies this
      ensures Reached(error, Body(btype, data, old(bitPos), old(out)))
    {
      if btype == 0 {
        error := RunStored();
      } else if btype == 1 {
        error := RunCompressed(FixedTables());
      } else if btype == 2 {
        var t;
        ghost var pos := bitPos;
        error, t := ReadTables();
        if error == None {
          DynamicTablesEnd(data, pos);
          error := RunCompressed(t);
        }
      } else {
        error := Some(BadBlockType);
      }
    }

    method RunBlock() returns (error: Option<Error>, bfinal: nat)
      requires Room(8003)
      requires !Body(BitsAt(data, bitPos + 1, 2), data, bitPos + 3, out).Diverges?
      modifies this
      ensures Reached(error, Body(BitsAt(data, old(bitPos) + 1, 2), data, old(bitPos) + 3, old(out)))
      ensures bfinal == BitsAt(data, old(bitPos), 1)
    {
      hide Body, BitsAt;
      bfinal := ReadBits(1);
      var btype := ReadBits(2);
      error := RunBody(btype);
    }

    method RunBlocks() returns (error: Option<Error>)
      requires |data| <= MAX_INPUT && bitPos + 7 < TWO31
      requires !Blocks(data, bitPos, out).Diverges?
      modifies this
      ensures Reached(error, Blocks(data, old(bitPos), old(out)))
      ensures error == None ==> bitPos + 7 < TWO31
    {
      hide Body, BitsAt;
      ghost var run := Blocks(data, bitPos, out);
      while true
        invariant Blocks(data, bitPos, out) == run && bitPos + 7 < TWO31
        decreases 8 * |data| - bitPos
      {
        ghost var pos, out0 := bitPos, out;
        var bfinal;
        error, bfinal := RunBlock();
        if error.Some? {
          return;
        }
        BlockAdvances(data, pos, out0);
        BodyEnd(BitsAt(data, pos + 1, 2), data, pos + 3, out0);
        if bfinal == 1 {
          return;
        }
      }
    }
  }

  /** `inflateWithBounds`, for the inputs on which it returns and no bit position wraps. */
  method InflateWithBounds(data: seq<Byte>) returns (r: Outcome)
    requires |data| <= MAX_INPUT && !Inflate(data).NeverReturns?
    ensures r == Inflate(data)
  {
    hide Blocks, BytePos;
    if |data| < 6 {
      return Throws(TooShort);
    }
    var cmf: int, flg: int := data[0], data[1];
    if cmf % 16 != 8 || (256 * cmf + flg) % 31 != 0 {
      return Throws(BadHeader);
    }
    if (flg / 32) % 2 == 1 {
      return Throws(PresetDictionary);
    }
    var z := new Inflater(data);
    var error := z.RunBlocks();
    if error.Some? {
      return Throws(error.value);
    }
    NoWrap(data, z.bitPos + 7);
    return Ok(Inflated(z.out, BytePos(z.bitPos + 7) + 4));
  }
}
