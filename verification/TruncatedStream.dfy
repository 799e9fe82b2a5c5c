/** A zlib stream cut off behind the header of a dynamic block, on which the decoder never returns. */
module TruncatedStream {
  import opened Bytes
  import opened Wrappers
  import opened Huffman
  import opened Zlib
  import opened InflateInverts
  import opened InflateReturns
  import opened StoredDeflate
  import F = DeflateFormat

  /** Header, final dynamic block with codes `0` for the byte 0 and `1` for the end of the block, and no more. */
  const BYTES: seq<Byte> := [0x78, 0x01, 0x05, 0xC2, 0x01, 0x09, 0, 0, 0, 0, 0x10, 0xFF, 0x57, 0x53]

  function Cl(): seq<nat> {
    [2, 1, 0, 0, 0, 0, 0, 0, 0, 0, 0, 0, 0, 0, 0, 0, 0, 0, 2]
  }

  function Ops(): seq<F.ClOp> {
    [F.OneLength(1), F.LongZeros(138), F.LongZeros(117), F.OneLength(1), F.OneLength(1), F.OneLength(0), F.OneLength(0)]
  }

  function Header(): F.Block {
    F.DynamicBlock(257, 3, 18, Cl(), Ops(), [])
  }

  // ---------- the codes of the header ----------

  lemma ClCounts(cl: seq<nat>, l: nat)
    requires cl == Cl()
    ensures Count(cl, l) == if l == 1 then 1 else if l == 2 then 2 else if l == 0 then 16 else 0
    ensures |OfLength(cl, 1, l)| == if l == 2 then 1 else 0
    ensures |OfLength(cl, 18, l)| == if l == 1 then 1 else if l == 2 then 1 else if l == 0 then 16 else 0
    ensures |OfLength(cl, 0, l)| == 0
  {
    assert |OfLength(cl, 0, l)| == 0;
    hide OfLength;
    ConstantRun(cl, 0, 1, 2, l);
    ConstantRun(cl, 1, 2, 1, l);
    ConstantRun(cl, 2, 18, 0, l);
    ConstantRun(cl, 18, 19, 2, l);
  }

  lemma ClFits(cl: seq<nat>)
    requires cl == Cl()
    ensures !OverSubscribed(cl)
  {
    hide Count, Kraft;
    forall l: nat ensures Count(cl, l) == if l == 1 then 1 else if l == 2 then 2 else if l == 0 then 16 else 0 {
      ClCounts(cl, l);
    }
    ClKraft(cl);
    Pow2Adds(8, 7);
    Pow2Values();
  }

  lemma ClKraft(cl: seq<nat>)
    requires forall l: nat :: Count(cl, l) == if l == 1 then 1 else if l == 2 then 2 else if l == 0 then 16 else 0
    ensures Kraft(cl, MAXBITS) == 32768
  {
    hide Count;
    NoCodesBetween(cl, 2, MAXBITS);
    Pow2Adds(8, 6);
    Pow2Adds(8, 5);
    Pow2Values();
    assert Kraft(cl, 0) == 0;
    assert Kraft(cl, 1) == 16384;
    assert Kraft(cl, 2) == 32768;
  }

  lemma ClCodes(cl: seq<nat>)
    requires cl == Cl()
    ensures SymbolBits(cl, 1) == [0] && SymbolBits(cl, 0) == [1, 0] && SymbolBits(cl, 18) == [1, 1]
  {
    ClCounts(cl, 1);
    ClCounts(cl, 2);
    assert |cl| == 19 && cl[0] == 2 && cl[1] == 1 && cl[18] == 2;
    hide OfLength, Count, Cl, SymbolBits;
    CodesFrom(cl);
  }

  lemma CodesFrom(cl: seq<nat>)
    requires |cl| == 19 && cl[0] == 2 && cl[1] == 1 && cl[18] == 2 && Count(cl, 1) == 1
    requires |OfLength(cl, 0, 2)| == 0 && |OfLength(cl, 1, 1)| == 0 && |OfLength(cl, 18, 2)| == 1
    ensures SymbolBits(cl, 1) == [0] && SymbolBits(cl, 0) == [1, 0] && SymbolBits(cl, 18) == [1, 1]
  {
    hide OfLength, Count;
    assert NextCode(cl, 1) == 0 && NextCode(cl, 2) == 2;
    assert CodeOf(cl, 1) == 0 && CodeOf(cl, 0) == 2 && CodeOf(cl, 18) == 3;
    hide CodeOf;
    ShortBits();
  }

  lemma ShortBits()
    ensures MsbBits(0, 1) == [0] && MsbBits(2, 2) == [1, 0] && MsbBits(3, 2) == [1, 1]
  {
    assert MsbBits(0, 0) == [];
    assert MsbBits(2, 1) == [0] && MsbBits(3, 1) == [1];
  }

  // ---------- the bits of the buffer ----------

  lemma ByteHolds(z: seq<Byte>, j: nat, b: Byte)
    requires j < |z| && z[j] == b
    ensures Holds(z, 8 * j, LsbBits(b, 8))
  {
    forall i | 0 <= i < 8 ensures BitAt(z, 8 * j + i) == LsbBits(b, 8)[i] {
      LsbBitsAt(b, 8, i);
      assert (8 * j + i) / 8 == j && (8 * j + i) % 8 == i;
      hide LsbBits;
    }
  }

  lemma LsbStep(v: nat, n: nat, low: Bit, rest: nat)
    requires v == low + 2 * rest
    ensures LsbBits(v, n + 1) == [low] + LsbBits(rest, n)
  {
    assert v % 2 == low && v / 2 == rest;
  }

  lemma Lsb3(a: Bit, b: Bit, c: Bit)
    ensures var x: int, y: int, z: int := a, b, c; x + 2 * y + 4 * z >= 0 && LsbBits(x + 2 * y + 4 * z, 3) == [a, b, c]
  {
    hide LsbBits;
    var x: int, y: int, z: int := a, b, c;
    assert LsbBits(0, 0) == [];
    LsbStep(z, 0, c, 0);
    LsbStep(y + 2 * z, 1, b, z);
    LsbStep(x + 2 * y + 4 * z, 2, a, y + 2 * z);
  }

  lemma LsbJoin(v: nat, n: nat, a: Bit, b: Bit, c: Bit, rest: nat)
    requires var x: int, y: int, z: int := a, b, c; v == x + 2 * y + 4 * z + 8 * rest
    ensures LsbBits(v, n + 3) == [a, b, c] + LsbBits(rest, n)
  {
    hide LsbBits;
    var x: int, y: int, z: int := a, b, c;
    LsbStep(z + 2 * rest, n, c, rest);
    LsbStep(y + 2 * z + 4 * rest, n + 1, b, z + 2 * rest);
    LsbStep(v, n + 2, a, y + 2 * z + 4 * rest);
  }

  lemma LsbShort(a: Bit, b: Bit)
    ensures var x: int, y: int := a, b; x + 2 * y >= 0 && LsbBits(x, 1) == [a] && LsbBits(x + 2 * y, 2) == [a, b]
  {
    hide LsbBits;
    var x: int, y: int := a, b;
    assert LsbBits(0, 0) == [];
    LsbStep(x, 0, a, 0);
    LsbStep(y, 0, b, 0);
    LsbStep(x + 2 * y, 1, a, y);
  }

  lemma ByteBits()
    ensures LsbBits(0x05, 8) == [1, 0, 1, 0, 0, 0, 0, 0] && LsbBits(0xC2, 8) == [0, 1, 0, 0, 0, 0, 1, 1]
    ensures LsbBits(0x01, 8) == [1, 0, 0, 0, 0, 0, 0, 0] && LsbBits(0x09, 8) == [1, 0, 0, 1, 0, 0, 0, 0]
    ensures LsbBits(0x10, 8) == [0, 0, 0, 0, 1, 0, 0, 0] && LsbBits(0xFF, 8) == [1, 1, 1, 1, 1, 1, 1, 1]
    ensures LsbBits(0x57, 8) == [1, 1, 1, 0, 1, 0, 1, 0] && LsbBits(0x53, 8) == [1, 1, 0, 0, 1, 0, 1, 0]
    ensures LsbBits(0, 8) == [0, 0, 0, 0, 0, 0, 0, 0]
  {
    hide LsbBits;
    OneByte(0x05, 1, 0, 1, 0, 0, 0, 0, 0);
    OneByte(0xC2, 0, 1, 0, 0, 0, 0, 1, 1);
    OneByte(0x01, 1, 0, 0, 0, 0, 0, 0, 0);
    OneByte(0x09, 1, 0, 0, 1, 0, 0, 0, 0);
    OneByte(0x10, 0, 0, 0, 0, 1, 0, 0, 0);
    OneByte(0xFF, 1, 1, 1, 1, 1, 1, 1, 1);
    OneByte(0x57, 1, 1, 1, 0, 1, 0, 1, 0);
    OneByte(0x53, 1, 1, 0, 0, 1, 0, 1, 0);
    OneByte(0, 0, 0, 0, 0, 0, 0, 0, 0);
  }

  lemma OneByte(v: nat, a: Bit, b: Bit, c: Bit, d: Bit, e: Bit, f: Bit, g: Bit, h: Bit)
    requires var x0: int, x1: int, x2: int, x3: int := a, b, c, d;
      var x4: int, x5: int, x6: int, x7: int := e, f, g, h;
      v == x0 + 2 * x1 + 4 * x2 + 8 * x3 + 16 * x4 + 32 * x5 + 64 * x6 + 128 * x7
    ensures LsbBits(v, 8) == [a, b, c, d, e, f, g, h]
  {
    hide LsbBits;
    var x3: int, x4: int, x5: int, x6: int, x7: int := d, e, f, g, h;
    LsbShort(g, h);
    LsbJoin(x3 + 2 * x4 + 4 * x5 + 8 * (x6 + 2 * x7), 2, d, e, f, x6 + 2 * x7);
    LsbJoin(v, 5, a, b, c, x3 + 2 * x4 + 4 * x5 + 8 * (x6 + 2 * x7));
  }

  lemma FieldBits()
    ensures LsbBits(1, 1) == [1] && LsbBits(2, 2) == [0, 1] && LsbBits(0, 5) == [0, 0, 0, 0, 0]
    ensures LsbBits(2, 5) == [0, 1, 0, 0, 0] && LsbBits(14, 4) == [0, 1, 1, 1]
    ensures LsbBits(0, 3) == [0, 0, 0] && LsbBits(1, 3) == [1, 0, 0] && LsbBits(2, 3) == [0, 1, 0]
    ensures LsbBits(127, 7) == [1, 1, 1, 1, 1, 1, 1] && LsbBits(106, 7) == [0, 1, 0, 1, 0, 1, 1]
  {
    hide LsbBits;
    LsbShort(1, 0);
    LsbShort(0, 1);
    LsbShort(0, 0);
    LsbShort(1, 1);
    Lsb3(0, 0, 0);
    Lsb3(1, 0, 0);
    Lsb3(0, 1, 0);
    LsbJoin(0, 2, 0, 0, 0, 0);
    LsbJoin(2, 2, 0, 1, 0, 0);
    LsbJoin(14, 1, 0, 1, 1, 1);
    LsbJoin(15, 1, 1, 1, 1, 1);
    LsbJoin(127, 4, 1, 1, 1, 15);
    LsbJoin(13, 1, 1, 0, 1, 1);
    LsbJoin(106, 4, 0, 1, 0, 13);
  }

  lemma Parted(data: seq<Byte>, p: nat, all: seq<Bit>, a: seq<Bit>, b: seq<Bit>)
    requires Holds(data, p, all) && all == a + b
    ensures Holds(data, p, a) && Holds(data, p + |a|, b)
  {
    HoldsSplit(data, p, a, b);
  }

  lemma Joined(data: seq<Byte>, p: nat, a: seq<Bit>, b: seq<Bit>, all: seq<Bit>)
    requires Holds(data, p, a) && Holds(data, p + |a|, b) && all == a + b
    ensures Holds(data, p, all)
  {
    HoldsSplit(data, p, a, b);
  }

  /** Bits 16 to 32: final flag, type and the three counts. */
  lemma FlagsHold(data: seq<Byte>)
    requires data == BYTES
    ensures Holds(data, 16, [1]) && Holds(data, 17, [0, 1]) && Holds(data, 19, [0, 0, 0, 0, 0])
  {
    hide LsbBits, Holds;
    ByteBits();
    ByteHolds(data, 2, 0x05);
    Parted(data, 16, [1, 0, 1, 0, 0, 0, 0, 0], [1], [0, 1, 0, 0, 0, 0, 0]);
    Parted(data, 17, [0, 1, 0, 0, 0, 0, 0], [0, 1], [0, 0, 0, 0, 0]);
  }

  lemma CountsHold(data: seq<Byte>)
    requires data == BYTES
    ensures Holds(data, 24, [0, 1, 0, 0, 0]) && Holds(data, 29, [0, 1, 1, 1]) && Holds(data, 33, [0, 0, 0, 0, 0, 0, 0])
  {
    hide LsbBits, Holds;
    ByteBits();
    ByteHolds(data, 3, 0xC2);
    ByteHolds(data, 4, 0x01);
    Parted(data, 24, [0, 1, 0, 0, 0, 0, 1, 1], [0, 1, 0, 0, 0], [0, 1, 1]);
    Parted(data, 32, [1, 0, 0, 0, 0, 0, 0, 0], [1], [0, 0, 0, 0, 0, 0, 0]);
    Joined(data, 29, [0, 1, 1], [1], [0, 1, 1, 1]);
  }

  /** Bits 33 to 86: the code-length code lengths, three bits each. */
  function ClBit(p: nat): Bit {
    if p == 40 || p == 43 || p == 84 then 1 else 0
  }

  lemma BitsHeld(data: seq<Byte>, p: nat, bits: seq<Bit>, i: nat)
    requires Holds(data, p, bits) && i < |bits|
    ensures BitAt(data, p + i) == bits[i]
  {
  }

  lemma ClBitIs(data: seq<Byte>, p: nat)
    requires data == BYTES && 33 <= p < 87
    ensures BitAt(data, p) == ClBit(p)
  {
    hide LsbBits, Holds, BitAt;
    ByteBits();
    CountsHold(data);
    if p < 40 {
      BitsHeld(data, 33, [0, 0, 0, 0, 0, 0, 0], p - 33);
    } else if p < 48 {
      ByteHolds(data, 5, 0x09);
      BitsHeld(data, 40, [1, 0, 0, 1, 0, 0, 0, 0], p - 40);
    } else if p < 80 {
      var j := p / 8;
      ByteHolds(data, j, 0);
      BitsHeld(data, 8 * j, [0, 0, 0, 0, 0, 0, 0, 0], p - 8 * j);
    } else {
      ByteHolds(data, 10, 0x10);
      BitsHeld(data, 80, [0, 0, 0, 0, 1, 0, 0, 0], p - 80);
    }
  }

  ghost predicate ClField(data: seq<Byte>, cl: seq<nat>, i: nat)
    requires |cl| == 19 && i < 19
  {
    Holds(data, 33 + 3 * i, LsbBits(cl[CL_ORDER[i]], 3))
  }

  lemma {:induction false} ClHolds(data: seq<Byte>, cl: seq<nat>, n: nat)
    requires |cl| == 19 && n <= 19 && |data| >= 5 && forall i :: 0 <= i < n ==> ClField(data, cl, i)
    ensures |F.ClBits(cl, n)| == 3 * n && Holds(data, 33, F.ClBits(cl, n))
  {
    hide LsbBits, BitAt;
    if n > 0 {
      assert ClField(data, cl, n - 1);
      ClHolds(data, cl, n - 1);
      hide Holds;
      HoldsSplit(data, 33, F.ClBits(cl, n - 1), LsbBits(cl[CL_ORDER[n - 1]], 3));
    }
  }

  lemma ClFieldHolds(data: seq<Byte>, cl: seq<nat>, i: nat)
    requires data == BYTES && cl == Cl() && i < 18
    ensures ClField(data, cl, i)
  {
    hide LsbBits, BitAt;
    FieldBits();
    ClBitIs(data, 33 + 3 * i);
    ClBitIs(data, 33 + 3 * i + 1);
    ClBitIs(data, 33 + 3 * i + 2);
    assert cl[CL_ORDER[i]] == if i == 2 || i == 3 then 2 else if i == 17 then 1 else 0;
    assert BitAt(data, 33 + 3 * i + 0) == ClBit(33 + 3 * i);
  }

  /** Bits 87 to 111: the run lengths. */
  lemma RunsHold(data: seq<Byte>)
    requires data == BYTES
    ensures Holds(data, 87, [0]) && Holds(data, 88, [1, 1]) && Holds(data, 90, [1, 1, 1, 1, 1, 1, 1])
    ensures Holds(data, 97, [1, 1]) && Holds(data, 99, [0, 1, 0, 1, 0, 1, 1])
    ensures Holds(data, 106, [0]) && Holds(data, 107, [0]) && Holds(data, 108, [1, 0]) && Holds(data, 110, [1, 0])
  {
    hide LsbBits, Holds;
    ByteBits();
    ByteHolds(data, 10, 0x10);
    ByteHolds(data, 11, 0xFF);
    ByteHolds(data, 12, 0x57);
    ByteHolds(data, 13, 0x53);
    Parted(data, 80, [0, 0, 0, 0, 1, 0, 0, 0], [0, 0, 0, 0, 1, 0, 0], [0]);
    Parted(data, 88, [1, 1, 1, 1, 1, 1, 1, 1], [1, 1], [1, 1, 1, 1, 1, 1]);
    Parted(data, 96, [1, 1, 1, 0, 1, 0, 1, 0], [1], [1, 1, 0, 1, 0, 1, 0]);
    Parted(data, 97, [1, 1, 0, 1, 0, 1, 0], [1, 1], [0, 1, 0, 1, 0]);
    Joined(data, 90, [1, 1, 1, 1, 1, 1], [1], [1, 1, 1, 1, 1, 1, 1]);
    Parted(data, 104, [1, 1, 0, 0, 1, 0, 1, 0], [1, 1], [0, 0, 1, 0, 1, 0]);
    Joined(data, 99, [0, 1, 0, 1, 0], [1, 1], [0, 1, 0, 1, 0, 1, 1]);
    Parted(data, 106, [0, 0, 1, 0, 1, 0], [0], [0, 1, 0, 1, 0]);
    Parted(data, 107, [0, 1, 0, 1, 0], [0], [1, 0, 1, 0]);
    Parted(data, 108, [1, 0, 1, 0], [1, 0], [1, 0]);
  }

  // ---------- the header is read ----------

  ghost predicate OpsHeld(data: seq<Byte>, pos: nat, cl: seq<nat>, ops: seq<F.ClOp>, acc: seq<nat>, total: nat, end: nat) {
    && F.WfOps(cl, ops, acc, total)
    && Holds(data, pos, F.OpsBits(cl, ops, acc, total)) && pos + |F.OpsBits(cl, ops, acc, total)| == end
  }

  lemma NoOps(data: seq<Byte>, pos: nat, cl: seq<nat>, acc: seq<nat>)
    requires pos <= 8 * |data|
    ensures OpsHeld(data, pos, cl, [], acc, |acc|, pos)
    ensures F.ExpandAll([], acc) == acc
  {
  }

  lemma OpsFrom(data: seq<Byte>, pos: nat, cl: seq<nat>, ops: seq<F.ClOp>, acc: seq<nat>, acc': seq<nat>, total: nat, end: nat)
    requires ops != [] && |acc| < total && F.WfOp(cl, ops[0], |acc|) && Holds(data, pos, F.OpBits(cl, ops[0]))
    requires F.Expand(ops[0], acc) == acc'
    requires OpsHeld(data, pos + |F.OpBits(cl, ops[0])|, cl, ops[1..], acc', total, end)
    ensures OpsHeld(data, pos, cl, ops, acc, total, end)
    ensures F.ExpandAll(ops, acc) == F.ExpandAll(ops[1..], acc')
  {
    hide Holds, F.OpBits, F.Expand;
    HoldsSplit(data, pos, F.OpBits(cl, ops[0]), F.OpsBits(cl, ops[1..], acc', total));
  }

  /** One length, sent as the code of its symbol. */
  lemma LengthRead(data: seq<Byte>, pos: nat, cl: seq<nat>, l: nat, bits: seq<Bit>,
                   ops: seq<F.ClOp>, acc: seq<nat>, total: nat, end: nat)
    requires l < 16 && Used(cl, l) && SymbolBits(cl, l) == bits && Holds(data, pos, bits)
    requires ops != [] && ops[0] == F.OneLength(l) && |acc| < total
    requires OpsHeld(data, pos + |bits|, cl, ops[1..], acc + [l], total, end)
    ensures OpsHeld(data, pos, cl, ops, acc, total, end)
    ensures F.ExpandAll(ops, acc) == F.ExpandAll(ops[1..], acc + [l])
  {
    hide SymbolBits, Holds, OpsHeld;
    OpsFrom(data, pos, cl, ops, acc, acc + [l], total, end);
  }

  /** A run of zeros, sent as symbol 18 and its length. */
  lemma ZerosRead(data: seq<Byte>, pos: nat, cl: seq<nat>, n: nat, extra: seq<Bit>,
                  ops: seq<F.ClOp>, acc: seq<nat>, total: nat, end: nat)
    requires 11 <= n < 139 && Used(cl, 18) && SymbolBits(cl, 18) == [1, 1] && LsbBits(n - 11, 7) == extra
    requires Holds(data, pos, [1, 1]) && Holds(data, pos + 2, extra)
    requires ops != [] && ops[0] == F.LongZeros(n) && |acc| < total
    requires OpsHeld(data, pos + 9, cl, ops[1..], acc + seq(n, i => 0), total, end)
    ensures OpsHeld(data, pos, cl, ops, acc, total, end)
    ensures F.ExpandAll(ops, acc) == F.ExpandAll(ops[1..], acc + seq(n, i => 0))
  {
    hide SymbolBits, LsbBits, Holds, OpsHeld;
    Joined(data, pos, [1, 1], extra, F.OpBits(cl, F.LongZeros(n)));
    OpsFrom(data, pos, cl, ops, acc, acc + seq(n, i => 0), total, end);
  }

  /** The lengths sent: 1 for symbols 0 and 256, and for the first of three distances. */
  function Lengths(n: nat): (r: seq<nat>)
    ensures |r| == n
  {
    seq(n, i => LengthOf(i))
  }

  function LengthOf(i: int): nat {
    if i == 0 || i == 256 || i == 257 then 1 else 0
  }

  lemma OneMore(n: nat)
    ensures Lengths(n) + [LengthOf(n)] == Lengths(n + 1)
  {
  }

  lemma ZerosMore(n: nat, k: nat)
    requires 1 <= n <= n + k <= 256
    ensures Lengths(n) + seq(k, i => 0) == Lengths(n + k)
  {
  }

  /** What the operations need of the buffer and the code-length code. */
  ghost predicate RunsCoded(data: seq<Byte>, cl: seq<nat>) {
    && |data| == 14
    && Used(cl, 0) && Used(cl, 1) && Used(cl, 18)
    && SymbolBits(cl, 1) == [0] && SymbolBits(cl, 0) == [1, 0] && SymbolBits(cl, 18) == [1, 1]
    && Holds(data, 87, [0]) && Holds(data, 88, [1, 1]) && Holds(data, 90, [1, 1, 1, 1, 1, 1, 1])
    && Holds(data, 97, [1, 1]) && Holds(data, 99, [0, 1, 0, 1, 0, 1, 1])
    && Holds(data, 106, [0]) && Holds(data, 107, [0]) && Holds(data, 108, [1, 0]) && Holds(data, 110, [1, 0])
  }

  lemma LastOps(data: seq<Byte>, cl: seq<nat>, ops: seq<F.ClOp>)
    requires RunsCoded(data, cl)
    requires ops == [F.OneLength(1), F.OneLength(1), F.OneLength(0), F.OneLength(0)]
    ensures OpsHeld(data, 106, cl, ops, Lengths(256), 260, 112)
    ensures F.ExpandAll(ops, Lengths(256)) == Lengths(260)
  {
    hide Holds, SymbolBits, OpsHeld, Lengths;
    NoOps(data, 112, cl, Lengths(260));
    OneMore(259);
    OneMore(258);
    OneMore(257);
    OneMore(256);
    assert ops[3..][1..] == [] && ops[2..][1..] == ops[3..] && ops[1..][1..] == ops[2..];
    LengthRead(data, 110, cl, 0, [1, 0], ops[3..], Lengths(259), 260, 112);
    LengthRead(data, 108, cl, 0, [1, 0], ops[2..], Lengths(258), 260, 112);
    LengthRead(data, 107, cl, 1, [0], ops[1..], Lengths(257), 260, 112);
    LengthRead(data, 106, cl, 1, [0], ops, Lengths(256), 260, 112);
  }

  lemma AllOps(data: seq<Byte>, cl: seq<nat>, ops: seq<F.ClOp>)
    requires RunsCoded(data, cl) && ops == Ops()
    ensures OpsHeld(data, 87, cl, ops, [], 260, 112)
    ensures F.ExpandAll(ops, []) == Lengths(260)
  {
    FieldBits();
    hide Holds, SymbolBits, LsbBits, OpsHeld, Lengths, F.ExpandAll;
    assert ops[3..] == [F.OneLength(1), F.OneLength(1), F.OneLength(0), F.OneLength(0)];
    LastOps(data, cl, ops[3..]);
    ZerosMore(139, 117);
    ZerosMore(1, 138);
    OneMore(0);
    assert Lengths(0) == [] && Lengths(0) + [1] == [1];
    assert ops[2..][1..] == ops[3..] && ops[1..][1..] == ops[2..];
    ZerosRead(data, 97, cl, 117, [0, 1, 0, 1, 0, 1, 1], ops[2..], Lengths(139), 260, 112);
    ZerosRead(data, 88, cl, 138, [1, 1, 1, 1, 1, 1, 1], ops[1..], Lengths(1), 260, 112);
    assert [] + [1] == Lengths(1);
    LengthRead(data, 87, cl, 1, [0], ops, [], 260, 112);
  }

  lemma Coded(data: seq<Byte>, cl: seq<nat>)
    requires data == BYTES && cl == Cl()
    ensures RunsCoded(data, cl)
  {
    hide Holds, SymbolBits;
    RunsHold(data);
    ClCodes(cl);
  }

  /** A header with these fields is well formed as soon as its two codes are. */
  lemma HeaderWf(b: F.Block, cl: seq<nat>, ops: seq<F.ClOp>)
    requires b == F.DynamicBlock(257, 3, 18, cl, ops, [])
    requires |cl| == 19 && (forall i :: 0 <= i < 19 ==> cl[i] < 8) && cl[15] == 0 && !OverSubscribed(cl)
    requires F.WfOps(cl, ops, [], 260) && F.ExpandAll(ops, []) == Lengths(260)
    ensures F.WfDynamicHeader(b)
    ensures F.BlockTables(b) == Tables(Lengths(260)[..257], Lengths(260)[257..])
  {
    hide OverSubscribed, F.WfOps, F.ExpandAll, Lengths;
  }

  lemma ClReads(data: seq<Byte>, cl: seq<nat>)
    requires data == BYTES && cl == Cl()
    ensures |F.ClBits(cl, 18)| == 54 && Holds(data, 33, F.ClBits(cl, 18))
  {
    forall i | 0 <= i < 18 ensures ClField(data, cl, i) {
      ClFieldHolds(data, cl, i);
    }
    hide ClField, Holds, F.ClBits;
    ClHolds(data, cl, 18);
  }

  lemma HeaderHolds(data: seq<Byte>, b: F.Block)
    requires data == BYTES && b == Header()
    ensures F.WfDynamicHeader(b) && Holds(data, 19, F.HeaderBits(b)) && |F.HeaderBits(b)| == 93
    ensures F.BlockTables(b) == Tables(Lengths(260)[..257], Lengths(260)[257..])
  {
    hide OverSubscribed, RunsCoded, Holds, LsbBits, F.ClBits, F.OpsBits, F.WfOps, F.ExpandAll, Lengths, F.WfDynamicHeader;
    hide F.HeaderBits, F.BlockTables, Ops;
    var cl, ops := Cl(), Ops();
    FieldBits();
    FlagsHold(data);
    CountsHold(data);
    ClFits(cl);
    Coded(data, cl);
    AllOps(data, cl, ops);
    ClReads(data, cl);
    HeaderWf(b, cl, ops);
    HeaderJoins(data, cl, ops, b);
  }

  lemma HeaderJoins(data: seq<Byte>, cl: seq<nat>, ops: seq<F.ClOp>, b: F.Block)
    requires b.DynamicBlock? && F.WfDynamicHeader(b)
    requires b.hlit == 257 && b.hdist == 3 && b.hclen == 18 && b.cl == cl && b.ops == ops
    requires Holds(data, 19, LsbBits(0, 5)) && Holds(data, 24, LsbBits(2, 5)) && Holds(data, 29, LsbBits(14, 4))
    requires |F.ClBits(cl, 18)| == 54 && Holds(data, 33, F.ClBits(cl, 18))
    requires OpsHeld(data, 87, cl, ops, [], 260, 112)
    ensures Holds(data, 19, F.HeaderBits(b)) && |F.HeaderBits(b)| == 93
  {
    hide Holds, LsbBits, F.ClBits, F.OpsBits, F.WfOps, F.ExpandAll, OverSubscribed;
    var cls, runs := F.ClBits(cl, 18), F.OpsBits(cl, ops, [], 260);
    HoldsSplit(data, 33, cls, runs);
    HoldsSplit(data, 29, LsbBits(14, 4), cls + runs);
    HoldsSplit(data, 24, LsbBits(2, 5), LsbBits(14, 4) + (cls + runs));
    HoldsSplit(data, 19, LsbBits(0, 5), LsbBits(2, 5) + (LsbBits(14, 4) + (cls + runs)));
  }

  /** The all-zero code of its literals is the byte 0. */
  lemma ZerosGoOn(lit: seq<nat>, dist: seq<nat>, written: nat)
    requires |lit| == 257 && lit[0] == 1
    ensures Endless(lit, dist, written)
  {
    hide ZeroCode, DistanceReads;
    RankOf(lit, 0);
    assert |OfLength(lit, 0, 1)| == 0;
    ZeroCodeIs(lit, 1);
  }

  lemma Loops(data: seq<Byte>, t: Tables)
    requires |data| == 14 && HeaderPasses(data) && BitsAt(data, 17, 2) == 2
    requires DynamicTables(data, 19) == Next(t, 112) && |t.lit| == 257 && t.lit[0] == 1
    ensures Inflate(data).NeverReturns?
  {
    ZerosGoOn(t.lit, t.dist, 0);
    NeverReturnsIff(data);
    hide Inflate, Endless, DynamicTables, BitsAt, HeaderPasses, Body;
    assert Reached(t.lit, t.dist, data, 112, []) == Some(0);
    assert Sticks(data, 16, []);
  }

  lemma TablesRead(data: seq<Byte>)
    requires data == BYTES
    ensures DynamicTables(data, 19) == Next(Tables(Lengths(260)[..257], Lengths(260)[257..]), 112)
  {
    hide Lengths, F.WfDynamicHeader, F.HeaderBits, F.BlockTables, Holds, DynamicTables;
    var b := Header();
    HeaderHolds(data, b);
    DynamicTablesRead(b, data, 19);
  }

  /** A buffer of 14 bytes, cut off where the first symbol of its block would be, keeps the decoder for ever. */
  lemma TruncatedNeverReturns()
    ensures Inflate(BYTES).NeverReturns?
  {
    hide DynamicTables, Inflate, Holds, LsbBits, BitsAt;
    TablesRead(BYTES);
    FlagsHold(BYTES);
    FieldBits();
    Pow2Values();
    LsbBitsRead(BYTES, 17, 2, 2);
    var t := DynamicTables(BYTES, 19).value;
    assert t.lit[0] == LengthOf(0);
    hide Lengths;
    Loops(BYTES, t);
  }
}
