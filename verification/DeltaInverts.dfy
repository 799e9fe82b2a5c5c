/** The delta interpreter inverts the delta format. */
module DeltaInverts {
  import opened Bytes
  import opened Wrappers
  import opened Delta

  /** The bytes at offset `at` of the buffer. */
  ghost predicate Has(d: seq<Byte>, at: nat, bytes: seq<Byte>) {
    at + |bytes| <= |d| && d[at..at + |bytes|] == bytes
  }

  lemma HasSplit(d: seq<Byte>, at: nat, a: seq<Byte>, b: seq<Byte>)
    requires Has(d, at, a + b)
    ensures Has(d, at, a) && Has(d, at + |a|, b)
  {
    var ab := d[at..at + |a + b|];
    assert ab[..|a|] == a && ab[|a|..] == b;
    assert d[at..at + |a|] == ab[..|a|];
    assert d[at + |a|..at + |a| + |b|] == ab[|a|..];
  }

  lemma HasFirst(d: seq<Byte>, at: nat, bytes: seq<Byte>)
    requires bytes != [] && Has(d, at, bytes)
    ensures at < |d| && d[at] == bytes[0] && ByteAt(d, at) == bytes[0]
  {
    assert d[at..at + |bytes|][0] == d[at];
  }

  // ---------- varints ----------

  lemma Pow2Seven(s: nat)
    ensures Pow2(s + 7) == 128 * Pow2(s)
  {
    assert Pow2(s + 7) == 2 * Pow2(s + 6);
    assert Pow2(s + 6) == 2 * Pow2(s + 5);
    assert Pow2(s + 5) == 2 * Pow2(s + 4);
    assert Pow2(s + 4) == 2 * Pow2(s + 3);
    assert Pow2(s + 3) == 2 * Pow2(s + 2);
    assert Pow2(s + 2) == 2 * Pow2(s + 1);
    assert Pow2(s + 1) == 2 * Pow2(s);
  }

  lemma SevenMoreBits(value: nat, v: nat, unit: nat)
    requires value < unit && v * unit + value < TWO32
    ensures value + (v % 128) * unit < 128 * unit
    ensures (v % 128) * unit + value < TWO32
    ensures (v / 128) * (128 * unit) + (value + (v % 128) * unit) == v * unit + value
  {
    var q, b := v / 128, v % 128;
    GroupSplits(q, b, unit);
    MulMonotone(b, 127, unit);
    MulMonotone(0, q, 128 * unit);
  }

  lemma GroupSplits(q: nat, b: nat, unit: nat)
    ensures (128 * q + b) * unit == q * (128 * unit) + b * unit
  {
  }

  lemma ShiftSmall(v: nat, s: nat)
    requires v >= 1 && v * Pow2(s) < TWO32
    ensures s < 32
  {
    hide Pow2;
    MulMonotone(1, v, Pow2(s));
    if s >= 32 {
      Pow2Grows(32, s);
      Pow2At32();
      assert false;
    }
  }

  lemma Pow2At32()
    ensures Pow2(32) == TWO32
  {
    Pow2Adds(8, 8);
    Pow2Adds(16, 16);
  }

  lemma VarintGroup(value: nat, b: nat, s: nat)
    requires value < Pow2(s) && s < 32 && b * Pow2(s) + value < TWO32
    ensures ToUint32(Or(value, Shl(b, s))) == value + b * Pow2(s)
  {
    hide Or, Pow2;
    OrAboveIsSum(value, b, s);
    var t := b * Pow2(s);
    assert s % 32 == s;
    assert t % TWO32 == t;
    assert Shl(b, s) == t;
  }

  lemma VarintStep(d: seq<Byte>, at: nat, value: nat, s: nat)
    requires value < TWO32
    ensures var byte: int := ByteAt(d, at);
      var next := ToUint32(Or(value, Shl(byte % 128, s)));
      Varint(d, at, value, s) == if byte >= 128 then Varint(d, at + 1, next, s + 7) else (next, at + 1)
  {
    hide Or, Shl, ToUint32;
  }

  /** One group of seven bits joins those read before. */
  lemma VarintJoins(d: seq<Byte>, at: nat, v: nat, value: nat, s: nat, next: nat)
    requires value < Pow2(s) && v * Pow2(s) + value < TWO32 && (s == 0 || v >= 1)
    requires ByteAt(d, at) % 128 == v % 128 && next == value + (v % 128) * Pow2(s)
    requires value < TWO32 && next < TWO32
    ensures
      Varint(d, at, value, s) == if ByteAt(d, at) >= 128 then Varint(d, at + 1, next, s + 7) else (next, at + 1)
  {
    hide Or, Shl, ToUint32, Pow2, Varint;
    if v >= 1 {
      ShiftSmall(v, s);
    }
    SevenMoreBits(value, v, Pow2(s));
    VarintGroup(value, v % 128, s);
    VarintStep(d, at, value, s);
  }

  lemma VarintHead(d: seq<Byte>, at: nat, v: nat)
    requires Has(d, at, VarintBytes(v))
    ensures ByteAt(d, at) == (if v >= 128 then 128 + v % 128 else v) && ByteAt(d, at) % 128 == v % 128
    ensures v >= 128 ==> Has(d, at + 1, VarintBytes(v / 128)) && |VarintBytes(v)| == 1 + |VarintBytes(v / 128)|
    ensures v < 128 ==> |VarintBytes(v)| == 1
  {
    HasFirst(d, at, VarintBytes(v));
    hide Has;
    if v >= 128 {
      HasSplit(d, at, [128 + v % 128], VarintBytes(v / 128));
    }
  }

  lemma {:induction false} VarintFrom(d: seq<Byte>, at: nat, v: nat, value: nat, s: nat)
    requires Has(d, at, VarintBytes(v))
    requires value < Pow2(s) && v * Pow2(s) + value < TWO32 && (s == 0 || v >= 1)
    ensures Varint(d, at, value, s) == (v * Pow2(s) + value, at + |VarintBytes(v)|)
    decreases v
  {
    hide Has, Pow2, Varint, VarintBytes;
    var next := value + (v % 128) * Pow2(s);
    VarintHead(d, at, v);
    SevenMoreBits(value, v, Pow2(s));
    VarintJoins(d, at, v, value, s, next);
    if v >= 128 {
      Pow2Seven(s);
      VarintFrom(d, at + 1, v / 128, next, s + 7);
    } else {
      assert v % 128 == v;
    }
  }

  /** Reading back a size written as a little-endian base-128 varint. */
  lemma VarintRead(d: seq<Byte>, at: nat, v: nat)
    requires v < TWO32 && Has(d, at, VarintBytes(v))
    ensures Varint(d, at, 0, 0) == (v, at + |VarintBytes(v)|)
  {
    assert Pow2(0) == 1;
    VarintFrom(d, at, v, 0, 0);
  }

  // ---------- instructions ----------

  lemma {:induction false} OperandsRead(d: seq<Byte>, at: nat, flags: seq<bool>, bytes: seq<Byte>)
    requires |flags| == |bytes| && Has(d, at, Sent(flags, bytes))
    requires forall k :: 0 <= k < |flags| ==> flags[k] || bytes[k] == 0
    ensures Operands(d, at, flags) == (bytes, at + |Sent(flags, bytes)|)
    decreases |flags|
  {
    if flags != [] {
      var head: seq<Byte> := if flags[0] then [bytes[0]] else [];
      HasSplit(d, at, head, Sent(flags[1..], bytes[1..]));
      if flags[0] {
        HasFirst(d, at, head);
      }
      OperandsRead(d, at + |head|, flags[1..], bytes[1..]);
      assert bytes == [bytes[0]] + bytes[1..];
    }
  }

  lemma ArgsOfBytes(offset: nat, rawSize: nat, next: nat)
    requires offset < TWO32 && rawSize < 0x100_0000
    ensures ArgsOf(ArgBytes(offset, rawSize), next) == CopyArgs(offset, rawSize, next)
  {
    FourBytes(offset);
    FourBytes(rawSize);
  }

  lemma FourBytes(v: nat)
    requires v < TWO32
    ensures v % 256 + 0x100 * ((v / 0x100) % 256) + 0x10000 * ((v / 0x10000) % 256) + 0x100_0000 * ((v / 0x100_0000) % 256) == v
    ensures v < 0x100_0000 ==> (v / 0x100_0000) % 256 == 0
  {
    assert v / 0x10000 == (v / 0x100) / 0x100 && v / 0x100_0000 == (v / 0x10000) / 0x100;
  }

  /** Adding an even number of units does not change the parity of the quotient. */
  lemma FlagStays(mask: nat, weight: nat, half: nat)
    requires weight > 0
    ensures Flag(mask + 2 * half * weight, weight) == Flag(mask, weight)
  {
    var q, r := mask / weight, mask % weight;
    assert mask == q * weight + r;
    assert (q + 2 * half) * weight == q * weight + 2 * half * weight;
    QuotientOf(q + 2 * half, weight, r);
    assert mask + 2 * half * weight == (q + 2 * half) * weight + r;
  }

  lemma FlagsOfOp(mask: nat)
    requires mask < 128
    ensures Flags(128 + mask) == Flags(mask)
  {
    hide Flag;
    FlagStays(mask, 1, 64);
    FlagStays(mask, 2, 32);
    FlagStays(mask, 4, 16);
    FlagStays(mask, 8, 8);
    FlagStays(mask, 16, 4);
    FlagStays(mask, 32, 2);
    FlagStays(mask, 64, 1);
  }

  lemma CopyRead(base: seq<Byte>, op: Op, d: seq<Byte>, at: nat)
    requires op.Copy? && WfOp(base, op) && |base| < TWO31
    requires Has(d, at, OpBytes(op))
    ensures ReadCopy(d, at + 1, 128 + op.mask) == CopyArgs(op.offset, op.rawSize, at + |OpBytes(op)|)
  {
    hide Operands, Has, Sent, ArgBytes, Flags, ArgsOf;
    HasSplit(d, at, [128 + op.mask], Sent(Flags(op.mask), ArgBytes(op.offset, op.rawSize)));
    FlagsOfOp(op.mask);
    OperandsRead(d, at + 1, Flags(op.mask), ArgBytes(op.offset, op.rawSize));
    ArgsOfBytes(op.offset, op.rawSize, at + |OpBytes(op)|);
  }

  /** One instruction writes its meaning and moves past its own bytes. */
  lemma OpRead(base: seq<Byte>, op: Op, d: seq<Byte>, cursor: nat)
    requires WfOp(base, op) && |base| < TWO31
    requires Has(d, cursor, OpBytes(op))
    ensures cursor < |d|
    ensures Instruction(base, d, cursor) == Put(OpMeaning(base, op), |OpMeaning(base, op)|, cursor + |OpBytes(op)|)
  {
    hide ReadCopy, ArgBytes, Flags, Sent;
    HasFirst(d, cursor, OpBytes(op));
    match op
    case Copy(offset, rawSize, mask) =>
      CopyRead(base, op, d, cursor);
      assert ToInt32(offset) == offset;
    case Insert(bytes) =>
      HasSplit(d, cursor, [|bytes|], bytes);
  }

  lemma {:induction false} OpsRead(base: seq<Byte>, ops: seq<Op>, d: seq<Byte>, cursor: nat, done: seq<Byte>)
    requires WfOps(base, ops) && |base| < TWO31
    requires Has(d, cursor, OpsBytes(base, ops)) && cursor + |OpsBytes(base, ops)| == |d|
    ensures Run(base, d, cursor, done + Zeros(|Meaning(base, ops)|), |done|) == Success(done + Meaning(base, ops))
    decreases |ops|
  {
    hide Has, OpBytes, OpMeaning, Run, Instruction;
    var target := done + Zeros(|Meaning(base, ops)|);
    if ops == [] {
      assert target == done;
      RunEnds(base, d, cursor, target);
    } else {
      var m := OpMeaning(base, ops[0]);
      HasSplit(d, cursor, OpBytes(ops[0]), OpsBytes(base, ops[1..]));
      OpRead(base, ops[0], d, cursor);
      RunStep(base, d, cursor, target, |done|);
      var done' := done + m;
      assert Write(target, |done|, m) == done' + Zeros(|Meaning(base, ops[1..])|);
      OpsRead(base, ops[1..], d, cursor + |OpBytes(ops[0])|, done');
      assert done' + Meaning(base, ops[1..]) == done + Meaning(base, ops);
    }
  }

  lemma RunStep(base: seq<Byte>, d: seq<Byte>, cursor: nat, target: seq<Byte>, at: nat)
    requires cursor < |d| && Instruction(base, d, cursor).Put?
    requires at + |Instruction(base, d, cursor).chunk| <= |target|
    ensures var s := Instruction(base, d, cursor);
            Run(base, d, cursor, target, at) == Run(base, d, s.next, Write(target, at, s.chunk), at + s.size)
  {
  }

  lemma RunEnds(base: seq<Byte>, d: seq<Byte>, cursor: nat, target: seq<Byte>)
    requires cursor >= |d|
    ensures Run(base, d, cursor, target, |target|) == Success(target)
  {
  }

  /**
   Applying the encoding of any well-formed instruction list gives the concatenation of the slices
   and literals it denotes.
   */
  lemma ApplyInvertsEncode(base: seq<Byte>, ops: seq<Op>)
    requires WfOps(base, ops) && |base| < TWO31 && |Meaning(base, ops)| < TWO31
    ensures Apply(base, Encode(base, ops)) == Success(Meaning(base, ops))
  {
    hide Varint, VarintBytes, OpsBytes, Run;
    var d := Encode(base, ops);
    var n, m := VarintBytes(|base|), VarintBytes(|Meaning(base, ops)|);
    assert Has(d, 0, n + (m + OpsBytes(base, ops)));
    HasSplit(d, 0, n, m + OpsBytes(base, ops));
    HasSplit(d, |n|, m, OpsBytes(base, ops));
    VarintRead(d, 0, |base|);
    VarintRead(d, |n|, |Meaning(base, ops)|);
    OpsRead(base, ops, d, |n| + |m|, []);
    assert [] + Zeros(|Meaning(base, ops)|) == Zeros(|Meaning(base, ops)|);
    assert [] + Meaning(base, ops) == Meaning(base, ops);
  }

  // ---------- the copy guard ----------

  predicate GuardPasses(base: seq<Byte>, offset: nat, rawSize: nat) {
    ToInt32(offset) + CopySize(rawSize) <= |base|
  }

  /**
   The guard alone does not keep copies inside the base: an offset of 2^31 or more is read as a
   negative number. Passing the guard means the copy is inside the base exactly below that.
   */
  lemma CopyGuard(base: seq<Byte>, offset: nat, rawSize: nat)
    requires |base| < TWO31 && offset < TWO32 && rawSize < 0x100_0000
    ensures offset + CopySize(rawSize) <= |base| <==> GuardPasses(base, offset, rawSize) && offset < TWO31
  {
    assert offset < TWO31 ==> ToInt32(offset) == offset;
  }

  lemma OperandStep(d: seq<Byte>, at: nat, flags: seq<bool>, rest: seq<bool>, bytes: seq<Byte>, more: seq<Byte>, next: nat)
    requires |flags| > 0 && flags[1..] == rest
    requires |bytes| > 0 && bytes[1..] == more && bytes[0] == if flags[0] then ByteAt(d, at) else 0
    requires Operands(d, if flags[0] then at + 1 else at, rest) == (more, next)
    ensures Operands(d, at, flags) == (bytes, next)
  {
    assert bytes == [bytes[0]] + more;
  }

  lemma HugeCopyArgs(d: seq<Byte>)
    requires d == [1, 1, 0x98, 255, 1]
    ensures ReadCopy(d, 3, 0x98) == CopyArgs(0xff00_0000, 1, 5)
  {
    hide ArgsOf, Operands;
    var f, b := [false, false, false, true, true, false, false], [0, 0, 0, 255, 1, 0, 0];
    NoOperands(d, 5);
    OperandStep(d, 5, f[6..], f[7..], b[6..], b[7..], 5);
    OperandStep(d, 5, f[5..], f[6..], b[5..], b[6..], 5);
    OperandStep(d, 4, f[4..], f[5..], b[4..], b[5..], 5);
    OperandStep(d, 3, f[3..], f[4..], b[3..], b[4..], 5);
    OperandStep(d, 3, f[2..], f[3..], b[2..], b[3..], 5);
    OperandStep(d, 3, f[1..], f[2..], b[1..], b[2..], 5);
    OperandStep(d, 3, f, f[1..], b, b[1..], 5);
    assert Flags(0x98) == f;
    ArgsOfHuge(b);
  }

  lemma NoOperands(d: seq<Byte>, at: nat)
    ensures Operands(d, at, []) == ([], at)
  {
  }

  lemma ArgsOfHuge(bytes: seq<Byte>)
    requires bytes == [0, 0, 0, 255, 1, 0, 0]
    ensures ArgsOf(bytes, 5) == CopyArgs(0xff00_0000, 1, 5)
  {
  }

  /** A copy from offset 0xff000000 of a one-byte base is accepted and leaves a zero byte. */
  lemma HugeOffsetAccepted()
    ensures Apply([7], [1, 1, 0x98, 255, 1]) == Success([0])
  {
    hide ReadCopy;
    var d: seq<Byte> := [1, 1, 0x98, 255, 1];
    var base: seq<Byte> := [7];
    HugeCopyArgs(d);
    OneByteVarint(d, 0);
    OneByteVarint(d, 1);
    assert ToInt32(0xff00_0000) == -0x100_0000;
    assert Instruction(base, d, 2) == Put([], 1, 5);
    assert Write(Zeros(1), 0, []) == Zeros(1);
    RunEnds(base, d, 5, Zeros(1));
    RunStep(base, d, 2, Zeros(1), 0);
    assert Zeros(1) == [0];
  }

  lemma OneByteVarint(d: seq<Byte>, at: nat)
    requires at < |d| && d[at] < 128
    ensures Varint(d, at, 0, 0) == (d[at], at + 1)
  {
    assert Has(d, at, VarintBytes(d[at]));
    VarintRead(d, at, d[at]);
  }

  /** An insert cut off by the end of the delta is accepted too: the bytes it lacks stay zero. */
  lemma CutInsertAccepted()
    ensures Apply([], [0, 2, 2, 5]) == Success([5, 0])
  {
    var d: seq<Byte> := [0, 2, 2, 5];
    OneByteVarint(d, 0);
    OneByteVarint(d, 1);
    assert Instruction([], d, 2) == Put([5], 2, 5);
    assert Write(Zeros(2), 0, [5]) == [5, 0];
    RunStep([], d, 2, Zeros(2), 0);
    RunEnds([], d, 5, [5, 0]);
  }
}
