/** The git binary delta interpreter `applyDelta`, and the format it reads. */
module Delta {
  import opened Bytes
  import opened Wrappers

  datatype Error =
    | BaseSizeMismatch
    | CopyOutsideBase
    | OpcodeZero
    | TargetSizeMismatch
    | WriteOutOfRange

  // ---------- the interpreter on any input ----------

  /**
   The little-endian base-128 varint at `at`, with the value and shift so far. JavaScript shifts
   by the count modulo 32, so a varint of six or more bytes folds back on itself.
   */
  function Varint(d: seq<Byte>, at: nat, value: nat, shift: nat): (r: (nat, nat))
    requires value < TWO32
    ensures r.0 < TWO32 && at < r.1 <= (if at < |d| then |d| else at) + 1
    decreases |d| - at
  {
    var byte: int := ByteAt(d, at);
    var value' := ToUint32(Or(value, Shl(byte % 128, shift)));
    if byte >= 128 then Varint(d, at + 1, value', shift + 7) else (value', at + 1)
  }

  /** `b.subarray(from, to)`: negative bounds count from the end, and both are clamped. */
  function Subarray(b: seq<Byte>, from: int, to: int): (r: seq<Byte>)
    ensures 0 <= from <= to <= |b| ==> r == b[from..to]
  {
    var lo := Clamp(from, |b|);
    var hi := Clamp(to, |b|);
    if lo <= hi then b[lo..hi] else []
  }

  function Clamp(i: int, n: nat): (r: nat)
    ensures r <= n
    ensures 0 <= i <= n ==> r == i
  {
    if i < 0 then (if n + i < 0 then 0 else n + i) else if i > n then n else i
  }

  /** `target.set(chunk, at)`, which must fit. */
  function Write(target: seq<Byte>, at: nat, chunk: seq<Byte>): (r: seq<Byte>)
    requires at + |chunk| <= |target|
    ensures |r| == |target|
  {
    target[..at] + chunk + target[at + |chunk|..]
  }

  /** Operand bytes at `at`: those whose flag is clear are not sent and count as 0. */
  function Operands(d: seq<Byte>, at: nat, flags: seq<bool>): (r: (seq<Byte>, nat))
    ensures |r.0| == |flags| && at <= r.1 <= at + |flags|
    decreases |flags|
  {
    if flags == [] then ([], at)
    else if flags[0] then
      var (rest, next) := Operands(d, at + 1, flags[1..]);
      ([ByteAt(d, at)] + rest, next)
    else
      var (rest, next) := Operands(d, at, flags[1..]);
      ([0] + rest, next)
  }

  function Flag(op: nat, weight: nat): bool
    requires weight > 0
  {
    (op / weight) % 2 == 1
  }

  function Flags(op: nat): (f: seq<bool>)
    ensures |f| == 7
  {
    [Flag(op, 1), Flag(op, 2), Flag(op, 4), Flag(op, 8), Flag(op, 16), Flag(op, 32), Flag(op, 64)]
  }

  datatype CopyArgs = CopyArgs(offset: nat, size: nat, next: nat)

  /** The offset and size made of seven operand bytes. */
  function ArgsOf(b: seq<Byte>, next: nat): CopyArgs
    requires |b| == 7
  {
    var b0: int, b1: int, b2: int, b3: int := b[0], b[1], b[2], b[3];
    var s0: int, s1: int, s2: int := b[4], b[5], b[6];
    CopyArgs(b0 + 0x100 * b1 + 0x10000 * b2 + 0x100_0000 * b3, s0 + 0x100 * s1 + 0x10000 * s2, next)
  }

  /** The offset (four bytes) and size (three bytes) of a copy instruction. */
  function ReadCopy(d: seq<Byte>, at: nat, op: nat): (args: CopyArgs)
    ensures at <= args.next <= at + 7
  {
    var (bytes, next) := Operands(d, at, Flags(op));
    ArgsOf(bytes, next)
  }

  function CopySize(raw: nat): nat {
    if raw == 0 then 0x10000 else raw
  }

  /** One instruction: bytes to write, how far the target moves on, and the next cursor. */
  datatype Step = Put(chunk: seq<Byte>, size: nat, next: nat) | Bad(error: Error)

  /** The copy offset is a signed 32-bit number. */
  function CopyStep(base: seq<Byte>, args: CopyArgs): Step {
    var offset, size := ToInt32(args.offset), CopySize(args.size);
    if offset + size > |base| then Bad(CopyOutsideBase)
    else Put(Subarray(base, offset, offset + size), size, args.next)
  }

  function Instruction(base: seq<Byte>, d: seq<Byte>, cursor: nat): (s: Step)
    requires cursor < |d|
    ensures s.Put? ==> s.next > cursor
  {
    var op: int := d[cursor];
    if op >= 128 then CopyStep(base, ReadCopy(d, cursor + 1, op))
    else if op > 0 then Put(Subarray(d, cursor + 1, cursor + 1 + op), op, cursor + 1 + op)
    else Bad(OpcodeZero)
  }

  /** The instruction loop. */
  function Run(base: seq<Byte>, d: seq<Byte>, cursor: nat, target: seq<Byte>, at: nat): Result<seq<Byte>, Error>
    decreases |d| - cursor
  {
    if cursor >= |d| then
      if at == |target| then Success(target) else Failure(TargetSizeMismatch)
    else match Instruction(base, d, cursor)
      case Bad(e) => Failure(e)
      case Put(chunk, size, next) =>
        if at + |chunk| > |target| then Failure(WriteOutOfRange)
        else Run(base, d, next, Write(target, at, chunk), at + size)
  }

  /** `applyDelta` on any base and any delta bytes. */
  function Apply(base: seq<Byte>, d: seq<Byte>): Result<seq<Byte>, Error> {
    var (baseSize, c1) := Varint(d, 0, 0, 0);
    if baseSize != |base| then Failure(BaseSizeMismatch)
    else
      var (targetSize, c2) := Varint(d, c1, 0, 0);
      Run(base, d, c2, Zeros(targetSize), 0)
  }

  // ---------- the program ----------

  method ReadVarint(d: seq<Byte>, start: nat) returns (value: nat, cursor: nat)
    ensures (value, cursor) == Varint(d, start, 0, 0)
  {
    value, cursor := 0, start;
    var shift := 0;
    while true
      invariant value < TWO32
      invariant Varint(d, cursor, value, shift) == Varint(d, start, 0, 0)
      decreases |d| - cursor
    {
      var byte: int := ByteAt(d, cursor);
      cursor := cursor + 1;
      value := ToUint32(Or(value, Shl(byte % 128, shift)));
      shift := shift + 7;
      if byte < 128 {
        break;
      }
    }
  }

  method SetBytes(target: array<Byte>, at: nat, chunk: seq<Byte>)
    requires at + |chunk| <= target.Length
    modifies target
    ensures target[..] == Write(old(target[..]), at, chunk)
  {
    forall i | 0 <= i < |chunk| {
      target[at + i] := chunk[i];
    }
  }

  method ReadInstruction(base: seq<Byte>, d: seq<Byte>, cursor: nat) returns (s: Step)
    requires cursor < |d|
    ensures s == Instruction(base, d, cursor)
  {
    var op: int := d[cursor];
    if op >= 128 {
      var args := ReadCopy(d, cursor + 1, op);
      var offset, size := ToInt32(args.offset), CopySize(args.size);
      if offset + size > |base| {
        return Bad(CopyOutsideBase);
      }
      return Put(Subarray(base, offset, offset + size), size, args.next);
    } else if op > 0 {
      return Put(Subarray(d, cursor + 1, cursor + 1 + op), op, cursor + 1 + op);
    } else {
      return Bad(OpcodeZero);
    }
  }

  method ApplyDelta(base: seq<Byte>, d: seq<Byte>) returns (r: Result<seq<Byte>, Error>)
    ensures r == Apply(base, d)
  {
    hide Instruction, Varint;
    var baseSize, cursor := ReadVarint(d, 0);
    if baseSize != |base| {
      return Failure(BaseSizeMismatch);
    }
    var targetSize;
    targetSize, cursor := ReadVarint(d, cursor);
    var target := new Byte[targetSize](_ => 0);
    assert target[..] == Zeros(targetSize);
    var at: nat := 0;
    while cursor < |d|
      invariant Run(base, d, cursor, target[..], at) == Apply(base, d)
      decreases |d| - cursor
    {
      var step := ReadInstruction(base, d, cursor);
      if step.Bad? {
        return Failure(step.error);
      }
      if at + |step.chunk| > target.Length {
        return Failure(WriteOutOfRange);
      }
      SetBytes(target, at, step.chunk);
      cursor := step.next;
      at := at + step.size;
    }
    if at != targetSize {
      return Failure(TargetSizeMismatch);
    }
    return Success(target[..]);
  }

  // ---------- the format ----------

  /**
   A copy of `CopySize(rawSize)` base bytes, or literal bytes. Each set bit of `mask` sends one of
   the seven operand bytes of a copy; the bytes not sent are zero.
   */
  datatype Op =
    | Copy(offset: nat, rawSize: nat, mask: nat)
    | Insert(bytes: seq<Byte>)

  /** The seven operand bytes of a copy. */
  function ArgBytes(offset: nat, rawSize: nat): (b: seq<Byte>)
    ensures |b| == 7
  {
    [offset % 256, (offset / 0x100) % 256, (offset / 0x10000) % 256, (offset / 0x100_0000) % 256,
     rawSize % 256, (rawSize / 0x100) % 256, (rawSize / 0x10000) % 256]
  }

  /** The operand bytes whose flag is set. */
  function Sent(flags: seq<bool>, bytes: seq<Byte>): seq<Byte>
    requires |flags| == |bytes|
  {
    if flags == [] then []
    else (if flags[0] then [bytes[0]] else []) + Sent(flags[1..], bytes[1..])
  }

  ghost predicate WfOp(base: seq<Byte>, op: Op) {
    match op
    case Copy(offset, rawSize, mask) =>
      && mask < 128 && rawSize < 0x100_0000
      && offset + CopySize(rawSize) <= |base|
      && forall k :: 0 <= k < 7 ==> Flags(mask)[k] || ArgBytes(offset, rawSize)[k] == 0
    case Insert(bytes) => 1 <= |bytes| < 128
  }

  function OpMeaning(base: seq<Byte>, op: Op): seq<Byte>
    requires WfOp(base, op)
  {
    match op
    case Copy(offset, rawSize, _) => base[offset..offset + CopySize(rawSize)]
    case Insert(bytes) => bytes
  }

  function OpBytes(op: Op): seq<Byte>
    requires op.Copy? ==> op.mask < 128
    requires op.Insert? ==> 1 <= |op.bytes| < 128
  {
    match op
    case Copy(offset, rawSize, mask) =>
      [128 + mask] + Sent(Flags(mask), ArgBytes(offset, rawSize))
    case Insert(bytes) => [|bytes|] + bytes
  }

  ghost predicate WfOps(base: seq<Byte>, ops: seq<Op>) {
    forall i :: 0 <= i < |ops| ==> WfOp(base, ops[i])
  }

  function Meaning(base: seq<Byte>, ops: seq<Op>): seq<Byte>
    requires WfOps(base, ops)
  {
    if ops == [] then [] else OpMeaning(base, ops[0]) + Meaning(base, ops[1..])
  }

  function OpsBytes(base: seq<Byte>, ops: seq<Op>): seq<Byte>
    requires WfOps(base, ops)
  {
    if ops == [] then [] else OpBytes(ops[0]) + OpsBytes(base, ops[1..])
  }

  function VarintBytes(v: nat): seq<Byte> {
    if v < 128 then [v] else [128 + v % 128] + VarintBytes(v / 128)
  }

  /** The delta that turns `base` into the meaning of `ops`. */
  function Encode(base: seq<Byte>, ops: seq<Op>): seq<Byte>
    requires WfOps(base, ops)
  {
    VarintBytes(|base|) + (VarintBytes(|Meaning(base, ops)|) + OpsBytes(base, ops))
  }
}
