/** Which deltas the interpreter accepts: the converse of `DeltaInverts`. */
module DeltaAccepts {
  import opened Bytes
  import opened Wrappers
  import opened Delta
  import opened DeltaInverts

  // ---------- reading a delta back as instructions ----------

  /** Where the instruction at `cursor` ends, which may be behind the end of the delta. */
  function End(d: seq<Byte>, cursor: nat): (end: nat)
    requires cursor < |d|
    ensures end > cursor
  {
    var op: int := d[cursor];
    if op >= 128 then ReadCopy(d, cursor + 1, op).next else cursor + 1 + op
  }

  function OpAt(d: seq<Byte>, cursor: nat): Op
    requires cursor < |d| && End(d, cursor) <= |d|
  {
    var op: int := d[cursor];
    if op >= 128 then
      var args := ReadCopy(d, cursor + 1, op);
      Copy(args.offset, args.size, op - 128)
    else Insert(d[cursor + 1..cursor + 1 + op])
  }

  /** The instructions from `cursor` on that end within the delta, and where the rest begins. */
  function Whole(d: seq<Byte>, cursor: nat): (r: (seq<Op>, nat))
    requires cursor <= |d|
    ensures cursor <= r.1 <= |d|
    ensures r.1 < |d| ==> End(d, r.1) > |d|
    decreases |d| - cursor
  {
    if cursor == |d| || End(d, cursor) > |d| then ([], cursor)
    else
      var (ops, rest) := Whole(d, End(d, cursor));
      ([OpAt(d, cursor)] + ops, rest)
  }

  /** The bytes behind the two sizes. */
  function Start(d: seq<Byte>): (c: nat)
    ensures c <= |d|
  {
    var c2 := Varint(d, Varint(d, 0, 0, 0).1, 0, 0).1;
    if c2 <= |d| then c2 else |d|
  }

  function BaseSize(d: seq<Byte>): nat {
    Varint(d, 0, 0, 0).0
  }

  function TargetSize(d: seq<Byte>): nat {
    Varint(d, Varint(d, 0, 0, 0).1, 0, 0).0
  }

  /** No copy offset turns negative as a signed 32-bit number. */
  ghost predicate SmallOffsets(ops: seq<Op>) {
    forall i :: 0 <= i < |ops| && ops[i].Copy? ==> ops[i].offset < TWO31
  }

  // ---------- one instruction ----------

  lemma {:induction false} OperandsSent(d: seq<Byte>, at: nat, flags: seq<bool>)
    requires Operands(d, at, flags).1 <= |d|
    ensures Sent(flags, Operands(d, at, flags).0) == d[at..Operands(d, at, flags).1]
    ensures forall k :: 0 <= k < |flags| ==> flags[k] || Operands(d, at, flags).0[k] == 0
    decreases |flags|
  {
    if flags != [] {
      var next := if flags[0] then at + 1 else at;
      OperandsSent(d, next, flags[1..]);
      var (bytes, end) := Operands(d, at, flags);
      assert bytes[1..] == Operands(d, next, flags[1..]).0;
      assert d[at..end] == d[at..next] + d[next..end];
      forall k | 0 <= k < |flags| ensures flags[k] || bytes[k] == 0 {
        if k > 0 {
          assert flags[k] == flags[1..][k - 1] && bytes[k] == bytes[1..][k - 1];
        }
      }
    }
  }

  lemma FourBack(b0: Byte, b1: Byte, b2: Byte, b3: Byte)
    ensures var x0: int, x1: int, x2: int, x3: int := b0, b1, b2, b3;
      var v := x0 + 0x100 * x1 + 0x10000 * x2 + 0x100_0000 * x3;
      && 0 <= v < TWO32 && v % 256 == b0 && (v / 0x100) % 256 == b1 && (v / 0x10000) % 256 == b2 && (v / 0x100_0000) % 256 == b3
  {
    var x0: int, x1: int, x2: int, x3: int := b0, b1, b2, b3;
    var v := x0 + 0x100 * x1 + 0x10000 * x2 + 0x100_0000 * x3;
    assert v / 0x100 == x1 + 0x100 * x2 + 0x10000 * x3;
    assert v / 0x10000 == x2 + 0x100 * x3;
    assert v / 0x100_0000 == x3;
  }

  lemma ArgsBack(b: seq<Byte>, next: nat)
    requires |b| == 7
    ensures var a := ArgsOf(b, next);
      a.offset < TWO32 && a.size < 0x100_0000 && ArgBytes(a.offset, a.size) == b
  {
    FourBack(b[0], b[1], b[2], b[3]);
    FourBack(b[4], b[5], b[6], 0);
  }

  /** What a copy instruction sends is what was read. */
  lemma CopyBytes(d: seq<Byte>, cursor: nat)
    requires cursor < |d| && End(d, cursor) <= |d| && d[cursor] >= 128
    ensures var op := OpAt(d, cursor);
      && op.mask < 128 && op.offset < TWO32 && op.rawSize < 0x100_0000
      && OpBytes(op) == d[cursor..End(d, cursor)]
      && forall k :: 0 <= k < 7 ==> Flags(op.mask)[k] || ArgBytes(op.offset, op.rawSize)[k] == 0
  {
    hide Operands, Sent, ArgBytes, Flags, ArgsOf;
    var code: int := d[cursor];
    var (bytes, next) := Operands(d, cursor + 1, Flags(code));
    FlagsOfOp(code - 128);
    ArgsNext(bytes, next);
    OperandsSent(d, cursor + 1, Flags(code));
    ArgsBack(bytes, next);
    assert d[cursor..next] == [d[cursor]] + d[cursor + 1..next];
  }

  lemma ArgsNext(b: seq<Byte>, next: nat)
    requires |b| == 7
    ensures ArgsOf(b, next).next == next
  {
  }

  lemma InsertBytes(d: seq<Byte>, cursor: nat)
    requires cursor < |d| && End(d, cursor) <= |d| && 0 < d[cursor] < 128
    ensures OpAt(d, cursor).Insert? && OpBytes(OpAt(d, cursor)) == d[cursor..End(d, cursor)]
  {
  }

  /** An instruction that ends within the delta is carried out exactly when it is well formed. */
  lemma OpAccepted(base: seq<Byte>, d: seq<Byte>, cursor: nat)
    requires |base| < TWO31 && cursor < |d| && End(d, cursor) <= |d|
    requires OpAt(d, cursor).Copy? ==> OpAt(d, cursor).offset < TWO31
    ensures var op, s := OpAt(d, cursor), Instruction(base, d, cursor);
      && (s.Put? <==> WfOp(base, op))
      && (s.Put? ==> OpBytes(op) == d[cursor..End(d, cursor)])
      && (s.Put? ==> s == Put(OpMeaning(base, op), |OpMeaning(base, op)|, End(d, cursor)))
  {
    hide ReadCopy, ArgBytes, Flags, Sent, OpBytes;
    var op := OpAt(d, cursor);
    if d[cursor] >= 128 {
      CopyBytes(d, cursor);
      assert ToInt32(op.offset) == op.offset;
    } else if d[cursor] > 0 {
      InsertBytes(d, cursor);
    }
  }

  // ---------- whole deltas ----------

  lemma SubarrayShort(b: seq<Byte>, from: int, size: nat)
    ensures |Subarray(b, from, from + size)| <= size
  {
  }

  lemma ChunkWithinSize(base: seq<Byte>, d: seq<Byte>, cursor: nat)
    requires cursor < |d| && Instruction(base, d, cursor).Put?
    ensures |Instruction(base, d, cursor).chunk| <= Instruction(base, d, cursor).size
    ensures Instruction(base, d, cursor).next == End(d, cursor)
  {
    hide ReadCopy, Subarray;
    var op: int := d[cursor];
    if op >= 128 {
      var args := ReadCopy(d, cursor + 1, op);
      SubarrayShort(base, ToInt32(args.offset), CopySize(args.size));
    } else {
      SubarrayShort(d, cursor + 1, op);
    }
  }

  /** What the bytes behind the whole instructions add: nothing, or a cut one padded with zeros. */
  function Cut(base: seq<Byte>, d: seq<Byte>, rest: nat): Option<seq<Byte>> {
    if rest >= |d| then Some([])
    else match Instruction(base, d, rest)
      case Bad(_) => None
      case Put(chunk, size, _) => Some(chunk + Zeros(if size >= |chunk| then size - |chunk| else 0))
  }

  /**
   At an instruction that runs over the end of the delta, whether insert or copy, the run succeeds exactly
   when its nominal size brings the target to its size; the bytes it lacks stay zero.
   */
  lemma CutAcceptedIff(base: seq<Byte>, d: seq<Byte>, cursor: nat, done: seq<Byte>, k: nat)
    requires cursor < |d| && End(d, cursor) > |d|
    ensures var run, s := Run(base, d, cursor, done + Zeros(k), |done|), Instruction(base, d, cursor);
      && (run.Success? <==> s.Put? && s.size == k)
      && (run.Success? ==> run.value == done + Cut(base, d, cursor).value)
  {
    hide Instruction, End;
    var s := Instruction(base, d, cursor);
    var target := done + Zeros(k);
    if s.Put? {
      ChunkWithinSize(base, d, cursor);
      if |s.chunk| <= k {
        RunStep(base, d, cursor, target, |done|);
        assert Write(target, |done|, s.chunk) == done + s.chunk + Zeros(k - |s.chunk|);
        assert done + s.chunk + Zeros(k - |s.chunk|) == done + (s.chunk + Zeros(k - |s.chunk|));
      }
    }
  }

  lemma ConsOps(base: seq<Byte>, op: Op, ops: seq<Op>)
    ensures WfOps(base, [op] + ops) <==> WfOp(base, op) && WfOps(base, ops)
    ensures SmallOffsets([op] + ops) ==> SmallOffsets(ops) && (op.Copy? ==> op.offset < TWO31)
    ensures WfOps(base, [op] + ops) ==> Meaning(base, [op] + ops) == OpMeaning(base, op) + Meaning(base, ops)
    ensures WfOps(base, [op] + ops) ==> OpsBytes(base, [op] + ops) == OpBytes(op) + OpsBytes(base, ops)
  {
    var all := [op] + ops;
    assert all[0] == op && all[1..] == ops;
    hide WfOp, OpMeaning, OpBytes;
    if WfOp(base, op) && WfOps(base, ops) {
      forall i | 0 <= i < |all| ensures WfOp(base, all[i]) {
        assert i > 0 ==> all[i] == ops[i - 1];
      }
    }
    if WfOps(base, all) {
      assert WfOp(base, all[0]);
      forall i | 0 <= i < |ops| ensures WfOp(base, ops[i]) {
        assert all[i + 1] == ops[i];
      }
    }
    if SmallOffsets(all) {
      assert all[0].Copy? ==> all[0].offset < TWO31;
      forall i | 0 <= i < |ops| && ops[i].Copy? ensures ops[i].offset < TWO31 {
        assert all[i + 1] == ops[i];
      }
    }
  }

  lemma {:induction false} WholeBytes(base: seq<Byte>, d: seq<Byte>, cursor: nat)
    requires |base| < TWO31 && cursor <= |d| && WfOps(base, Whole(d, cursor).0)
    ensures OpsBytes(base, Whole(d, cursor).0) == d[cursor..Whole(d, cursor).1]
    decreases |d| - cursor
  {
    hide End, OpAt, OpBytes;
    if cursor < |d| && End(d, cursor) <= |d| {
      var op, end := OpAt(d, cursor), End(d, cursor);
      var (ops, rest) := Whole(d, end);
      ConsOps(base, op, ops);
      OpAccepted(base, d, cursor);
      WholeBytes(base, d, end);
      assert d[cursor..rest] == d[cursor..end] + d[end..rest];
    }
  }

  lemma RunStops(base: seq<Byte>, d: seq<Byte>, cursor: nat, target: seq<Byte>, at: nat)
    requires cursor < |d|
    requires var s := Instruction(base, d, cursor); s.Put? ==> at + |s.chunk| > |target|
    ensures Run(base, d, cursor, target, at).Failure?
  {
    hide Instruction;
  }

  /** The run from `cursor` on does what `ops` and the cut instruction behind them say, and nothing else is accepted. */
  ghost predicate Accepts(base: seq<Byte>, d: seq<Byte>, cursor: nat, done: seq<Byte>, k: nat)
    requires cursor <= |d|
  {
    var run, (ops, rest) := Run(base, d, cursor, done + Zeros(k), |done|), Whole(d, cursor);
    && (run.Success? <==> WfOps(base, ops) && Cut(base, d, rest).Some? && |Meaning(base, ops)| + |Cut(base, d, rest).value| == k)
    && (run.Success? ==> run.value == done + (Meaning(base, ops) + Cut(base, d, rest).value))
  }

  lemma AcceptsNothing(base: seq<Byte>, d: seq<Byte>, done: seq<Byte>, k: nat)
    ensures Accepts(base, d, |d|, done, k)
  {
    var target := done + Zeros(k);
    if k == 0 {
      assert target == done && done + ([] + []) == done;
    }
  }

  lemma AcceptsCut(base: seq<Byte>, d: seq<Byte>, cursor: nat, done: seq<Byte>, k: nat)
    requires cursor < |d| && End(d, cursor) > |d|
    ensures Accepts(base, d, cursor, done, k)
  {
    hide End, Instruction, Run;
    CutAcceptedIff(base, d, cursor, done, k);
    if Instruction(base, d, cursor).Put? {
      ChunkWithinSize(base, d, cursor);
      var cut := Cut(base, d, cursor).value;
      assert [] + cut == cut;
    }
  }

  lemma AcceptsOne(base: seq<Byte>, d: seq<Byte>, cursor: nat, done: seq<Byte>, k: nat)
    requires |base| < TWO31 && cursor < |d| && End(d, cursor) <= |d| && SmallOffsets(Whole(d, cursor).0)
    requires var s := Instruction(base, d, cursor);
      s.Put? && |s.chunk| <= k ==> Accepts(base, d, End(d, cursor), done + s.chunk, k - |s.chunk|)
    ensures Accepts(base, d, cursor, done, k)
  {
    hide End, OpAt, Instruction, OpBytes, SmallOffsets, WfOps, WfOp, OpMeaning, Cut;
    var end := End(d, cursor);
    var op := OpAt(d, cursor);
    var (ops, rest) := Whole(d, end);
    ConsOps(base, op, ops);
    OpAccepted(base, d, cursor);
    var s, target := Instruction(base, d, cursor), done + Zeros(k);
    if s.Put? && |s.chunk| <= k {
      RunStep(base, d, cursor, target, |done|);
      assert Write(target, |done|, s.chunk) == done + s.chunk + Zeros(k - |s.chunk|);
      hide Run, Meaning;
      if WfOps(base, ops) && Cut(base, d, rest).Some? {
        var m, more := Meaning(base, ops), Cut(base, d, rest).value;
        assert done + s.chunk + (m + more) == done + (s.chunk + m + more);
      }
    } else {
      RunStops(base, d, cursor, target, |done|);
    }
  }

  lemma {:induction false} RunAccepts(base: seq<Byte>, d: seq<Byte>, cursor: nat, done: seq<Byte>, k: nat)
    requires |base| < TWO31 && cursor <= |d| && SmallOffsets(Whole(d, cursor).0)
    ensures Accepts(base, d, cursor, done, k)
    decreases |d| - cursor
  {
    hide End, OpAt, Instruction, Accepts;
    if cursor == |d| {
      AcceptsNothing(base, d, done, k);
    } else if End(d, cursor) > |d| {
      AcceptsCut(base, d, cursor, done, k);
    } else {
      var s := Instruction(base, d, cursor);
      if s.Put? && |s.chunk| <= k {
        ConsOps(base, OpAt(d, cursor), Whole(d, End(d, cursor)).0);
        RunAccepts(base, d, End(d, cursor), done + s.chunk, k - |s.chunk|);
      }
      AcceptsOne(base, d, cursor, done, k);
    }
  }

  // ---------- the theorems ----------

  /**
   Exactly which deltas are accepted, cut off or not, as long as no copy offset reaches 2^31: the base size
   is right, the whole instructions are well formed, and with the nominal size of a cut one behind them they
   fill the target. The result is what they stand for, zeros where the cut one lacks bytes.
   */
  lemma AcceptsExactly(base: seq<Byte>, d: seq<Byte>)
    requires |base| < TWO31 && SmallOffsets(Whole(d, Start(d)).0)
    ensures var (ops, rest) := Whole(d, Start(d));
      && (Apply(base, d).Success? <==>
            && BaseSize(d) == |base| && WfOps(base, ops) && Cut(base, d, rest).Some?
            && |Meaning(base, ops)| + |Cut(base, d, rest).value| == TargetSize(d))
      && (Apply(base, d).Success? ==> Apply(base, d).value == Meaning(base, ops) + Cut(base, d, rest).value)
  {
    hide Varint, End, OpAt, Instruction, Cut, WfOps;
    var c1 := Varint(d, 0, 0, 0).1;
    var c2 := Varint(d, c1, 0, 0).1;
    var z := Zeros(TargetSize(d));
    assert [] + z == z;
    if c2 > |d| {
      assert Run(base, d, c2, z, 0) == Run(base, d, |d|, z, 0);
    }
    RunAccepts(base, d, Start(d), [], TargetSize(d));
    hide Run, Whole, Meaning;
    var (ops, rest) := Whole(d, Start(d));
    if WfOps(base, ops) && Cut(base, d, rest).Some? {
      var all := Meaning(base, ops) + Cut(base, d, rest).value;
      assert [] + all == all;
    }
  }

  /** The bytes behind the sizes are the encoding of some well-formed instruction list. */
  ghost predicate WellFormed(base: seq<Byte>, d: seq<Byte>) {
    exists ops :: WfOps(base, ops) && OpsBytes(base, ops) == d[Start(d)..]
  }

  /** Every instruction ends within the delta, and no copy offset reaches 2^31. */
  ghost predicate InBounds(d: seq<Byte>) {
    Whole(d, Start(d)).1 == |d| && SmallOffsets(Whole(d, Start(d)).0)
  }

  lemma {:induction false} EncodedIsWhole(base: seq<Byte>, ops: seq<Op>, d: seq<Byte>, cursor: nat)
    requires |base| < TWO31 && cursor <= |d| && WfOps(base, ops) && OpsBytes(base, ops) == d[cursor..]
    ensures Whole(d, cursor) == (ops, |d|)
    decreases |ops|
  {
    hide OpBytes, Instruction, End, OpAt, Whole, Has;
    if ops == [] {
      assert |d[cursor..]| == 0;
      NothingWhole(d);
    } else {
      var op, n := ops[0], |OpBytes(ops[0])|;
      SplitBytes(d, cursor, OpBytes(op), OpsBytes(base, ops[1..]));
      OpIsRead(base, op, d, cursor);
      EncodedIsWhole(base, ops[1..], d, cursor + n);
      WholeStep(d, cursor, ops);
    }
  }

  lemma SplitBytes(d: seq<Byte>, at: nat, a: seq<Byte>, b: seq<Byte>)
    requires at <= |d| && d[at..] == a + b
    ensures Has(d, at, a) && at + |a| <= |d| && d[at + |a|..] == b
  {
    assert d[at..at + |a|] == d[at..][..|a|];
    assert d[at + |a|..] == d[at..][|a|..];
  }

  lemma NothingWhole(d: seq<Byte>)
    ensures Whole(d, |d|) == ([], |d|)
  {
  }

  lemma WholeStep(d: seq<Byte>, cursor: nat, ops: seq<Op>)
    requires cursor < |d| && End(d, cursor) <= |d| && ops != [] && OpAt(d, cursor) == ops[0]
    requires Whole(d, End(d, cursor)) == (ops[1..], |d|)
    ensures Whole(d, cursor) == (ops, |d|)
  {
    hide End, OpAt;
    assert ops == [ops[0]] + ops[1..];
  }

  lemma OpIsRead(base: seq<Byte>, op: Op, d: seq<Byte>, cursor: nat)
    requires |base| < TWO31 && WfOp(base, op) && Has(d, cursor, OpBytes(op))
    ensures cursor < |d| && End(d, cursor) == cursor + |OpBytes(op)| <= |d| && OpAt(d, cursor) == op
  {
    hide ReadCopy, Sent, ArgBytes, Flags;
    HasFirst(d, cursor, OpBytes(op));
    if op.Copy? {
      CopyRead(base, op, d, cursor);
    } else {
      HasSplit(d, cursor, [|op.bytes|], op.bytes);
    }
  }

  /**
   The converse of `ApplyInvertsEncode`: an accepted delta is well formed exactly when it is in bounds, and
   then the result is what its instructions stand for, every copy of them inside the base.
   */
  lemma AcceptedIsWellFormedIff(base: seq<Byte>, d: seq<Byte>)
    requires |base| < TWO31 && Apply(base, d).Success?
    ensures WellFormed(base, d) <==> InBounds(d)
    ensures InBounds(d) ==> var ops := Whole(d, Start(d)).0;
      WfOps(base, ops) && OpsBytes(base, ops) == d[Start(d)..] && Apply(base, d).value == Meaning(base, ops)
  {
    hide Apply, Varint, OpsBytes, Meaning, Whole, Start;
    var (ops, rest) := Whole(d, Start(d));
    if InBounds(d) {
      AcceptsExactly(base, d);
      WholeBytes(base, d, Start(d));
      assert d[Start(d)..|d|] == d[Start(d)..];
      var m := Meaning(base, ops);
      assert m + [] == m;
    }
    if WellFormed(base, d) {
      var xs :| WfOps(base, xs) && OpsBytes(base, xs) == d[Start(d)..];
      EncodedIsWhole(base, xs, d, Start(d));
    }
  }
}
