/** Bytes, and the 32-bit integer operators of JavaScript, written out on unbounded integers. */
module Bytes {

  type Byte = x: int | 0 <= x < 256

  type Bit = x: int | 0 <= x < 2

  /** A read past the end of a `Uint8Array` is `undefined`, which every bit operator turns into 0. */
  function ByteAt(data: seq<Byte>, i: nat): Byte {
    if i < |data| then data[i] else 0
  }

  function Zeros(n: nat): (z: seq<Byte>)
    ensures |z| == n
    ensures forall i :: 0 <= i < n ==> z[i] == 0
  {
    seq(n, i => 0)
  }

  function Pow2(n: nat): (r: nat)
    ensures r > 0
  {
    if n == 0 then 1 else 2 * Pow2(n - 1)
  }

  lemma {:induction false} Pow2Adds(a: nat, b: nat)
    ensures Pow2(a + b) == Pow2(a) * Pow2(b)
  {
    if a > 0 {
      Pow2Adds(a - 1, b);
      assert Pow2(a + b) == 2 * Pow2(a - 1 + b);
    }
  }

  lemma {:induction false} Pow2Grows(a: nat, b: nat)
    requires a <= b
    ensures Pow2(a) <= Pow2(b)
  {
    if a < b {
      Pow2Grows(a, b - 1);
    }
  }

  lemma Pow2Values()
    ensures Pow2(1) == 2 && Pow2(2) == 4 && Pow2(3) == 8 && Pow2(4) == 16
    ensures Pow2(5) == 32 && Pow2(6) == 64 && Pow2(7) == 128 && Pow2(8) == 256
  {
    assert Pow2(2) == 2 * Pow2(1);
    assert Pow2(3) == 2 * Pow2(2);
    assert Pow2(4) == 2 * Pow2(3);
    assert Pow2(5) == 2 * Pow2(4);
    assert Pow2(6) == 2 * Pow2(5);
    assert Pow2(7) == 2 * Pow2(6);
    assert Pow2(8) == 2 * Pow2(7);
  }

  lemma MultiplesApart(a: nat, b: nat, d: nat)
    ensures a < b ==> a * d + d <= b * d
  {
    if a < b {
      MulMonotone(a + 1, b, d);
      assert (a + 1) * d == a * d + d;
    }
  }

  lemma QuotientOf(q: nat, d: nat, m: nat)
    requires m < d
    ensures (q * d + m) / d == q
  {
    var p := (q * d + m) / d;
    assert q * d + m == p * d + (q * d + m) % d;
    MultiplesApart(p, q, d);
    MultiplesApart(q, p, d);
  }

  lemma {:induction false} MulMonotone(x: nat, y: nat, d: nat)
    requires x <= y
    ensures x * d <= y * d
  {
    if x < y {
      MulMonotone(x, y - 1, d);
      assert y * d == (y - 1) * d + d;
    }
  }

  // ---------- signed 32-bit results ----------

  const TWO31: int := 0x8000_0000
  const TWO32: int := 0x1_0000_0000

  /** `x >>> 0` */
  function ToUint32(x: int): (u: nat)
    ensures u < TWO32
  {
    x % TWO32
  }

  /** `x | 0` */
  function ToInt32(x: int): (r: int)
    ensures -TWO31 <= r < TWO31
    ensures (r - x) % TWO32 == 0
  {
    var u := x % TWO32;
    if u >= TWO31 then u - TWO32 else u
  }

  /** Bitwise `a | b` of two unsigned values. */
  function Or(a: nat, b: nat): nat
    decreases a
  {
    if a == 0 then b
    else (if a % 2 == 1 || b % 2 == 1 then 1 else 0) + 2 * Or(a / 2, b / 2)
  }

  /** `x << s` as an unsigned 32-bit value: the shift count is taken modulo 32. */
  function Shl(x: nat, s: nat): (r: nat)
    ensures r < TWO32
  {
    (x * Pow2(s % 32)) % TWO32
  }

  /** OR-ing in bits above all the bits already set is addition. */
  lemma {:induction false} OrAboveIsSum(a: nat, b: nat, s: nat)
    requires a < Pow2(s)
    ensures Or(a, b * Pow2(s)) == a + b * Pow2(s)
    decreases s
  {
    if a == 0 {
    } else {
      assert s > 0;
      var half := b * Pow2(s - 1);
      assert b * Pow2(s) == 2 * half;
      OrAboveIsSum(a / 2, b, s - 1);
      assert (2 * half) / 2 == half && (2 * half) % 2 == 0;
    }
  }

  /** `a >> k` */
  function Shr(a: nat, k: nat): nat
    decreases k
  {
    if k == 0 then a else Shr(a / 2, k - 1)
  }

  lemma {:induction false} ShrFloor(a: nat, q: nat, k: nat)
    requires a >= q * Pow2(k)
    ensures Shr(a, k) >= q
    decreases k
  {
    if k > 0 {
      var half := q * Pow2(k - 1);
      assert q * Pow2(k) == 2 * half;
      ShrFloor(a / 2, q, k - 1);
    }
  }

  lemma {:induction false} ShrStep(c: nat, k: nat)
    ensures Shr(c, k + 1) == Shr(c, k) / 2
    decreases k
  {
    if k > 0 {
      ShrStep(c / 2, k - 1);
    } else {
      assert Shr(c, 1) == Shr(c / 2, 0);
    }
  }

  lemma {:induction false} ShrAll(c: nat, k: nat)
    requires c < Pow2(k)
    ensures Shr(c, k) == 0
    decreases k
  {
    if k > 0 {
      ShrAll(c / 2, k - 1);
    }
  }

  // ---------- bit positions in a byte buffer ----------

  /** Bit `p` of the buffer, least significant bit of each byte first; 0 past the end. */
  function BitAt(data: seq<Byte>, p: nat): Bit {
    Shr(ByteAt(data, p / 8), p % 8) % 2
  }

  /** The value of `n` bits from position `p`, least significant first. */
  function BitsAt(data: seq<Byte>, p: nat, n: nat): nat
    decreases |data|, n
  {
    if n == 0 then 0 else BitsAt(data, p, n - 1) + BitAt(data, p + n - 1) * Pow2(n - 1)
  }

  lemma {:induction false} BitsAtBound(data: seq<Byte>, p: nat, n: nat)
    ensures BitsAt(data, p, n) < Pow2(n)
  {
    if n > 0 {
      BitsAtBound(data, p, n - 1);
    }
  }

  lemma {:induction false} ShrZero(k: nat)
    ensures Shr(0, k) == 0
  {
    if k > 0 {
      ShrZero(k - 1);
    }
  }

  lemma BitPastEnd(data: seq<Byte>, p: nat)
    requires p >= 8 * |data|
    ensures BitAt(data, p) == 0
  {
    assert p / 8 >= |data|;
    ShrZero(p % 8);
  }

  lemma {:induction false} BitsPastEnd(data: seq<Byte>, p: nat, n: nat)
    requires p >= 8 * |data|
    ensures BitsAt(data, p, n) == 0
  {
    if n > 0 {
      BitsPastEnd(data, p, n - 1);
      BitPastEnd(data, p + n - 1);
    }
  }

  /** The buffer holds the bit string `bits` from position `p`. */
  ghost predicate Holds(data: seq<Byte>, p: nat, bits: seq<Bit>) {
    && p + |bits| <= 8 * |data|
    && forall i :: 0 <= i < |bits| ==> BitAt(data, p + i) == bits[i]
  }

  lemma HoldsInside(data: seq<Byte>, p: nat, bits: seq<Bit>)
    requires Holds(data, p, bits)
    ensures p + |bits| <= 8 * |data|
  {
  }

  lemma HoldsSplit(data: seq<Byte>, p: nat, a: seq<Bit>, b: seq<Bit>)
    ensures Holds(data, p, a + b) <==> Holds(data, p, a) && Holds(data, p + |a|, b)
  {
    var ab := a + b;
    if Holds(data, p, ab) {
      forall i | 0 <= i < |a| ensures BitAt(data, p + i) == a[i] {
        assert ab[i] == a[i];
      }
      forall i | 0 <= i < |b| ensures BitAt(data, p + |a| + i) == b[i] {
        assert ab[|a| + i] == b[i];
        assert BitAt(data, p + (|a| + i)) == ab[|a| + i];
      }
    }
    if Holds(data, p, a) && Holds(data, p + |a|, b) {
      forall i | 0 <= i < |ab| ensures BitAt(data, p + i) == ab[i] {
        if i >= |a| {
          assert ab[i] == b[i - |a|];
          assert BitAt(data, p + |a| + (i - |a|)) == b[i - |a|];
        }
      }
    }
  }

  lemma {:induction false} BitsAtHead(data: seq<Byte>, p: nat, n: nat)
    requires n > 0
    ensures BitsAt(data, p, n) == BitAt(data, p) + 2 * BitsAt(data, p + 1, n - 1)
  {
    if n > 1 {
      BitsAtHead(data, p, n - 1);
      var top := BitAt(data, p + n - 1);
      assert Pow2(n - 1) == 2 * Pow2(n - 2);
      assert top * Pow2(n - 1) == 2 * (top * Pow2(n - 2));
    } else {
      assert BitsAt(data, p, 1) == BitsAt(data, p, 0) + BitAt(data, p) * Pow2(0);
    }
  }

  /** `v` as `n` bits, least significant first. */
  function LsbBits(v: nat, n: nat): (bits: seq<Bit>)
    ensures |bits| == n
  {
    if n == 0 then [] else [v % 2] + LsbBits(v / 2, n - 1)
  }

  /** Reading back an integer written least significant bit first. */
  lemma {:induction false} LsbBitsRead(data: seq<Byte>, p: nat, v: nat, n: nat)
    requires v < Pow2(n)
    requires Holds(data, p, LsbBits(v, n))
    ensures BitsAt(data, p, n) == v
    decreases n
  {
    if n > 0 {
      var low: seq<Bit> := [v % 2];
      HoldsSplit(data, p, low, LsbBits(v / 2, n - 1));
      LsbBitsRead(data, p + 1, v / 2, n - 1);
      assert BitAt(data, p + 0) == low[0];
      BitsAtHead(data, p, n);
    }
  }

  /** The eight bits of a byte make up that byte. */
  lemma {:induction false} ByteFromBits(data: seq<Byte>, at: nat, k: nat)
    requires k <= 8
    ensures BitsAt(data, 8 * at, k) + Shr(ByteAt(data, at), k) * Pow2(k) == ByteAt(data, at)
  {
    if k > 0 {
      var b := ByteAt(data, at);
      ByteFromBits(data, at, k - 1);
      ShrStep(b, k - 1);
      assert (8 * at + k - 1) / 8 == at && (8 * at + k - 1) % 8 == k - 1;
      var half := Shr(b, k);
      assert Shr(b, k - 1) == 2 * half + BitAt(data, 8 * at + k - 1);
      assert Pow2(k) == 2 * Pow2(k - 1);
      SplitTerm(half, BitAt(data, 8 * at + k - 1), Pow2(k - 1));
    }
  }

  lemma SplitTerm(half: nat, bit: nat, unit: nat)
    ensures (2 * half + bit) * unit == half * (2 * unit) + bit * unit
  {
  }

  /** The bits of a byte string, least significant first in each byte. */
  function RawBits(raw: seq<Byte>): (bits: seq<Bit>)
    ensures |bits| == 8 * |raw|
  {
    if raw == [] then [] else LsbBits(raw[0], 8) + RawBits(raw[1..])
  }

  lemma {:induction false} RawBitsRead(data: seq<Byte>, at: nat, raw: seq<Byte>)
    requires Holds(data, 8 * at, RawBits(raw))
    ensures at + |raw| <= |data|
    ensures forall i :: 0 <= i < |raw| ==> ByteAt(data, at + i) == raw[i]
    decreases |raw|
  {
    HoldsInside(data, 8 * at, RawBits(raw));
    if raw != [] {
      ByteRead(data, at, raw);
      RawBitsRead(data, at + 1, raw[1..]);
      forall i | 0 <= i < |raw| ensures ByteAt(data, at + i) == raw[i] {
        if i > 0 {
          assert ByteAt(data, at + 1 + (i - 1)) == raw[1..][i - 1];
        }
      }
    }
  }

  lemma ByteRead(data: seq<Byte>, at: nat, raw: seq<Byte>)
    requires raw != [] && Holds(data, 8 * at, RawBits(raw))
    ensures ByteAt(data, at) == raw[0]
    ensures Holds(data, 8 * (at + 1), RawBits(raw[1..]))
  {
    hide Holds, LsbBits;
    HoldsSplit(data, 8 * at, LsbBits(raw[0], 8), RawBits(raw[1..]));
    Pow2Values();
    LsbBitsRead(data, 8 * at, raw[0], 8);
    ByteFromBits(data, at, 8);
    ShrAll(ByteAt(data, at), 8);
  }
}
