/** The pack parser inverts the pack builder, and the OFS_DELTA distance code is a bijection. */
module PackInverts {
  import opened Bytes
  import opened Pack
  import Zlib
  import Delta
  import opened DeltaInverts
  import DeflateFormat
  import InflateInverts

  // ---------- OFS_DELTA distances ----------

  /** All bytes but the last have the continuation bit. */
  predicate Terminated(b: seq<Byte>) {
    |b| > 0 && b[|b| - 1] < 128 && Continued(b[..|b| - 1])
  }

  predicate Continued(b: seq<Byte>) {
    forall i :: 0 <= i < |b| ==> b[i] >= 128
  }

  /** One more than the value of a string of continued bytes, and 0 for none. */
  function LeadValue(b: seq<Byte>): nat
    requires Continued(b)
  {
    if b == [] then 0 else LeadValue(b[..|b| - 1]) * 128 + b[|b| - 1] % 128 + 1
  }

  /** The distance a terminated byte string stands for. */
  function OfsValue(b: seq<Byte>): nat
    requires Terminated(b)
  {
    LeadValue(b[..|b| - 1]) * 128 + b[|b| - 1]
  }

  function LeadBytes(m: nat): (b: seq<Byte>)
    ensures Continued(b)
  {
    if m == 0 then [] else LeadBytes((m - 1) / 128) + [128 + (m - 1) % 128]
  }

  function OfsBytes(n: nat): seq<Byte> {
    LeadBytes(n / 128) + [n % 128]
  }

  lemma {:induction false} LeadBytesValue(m: nat)
    ensures LeadValue(LeadBytes(m)) == m
  {
    if m > 0 {
      var b := LeadBytes(m);
      LeadBytesValue((m - 1) / 128);
      assert b[..|b| - 1] == LeadBytes((m - 1) / 128);
    }
  }

  lemma {:induction false} LeadValueBytes(b: seq<Byte>)
    requires Continued(b)
    ensures LeadBytes(LeadValue(b)) == b
    decreases |b|
  {
    if b != [] {
      var init, last: int := b[..|b| - 1], b[|b| - 1];
      LeadValueBytes(init);
      assert (LeadValue(b) - 1) / 128 == LeadValue(init) && (LeadValue(b) - 1) % 128 == last % 128;
      assert init + [b[|b| - 1]] == b;
    }
  }

  /** Distances and terminated byte strings correspond one to one. */
  lemma OfsBijection(n: nat, b: seq<Byte>)
    requires Terminated(b)
    ensures Terminated(OfsBytes(n)) && OfsValue(OfsBytes(n)) == n
    ensures OfsBytes(OfsValue(b)) == b
  {
    var c := OfsBytes(n);
    assert c[..|c| - 1] == LeadBytes(n / 128);
    LeadBytesValue(n / 128);
    var init, last := b[..|b| - 1], b[|b| - 1];
    LeadValueBytes(init);
    assert OfsValue(b) / 128 == LeadValue(init) && OfsValue(b) % 128 == last;
    assert init + [last] == b;
  }

  lemma LastOfPrefix(b: seq<Byte>, k: nat)
    requires Terminated(b) && 0 < k <= |b|
    ensures k < |b| ==> b[k - 1] >= 128
    ensures k < |b| ==> Continued(b[..k])
    ensures Continued(b[..k - 1])
  {
    if k < |b| {
      assert b[..|b| - 1][k - 1] == b[k - 1];
      forall i | 0 <= i < k ensures b[..k][i] >= 128 {
        assert b[..|b| - 1][i] >= 128;
      }
    }
    var init := b[..k - 1];
    forall i | 0 <= i < |init| ensures init[i] >= 128 {
      assert b[..|b| - 1][i] >= 128;
    }
  }

  lemma {:induction false} LeadGrows(b: seq<Byte>, k: nat)
    requires Continued(b) && k <= |b|
    ensures Continued(b[..k]) && LeadValue(b[..k]) <= LeadValue(b)
    decreases |b|
  {
    if k < |b| {
      var init := b[..|b| - 1];
      LeadGrows(init, k);
      assert init[..k] == b[..k];
    } else {
      assert b[..k] == b;
    }
  }

  /** One more byte of a distance, and the room it has. */
  lemma DistanceGrows(b: seq<Byte>, k: nat)
    requires Terminated(b) && OfsValue(b) < TWO31 && 0 < k < |b| && Continued(b[..k])
    ensures var d := LeadValue(b[..k]) * 128 + b[k] % 128;
      if k + 1 < |b| then Continued(b[..k + 1]) && LeadValue(b[..k + 1]) == d + 1 && d < TWO31
      else d == OfsValue(b)
  {
    LastOfPrefix(b, k + 1);
    assert b[..k + 1][..k] == b[..k];
    if k + 1 < |b| {
      LeadGrows(b[..|b| - 1], k + 1);
      assert b[..|b| - 1][..k + 1] == b[..k + 1];
    } else {
      assert b[..|b| - 1] == b[..k];
    }
  }

  /** The distance loop after `k` of the bytes; below 2^31 no step wraps. */
  lemma {:induction false} DistanceFrom(pack: seq<Byte>, at: nat, b: seq<Byte>, k: nat, distance: int)
    requires Terminated(b) && OfsValue(b) < TWO31 && Has(pack, at, b)
    requires 0 < k < |b|
    requires Continued(b[..k]) && distance == LeadValue(b[..k]) - 1
    ensures Distance(pack, at + k, distance) == (OfsValue(b), at + |b|)
    decreases |b| - k
  {
    assert pack[at..at + |b|][k] == pack[at + k];
    assert pack[at + k] == b[k];
    LastOfPrefix(b, k + 1);
    DistanceGrows(b, k);
    hide Has, Continued, LeadValue, OfsValue;
    var d := (distance + 1) * 128 + b[k] % 128;
    assert ToInt32(d) == d;
    if k + 1 < |b| {
      DistanceFrom(pack, at, b, k + 1, d);
    }
  }

  /** The header reader decodes exactly this code for distances below 2^31. */
  lemma DistanceRead(pack: seq<Byte>, at: nat, n: nat)
    requires n < TWO31 && Has(pack, at, OfsBytes(n))
    ensures FirstDistance(pack, at) == (n, at + |OfsBytes(n)|)
  {
    var b := OfsBytes(n);
    OfsBijection(n, b) by { assert b[..|b| - 1] == LeadBytes(n / 128); }
    HasFirst(pack, at, b);
    if |b| > 1 {
      LastOfPrefix(b, 1);
      assert b[..1] == [b[0]] && b[..1][..0] == [];
      assert LeadValue(b[..1]) == b[0] % 128 + 1;
      DistanceFrom(pack, at, b, 1, b[0] % 128);
    } else {
      assert b[..0] == [];
    }
  }

  // ---------- entry headers ----------

  lemma FirstByte(code: nat, size: nat)
    requires 1 <= code <= 4 && size < TWO31
    ensures ToUint32(size) == size
    ensures var b := code * 16 + size % 16 + if size / 16 > 0 then 128 else 0;
            b < 256 && (b / 16) % 8 == code && b % 16 == size % 16 && (b >= 128 <==> size / 16 > 0)
  {
  }

  lemma HeaderRead(pack: seq<Byte>, offset: nat, code: nat, size: nat)
    requires 1 <= code <= 4 && size < TWO31
    requires Has(pack, offset, HeaderBytes(code, size))
    ensures ReadHeader(pack, offset) == Header(code, size, NoBase, offset + |HeaderBytes(code, size)|)
  {
    hide Delta.Varint, Delta.VarintBytes, Has;
    FirstByte(code, size);
    var value := size / 16;
    var first: seq<Byte> := [code * 16 + size % 16 + if value > 0 then 128 else 0];
    HasSplit(pack, offset, first, SizeGroups(value));
    HasFirst(pack, offset, first);
    if value > 0 {
      SizeRead(pack, offset + 1, value, size % 16);
    }
  }

  lemma SizeRead(pack: seq<Byte>, at: nat, value: nat, low: nat)
    requires low < 16 && value > 0 && value * 16 + low < TWO31
    requires Has(pack, at, Delta.VarintBytes(value))
    ensures Delta.Varint(pack, at, low, 4) == (value * 16 + low, at + |Delta.VarintBytes(value)|)
  {
    Pow2Values();
    VarintFrom(pack, at, value, low, 4);
  }

  // ---------- whole packs ----------

  /** What `deflate` is relied on for: a well-formed stream that stands for its input. */
  ghost predicate Deflates(deflate: seq<Byte> -> seq<Byte>, raw: seq<Byte>) {
    exists s :: IsStreamOf(s, deflate(raw), raw)
  }

  ghost predicate IsStreamOf(s: DeflateFormat.Stream, z: seq<Byte>, raw: seq<Byte>) {
    && DeflateFormat.StartsWith(z, s)
    && DeflateFormat.Meaning(s) == raw
    && DeflateFormat.Length(s) == |z|
  }

  lemma HoldsInLonger(z: seq<Byte>, data: seq<Byte>, bits: seq<Bit>)
    requires Holds(z, 0, bits) && z <= data
    ensures Holds(data, 0, bits)
  {
    forall i | 0 <= i < |bits| ensures BitAt(data, 0 + i) == bits[i] {
      assert BitAt(z, 0 + i) == bits[i];
      assert i / 8 < |z|;
    }
  }

  /** Inflating a buffer that starts with a deflated object gives the object and its exact extent. */
  lemma InflateDeflated(deflate: seq<Byte> -> seq<Byte>, raw: seq<Byte>, data: seq<Byte>)
    requires Deflates(deflate, raw) && |deflate(raw)| < 0x1000_0000 && deflate(raw) <= data
    ensures Zlib.Inflate(data) == Zlib.Ok(Zlib.Inflated(raw, |deflate(raw)|))
  {
    var s :| IsStreamOf(s, deflate(raw), raw);
    HoldsInLonger(deflate(raw), data, DeflateFormat.StreamBits(s));
    InflateInverts.InflateInvertsFormat(s, data);
  }

  ghost predicate PackableSmall(objects: seq<Object>, deflate: seq<Byte> -> seq<Byte>) {
    && |objects| < TWO31
    && forall i :: 0 <= i < |objects| ==>
      && TypeCode(objects[i].kind) != 0 && |objects[i].raw| < TWO31
      && |deflate(objects[i].raw)| < 0x1000_0000 && Deflates(deflate, objects[i].raw)
  }

  /** The entries a built pack holds from `offset` on. */
  function BuiltEntries(objects: seq<Object>, deflate: seq<Byte> -> seq<Byte>, offset: nat): (r: seq<Entry>)
    ensures |r| == |objects|
    ensures forall i :: 0 <= i < |r| ==>
      r[i].kind == TypeCode(objects[i].kind) && r[i].base == NoBase && r[i].data == objects[i].raw
  {
    if objects == [] then []
    else
      var code, raw := TypeCode(objects[0].kind), objects[0].raw;
      [Entry(offset, code, |raw|, NoBase, raw)]
      + BuiltEntries(objects[1..], deflate, offset + |HeaderBytes(code, |raw|)| + |deflate(raw)|)
  }

  lemma {:induction false} EntriesRead(pack: seq<Byte>, offset: nat, objects: seq<Object>, deflate: seq<Byte> -> seq<Byte>)
    requires PackableSmall(objects, deflate)
    requires Has(pack, offset, EntriesBytes(objects, deflate))
    ensures ParseEntries(pack, offset, |objects|)
         == Parsed(BuiltEntries(objects, deflate, offset), offset + |EntriesBytes(objects, deflate)|)
    decreases |objects|
  {
    hide Has, HeaderBytes, Deflates, ParseOne, TypeCode;
    if objects != [] {
      var code, raw := TypeCode(objects[0].kind), objects[0].raw;
      var head, z := HeaderBytes(code, |raw|), deflate(raw);
      HasSplit(pack, offset, head + z, EntriesBytes(objects[1..], deflate));
      HasSplit(pack, offset, head, z);
      EntryRead(pack, offset, code, raw, deflate);
      EntriesRead(pack, offset + |head + z|, objects[1..], deflate);
    }
  }

  lemma EntryRead(pack: seq<Byte>, offset: nat, code: nat, raw: seq<Byte>, deflate: seq<Byte> -> seq<Byte>)
    requires 1 <= code <= 4 && |raw| < TWO31 && |deflate(raw)| < 0x1000_0000 && Deflates(deflate, raw)
    requires Has(pack, offset, HeaderBytes(code, |raw|))
    requires Has(pack, offset + |HeaderBytes(code, |raw|)|, deflate(raw))
    ensures ParseOne(pack, offset)
         == One(Entry(offset, code, |raw|, NoBase, raw), offset + |HeaderBytes(code, |raw|)| + |deflate(raw)|)
  {
    hide HeaderBytes, ReadHeader, Zlib.Inflate, Deflates;
    HeaderRead(pack, offset, code, |raw|);
    var payload := offset + |HeaderBytes(code, |raw|)|;
    var rest := Delta.Subarray(pack, payload, |pack|);
    assert rest == pack[payload..];
    assert deflate(raw) <= rest by {
      assert pack[payload..][..|deflate(raw)|] == pack[payload..payload + |deflate(raw)|];
    }
    InflateDeflated(deflate, raw, rest);
  }

  lemma BigEndian(v: nat)
    requires v < TWO31
    ensures 0x100_0000 * ((v / 0x100_0000) % 256) + 0x10000 * ((v / 0x10000) % 256) + 0x100 * ((v / 0x100) % 256) + v % 256 == v
    ensures ToInt32(v) == v
  {
    assert v / 0x10000 == (v / 0x100) / 0x100 && v / 0x100_0000 == (v / 0x10000) / 0x100;
  }

  lemma Uint32Read(b: seq<Byte>, at: nat, v: nat)
    requires v < TWO31 && Has(b, at, Uint32Bytes(v))
    ensures ReadUint32(b, at) == v
  {
    hide ToInt32;
    var w := b[at..at + 4];
    assert b[at] == w[0] && b[at + 1] == w[1] && b[at + 2] == w[2] && b[at + 3] == w[3];
    BigEndian(v);
  }

  /**
   Parsing a built pack recovers every object's type, size and bytes in order, and ends exactly at
   the 20-byte trailer, which is the SHA-1 of everything before it.
   */
  lemma ParseInvertsBuild(objects: seq<Object>, deflate: seq<Byte> -> seq<Byte>, sha1: seq<Byte> -> seq<Byte>)
    requires PackableSmall(objects, deflate)
    requires |sha1(PackBody(objects, deflate))| == 20
    ensures match Build(objects, deflate, sha1)
            case None => false
            case Some(pack) =>
              && |pack| >= 32
              && Parse(pack) == Parsed(BuiltEntries(objects, deflate, 12), |pack| - 20)
              && pack[|pack| - 20..] == sha1(pack[..|pack| - 20])
  {
    hide ParseEntries, EntriesBytes, Uint32Bytes, Deflates;
    var body := PackBody(objects, deflate);
    var pack := body + sha1(body);
    var magic: seq<Byte> := [0x50, 0x41, 0x43, 0x4b, 0, 0, 0, 2];
    var count, entries := Uint32Bytes(|objects|), EntriesBytes(objects, deflate);
    assert body == magic + (count + entries);
    assert Has(pack, 0, magic + (count + entries)) by {
      assert pack[0..|body|] == body;
    }
    HasSplit(pack, 0, magic, count + entries);
    HasSplit(pack, 8, count, entries);
    assert pack[..4] == magic[..4];
    assert pack[4] == magic[4] && pack[5] == magic[5] && pack[6] == magic[6] && pack[7] == magic[7];
    assert ReadUint32(pack, 4) == 2;
    Uint32Read(pack, 8, |objects|);
    EntriesRead(pack, 12, objects, deflate);
    assert pack[..|body|] == body;
  }
}
