/** Git packfiles: entry headers, `parsePack` and `buildPack`. */
module Pack {
  import opened Bytes
  import opened Wrappers
  import Zlib
  import Delta

  const COMMIT := 1
  const TREE := 2
  const BLOB := 3
  const TAG := 4
  const OFS_DELTA := 6
  const REF_DELTA := 7

  /** What a delta entry is applied to: an earlier offset, or an object id. */
  datatype Base = NoBase | ByOffset(offset: int) | ById(oid: seq<Byte>)

  datatype Header = Header(kind: nat, size: int, base: Base, payload: nat)

  datatype Entry = Entry(offset: nat, kind: nat, size: int, base: Base, data: seq<Byte>)

  datatype Error =
    | TooShort
    | BadMagic
    | BadVersion
    | Inflation(error: Zlib.Error)
    | SizeMismatch

  // ---------- entry headers ----------

  /** The rest of an OFS_DELTA distance; each step is a signed 32-bit operation. */
  function Distance(pack: seq<Byte>, at: nat, distance: int): (r: (int, nat))
    ensures r.1 > at
    decreases |pack| - at
  {
    var b: int := ByteAt(pack, at);
    var d := ToInt32((distance + 1) * 128 + b % 128);
    if b >= 128 then Distance(pack, at + 1, d) else (d, at + 1)
  }

  function FirstDistance(pack: seq<Byte>, at: nat): (r: (int, nat))
    ensures r.1 > at
  {
    var b: int := ByteAt(pack, at);
    if b >= 128 then Distance(pack, at + 1, b % 128) else (b, at + 1)
  }

  /** The inflated size: four bits, then groups of seven from bit 4 on. */
  function EntrySize(pack: seq<Byte>, offset: nat): (r: (int, nat))
    ensures r.1 > offset
  {
    var b: int := ByteAt(pack, offset);
    if b >= 128 then
      var (v, next) := Delta.Varint(pack, offset + 1, b % 16, 4);
      (ToInt32(v), next)
    else (b % 16, offset + 1)
  }

  /** `readEntryHeader` */
  function ReadHeader(pack: seq<Byte>, offset: nat): (h: Header)
    ensures h.payload > offset
  {
    var kind := (ByteAt(pack, offset) / 16) % 8;
    var (size, cursor) := EntrySize(pack, offset);
    if kind == OFS_DELTA then
      var (distance, next) := FirstDistance(pack, cursor);
      Header(kind, size, ByOffset(offset - distance), next)
    else if kind == REF_DELTA then
      Header(kind, size, ById(Delta.Subarray(pack, cursor, cursor + 20)), cursor + 20)
    else Header(kind, size, NoBase, cursor)
  }

  // ---------- parsing ----------

  /** A big-endian signed 32-bit number. */
  function ReadUint32(b: seq<Byte>, at: nat): int {
    var b0: int, b1: int, b2: int, b3: int := ByteAt(b, at), ByteAt(b, at + 1), ByteAt(b, at + 2), ByteAt(b, at + 3);
    ToInt32(0x100_0000 * b0 + 0x10000 * b1 + 0x100 * b2 + b3)
  }

  /** The entries and the offset behind the last one; `Hangs` when an entry never inflates. */
  datatype Parsed = Parsed(entries: seq<Entry>, end: nat) | Fails(error: Error) | Hangs

  datatype One = One(entry: Entry, next: nat) | NotOne(error: Error) | OneHangs

  function ParseOne(pack: seq<Byte>, offset: nat): (r: One)
    ensures r.One? ==> r.next > offset && r.entry.offset == offset
  {
    var h := ReadHeader(pack, offset);
    match Zlib.Inflate(Delta.Subarray(pack, h.payload, |pack|))
    case NeverReturns => OneHangs
    case Throws(e) => NotOne(Inflation(e))
    case Ok(z) =>
      if |z.bytes| != h.size then NotOne(SizeMismatch)
      else One(Entry(offset, h.kind, h.size, h.base, z.bytes), h.payload + z.consumed)
  }

  function ParseEntries(pack: seq<Byte>, offset: nat, count: nat): (r: Parsed)
    ensures r.Parsed? ==> |r.entries| == count
    ensures r.Parsed? ==> forall i :: 0 <= i < count ==> r.entries[i].offset >= offset
    ensures r.Parsed? ==> forall i, j :: 0 <= i < j < count ==> r.entries[i].offset < r.entries[j].offset
    decreases count
  {
    if count == 0 then Parsed([], offset)
    else match ParseOne(pack, offset)
      case OneHangs => Hangs
      case NotOne(e) => Fails(e)
      case One(entry, next) =>
        match ParseEntries(pack, next, count - 1)
        case Hangs => Hangs
        case Fails(e) => Fails(e)
        case Parsed(rest, end) => Parsed([entry] + rest, end)
  }

  /** `parsePack` on any buffer. */
  function Parse(pack: seq<Byte>): (r: Parsed)
    ensures r.Parsed? ==> forall i, j :: 0 <= i < j < |r.entries| ==> r.entries[i].offset < r.entries[j].offset
  {
    if |pack| < 32 then Fails(TooShort)
    else if pack[..4] != [0x50, 0x41, 0x43, 0x4b] then Fails(BadMagic)
    else if ReadUint32(pack, 4) != 2 then Fails(BadVersion)
    else
      var count := ReadUint32(pack, 8);
      ParseEntries(pack, 12, if count < 0 then 0 else count)
  }

  method ReadSize(pack: seq<Byte>, offset: nat) returns (size: int, cursor: nat)
    ensures (size, cursor) == EntrySize(pack, offset)
  {
    var byte: int := ByteAt(pack, offset);
    ghost var first := byte;
    var value: nat := byte % 16;
    var shift := 4;
    cursor := offset + 1;
    while byte >= 128
      invariant value < TWO32
      invariant byte >= 128 ==> cursor <= |pack| && first >= 128
      invariant byte >= 128 ==> Delta.Varint(pack, cursor, value, shift) == Delta.Varint(pack, offset + 1, first % 16, 4)
      invariant byte < 128 && first >= 128 ==> (value, cursor) == Delta.Varint(pack, offset + 1, first % 16, 4)
      invariant first < 128 ==> byte == first && value == first % 16 && cursor == offset + 1
      decreases if byte >= 128 then |pack| - cursor + 1 else 0, byte
    {
      byte := ByteAt(pack, cursor);
      value := ToUint32(Or(value, Shl(byte % 128, shift)));
      cursor := cursor + 1;
      shift := shift + 7;
    }
    size := ToInt32(value);
  }

  method ReadDistance(pack: seq<Byte>, start: nat) returns (distance: int, cursor: nat)
    ensures (distance, cursor) == FirstDistance(pack, start)
  {
    var b: int := ByteAt(pack, start);
    ghost var first := b;
    cursor := start + 1;
    distance := b % 128;
    while b >= 128
      invariant b >= 128 ==> cursor <= |pack| && first >= 128
      invariant b >= 128 ==> Distance(pack, cursor, distance) == Distance(pack, start + 1, first % 128)
      invariant b < 128 && first >= 128 ==> (distance, cursor) == Distance(pack, start + 1, first % 128)
      invariant first < 128 ==> b == first && distance == first && cursor == start + 1
      decreases if b >= 128 then |pack| - cursor + 1 else 0, b
    {
      b := ByteAt(pack, cursor);
      cursor := cursor + 1;
      distance := ToInt32((distance + 1) * 128 + b % 128);
    }
  }

  method ReadEntryHeader(pack: seq<Byte>, offset: nat) returns (h: Header)
    ensures h == ReadHeader(pack, offset)
  {
    var kind := (ByteAt(pack, offset) / 16) % 8;
    var size, cursor := ReadSize(pack, offset);
    if kind == OFS_DELTA {
      var distance;
      distance, cursor := ReadDistance(pack, cursor);
      h := Header(kind, size, ByOffset(offset - distance), cursor);
    } else if kind == REF_DELTA {
      h := Header(kind, size, ById(Delta.Subarray(pack, cursor, cursor + 20)), cursor + 20);
    } else {
      h := Header(kind, size, NoBase, cursor);
    }
  }

  /** One turn of the entry loop. */
  method ParseNext(pack: seq<Byte>, offset: nat) returns (r: One)
    requires |pack| <= Zlib.MAX_INPUT && !ParseOne(pack, offset).OneHangs?
    ensures r == ParseOne(pack, offset)
  {
    var h := ReadEntryHeader(pack, offset);
    var inflated := Zlib.InflateWithBounds(Delta.Subarray(pack, h.payload, |pack|));
    if inflated.Throws? {
      return NotOne(Inflation(inflated.error));
    }
    if |inflated.value.bytes| != h.size {
      return NotOne(SizeMismatch);
    }
    return One(Entry(offset, h.kind, h.size, h.base, inflated.value.bytes), h.payload + inflated.value.consumed);
  }

  /** `parsePack`, for the packs whose entries all inflate or fail, and whose bit positions do not wrap. */
  method ParsePack(pack: seq<Byte>) returns (r: Result<seq<Entry>, Error>)
    requires |pack| <= Zlib.MAX_INPUT && !Parse(pack).Hangs?
    ensures match Parse(pack)
            case Hangs => false
            case Fails(e) => r == Failure(e)
            case Parsed(entries, _) => r == Success(entries)
  {
    if |pack| < 32 {
      return Failure(TooShort);
    }
    if pack[..4] != [0x50, 0x41, 0x43, 0x4b] {
      return Failure(BadMagic);
    }
    if ReadUint32(pack, 4) != 2 {
      return Failure(BadVersion);
    }
    var count := ReadUint32(pack, 8);
    r := ParseCounted(pack, if count < 0 then 0 else count);
  }

  /** The entry loop, from offset 12. */
  method ParseCounted(pack: seq<Byte>, count: nat) returns (r: Result<seq<Entry>, Error>)
    requires |pack| <= Zlib.MAX_INPUT && !ParseEntries(pack, 12, count).Hangs?
    ensures match ParseEntries(pack, 12, count)
            case Hangs => false
            case Fails(e) => r == Failure(e)
            case Parsed(entries, _) => r == Success(entries)
  {
    hide ParseOne;
    ghost var all := ParseEntries(pack, 12, count);
    var entries: seq<Entry> := [];
    var offset: nat := 12;
    for i := 0 to count
      invariant After(entries, ParseEntries(pack, offset, count - i)) == all
    {
      var one := ParseNext(pack, offset);
      if one.NotOne? {
        return Failure(one.error);
      }
      AfterAppend(entries, one.entry, ParseEntries(pack, one.next, count - i - 1));
      entries := entries + [one.entry];
      offset := one.next;
    }
    assert entries + [] == entries;
    return Success(entries);
  }

  /** A parse of the remaining entries, put behind those already read. */
  ghost function After(done: seq<Entry>, rest: Parsed): Parsed {
    if rest.Parsed? then Parsed(done + rest.entries, rest.end) else rest
  }

  lemma AfterAppend(done: seq<Entry>, e: Entry, rest: Parsed)
    ensures After(done + [e], rest) == After(done, After([e], rest))
  {
    if rest.Parsed? {
      assert done + [e] + rest.entries == done + ([e] + rest.entries);
    }
  }

  // ---------- building ----------

  /** An object by its type name and bytes. */
  datatype Object = Object(kind: string, raw: seq<Byte>)

  /** 0 for a name that is no object type. */
  function TypeCode(name: string): (c: nat)
    ensures c <= 4
  {
    if name == "commit" then COMMIT
    else if name == "tree" then TREE
    else if name == "blob" then BLOB
    else if name == "tag" then TAG
    else 0
  }

  function TypeName(code: nat): Option<string> {
    if code == COMMIT then Some("commit")
    else if code == TREE then Some("tree")
    else if code == BLOB then Some("blob")
    else if code == TAG then Some("tag")
    else None
  }

  /** The size groups behind the first header byte; none when the size fits in four bits. */
  function SizeGroups(value: nat): seq<Byte> {
    if value > 0 then Delta.VarintBytes(value) else []
  }

  lemma NoSizeGroups()
    ensures SizeGroups(0) == []
  {
  }

  lemma SizeGroupsStep(v: nat)
    requires v > 0
    ensures SizeGroups(v) == [if v / 128 > 0 then 128 + v % 128 else v % 128] + SizeGroups(v / 128)
  {
  }

  /** The header of an undeltified entry. */
  function HeaderBytes(code: nat, size: nat): seq<Byte>
    requires code <= 4
  {
    var value := ToUint32(size) / 16;
    [code * 16 + size % 16 + if value > 0 then 128 else 0] + SizeGroups(value)
  }

  function Uint32Bytes(v: nat): (b: seq<Byte>)
    ensures |b| == 4
  {
    [(v / 0x100_0000) % 256, (v / 0x10000) % 256, (v / 0x100) % 256, v % 256]
  }

  function EntriesBytes(objects: seq<Object>, deflate: seq<Byte> -> seq<Byte>): seq<Byte> {
    if objects == [] then []
    else (HeaderBytes(TypeCode(objects[0].kind), |objects[0].raw|)
          + deflate(objects[0].raw) + EntriesBytes(objects[1..], deflate))
  }

  /** The pack without its trailer. */
  function PackBody(objects: seq<Object>, deflate: seq<Byte> -> seq<Byte>): seq<Byte> {
    [0x50, 0x41, 0x43, 0x4b, 0, 0, 0, 2] + Uint32Bytes(|objects|) + EntriesBytes(objects, deflate)
  }

  predicate Packable(objects: seq<Object>) {
    forall i :: 0 <= i < |objects| ==> TypeCode(objects[i].kind) != 0
  }

  /** `buildPack`; `None` when an object has an unknown type. */
  function Build(objects: seq<Object>, deflate: seq<Byte> -> seq<Byte>, sha1: seq<Byte> -> seq<Byte>): Option<seq<Byte>> {
    if Packable(objects) then Some(PackBody(objects, deflate) + sha1(PackBody(objects, deflate)))
    else None
  }

  method EncodeHeader(code: nat, size: nat) returns (bytes: seq<Byte>)
    requires code <= 4
    ensures bytes == HeaderBytes(code, size)
  {
    hide SizeGroups, ToUint32;
    var value: nat := ToUint32(size) / 16;
    var first: nat := code * 16 + size % 16 + if value > 0 then 128 else 0;
    ghost var groups := SizeGroups(value);
    var rest: seq<Byte> := [];
    while value > 0
      invariant groups == rest + SizeGroups(value)
      decreases value
    {
      SizeGroupsStep(value);
      var group: nat := value % 128;
      value := value / 128;
      var byte: Byte := if value > 0 then 128 + group else group;
      assert rest + [byte] + SizeGroups(value) == rest + ([byte] + SizeGroups(value));
      rest := rest + [byte];
    }
    NoSizeGroups();
    assert rest + [] == rest;
    bytes := [first] + rest;
  }

  lemma EntriesStep(body: seq<Byte>, objects: seq<Object>, i: nat, deflate: seq<Byte> -> seq<Byte>)
    requires i < |objects|
    ensures body + EntriesBytes(objects[i..], deflate)
         == body + HeaderBytes(TypeCode(objects[i].kind), |objects[i].raw|) + deflate(objects[i].raw)
            + EntriesBytes(objects[i + 1..], deflate)
  {
    hide HeaderBytes, TypeCode;
    var head, z := HeaderBytes(TypeCode(objects[i].kind), |objects[i].raw|), deflate(objects[i].raw);
    var rest := EntriesBytes(objects[i + 1..], deflate);
    assert objects[i..][1..] == objects[i + 1..];
    assert EntriesBytes(objects[i..], deflate) == head + z + rest;
    assert body + (head + z + rest) == body + head + z + rest;
  }

  method BuildPack(objects: seq<Object>, deflate: seq<Byte> -> seq<Byte>, sha1: seq<Byte> -> seq<Byte>)
    returns (pack: Option<seq<Byte>>)
    ensures pack == Build(objects, deflate, sha1)
  {
    hide HeaderBytes, EntriesBytes, TypeCode;
    var body: seq<Byte> := [0x50, 0x41, 0x43, 0x4b, 0, 0, 0, 2] + Uint32Bytes(|objects|);
    assert objects[0..] == objects;
    for i := 0 to |objects|
      invariant body + EntriesBytes(objects[i..], deflate) == PackBody(objects, deflate)
      invariant forall j :: 0 <= j < i ==> TypeCode(objects[j].kind) != 0
    {
      var code := TypeCode(objects[i].kind);
      if code == 0 {
        return None;
      }
      var header := EncodeHeader(code, |objects[i].raw|);
      EntriesStep(body, objects, i, deflate);
      body := body + header + deflate(objects[i].raw);
    }
    NoEntries(deflate);
    assert objects[|objects|..] == [] && body + [] == body;
    return Some(body + sha1(body));
  }

  lemma NoEntries(deflate: seq<Byte> -> seq<Byte>)
    ensures EntriesBytes([], deflate) == []
  {
  }
}
