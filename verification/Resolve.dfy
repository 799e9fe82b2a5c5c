/** Resolving delta chains to a fixpoint (`resolvePack`) and undeltifying thin packs (`fattenPack`). */
module Resolve {
  import opened Bytes
  import opened Wrappers
  import opened Pack
  import Delta
  import Zlib

  type Oid = seq<Byte>

  /** `objectId`: the digest of an object's type and bytes. */
  type IdFunction = (string, seq<Byte>) -> Oid

  /** The local object store, when there is one. */
  type Store = Option<map<Oid, Object>>

  datatype Resolved = Resolved(offset: nat, kind: string, raw: seq<Byte>, oid: Oid)

  datatype ResolveError =
    | Parsing(reason: Pack.Error)
    | UnknownType
    | DeltaFailed(cause: Delta.Error)
    | NotInStore
    | Unresolved

  // ---------- one entry ----------

  datatype State = State(byOffset: map<int, Resolved>, byOid: map<Oid, Resolved>, objects: seq<Resolved>, thin: bool)

  const START := State(map[], map[], [], false)

  datatype Attempt = Got(obj: Resolved, external: bool) | Waits | Throws(error: ResolveError)

  predicate IsDelta(e: Entry) {
    e.kind == OFS_DELTA || e.kind == REF_DELTA
  }

  /** Delta entries name their base the way their kind says. */
  predicate WfEntry(e: Entry) {
    (e.kind == OFS_DELTA ==> e.base.ByOffset?) && (e.kind == REF_DELTA ==> e.base.ById?)
  }

  function OnBase(e: Entry, kind: string, base: seq<Byte>, external: bool, id: IdFunction): Attempt {
    match Delta.Apply(base, e.data)
    case Failure(error) => Throws(DeltaFailed(error))
    case Success(raw) => Got(Resolved(e.offset, kind, raw, id(kind, raw)), external)
  }

  /** `resolveEntry` */
  function TryEntry(e: Entry, st: State, store: Store, id: IdFunction): Attempt
    requires WfEntry(e)
  {
    if !IsDelta(e) then
      match TypeName(e.kind)
      case None => Throws(UnknownType)
      case Some(kind) => Got(Resolved(e.offset, kind, e.data, id(kind, e.data)), false)
    else if e.kind == OFS_DELTA then
      if e.base.offset in st.byOffset then
        OnBase(e, st.byOffset[e.base.offset].kind, st.byOffset[e.base.offset].raw, false, id)
      else Waits
    else if e.base.oid in st.byOid then
      OnBase(e, st.byOid[e.base.oid].kind, st.byOid[e.base.oid].raw, false, id)
    else if store.None? then Waits
    else if e.base.oid in store.value then
      OnBase(e, store.value[e.base.oid].kind, store.value[e.base.oid].raw, true, id)
    else Throws(NotInStore)
  }

  function Record(st: State, o: Resolved, external: bool): State {
    State(st.byOffset[o.offset := o], st.byOid[o.oid := o], st.objects + [o], st.thin || external)
  }

  // ---------- rounds ----------

  datatype Round = Round(state: State, still: seq<Entry>) | RoundFails(error: ResolveError)

  predicate WfEntries(entries: seq<Entry>) {
    forall i :: 0 <= i < |entries| ==> WfEntry(entries[i])
  }

  /** One pass over the pending entries; what one of them yields is visible to the next. */
  function RunRound(pending: seq<Entry>, st: State, store: Store, id: IdFunction): (r: Round)
    requires WfEntries(pending)
    ensures r.Round? ==> |r.still| <= |pending| && WfEntries(r.still)
    ensures r.Round? && |r.still| == |pending| ==> r.state == st && r.still == pending
  {
    if pending == [] then Round(st, [])
    else match TryEntry(pending[0], st, store, id)
      case Throws(e) => RoundFails(e)
      case Got(o, external) => RunRound(pending[1..], Record(st, o, external), store, id)
      case Waits =>
        match RunRound(pending[1..], st, store, id)
        case RoundFails(e) => RoundFails(e)
        case Round(st', still) => Round(st', [pending[0]] + still)
  }

  /** Rounds until nothing is pending, or a round resolves nothing. */
  function Fixpoint(pending: seq<Entry>, st: State, store: Store, id: IdFunction): Result<State, ResolveError>
    requires WfEntries(pending)
    decreases |pending|
  {
    match RunRound(pending, st, store, id)
    case RoundFails(e) => Failure(e)
    case Round(st', still) =>
      if still == [] then Success(st')
      else if |still| == |pending| then Failure(Unresolved)
      else Fixpoint(still, st', store, id)
  }

  /** Insertion into a list ordered by offset. */
  function Insert(o: Resolved, sorted: seq<Resolved>): seq<Resolved> {
    if sorted == [] || o.offset < sorted[0].offset then [o] + sorted
    else [sorted[0]] + Insert(o, sorted[1..])
  }

  function SortByOffset(objects: seq<Resolved>): seq<Resolved> {
    if objects == [] then []
    else Insert(objects[|objects| - 1], SortByOffset(objects[..|objects| - 1]))
  }

  datatype Objects = Objects(objects: seq<Resolved>, thin: bool)

  function ResolveEntries(entries: seq<Entry>, store: Store, id: IdFunction): Result<Objects, ResolveError>
    requires WfEntries(entries)
  {
    match Fixpoint(entries, START, store, id)
    case Failure(e) => Failure(e)
    case Success(st) => Success(Objects(SortByOffset(st.objects), st.thin))
  }

  lemma ParsedOneIsWf(pack: seq<Byte>, offset: nat)
    requires ParseOne(pack, offset).One?
    ensures WfEntry(ParseOne(pack, offset).entry)
  {
  }

  lemma {:induction false} ParsedAreWf(pack: seq<Byte>, offset: nat, count: nat)
    requires ParseEntries(pack, offset, count).Parsed?
    ensures WfEntries(ParseEntries(pack, offset, count).entries)
    decreases count
  {
    hide ParseOne;
    if count > 0 {
      ParsedOneIsWf(pack, offset);
      ParsedAreWf(pack, ParseOne(pack, offset).next, count - 1);
    }
  }

  /** `resolvePack`, for the packs whose entries all inflate or fail. */
  function ResolvePack(pack: seq<Byte>, store: Store, id: IdFunction): Result<Objects, ResolveError>
    requires !Parse(pack).Hangs?
  {
    match Parse(pack)
    case Fails(e) => Failure(Parsing(e))
    case Parsed(entries, _) =>
      ParsedAreWf(pack, 12, |entries|);
      ResolveEntries(entries, store, id)
    case Hangs => assert false; Failure(Unresolved)
  }

  // ---------- the program ----------

  method ResolveEntry(e: Entry, byOffset: map<int, Resolved>, byOid: map<Oid, Resolved>, store: Store, id: IdFunction)
    returns (r: Attempt)
    requires WfEntry(e)
    ensures forall objects, thin :: r == TryEntry(e, State(byOffset, byOid, objects, thin), store, id)
  {
    if !IsDelta(e) {
      var kind := TypeName(e.kind);
      if kind.None? {
        return Throws(UnknownType);
      }
      return Got(Resolved(e.offset, kind.value, e.data, id(kind.value, e.data)), false);
    }
    var kind: string, base: seq<Byte>;
    var external := false;
    if e.kind == OFS_DELTA {
      if e.base.offset !in byOffset {
        return Waits;
      }
      kind, base := byOffset[e.base.offset].kind, byOffset[e.base.offset].raw;
    } else if e.base.oid in byOid {
      kind, base := byOid[e.base.oid].kind, byOid[e.base.oid].raw;
    } else if store.None? {
      return Waits;
    } else if e.base.oid in store.value {
      kind, base, external := store.value[e.base.oid].kind, store.value[e.base.oid].raw, true;
    } else {
      return Throws(NotInStore);
    }
    var raw := Delta.ApplyDelta(base, e.data);
    if raw.Failure? {
      return Throws(DeltaFailed(raw.error));
    }
    return Got(Resolved(e.offset, kind, raw.value, id(kind, raw.value)), external);
  }

  method InsertObject(o: Resolved, sorted: seq<Resolved>) returns (r: seq<Resolved>)
    ensures r == Insert(o, sorted)
  {
    var at := 0;
    while at < |sorted| && sorted[at].offset <= o.offset
      invariant at <= |sorted|
      invariant sorted[..at] + Insert(o, sorted[at..]) == Insert(o, sorted)
    {
      assert sorted[at..][1..] == sorted[at + 1..];
      InsertStep(o, sorted, at);
      at := at + 1;
    }
    assert sorted[..at] + ([o] + sorted[at..]) == sorted[..at] + [o] + sorted[at..];
    r := sorted[..at] + [o] + sorted[at..];
  }

  lemma InsertStep(o: Resolved, sorted: seq<Resolved>, at: nat)
    requires at < |sorted| && sorted[at].offset <= o.offset
    ensures sorted[..at] + Insert(o, sorted[at..]) == sorted[..at + 1] + Insert(o, sorted[at + 1..])
  {
    var rest := Insert(o, sorted[at + 1..]);
    assert sorted[at..][1..] == sorted[at + 1..];
    assert Insert(o, sorted[at..]) == [sorted[at]] + rest;
    assert sorted[..at] + ([sorted[at]] + rest) == sorted[..at] + [sorted[at]] + rest;
    assert sorted[..at] + [sorted[at]] == sorted[..at + 1];
  }

  method SortObjects(objects: seq<Resolved>) returns (sorted: seq<Resolved>)
    ensures sorted == SortByOffset(objects)
  {
    sorted := [];
    for i := 0 to |objects|
      invariant sorted == SortByOffset(objects[..i])
    {
      assert objects[..i + 1][..i] == objects[..i];
      sorted := InsertObject(objects[i], sorted);
    }
    assert objects[..|objects|] == objects;
  }

  /** A round with the entries found still waiting put in front. */
  ghost function Continue(still: seq<Entry>, r: Round): Round {
    if r.Round? then Round(r.state, still + r.still) else r
  }

  lemma ContinueWaits(still: seq<Entry>, e: Entry, r: Round)
    ensures Continue(still + [e], r) == Continue(still, Continue([e], r))
  {
    if r.Round? {
      assert still + ([e] + r.still) == still + [e] + r.still;
    }
  }

  /** One pass over the pending entries. */
  method OneRound(pending: seq<Entry>, st0: State, store: Store, id: IdFunction) returns (r: Round)
    requires WfEntries(pending)
    ensures r == RunRound(pending, st0, store, id)
  {
    var st := st0;
    var still: seq<Entry> := [];
    ghost var round := RunRound(pending, st, store, id);
    for i := 0 to |pending|
      invariant Continue(still, RunRound(pending[i..], st, store, id)) == round
    {
      hide Delta.Apply, TryEntry;
      assert pending[i..][1..] == pending[i + 1..];
      var attempt := ResolveEntry(pending[i], st.byOffset, st.byOid, store, id);
      assert attempt == TryEntry(pending[i], State(st.byOffset, st.byOid, st.objects, st.thin), store, id);
      match attempt {
        case Throws(e) =>
          return RoundFails(e);
        case Got(o, external) =>
          st := Record(st, o, external);
        case Waits =>
          ContinueWaits(still, pending[i], RunRound(pending[i + 1..], st, store, id));
          still := still + [pending[i]];
      }
    }
    assert pending[|pending|..] == [] && still + [] == still;
    return Round(st, still);
  }

  method ResolveParsed(entries: seq<Entry>, store: Store, id: IdFunction) returns (r: Result<Objects, ResolveError>)
    requires WfEntries(entries)
    ensures r == ResolveEntries(entries, store, id)
  {
    var st := START;
    var pending := entries;
    while true
      invariant WfEntries(pending)
      invariant Fixpoint(pending, st, store, id) == Fixpoint(entries, START, store, id)
      decreases |pending|
    {
      var round := OneRound(pending, st, store, id);
      if round.RoundFails? {
        return Failure(round.error);
      }
      st := round.state;
      if round.still == [] {
        break;
      }
      if |round.still| == |pending| {
        return Failure(Unresolved);
      }
      pending := round.still;
    }
    var sorted := SortObjects(st.objects);
    return Success(Objects(sorted, st.thin));
  }

  /** `resolvePack` */
  method ResolveWhole(pack: seq<Byte>, store: Store, id: IdFunction) returns (r: Result<Objects, ResolveError>)
    requires |pack| <= Zlib.MAX_INPUT && !Parse(pack).Hangs?
    ensures r == ResolvePack(pack, store, id)
  {
    var parsed := ParsePack(pack);
    if parsed.Failure? {
      return Failure(Parsing(parsed.error));
    }
    ParsedAreWf(pack, 12, |parsed.value|);
    r := ResolveParsed(parsed.value, store, id);
  }

  /** `fattenPack`: `None` inside a success stands for an object of unknown type. */
  function Fatten(pack: seq<Byte>, store: Store, id: IdFunction,
                  deflate: seq<Byte> -> seq<Byte>, sha1: seq<Byte> -> seq<Byte>): Result<Option<seq<Byte>>, ResolveError>
    requires !Parse(pack).Hangs?
  {
    match ResolvePack(pack, store, id)
    case Failure(e) => Failure(e)
    case Success(r) => Success(if r.thin then Build(ToPack(r.objects), deflate, sha1) else Some(pack))
  }

  function ToPack(objects: seq<Resolved>): (r: seq<Object>)
    ensures |r| == |objects|
    ensures forall i :: 0 <= i < |r| ==> r[i] == Object(objects[i].kind, objects[i].raw)
  {
    if objects == [] then [] else [Object(objects[0].kind, objects[0].raw)] + ToPack(objects[1..])
  }

  method FattenPack(pack: seq<Byte>, store: Store, id: IdFunction,
                    deflate: seq<Byte> -> seq<Byte>, sha1: seq<Byte> -> seq<Byte>)
    returns (r: Result<Option<seq<Byte>>, ResolveError>)
    requires |pack| <= Zlib.MAX_INPUT && !Parse(pack).Hangs?
    ensures r == Fatten(pack, store, id, deflate, sha1)
  {
    var resolved := ResolveWhole(pack, store, id);
    if resolved.Failure? {
      return Failure(resolved.error);
    }
    if !resolved.value.thin {
      return Success(Some(pack));
    }
    var fat := BuildPack(ToPack(resolved.value.objects), deflate, sha1);
    return Success(fat);
  }
}
