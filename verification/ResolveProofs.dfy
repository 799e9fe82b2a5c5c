/** What delta resolution means, and that the fixpoint computes exactly that. */
module ResolveProofs {
  import opened Bytes
  import opened Wrappers
  import opened Pack
  import opened Resolve
  import Delta

  /** Objects with equal ids are equal. */
  ghost predicate CollisionFree(id: IdFunction) {
    forall k1, r1, k2, r2 :: id(k1, r1) == id(k2, r2) ==> k1 == k2 && r1 == r2
  }

  /** The store files every object under its own id. */
  ghost predicate Faithful(store: Store, id: IdFunction) {
    store.Some? ==> forall h :: h in store.value ==> id(store.value[h].kind, store.value[h].raw) == h
  }

  /** Entries come in pack order. */
  ghost predicate InOrder(entries: seq<Entry>) {
    forall i, j :: 0 <= i < j < |entries| ==> entries[i].offset < entries[j].offset
  }

  // ---------- denotations ----------

  /** How an entry gets its object: from its own bytes, or as a delta on another entry or a stored object. */
  datatype Chain =
    | Own(k: nat)
    | OnEntry(k: nat, base: Chain)
    | OnStored(k: nat)

  /** The input of a resolution. */
  datatype Input = Input(entries: seq<Entry>, store: Store)

  ghost predicate WfInput(x: Input, id: IdFunction) {
    WfEntries(x.entries) && InOrder(x.entries) && CollisionFree(id) && Faithful(x.store, id)
  }

  function Made(e: Entry, kind: string, raw: seq<Byte>, id: IdFunction): Resolved {
    Resolved(e.offset, kind, raw, id(kind, raw))
  }

  function ApplyTo(e: Entry, kind: string, base: seq<Byte>, id: IdFunction): Option<Resolved> {
    match Delta.Apply(base, e.data)
    case Failure(_) => None
    case Success(raw) => Some(Made(e, kind, raw, id))
  }

  predicate IsBase(e: Entry, b: Resolved) {
    || (e.kind == OFS_DELTA && e.base.ByOffset? && b.offset == e.base.offset)
    || (e.kind == REF_DELTA && e.base.ById? && b.oid == e.base.oid)
  }

  predicate BaseStored(e: Entry, store: Store) {
    e.kind == REF_DELTA && e.base.ById? && store.Some? && e.base.oid in store.value
  }

  /** The object a chain computes, if every link of it fits. */
  function ChainValue(c: Chain, x: Input, id: IdFunction): Option<Resolved>
    decreases c
  {
    if c.k >= |x.entries| then None
    else
      var e := x.entries[c.k];
      match c
      case Own(_) =>
        if IsDelta(e) || TypeName(e.kind).None? then None
        else Some(Made(e, TypeName(e.kind).value, e.data, id))
      case OnEntry(_, base) =>
        var b := ChainValue(base, x, id);
        if b.Some? && IsBase(e, b.value) then ApplyTo(e, b.value.kind, b.value.raw, id) else None
      case OnStored(_) =>
        if BaseStored(e, x.store) then ApplyTo(e, x.store.value[e.base.oid].kind, x.store.value[e.base.oid].raw, id)
        else None
  }

  /** Entry `k` stands for object `o`. */
  ghost predicate Denotes(x: Input, id: IdFunction, k: nat, o: Resolved) {
    exists c: Chain :: c.k == k && ChainValue(c, x, id) == Some(o)
  }

  lemma ChainValueShape(c: Chain, x: Input, id: IdFunction)
    requires ChainValue(c, x, id).Some?
    ensures c.k < |x.entries|
    ensures var o := ChainValue(c, x, id).value;
            o.offset == x.entries[c.k].offset && o.oid == id(o.kind, o.raw)
  {
  }

  lemma SameOffsetSameEntry(x: Input, i: nat, j: nat)
    requires InOrder(x.entries) && i < |x.entries| && j < |x.entries|
    requires x.entries[i].offset == x.entries[j].offset
    ensures i == j
  {
  }

  /** An entry stands for at most one object, whichever chain computes it. */
  lemma {:induction false} DenotationUnique(c: Chain, d: Chain, x: Input, id: IdFunction)
    requires WfInput(x, id) && c.k == d.k
    requires ChainValue(c, x, id).Some? && ChainValue(d, x, id).Some?
    ensures ChainValue(c, x, id) == ChainValue(d, x, id)
    decreases c
  {
    ChainValueShape(c, x, id);
    var e := x.entries[c.k];
    if c.OnEntry? && d.OnEntry? {
      var a, b := ChainValue(c.base, x, id).value, ChainValue(d.base, x, id).value;
      ChainValueShape(c.base, x, id);
      ChainValueShape(d.base, x, id);
      if e.kind == OFS_DELTA {
        SameOffsetSameEntry(x, c.base.k, d.base.k);
        DenotationUnique(c.base, d.base, x, id);
      }
    } else if c.OnEntry? && d.OnStored? {
      ChainValueShape(c.base, x, id);
    } else if c.OnStored? && d.OnEntry? {
      ChainValueShape(d.base, x, id);
    }
  }

  // ---------- soundness of the fixpoint ----------

  /** Some chain computes the object. */
  ghost predicate Computed(o: Resolved, x: Input, id: IdFunction) {
    exists c: Chain :: ChainValue(c, x, id) == Some(o)
  }

  ghost predicate FiledByOffset(m: map<int, Resolved>, objects: seq<Resolved>) {
    && (forall p :: p in m ==> m[p].offset == p && m[p] in objects)
    && (forall i :: 0 <= i < |objects| ==> objects[i].offset in m)
  }

  ghost predicate FiledById(m: map<Oid, Resolved>, objects: seq<Resolved>) {
    && (forall h :: h in m ==> m[h].oid == h && m[h] in objects)
    && (forall i :: 0 <= i < |objects| ==> objects[i].oid in m)
  }

  ghost predicate Apart(objects: seq<Resolved>) {
    forall i, j :: 0 <= i < j < |objects| ==> objects[i].offset != objects[j].offset
  }

  /** Objects have distinct offsets and are filed under their own offset and id. */
  ghost predicate Filed(st: State) {
    FiledByOffset(st.byOffset, st.objects) && FiledById(st.byOid, st.objects) && Apart(st.objects)
  }

  /** Everything recorded so far is a denotation. */
  ghost predicate Sound(st: State, x: Input, id: IdFunction) {
    && Filed(st)
    && forall o :: o in st.objects ==> Computed(o, x, id)
  }

  lemma RecordedChain(b: Resolved, st: State, x: Input, id: IdFunction) returns (c: Chain)
    requires Sound(st, x, id) && b in st.objects
    ensures ChainValue(c, x, id) == Some(b)
  {
    hide ChainValue, Filed;
    assert Computed(b, x, id);
    c :| ChainValue(c, x, id) == Some(b);
  }

  lemma FromRecorded(e: Entry, k: nat, b: Resolved, o: Resolved, st: State, x: Input, id: IdFunction)
    requires Sound(st, x, id) && b in st.objects
    requires k < |x.entries| && x.entries[k] == e
    requires IsBase(e, b) && ApplyTo(e, b.kind, b.raw, id) == Some(o)
    ensures Denotes(x, id, k, o)
  {
    hide ApplyTo, IsBase, Denotes, Sound;
    var c := RecordedChain(b, st, x, id);
    assert ChainValue(OnEntry(k, c), x, id) == Some(o);
    Witness(OnEntry(k, c), o, x, id);
  }

  lemma OnBaseIsApplyTo(e: Entry, kind: string, base: seq<Byte>, external: bool, id: IdFunction)
    requires OnBase(e, kind, base, external, id).Got?
    ensures ApplyTo(e, kind, base, id) == Some(OnBase(e, kind, base, external, id).obj)
    ensures OnBase(e, kind, base, external, id).obj.offset == e.offset
  {
  }

  lemma AttemptDenotes(e: Entry, k: nat, st: State, x: Input, id: IdFunction)
    requires WfInput(x, id) && Sound(st, x, id)
    requires k < |x.entries| && x.entries[k] == e
    requires TryEntry(e, st, x.store, id).Got?
    ensures Denotes(x, id, k, TryEntry(e, st, x.store, id).obj)
    ensures TryEntry(e, st, x.store, id).obj.offset == e.offset
  {
    hide OnBase, ApplyTo, Denotes;
    var o := TryEntry(e, st, x.store, id).obj;
    if !IsDelta(e) {
      Witness(Own(k), o, x, id);
    } else if e.kind == OFS_DELTA || e.base.oid in st.byOid {
      var b := if e.kind == OFS_DELTA then st.byOffset[e.base.offset] else st.byOid[e.base.oid];
      OnBaseIsApplyTo(e, b.kind, b.raw, false, id);
      FromRecorded(e, k, b, o, st, x, id);
    } else {
      var b := x.store.value[e.base.oid];
      OnBaseIsApplyTo(e, b.kind, b.raw, true, id);
      Witness(OnStored(k), o, x, id);
    }
  }

  lemma Witness(c: Chain, o: Resolved, x: Input, id: IdFunction)
    requires ChainValue(c, x, id) == Some(o)
    ensures Denotes(x, id, c.k, o)
  {
  }

  lemma OffsetFiled(m: map<int, Resolved>, objects: seq<Resolved>, o: Resolved)
    requires FiledByOffset(m, objects)
    ensures FiledByOffset(m[o.offset := o], objects + [o])
  {
  }

  lemma IdFiled(m: map<Oid, Resolved>, objects: seq<Resolved>, o: Resolved)
    requires FiledById(m, objects)
    ensures FiledById(m[o.oid := o], objects + [o])
  {
  }

  lemma ApartGrows(m: map<int, Resolved>, objects: seq<Resolved>, o: Resolved)
    requires FiledByOffset(m, objects) && Apart(objects) && o.offset !in m
    ensures Apart(objects + [o])
  {
  }

  lemma RecordFiled(st: State, o: Resolved, external: bool)
    requires Filed(st) && o.offset !in st.byOffset
    ensures Filed(Record(st, o, external))
  {
    hide FiledByOffset, FiledById, Apart;
    OffsetFiled(st.byOffset, st.objects, o);
    IdFiled(st.byOid, st.objects, o);
    ApartGrows(st.byOffset, st.objects, o);
  }

  lemma RecordSound(st: State, o: Resolved, external: bool, k: nat, x: Input, id: IdFunction)
    requires Sound(st, x, id) && Denotes(x, id, k, o) && o.offset !in st.byOffset
    ensures Sound(Record(st, o, external), x, id)
  {
    hide ChainValue, Filed;
    RecordFiled(st, o, external);
    assert Computed(o, x, id);
  }

  /** Every entry is pending or recorded; no pending entry is recorded. */
  ghost predicate Pending(pending: seq<Entry>, st: State, x: Input) {
    && (forall i :: 0 <= i < |pending| ==> pending[i] in x.entries && pending[i].offset !in st.byOffset)
    && (forall i, j :: 0 <= i < j < |pending| ==> pending[i].offset != pending[j].offset)
  }

  /** What a round achieves: what is recorded stays, and each entry of the round is recorded or still pending. */
  ghost predicate Advanced(pending: seq<Entry>, st: State, still: seq<Entry>, st': State) {
    && (forall p :: p in st.byOffset ==> p in st'.byOffset)
    && (forall e :: e in pending ==> e in still || e.offset in st'.byOffset)
    && (forall p :: p in st'.byOffset ==> p in st.byOffset || exists e :: e in pending && e.offset == p)
    && (forall e :: e in still ==> e in pending)
    && |st'.objects| + |still| == |st.objects| + |pending|
  }

  lemma PendingTail(pending: seq<Entry>, st: State, x: Input)
    requires pending != [] && Pending(pending, st, x)
    ensures Pending(pending[1..], st, x)
    ensures pending[0].offset !in st.byOffset
    ensures exists k: nat :: k < |x.entries| && x.entries[k] == pending[0]
  {
    assert pending[0] in x.entries;
  }

  lemma PendingGot(pending: seq<Entry>, st: State, o: Resolved, external: bool, x: Input)
    requires pending != [] && Pending(pending, st, x) && o.offset == pending[0].offset
    ensures Pending(pending[1..], Record(st, o, external), x)
  {
  }

  lemma AdvancedGot(pending: seq<Entry>, st: State, o: Resolved, external: bool, still: seq<Entry>, st': State)
    requires pending != [] && o.offset == pending[0].offset
    requires Advanced(pending[1..], Record(st, o, external), still, st')
    ensures Advanced(pending, st, still, st')
  {
    assert pending == [pending[0]] + pending[1..];
    assert o.offset in Record(st, o, external).byOffset;
    forall p | p in st'.byOffset && p !in st.byOffset ensures exists e :: e in pending && e.offset == p {
      if p == o.offset {
        assert pending[0] in pending;
      }
    }
  }

  lemma AdvancedWaits(pending: seq<Entry>, st: State, still: seq<Entry>, st': State, x: Input)
    requires pending != [] && Pending(pending, st, x) && Pending(still, st', x)
    requires Advanced(pending[1..], st, still, st')
    ensures Advanced(pending, st, [pending[0]] + still, st')
    ensures Pending([pending[0]] + still, st', x)
  {
    var e, rest := pending[0], pending[1..];
    assert pending == [e] + rest;
    assert forall f :: f in rest ==> f.offset != e.offset;
    var all := [e] + still;
    forall i | 0 < i < |all| ensures all[i].offset != e.offset {
      assert all[i] in still;
      assert all[i] in rest;
    }
  }

  /** A round keeps everything sound, records or keeps each of its entries, and forgets nothing. */
  lemma {:induction false} RoundSound(pending: seq<Entry>, st: State, x: Input, id: IdFunction)
    requires WfInput(x, id) && Sound(st, x, id) && WfEntries(pending) && Pending(pending, st, x)
    requires RunRound(pending, st, x.store, id).Round?
    ensures var r := RunRound(pending, st, x.store, id);
            Sound(r.state, x, id) && Pending(r.still, r.state, x) && Advanced(pending, st, r.still, r.state)
    decreases |pending|
  {
    hide Sound, TryEntry, WfInput, Pending, Advanced, Denotes, Record;
    if pending == [] {
      NothingPending(st, x);
    } else {
      var e, rest := pending[0], pending[1..];
      PendingTail(pending, st, x);
      match TryEntry(e, st, x.store, id)
      case Got(o, external) =>
        var k: nat :| k < |x.entries| && x.entries[k] == e;
        AttemptDenotes(e, k, st, x, id);
        RecordSound(st, o, external, k, x, id);
        PendingGot(pending, st, o, external, x);
        RoundSound(rest, Record(st, o, external), x, id);
        var r := RunRound(rest, Record(st, o, external), x.store, id);
        AdvancedGot(pending, st, o, external, r.still, r.state);
      case Waits =>
        RoundSound(rest, st, x, id);
        var r := RunRound(rest, st, x.store, id);
        AdvancedWaits(pending, st, r.still, r.state, x);
    }
  }

  lemma NothingPending(st: State, x: Input)
    ensures Pending([], st, x) && Advanced([], st, [], st)
  {
  }

  // ---------- the whole fixpoint ----------

  /** Every entry is either waiting or recorded. */
  ghost predicate Covered(pending: seq<Entry>, st: State, x: Input) {
    forall k :: 0 <= k < |x.entries| ==> x.entries[k] in pending || x.entries[k].offset in st.byOffset
  }

  lemma CoveredAdvances(pending: seq<Entry>, st: State, still: seq<Entry>, st': State, x: Input)
    requires Covered(pending, st, x) && Advanced(pending, st, still, st')
    ensures Covered(still, st', x)
  {
  }

  lemma {:induction false} FixpointSound(pending: seq<Entry>, st: State, x: Input, id: IdFunction)
    requires WfInput(x, id) && Sound(st, x, id) && WfEntries(pending)
    requires Pending(pending, st, x) && Covered(pending, st, x)
    ensures match Fixpoint(pending, st, x.store, id)
            case Failure(_) => true
            case Success(st') => Sound(st', x, id) && Covered([], st', x)
    decreases |pending|
  {
    hide Sound, Pending, Covered, Advanced, RunRound, WfInput;
    var r := RunRound(pending, st, x.store, id);
    if r.Round? {
      RoundSound(pending, st, x, id);
      CoveredAdvances(pending, st, r.still, r.state, x);
      if r.still != [] && |r.still| != |pending| {
        FixpointSound(r.still, r.state, x, id);
      }
    }
  }

  lemma StartSound(x: Input, id: IdFunction)
    requires WfInput(x, id)
    ensures Sound(START, x, id) && Pending(x.entries, START, x) && Covered(x.entries, START, x)
  {
  }

  // ---------- sorting ----------

  ghost predicate Ascending(s: seq<Resolved>) {
    forall i, j :: 0 <= i < j < |s| ==> s[i].offset <= s[j].offset
  }

  lemma {:induction false} InsertAdds(o: Resolved, s: seq<Resolved>)
    ensures multiset(Insert(o, s)) == multiset(s) + multiset{o}
    decreases |s|
  {
    if s != [] && s[0].offset <= o.offset {
      InsertAdds(o, s[1..]);
      assert s == [s[0]] + s[1..];
    }
  }

  lemma {:induction false} InsertSorts(o: Resolved, s: seq<Resolved>)
    requires Ascending(s)
    ensures Ascending(Insert(o, s))
    ensures Insert(o, s)[0] == o || (|s| > 0 && Insert(o, s)[0] == s[0])
    decreases |s|
  {
    if s != [] && s[0].offset <= o.offset {
      InsertSorts(o, s[1..]);
      var r := Insert(o, s[1..]);
      assert s[0].offset <= r[0].offset;
      assert Insert(o, s) == [s[0]] + r;
    }
  }

  lemma {:induction false} SortSorts(s: seq<Resolved>)
    ensures Ascending(SortByOffset(s)) && multiset(SortByOffset(s)) == multiset(s)
    decreases |s|
  {
    hide Insert, Ascending;
    if s == [] {
      AscendingNothing();
    } else {
      SortSorts(s[..|s| - 1]);
      InsertSorts(s[|s| - 1], SortByOffset(s[..|s| - 1]));
      InsertAdds(s[|s| - 1], SortByOffset(s[..|s| - 1]));
      assert s == s[..|s| - 1] + [s[|s| - 1]];
    }
  }

  lemma AscendingNothing()
    ensures Ascending([])
  {
  }

  /** Two increasing sequences of the same offsets agree place by place. */
  lemma {:induction false} SameOrder(a: seq<int>, b: seq<int>)
    requires forall i, j :: 0 <= i < j < |a| ==> a[i] < a[j]
    requires forall i, j :: 0 <= i < j < |b| ==> b[i] < b[j]
    requires forall v :: v in a <==> v in b
    ensures a == b
    decreases |a|
  {
    if a == [] {
      assert forall i :: 0 <= i < |b| ==> b[i] in b;
    } else {
      assert a[0] in b && |b| > 0 && b[0] in a;
      assert a[0] == b[0];
      var a', b' := a[1..], b[1..];
      forall v ensures v in a' <==> v in b' {
        assert v in a <==> v == a[0] || v in a';
        assert v in b <==> v == b[0] || v in b';
        assert a[0] !in a' && b[0] !in b';
      }
      SameOrder(a', b');
      assert a == [a[0]] + a' && b == [b[0]] + b';
    }
  }

  lemma DistinctOffsets(s: seq<Resolved>, t: seq<Resolved>)
    requires multiset(s) == multiset(t)
    requires Apart(s)
    ensures Apart(t)
  {
    forall i, j | 0 <= i < j < |t| ensures t[i].offset != t[j].offset {
      if t[i].offset == t[j].offset {
        assert t[i] in multiset(s) && t[j] in multiset(s);
        var p :| 0 <= p < |s| && s[p] == t[i];
        var q :| 0 <= q < |s| && s[q] == t[j];
        assert p == q;
        TwiceInMultiset(t, i, j);
        OnceInMultiset(s, p);
      }
    }
  }

  lemma TwiceInMultiset(t: seq<Resolved>, i: nat, j: nat)
    requires i < j < |t| && t[i] == t[j]
    ensures multiset(t)[t[i]] >= 2
  {
    assert t == t[..i] + [t[i]] + t[i + 1..j] + [t[j]] + t[j + 1..];
  }

  lemma OnceInMultiset(s: seq<Resolved>, p: nat)
    requires p < |s| && Apart(s)
    ensures multiset(s)[s[p]] == 1
  {
    assert s == s[..p] + [s[p]] + s[p + 1..];
    assert s[p] !in s[..p] && s[p] !in s[p + 1..];
  }

  function Offsets(s: seq<Resolved>): (r: seq<int>)
    ensures |r| == |s| && forall i :: 0 <= i < |s| ==> r[i] == s[i].offset
  {
    seq(|s|, i requires 0 <= i < |s| => s[i].offset)
  }

  function EntryOffsets(s: seq<Entry>): (r: seq<int>)
    ensures |r| == |s| && forall i :: 0 <= i < |s| ==> r[i] == s[i].offset
  {
    seq(|s|, i requires 0 <= i < |s| => s[i].offset)
  }

  lemma ObjectOffsetIsEntrys(s: seq<Resolved>, i: nat, st: State, x: Input, id: IdFunction)
    requires Sound(st, x, id) && multiset(s) == multiset(st.objects) && i < |s|
    ensures s[i].offset in EntryOffsets(x.entries)
  {
    hide Computed, Filed;
    assert s[i] in multiset(st.objects);
    ObjectIsEntry(s[i], st, x, id);
    var k :| 0 <= k < |x.entries| && x.entries[k].offset == s[i].offset;
    assert EntryOffsets(x.entries)[k] == s[i].offset;
  }

  lemma EntryOffsetIsObjects(s: seq<Resolved>, k: nat, st: State, x: Input)
    requires FiledByOffset(st.byOffset, st.objects) && Covered([], st, x) && multiset(s) == multiset(st.objects)
    requires k < |x.entries|
    ensures x.entries[k].offset in Offsets(s)
  {
    var o := st.byOffset[x.entries[k].offset];
    assert o in multiset(s);
    var i :| 0 <= i < |s| && s[i] == o;
    assert Offsets(s)[i] == o.offset;
  }

  lemma SameOffsets(s: seq<Resolved>, st: State, x: Input, id: IdFunction)
    requires Sound(st, x, id) && Covered([], st, x) && multiset(s) == multiset(st.objects)
    ensures forall v :: v in Offsets(s) <==> v in EntryOffsets(x.entries)
  {
    var a, b := Offsets(s), EntryOffsets(x.entries);
    hide Computed, FiledByOffset, FiledById, Apart, Covered, Offsets, EntryOffsets;
    forall v ensures v in a <==> v in b {
      if v in a {
        var i :| 0 <= i < |a| && a[i] == v;
        ObjectOffsetIsEntrys(s, i, st, x, id);
      }
      if v in b {
        var k :| 0 <= k < |b| && b[k] == v;
        EntryOffsetIsObjects(s, k, st, x);
      }
    }
  }

  lemma InPackOrder(st: State, x: Input, id: IdFunction)
    requires InOrder(x.entries) && Sound(st, x, id) && Covered([], st, x)
    ensures var s := SortByOffset(st.objects);
      && |s| == |x.entries|
      && forall k :: 0 <= k < |s| ==> s[k].offset == x.entries[k].offset && s[k] in st.objects
  {
    hide SortByOffset, Computed, Covered;
    var s := SortByOffset(st.objects);
    SortSorts(st.objects);
    DistinctOffsets(st.objects, s);
    hide Sound;
    var a, b := Offsets(s), EntryOffsets(x.entries);
    SameOffsets(s, st, x, id);
    SameOrder(a, b);
    forall k | 0 <= k < |s| ensures s[k].offset == x.entries[k].offset && s[k] in st.objects {
      assert a[k] == b[k];
      assert s[k] in multiset(st.objects);
    }
  }

  lemma ObjectIsEntry(o: Resolved, st: State, x: Input, id: IdFunction)
    requires Sound(st, x, id) && o in st.objects
    ensures exists k :: 0 <= k < |x.entries| && x.entries[k].offset == o.offset
  {
    hide Sound;
    var c := RecordedChain(o, st, x, id);
    ChainValueShape(c, x, id);
  }

  /**
   On success the result lists, in pack order, one object per entry: the object that entry stands
   for. By `DenotationUnique` there is only one, so the order in which bases appear does not matter.
   */
  lemma ResolveIsDenotation(x: Input, id: IdFunction)
    requires WfInput(x, id)
    ensures match ResolveEntries(x.entries, x.store, id)
            case Failure(_) => true
            case Success(r) =>
              && |r.objects| == |x.entries|
              && forall k :: 0 <= k < |x.entries| ==> Denotes(x, id, k, r.objects[k])
  {
    hide Sound, Covered, Pending, Denotes, SortByOffset, Fixpoint;
    StartSound(x, id);
    FixpointSound(x.entries, START, x, id);
    match Fixpoint(x.entries, START, x.store, id)
    case Failure(_) =>
    case Success(st) =>
      InPackOrder(st, x, id);
      var s := SortByOffset(st.objects);
      forall k | 0 <= k < |x.entries| ensures Denotes(x, id, k, s[k]) {
        ObjectDenoted(s[k], k, st, x, id);
      }
  }

  lemma ObjectDenoted(o: Resolved, k: nat, st: State, x: Input, id: IdFunction)
    requires WfInput(x, id) && Sound(st, x, id) && o in st.objects
    requires k < |x.entries| && x.entries[k].offset == o.offset
    ensures Denotes(x, id, k, o)
  {
    hide Sound;
    var c := RecordedChain(o, st, x, id);
    ChainValueShape(c, x, id);
    SameOffsetSameEntry(x, k, c.k);
  }
}
