/** Exactly when delta resolution succeeds, and what undeltifying preserves. */
module ResolveComplete {
  import opened Bytes
  import opened Wrappers
  import opened Pack
  import opened Resolve
  import opened ResolveProofs
  import opened PackInverts
  import Delta
  import DeltaInverts

  // ---------- without a store ----------

  /** Entry `k` stands for some object. */
  ghost predicate HasMeaning(x: Input, id: IdFunction, k: nat) {
    exists c: Chain :: c.k == k && ChainValue(c, x, id).Some?
  }

  ghost predicate Grounded(x: Input, id: IdFunction) {
    forall k: nat :: k < |x.entries| ==> HasMeaning(x, id, k)
  }

  /** What is recorded for a chain's entry is that chain's value. */
  lemma RecordedValue(c: Chain, st: State, x: Input, id: IdFunction)
    requires WfInput(x, id) && Sound(st, x, id) && ChainValue(c, x, id).Some?
    requires x.entries[c.k].offset in st.byOffset
    ensures st.byOffset[x.entries[c.k].offset] == ChainValue(c, x, id).value
    ensures ChainValue(c, x, id).value.oid in st.byOid
  {
    hide Computed, FiledById, Apart;
    var o := st.byOffset[x.entries[c.k].offset];
    var d := RecordedChain(o, st, x, id);
    ChainValueShape(c, x, id);
    ChainValueShape(d, x, id);
    SameOffsetSameEntry(x, c.k, d.k);
    DenotationUnique(c, d, x, id);
    IdRecorded(o, st);
  }

  lemma IdRecorded(o: Resolved, st: State)
    requires FiledById(st.byOid, st.objects) && o in st.objects
    ensures o.oid in st.byOid && st.byOid[o.oid].oid == o.oid
  {
  }

  /** Objects recorded under one id are equal in type and bytes. */
  lemma SameIdSameObject(b: Resolved, st: State, x: Input, id: IdFunction, c: Chain)
    requires WfInput(x, id) && Sound(st, x, id)
    requires ChainValue(c, x, id) == Some(b) && b.oid in st.byOid
    ensures st.byOid[b.oid].kind == b.kind && st.byOid[b.oid].raw == b.raw
  {
    hide Computed, FiledByOffset, Apart, ChainValue;
    var p := st.byOid[b.oid];
    assert p.oid == b.oid && p in st.objects;
    var d := RecordedChain(p, st, x, id);
    ChainValueShape(c, x, id);
    ChainValueShape(d, x, id);
  }

  /** An entry that stands for something is never the cause of an error: it waits, or yields its object. */
  lemma AttemptIsValue(c: Chain, st: State, x: Input, id: IdFunction)
    requires WfInput(x, id) && Sound(st, x, id) && ChainValue(c, x, id).Some?
    requires c.OnEntry? ==> ChainValue(c.base, x, id).Some? && c.base.k < |x.entries|
    requires x.store.None? || (c.OnEntry? ==> x.entries[c.base.k].offset in st.byOffset)
    ensures var t := TryEntry(x.entries[c.k], st, x.store, id);
            t.Waits? || (t.Got? && t.obj == ChainValue(c, x, id).value)
    ensures c.OnEntry? && x.entries[c.base.k].offset in st.byOffset ==> TryEntry(x.entries[c.k], st, x.store, id).Got?
    ensures !c.OnEntry? ==> TryEntry(x.entries[c.k], st, x.store, id).Got?
  {
    hide Sound, Delta.Apply;
    var e := x.entries[c.k];
    match c
    case Own(_) =>
    case OnEntry(_, base) =>
      ChainValueShape(base, x, id);
      OnEntryAttempt(c, st, x, id);
    case OnStored(_) =>
      OnStoredAttempt(c, st, x, id);
  }

  lemma OnEntryAttempt(c: Chain, st: State, x: Input, id: IdFunction)
    requires WfInput(x, id) && Sound(st, x, id) && ChainValue(c, x, id).Some? && c.OnEntry?
    requires c.base.k < |x.entries|
    requires x.store.None? || x.entries[c.base.k].offset in st.byOffset
    ensures var t := TryEntry(x.entries[c.k], st, x.store, id);
            t.Waits? || (t.Got? && t.obj == ChainValue(c, x, id).value)
    ensures x.entries[c.base.k].offset in st.byOffset ==> TryEntry(x.entries[c.k], st, x.store, id).Got?
  {
    hide Computed, FiledById, Apart, Delta.Apply;
    var e, b := x.entries[c.k], ChainValue(c.base, x, id).value;
    ChainValueShape(c.base, x, id);
    if x.entries[c.base.k].offset in st.byOffset {
      RecordedValue(c.base, st, x, id);
    }
    if e.kind == OFS_DELTA {
    } else if b.oid in st.byOid {
      SameIdSameObject(b, st, x, id, c.base);
    }
  }

  lemma OnStoredAttempt(c: Chain, st: State, x: Input, id: IdFunction)
    requires WfInput(x, id) && Sound(st, x, id) && ChainValue(c, x, id).Some? && c.OnStored?
    ensures var t := TryEntry(x.entries[c.k], st, x.store, id); t.Got? && t.obj == ChainValue(c, x, id).value
  {
    hide Computed, FiledByOffset, Apart, Delta.Apply;
    var e := x.entries[c.k];
    var b := x.store.value[e.base.oid];
    if e.base.oid in st.byOid {
      var p := st.byOid[e.base.oid];
      var d := RecordedChain(p, st, x, id);
      ChainValueShape(d, x, id);
      assert id(b.kind, b.raw) == id(p.kind, p.raw);
    }
  }

  /** Without a store a round over grounded entries raises no error. */
  lemma {:induction false} RoundSucceeds(pending: seq<Entry>, st: State, x: Input, id: IdFunction)
    requires WfInput(x, id) && x.store.None? && Grounded(x, id)
    requires Sound(st, x, id) && WfEntries(pending) && Pending(pending, st, x)
    ensures RunRound(pending, st, x.store, id).Round?
    decreases |pending|
  {
    hide Sound, TryEntry, ChainValue, Pending, CollisionFree, Faithful, InOrder, Record;
    if pending != [] {
      var e, rest := pending[0], pending[1..];
      PendingTail(pending, st, x);
      var k: nat :| k < |x.entries| && x.entries[k] == e;
      assert HasMeaning(x, id, k);
      var c: Chain :| c.k == k && ChainValue(c, x, id).Some?;
      BaseHasValue(c, x, id);
      AttemptIsValue(c, st, x, id);
      match TryEntry(e, st, x.store, id)
      case Got(o, external) =>
        AttemptDenotes(e, k, st, x, id);
        RecordSound(st, o, external, k, x, id);
        PendingGot(pending, st, o, external, x);
        RoundSucceeds(rest, Record(st, o, external), x, id);
      case Waits =>
        RoundSucceeds(rest, st, x, id);
    }
  }

  lemma BaseHasValue(c: Chain, x: Input, id: IdFunction)
    requires ChainValue(c, x, id).Some?
    ensures c.k < |x.entries|
    ensures c.OnEntry? ==> ChainValue(c.base, x, id).Some? && c.base.k < |x.entries|
  {
    if c.OnEntry? {
      ChainValueShape(c.base, x, id);
    }
  }

  /** A round that resolves nothing leaves every entry waiting. */
  lemma {:induction false} AllWait(pending: seq<Entry>, st: State, store: Store, id: IdFunction)
    requires WfEntries(pending) && RunRound(pending, st, store, id).Round?
    requires |RunRound(pending, st, store, id).still| == |pending|
    ensures forall i :: 0 <= i < |pending| ==> TryEntry(pending[i], st, store, id).Waits?
    decreases |pending|
  {
    hide TryEntry;
    if pending != [] {
      AllWait(pending[1..], st, store, id);
      forall i | 0 <= i < |pending| ensures TryEntry(pending[i], st, store, id).Waits? {
        if i > 0 {
          assert pending[i] == pending[1..][i - 1];
        }
      }
    }
  }

  /** When every pending entry waits, all entries that stand for something are recorded already. */
  lemma {:induction false} NothingLeft(c: Chain, pending: seq<Entry>, st: State, x: Input, id: IdFunction)
    requires WfInput(x, id) && x.store.None? && Sound(st, x, id) && Covered(pending, st, x)
    requires forall e :: e in pending ==> WfEntry(e) && TryEntry(e, st, x.store, id).Waits?
    requires ChainValue(c, x, id).Some?
    ensures x.entries[c.k].offset in st.byOffset
    decreases c
  {
    hide Sound, TryEntry, ChainValue, CollisionFree, Faithful, InOrder;
    BaseHasValue(c, x, id);
    if c.OnEntry? {
      NothingLeft(c.base, pending, st, x, id);
    }
    AttemptIsValue(c, st, x, id);
  }

  lemma {:induction false} FixpointSucceeds(pending: seq<Entry>, st: State, x: Input, id: IdFunction)
    requires WfInput(x, id) && x.store.None? && Grounded(x, id)
    requires Sound(st, x, id) && WfEntries(pending) && Pending(pending, st, x) && Covered(pending, st, x)
    ensures Fixpoint(pending, st, x.store, id).Success?
    decreases |pending|
  {
    hide Sound, TryEntry, ChainValue, WfInput, RunRound, Advanced;
    RoundSucceeds(pending, st, x, id);
    RoundSound(pending, st, x, id);
    var r := RunRound(pending, st, x.store, id);
    CoveredAdvances(pending, st, r.still, r.state, x);
    if r.still == [] {
    } else if |r.still| < |pending| {
      FixpointSucceeds(r.still, r.state, x, id);
    } else {
      AllWait(pending, st, x.store, id);
      FirstRecorded(pending, st, x, id);
    }
  }

  lemma FirstRecorded(pending: seq<Entry>, st: State, x: Input, id: IdFunction)
    requires WfInput(x, id) && x.store.None? && Grounded(x, id)
    requires Sound(st, x, id) && WfEntries(pending) && Pending(pending, st, x) && Covered(pending, st, x)
    requires forall i :: 0 <= i < |pending| ==> TryEntry(pending[i], st, x.store, id).Waits?
    ensures pending == []
  {
    hide Sound, TryEntry, ChainValue, CollisionFree, Faithful;
    if pending != [] {
      assert pending[0] in x.entries;
      var k: nat :| k < |x.entries| && x.entries[k] == pending[0];
      assert HasMeaning(x, id, k);
      var c: Chain :| c.k == k && ChainValue(c, x, id).Some?;
      NothingLeft(c, pending, st, x, id);
      assert false;
    }
  }

  /**
   Without a store, resolution succeeds exactly when every delta chain is grounded: each entry is an
   object of its own or a delta that applies to the object another grounded entry stands for.
   */
  lemma ResolvesIffGrounded(x: Input, id: IdFunction)
    requires WfInput(x, id) && x.store.None?
    ensures ResolveEntries(x.entries, x.store, id).Success? <==> Grounded(x, id)
  {
    hide ChainValue, Sound, Pending, Covered, Fixpoint, SortByOffset;
    StartSound(x, id);
    if Grounded(x, id) {
      FixpointSucceeds(x.entries, START, x, id);
    }
    if ResolveEntries(x.entries, x.store, id).Success? {
      ResolveIsDenotation(x, id);
      var r := ResolveEntries(x.entries, x.store, id).value;
      forall k: nat | k < |x.entries| ensures HasMeaning(x, id, k) {
        assert Denotes(x, id, k, r.objects[k]);
      }
    }
  }

  // ---------- with a store ----------

  /** OFS_DELTA bases do not lie behind their delta; distances below 2^31 give nothing else. */
  ghost predicate Backward(x: Input) {
    forall k: nat :: k < |x.entries| && x.entries[k].kind == OFS_DELTA && x.entries[k].base.ByOffset? ==>
      x.entries[k].base.offset <= x.entries[k].offset
  }

  /** A chain all of whose bases come earlier in the pack. */
  predicate Ordered(c: Chain) {
    c.OnEntry? ==> c.base.k < c.k && Ordered(c.base)
  }

  ghost predicate HasOrderedMeaning(x: Input, id: IdFunction, k: nat) {
    exists c: Chain :: c.k == k && Ordered(c) && ChainValue(c, x, id).Some?
  }

  ghost predicate OrderedObject(o: Resolved, n: nat, x: Input, id: IdFunction) {
    exists c: Chain :: c.k < n && Ordered(c) && ChainValue(c, x, id) == Some(o)
  }

  /** Exactly the first `n` entries are recorded, each by an ordered chain. */
  ghost predicate FirstDone(n: nat, st: State, x: Input, id: IdFunction) {
    && n <= |x.entries|
    && (forall j :: 0 <= j < n ==> x.entries[j].offset in st.byOffset)
    && (forall i :: 0 <= i < |st.objects| ==> OrderedObject(st.objects[i], n, x, id))
  }

  /** An offset delta whose base offset is not the offset of any other entry. */
  ghost predicate Dead(x: Input, m: nat) {
    && m < |x.entries| && x.entries[m].kind == OFS_DELTA && x.entries[m].base.ByOffset?
    && forall j :: 0 <= j < |x.entries| && j != m ==> x.entries[j].offset != x.entries[m].base.offset
  }

  lemma {:induction false} DeadHasNoMeaning(c: Chain, x: Input, id: IdFunction)
    requires Dead(x, c.k)
    ensures ChainValue(c, x, id).None?
    decreases c
  {
    if ChainValue(c, x, id).Some? {
      BaseHasValue(c, x, id);
      ChainValueShape(c.base, x, id);
      assert c.base.k == c.k;
      DeadHasNoMeaning(c.base, x, id);
    }
  }

  lemma WaitingIsDead(k: nat, st: State, x: Input, id: IdFunction)
    requires WfInput(x, id) && x.store.Some? && Backward(x) && k < |x.entries|
    requires FirstDone(k, st, x, id) && TryEntry(x.entries[k], st, x.store, id).Waits?
    ensures Dead(x, k)
  {
    hide Delta.Apply, OrderedObject;
  }

  lemma OrderedChain(b: Resolved, n: nat, st: State, x: Input, id: IdFunction) returns (c: Chain)
    requires FirstDone(n, st, x, id) && b in st.objects
    ensures c.k < n && Ordered(c) && ChainValue(c, x, id) == Some(b)
  {
    hide ChainValue, Ordered;
    var i :| 0 <= i < |st.objects| && st.objects[i] == b;
    assert OrderedObject(b, n, x, id);
    c :| c.k < n && Ordered(c) && ChainValue(c, x, id) == Some(b);
  }

  lemma GotIsOrdered(k: nat, st: State, x: Input, id: IdFunction)
    requires WfInput(x, id) && k < |x.entries| && Sound(st, x, id)
    requires FirstDone(k, st, x, id) && TryEntry(x.entries[k], st, x.store, id).Got?
    ensures OrderedObject(TryEntry(x.entries[k], st, x.store, id).obj, k + 1, x, id)
    ensures HasOrderedMeaning(x, id, k)
  {
    hide Computed, FirstDone, OnBase, ApplyTo, Apart;
    var e, o := x.entries[k], TryEntry(x.entries[k], st, x.store, id).obj;
    var c := Own(k);
    if IsDelta(e) {
      if e.kind == OFS_DELTA || e.base.oid in st.byOid {
        var b := if e.kind == OFS_DELTA then st.byOffset[e.base.offset] else st.byOid[e.base.oid];
        OnBaseIsApplyTo(e, b.kind, b.raw, false, id);
        var d := OrderedChain(b, k, st, x, id);
        c := OnEntry(k, d);
      } else {
        var b := x.store.value[e.base.oid];
        OnBaseIsApplyTo(e, b.kind, b.raw, true, id);
        c := OnStored(k);
      }
    }
    assert c.k == k && Ordered(c) && ChainValue(c, x, id) == Some(o);
  }

  lemma FirstDoneGrows(k: nat, st: State, o: Resolved, external: bool, x: Input, id: IdFunction)
    requires FirstDone(k, st, x, id) && k < |x.entries| && o.offset == x.entries[k].offset
    requires OrderedObject(o, k + 1, x, id)
    ensures FirstDone(k + 1, Record(st, o, external), x, id)
  {
    var st' := Record(st, o, external);
    forall i | 0 <= i < |st'.objects| ensures OrderedObject(st'.objects[i], k + 1, x, id) {
      if i < |st.objects| {
        hide ChainValue, Ordered;
        assert OrderedObject(st.objects[i], k, x, id);
      }
    }
  }

  /** The first pass with a store either resolves everything left, in order, or meets a dead entry. */
  lemma {:induction false} FirstPass(k: nat, st: State, x: Input, id: IdFunction) returns (m: Option<nat>)
    requires WfInput(x, id) && x.store.Some? && Backward(x) && Sound(st, x, id)
    requires k <= |x.entries| && FirstDone(k, st, x, id) && Pending(x.entries[k..], st, x)
    requires RunRound(x.entries[k..], st, x.store, id).Round?
    ensures m.None? ==> forall j :: k <= j < |x.entries| ==> HasOrderedMeaning(x, id, j)
    ensures m.Some? ==> Dead(x, m.value)
    decreases |x.entries| - k
  {
    hide Sound, TryEntry, Pending, CollisionFree, Faithful, InOrder, Backward, FirstDone, HasOrderedMeaning,
      OrderedObject, Record, Dead;
    if k == |x.entries| {
      return None;
    }
    var pending := x.entries[k..];
    assert pending[1..] == x.entries[k + 1..] && pending[0] == x.entries[k];
    PendingTail(pending, st, x);
    match TryEntry(pending[0], st, x.store, id)
    case Got(o, external) =>
      AttemptDenotes(pending[0], k, st, x, id);
      GotIsOrdered(k, st, x, id);
      RecordSound(st, o, external, k, x, id);
      PendingGot(pending, st, o, external, x);
      FirstDoneGrows(k, st, o, external, x, id);
      m := FirstPass(k + 1, Record(st, o, external), x, id);
    case Waits =>
      WaitingIsDead(k, st, x, id);
      m := Some(k);
  }

  /** With every entry meaningful in order, the first pass resolves them all. */
  lemma {:induction false} FirstPassSucceeds(k: nat, st: State, x: Input, id: IdFunction)
    requires k <= |x.entries| && WfInput(x, id) && Sound(st, x, id)
    requires FirstDone(k, st, x, id) && Pending(x.entries[k..], st, x)
    requires forall j :: 0 <= j < |x.entries| ==> HasOrderedMeaning(x, id, j)
    ensures RunRound(x.entries[k..], st, x.store, id).Round?
    ensures RunRound(x.entries[k..], st, x.store, id).still == []
    decreases |x.entries| - k
  {
    hide Sound, TryEntry, Pending, CollisionFree, Faithful, InOrder, OrderedObject, Record, ChainValue;
    if k < |x.entries| {
      var pending := x.entries[k..];
      assert pending[1..] == x.entries[k + 1..] && pending[0] == x.entries[k];
      PendingTail(pending, st, x);
      assert HasOrderedMeaning(x, id, k);
      var c: Chain :| c.k == k && Ordered(c) && ChainValue(c, x, id).Some?;
      BaseHasValue(c, x, id);
      AttemptIsValue(c, st, x, id);
      var t := TryEntry(pending[0], st, x.store, id);
      AttemptDenotes(pending[0], k, st, x, id);
      GotIsOrdered(k, st, x, id);
      RecordSound(st, t.obj, t.external, k, x, id);
      PendingGot(pending, st, t.obj, t.external, x);
      FirstDoneGrows(k, st, t.obj, t.external, x, id);
      FirstPassSucceeds(k + 1, Record(st, t.obj, t.external), x, id);
    }
  }

  /**
   With a store, a reference base that is neither resolved yet nor stored is an error, so resolution
   succeeds exactly when every entry has a chain whose in-pack bases all come earlier in the pack.
   */
  lemma StoreResolvesIffOrdered(x: Input, id: IdFunction)
    requires WfInput(x, id) && x.store.Some? && Backward(x)
    ensures ResolveEntries(x.entries, x.store, id).Success?
       <==> forall k :: 0 <= k < |x.entries| ==> HasOrderedMeaning(x, id, k)
  {
    hide ChainValue, Sound, Pending, Covered, SortByOffset, CollisionFree, Faithful, InOrder, HasOrderedMeaning, Dead;
    StartSound(x, id);
    StartFirstDone(x, id);
    assert x.entries[0..] == x.entries;
    if forall k :: 0 <= k < |x.entries| ==> HasOrderedMeaning(x, id, k) {
      FirstPassSucceeds(0, START, x, id);
    }
    if ResolveEntries(x.entries, x.store, id).Success? {
      var m := FirstPass(0, START, x, id);
      if m.Some? {
        DeadIsNotResolved(m.value, x, id);
      }
    }
  }

  lemma StartFirstDone(x: Input, id: IdFunction)
    ensures FirstDone(0, START, x, id)
  {
  }

  lemma DeadIsNotResolved(m: nat, x: Input, id: IdFunction)
    requires WfInput(x, id) && Dead(x, m)
    ensures ResolveEntries(x.entries, x.store, id).Failure?
  {
    hide ChainValue, Fixpoint, SortByOffset;
    ResolveIsDenotation(x, id);
    var r := ResolveEntries(x.entries, x.store, id);
    if r.Success? {
      assert Denotes(x, id, m, r.value.objects[m]);
      var c: Chain :| c.k == m && ChainValue(c, x, id) == Some(r.value.objects[m]);
      DeadHasNoMeaning(c, x, id);
    }
  }

  /**
   The order matters only with a store: a reference delta in front of its base resolves without a
   store and fails with an empty one.
   */
  lemma ForwardBase(id: IdFunction)
    requires CollisionFree(id)
    ensures var blob: seq<Byte> := [7];
      var delta: seq<Byte> := [1, 1, 1, 9];
      var entries := [Entry(12, REF_DELTA, 4, ById(id("blob", blob)), delta), Entry(60, BLOB, 1, NoBase, blob)];
      && ResolveEntries(entries, None, id).Success?
      && ResolveEntries(entries, Some(map[]), id) == Failure(NotInStore)
  {
    var blob: seq<Byte> := [7];
    var delta: seq<Byte> := [1, 1, 1, 9];
    var entries := [Entry(12, REF_DELTA, 4, ById(id("blob", blob)), delta), Entry(60, BLOB, 1, NoBase, blob)];
    var x := Input(entries, None);
    InsertNine(blob, delta);
    assert ChainValue(Own(1), x, id) == Some(Resolved(60, "blob", blob, id("blob", blob)));
    assert ChainValue(OnEntry(0, Own(1)), x, id).Some?;
    assert HasMeaning(x, id, 0) && HasMeaning(x, id, 1);
    ResolvesIffGrounded(x, id);
    assert TryEntry(entries[0], START, Some(map[]), id) == Throws(NotInStore);
  }

  lemma InsertNine(base: seq<Byte>, d: seq<Byte>)
    requires base == [7] && d == [1, 1, 1, 9]
    ensures Delta.Apply(base, d) == Success([9])
  {
    var ops := [Delta.Insert([9])];
    assert ops[1..] == [];
    assert Delta.Meaning(base, ops) == [9] + Delta.Meaning(base, []);
    assert Delta.OpsBytes(base, ops) == [1, 9] + Delta.OpsBytes(base, []);
    assert Delta.VarintBytes(1) == [1];
    assert Delta.Meaning(base, ops) == [9];
    assert Delta.Encode(base, ops) == [1] + ([1] + [1, 9]) == d;
    DeltaInverts.ApplyInvertsEncode(base, ops);
  }

  // ---------- undeltifying ----------

  /** A round that uses nothing from the store does the same without it. */
  lemma {:induction false} StoreUnused(pending: seq<Entry>, st: State, store: Store, id: IdFunction)
    requires WfEntries(pending)
    requires RunRound(pending, st, store, id).Round? && !RunRound(pending, st, store, id).state.thin
    ensures RunRound(pending, st, None, id) == RunRound(pending, st, store, id)
    ensures !st.thin
    decreases |pending|
  {
    if pending != [] {
      var e, rest := pending[0], pending[1..];
      SameAttempt(e, st, store, id);
      hide TryEntry;
      match TryEntry(e, st, store, id)
      case Got(o, external) =>
        StoreUnused(rest, Record(st, o, external), store, id);
      case Waits =>
        StoreUnused(rest, st, store, id);
    }
  }

  lemma SameAttempt(e: Entry, st: State, store: Store, id: IdFunction)
    requires WfEntry(e)
    ensures match TryEntry(e, st, store, id)
            case Got(o, external) => external || TryEntry(e, st, None, id) == Got(o, false)
            case Waits => TryEntry(e, st, None, id).Waits?
            case Throws(_) => true
  {
    hide Delta.Apply;
  }

  lemma {:induction false} FixpointStoreUnused(pending: seq<Entry>, st: State, store: Store, id: IdFunction)
    requires WfEntries(pending)
    requires Fixpoint(pending, st, store, id).Success? && !Fixpoint(pending, st, store, id).value.thin
    ensures Fixpoint(pending, st, None, id) == Fixpoint(pending, st, store, id)
    ensures !st.thin
    decreases |pending|
  {
    hide RunRound;
    var r := RunRound(pending, st, store, id);
    if r.still != [] {
      FixpointStoreUnused(r.still, r.state, store, id);
    }
    StoreUnused(pending, st, store, id);
  }

  /** Without a store nothing external is ever used. */
  lemma {:induction false} NoStoreRound(pending: seq<Entry>, st: State, id: IdFunction)
    requires WfEntries(pending)
    ensures RunRound(pending, st, None, id).Round? ==> RunRound(pending, st, None, id).state.thin == st.thin
    decreases |pending|
  {
    if pending != [] {
      var e, rest := pending[0], pending[1..];
      SameAttempt(e, st, None, id);
      hide TryEntry;
      match TryEntry(e, st, None, id)
      case Got(o, external) =>
        NoStoreRound(rest, Record(st, o, external), id);
      case Waits =>
        NoStoreRound(rest, st, id);
      case Throws(_) =>
    }
  }

  lemma {:induction false} NoStoreFixpoint(pending: seq<Entry>, st: State, id: IdFunction)
    requires WfEntries(pending)
    ensures Fixpoint(pending, st, None, id).Success? ==> Fixpoint(pending, st, None, id).value.thin == st.thin
    decreases |pending|
  {
    hide RunRound;
    NoStoreRound(pending, st, id);
    var r := RunRound(pending, st, None, id);
    if r.Round? && |r.still| < |pending| {
      NoStoreFixpoint(r.still, r.state, id);
    }
  }

  ghost predicate KnownTypes(store: Store) {
    store.Some? ==> forall h :: h in store.value ==> TypeCode(store.value[h].kind) != 0
  }

  lemma {:induction false} KindIsKnown(c: Chain, x: Input, id: IdFunction)
    requires KnownTypes(x.store) && ChainValue(c, x, id).Some?
    ensures TypeCode(ChainValue(c, x, id).value.kind) != 0
    decreases c
  {
    hide Delta.Apply;
    if c.OnEntry? {
      BaseHasValue(c, x, id);
      KindIsKnown(c.base, x, id);
    }
  }

  /** Undeltified entries resolve, without a store, to their own bytes. */
  lemma {:induction false} OwnEntriesResolve(entries: seq<Entry>, id: IdFunction)
    requires WfEntries(entries) && InOrder(entries) && CollisionFree(id)
    requires forall k :: 0 <= k < |entries| ==> !IsDelta(entries[k]) && TypeName(entries[k].kind).Some?
    ensures ResolveEntries(entries, None, id).Success?
    ensures var r := ResolveEntries(entries, None, id).value;
      && !r.thin && |r.objects| == |entries|
      && forall k :: 0 <= k < |entries| ==>
        r.objects[k] == Made(entries[k], TypeName(entries[k].kind).value, entries[k].data, id)
  {
    hide Fixpoint, SortByOffset;
    var x := Input(entries, None);
    forall k: nat | k < |entries| ensures HasMeaning(x, id, k) {
      assert ChainValue(Own(k), x, id).Some?;
    }
    ResolvesIffGrounded(x, id);
    ResolveIsDenotation(x, id);
    NoStoreFixpoint(entries, START, id);
    var r := ResolveEntries(entries, None, id).value;
    forall k: nat | k < |entries|
      ensures r.objects[k] == Made(entries[k], TypeName(entries[k].kind).value, entries[k].data, id)
    {
      assert Denotes(x, id, k, r.objects[k]);
      var c: Chain :| c.k == k && ChainValue(c, x, id) == Some(r.objects[k]);
    }
  }

  ghost predicate SameObjects(a: seq<Resolved>, b: seq<Resolved>) {
    && |a| == |b|
    && forall k :: 0 <= k < |a| ==> a[k].kind == b[k].kind && a[k].raw == b[k].raw && a[k].oid == b[k].oid
  }

  lemma {:induction false} BuiltResolves(objects: seq<Resolved>, id: IdFunction, deflate: seq<Byte> -> seq<Byte>, entries: seq<Entry>)
    requires CollisionFree(id) && WfEntries(entries) && InOrder(entries)
    requires entries == BuiltEntries(ToPack(objects), deflate, 12)
    requires forall k :: 0 <= k < |objects| ==>
      TypeCode(objects[k].kind) != 0 && objects[k].oid == id(objects[k].kind, objects[k].raw)
    ensures ResolveEntries(entries, None, id).Success? && !ResolveEntries(entries, None, id).value.thin
    ensures SameObjects(ResolveEntries(entries, None, id).value.objects, objects)
  {
    hide ResolveEntries, BuiltEntries;
    forall k | 0 <= k < |entries|
      ensures !IsDelta(entries[k]) && TypeName(entries[k].kind) == Some(objects[k].kind) && entries[k].data == objects[k].raw
    {
      assert ToPack(objects)[k] == Object(objects[k].kind, objects[k].raw);
    }
    OwnEntriesResolve(entries, id);
  }

  /** What the caller of `fattenPack` relies on. */
  ghost predicate WfFatten(pack: seq<Byte>, store: Store, id: IdFunction,
                           deflate: seq<Byte> -> seq<Byte>, sha1: seq<Byte> -> seq<Byte>)
  {
    && !Parse(pack).Hangs?
    && CollisionFree(id) && Faithful(store, id) && KnownTypes(store)
    && (forall b :: |sha1(b)| == 20)
    && (ResolvePack(pack, store, id).Success? ==>
        var objects := ResolvePack(pack, store, id).value.objects;
        |objects| < TWO31
        && forall k :: 0 <= k < |objects| ==>
          |objects[k].raw| < TWO31 && |deflate(objects[k].raw)| < 0x1000_0000 && Deflates(deflate, objects[k].raw))
  }

  lemma ResolvedObjects(pack: seq<Byte>, store: Store, id: IdFunction)
    requires !Parse(pack).Hangs? && CollisionFree(id) && Faithful(store, id) && KnownTypes(store)
    requires ResolvePack(pack, store, id).Success?
    ensures forall k :: 0 <= k < |ResolvePack(pack, store, id).value.objects| ==>
      var o := ResolvePack(pack, store, id).value.objects[k];
      TypeCode(o.kind) != 0 && o.oid == id(o.kind, o.raw)
  {
    hide ResolveEntries, ChainValue, ParseEntries;
    var entries := Parse(pack).entries;
    ParsedAreWf(pack, 12, |entries|);
    var x := Input(entries, store);
    ResolveIsDenotation(x, id);
    var objects := ResolvePack(pack, store, id).value.objects;
    forall k: nat | k < |objects| ensures TypeCode(objects[k].kind) != 0 && objects[k].oid == id(objects[k].kind, objects[k].raw) {
      assert Denotes(x, id, k, objects[k]);
      var c: Chain :| c.k == k && ChainValue(c, x, id) == Some(objects[k]);
      ChainValueShape(c, x, id);
      KindIsKnown(c, x, id);
    }
  }

  /** The pack resolves without a store, using no external base, to these types, bytes and ids. */
  ghost predicate SelfContained(pack: seq<Byte>, id: IdFunction, objects: seq<Resolved>) {
    && !Parse(pack).Hangs?
    && ResolvePack(pack, None, id).Success?
    && !ResolvePack(pack, None, id).value.thin
    && SameObjects(ResolvePack(pack, None, id).value.objects, objects)
  }

  /**
   Undeltifying preserves meaning: resolving the fattened pack without any store gives the same
   list of types, bytes and ids as resolving the original with the store, using no external base.
   */
  lemma FattenPreserves(pack: seq<Byte>, store: Store, id: IdFunction,
                        deflate: seq<Byte> -> seq<Byte>, sha1: seq<Byte> -> seq<Byte>)
    requires WfFatten(pack, store, id, deflate, sha1)
    ensures var before := ResolvePack(pack, store, id);
            var after := Fatten(pack, store, id, deflate, sha1);
            if before.Failure? then after == Failure(before.error)
            else after.Success? && after.value.Some? && SelfContained(after.value.value, id, before.value.objects)
  {
    hide Parse, Build, ResolveEntries, Deflates, BuiltEntries;
    var before := ResolvePack(pack, store, id);
    if before.Success? {
      if before.value.thin {
        ThinFattens(pack, store, id, deflate, sha1);
      } else {
        NotThinKept(pack, store, id);
      }
    }
  }

  lemma NotThinKept(pack: seq<Byte>, store: Store, id: IdFunction)
    requires !Parse(pack).Hangs?
    requires ResolvePack(pack, store, id).Success? && !ResolvePack(pack, store, id).value.thin
    ensures ResolvePack(pack, None, id) == ResolvePack(pack, store, id)
  {
    hide Fixpoint, SortByOffset, ParseEntries;
    var entries := Parse(pack).entries;
    ParsedAreWf(pack, 12, |entries|);
    FixpointStoreUnused(entries, START, store, id);
  }

  lemma ThinFattens(pack: seq<Byte>, store: Store, id: IdFunction,
                    deflate: seq<Byte> -> seq<Byte>, sha1: seq<Byte> -> seq<Byte>)
    requires WfFatten(pack, store, id, deflate, sha1)
    requires ResolvePack(pack, store, id).Success?
    ensures var objects := ResolvePack(pack, store, id).value.objects;
            var fat := Build(ToPack(objects), deflate, sha1);
            fat.Some? && SelfContained(fat.value, id, objects)
  {
    hide ResolveEntries, Deflates, BuiltEntries, ParseEntries, PackBody, TypeCode;
    var objects := ResolvePack(pack, store, id).value.objects;
    ResolvedObjects(pack, store, id);
    forall k | 0 <= k < |objects| ensures ToPack(objects)[k] == Object(objects[k].kind, objects[k].raw) {
    }
    assert PackableSmall(ToPack(objects), deflate);
    ParseInvertsBuild(ToPack(objects), deflate, sha1);
    var fat := Build(ToPack(objects), deflate, sha1).value;
    var entries := BuiltEntries(ToPack(objects), deflate, 12);
    assert Parse(fat).entries == entries;
    ParsedAreWf(fat, 12, |entries|);
    BuiltResolves(objects, id, deflate, entries);
  }
}
