/** Federated sync: the blob stream, what a node asks for, what a peer serves, and how rounds converge. */
module Federation {
  import opened Bytes
  import opened Wrappers
  import opened BlobStore

  // ---------- the blob stream ----------

  datatype Record = Record(channel: Channel, id: Id, blob: Data)

  const HEADER := 36

  /** Padded with zeros or cut to 16 bytes. */
  function Fixed16(h: seq<Byte>): (r: seq<Byte>)
    ensures |r| == 16 && (|h| == 16 ==> r == h)
  {
    if |h| >= 16 then h[..16] else h + seq(16 - |h|, i => 0)
  }

  /** Four bytes, big-endian; longer lengths wrap. */
  function LengthBytes(n: nat): (r: seq<Byte>)
    ensures |r| == 4
  {
    [(n / 0x100_0000) % 256, (n / 0x1_0000) % 256, (n / 0x100) % 256, n % 256]
  }

  function LengthOf(d: seq<Byte>): nat
    requires |d| >= HEADER
  {
    var a: nat, b: nat, c: nat, e: nat := d[32], d[33], d[34], d[35];
    a * 0x100_0000 + b * 0x1_0000 + c * 0x100 + e
  }

  function RecordBytes(r: Record): (d: seq<Byte>)
    ensures |d| == HEADER + |r.blob|
  {
    Fixed16(r.channel) + Fixed16(r.id) + LengthBytes(|r.blob|) + r.blob
  }

  /** `encodeBlobStream` */
  function Encode(rs: seq<Record>): seq<Byte> {
    if rs == [] then [] else RecordBytes(rs[0]) + Encode(rs[1..])
  }

  /** `decodeBlobStream` */
  function Decode(d: seq<Byte>): seq<Record>
    decreases |d|
  {
    if |d| < HEADER || HEADER + LengthOf(d) > |d| then []
    else [Record(d[..16], d[16..32], d[HEADER..HEADER + LengthOf(d)])] + Decode(d[HEADER + LengthOf(d)..])
  }

  ghost predicate WfRecord(r: Record) {
    |r.channel| == 16 && |r.id| == 16 && |r.blob| < TWO32
  }

  ghost predicate WfRecords(rs: seq<Record>) {
    forall i :: 0 <= i < |rs| ==> WfRecord(rs[i])
  }

  /** How many whole records fit in `k` bytes. */
  function Fit(rs: seq<Record>, k: nat): (n: nat)
    ensures n <= |rs|
  {
    if rs == [] || |RecordBytes(rs[0])| > k then 0 else 1 + Fit(rs[1..], k - |RecordBytes(rs[0])|)
  }

  lemma {:induction false} FitIsLongest(rs: seq<Record>, k: nat)
    ensures |Encode(rs[..Fit(rs, k)])| <= k
    ensures Fit(rs, k) < |rs| ==> |Encode(rs[..Fit(rs, k) + 1])| > k
    decreases |rs|
  {
    if rs != [] && |RecordBytes(rs[0])| <= k {
      var rest := rs[1..];
      FitIsLongest(rest, k - |RecordBytes(rs[0])|);
      var n := Fit(rs, k);
      assert rs[..n][1..] == rest[..n - 1];
      if n < |rs| {
        assert rs[..n + 1][1..] == rest[..n];
      }
    } else if rs != [] {
      assert rs[..1][1..] == [];
    }
  }

  lemma LengthRead(n: nat, d: seq<Byte>)
    requires n < TWO32 && |d| >= HEADER && d[32..36] == LengthBytes(n)
    ensures LengthOf(d) == n
  {
    var b := LengthBytes(n);
    assert d[32] == d[32..36][0] && d[33] == d[32..36][1] && d[34] == d[32..36][2] && d[35] == d[32..36][3];
    assert n / 0x1_0000 == (n / 0x100) / 256 && n / 0x100_0000 == (n / 0x1_0000) / 256;
    assert n == 256 * (n / 0x100) + n % 256;
    assert n / 0x100 == 256 * (n / 0x1_0000) + (n / 0x100) % 256;
    assert n / 0x1_0000 == 256 * (n / 0x100_0000) + (n / 0x1_0000) % 256;
  }

  /** The header of a record in front of a stream reads back, if the stream is not cut inside it. */
  lemma HeaderRead(r: Record, d: seq<Byte>)
    requires WfRecord(r) && |d| >= HEADER && d[..HEADER] == RecordBytes(r)[..HEADER]
    ensures LengthOf(d) == |r.blob| && d[..16] == r.channel && d[16..32] == r.id
  {
    var head := RecordBytes(r)[..HEADER];
    assert head[..16] == r.channel && head[16..32] == r.id && head[32..36] == LengthBytes(|r.blob|);
    assert d[..16] == d[..HEADER][..16] && d[16..32] == d[..HEADER][16..32] && d[32..36] == d[..HEADER][32..36];
    LengthRead(|r.blob|, d);
  }

  /** One record in front of a truncated stream. */
  lemma RecordInFront(r: Record, tail: seq<Byte>, k: nat)
    requires WfRecord(r) && k <= |RecordBytes(r)| + |tail|
    ensures var one := RecordBytes(r);
      Decode((one + tail)[..k]) == if k < |one| then [] else [r] + Decode(tail[..k - |one|])
  {
    var one, d := RecordBytes(r), (RecordBytes(r) + tail)[..k];
    BlobAtEnd(r);
    if k >= HEADER {
      assert d[..HEADER] == one[..HEADER];
      HeaderRead(r, d);
      hide RecordBytes, LengthOf;
      if k >= |one| {
        assert d[HEADER..|one|] == one[HEADER..];
        assert d[|one|..] == tail[..k - |one|];
      }
    }
  }

  /** Decoding any truncation of a stream yields exactly the whole records in it. */
  lemma {:induction false} DecodeTruncated(rs: seq<Record>, k: nat)
    requires WfRecords(rs) && k <= |Encode(rs)|
    ensures Decode(Encode(rs)[..k]) == rs[..Fit(rs, k)]
    decreases |rs|
  {
    hide RecordBytes, LengthOf, WfRecord;
    if rs != [] {
      assert Encode(rs) == RecordBytes(rs[0]) + Encode(rs[1..]);
      FitStep(rs, k);
      hide Decode, Fit, Encode;
      RecordInFront(rs[0], Encode(rs[1..]), k);
      if k >= |RecordBytes(rs[0])| {
        DecodeTruncated(rs[1..], k - |RecordBytes(rs[0])|);
      }
    }
  }

  lemma FitStep(rs: seq<Record>, k: nat)
    requires rs != []
    ensures var one := |RecordBytes(rs[0])|;
      rs[..Fit(rs, k)] == if k < one then [] else [rs[0]] + rs[1..][..Fit(rs[1..], k - one)]
  {
    hide RecordBytes;
  }

  lemma BlobAtEnd(r: Record)
    ensures RecordBytes(r)[HEADER..] == r.blob
  {
  }

  /** An untruncated stream decodes to the records it was made of. */
  lemma DecodeEncode(rs: seq<Record>)
    requires WfRecords(rs)
    ensures Decode(Encode(rs)) == rs
  {
    var k := |Encode(rs)|;
    DecodeTruncated(rs, k);
    FitIsLongest(rs, k);
    assert Encode(rs)[..k] == Encode(rs);
    FitAll(rs, k);
    assert rs[..|rs|] == rs;
  }

  lemma {:induction false} FitAll(rs: seq<Record>, k: nat)
    requires k >= |Encode(rs)|
    ensures Fit(rs, k) == |rs|
    decreases |rs|
  {
    if rs != [] {
      FitAll(rs[1..], k - |RecordBytes(rs[0])|);
    }
  }

  // ---------- what a node asks for ----------

  type Pair = (Channel, Id)

  /** `gapFromPeer`: each id once, of a subscribed channel and not held. */
  function Gap(pairs: seq<Pair>, held: set<Id>, subscribed: set<Channel>): seq<Id> {
    if pairs == [] then []
    else
      var wanted, p := Gap(pairs[..|pairs| - 1], held, subscribed), pairs[|pairs| - 1];
      if p.0 in subscribed && p.1 !in held && p.1 !in wanted then wanted + [p.1] else wanted
  }

  function Manifest(metas: seq<Meta>): (r: seq<Pair>)
    ensures |r| == |metas| && forall i :: 0 <= i < |r| ==> r[i] == (metas[i].channel, metas[i].id)
  {
    seq(|metas|, i requires 0 <= i < |metas| => (metas[i].channel, metas[i].id))
  }

  lemma {:induction false} GapIsSound(pairs: seq<Pair>, held: set<Id>, subscribed: set<Channel>)
    ensures forall i, j :: 0 <= i < j < |Gap(pairs, held, subscribed)| ==> Gap(pairs, held, subscribed)[i] != Gap(pairs, held, subscribed)[j]
    ensures forall id :: id in Gap(pairs, held, subscribed) <==>
      id !in held && exists i :: 0 <= i < |pairs| && pairs[i].1 == id && pairs[i].0 in subscribed
    decreases |pairs|
  {
    if pairs != [] {
      var init, p := pairs[..|pairs| - 1], pairs[|pairs| - 1];
      GapIsSound(init, held, subscribed);
      var w := Gap(pairs, held, subscribed);
      forall id ensures id in w <==> id !in held && exists i :: 0 <= i < |pairs| && pairs[i].1 == id && pairs[i].0 in subscribed {
        if i: nat :| i < |pairs| && pairs[i].1 == id && pairs[i].0 in subscribed {
          if i < |init| {
            assert init[i].1 == id && init[i].0 in subscribed;
          }
        }
        if j: nat :| j < |init| && init[j].1 == id && init[j].0 in subscribed {
          assert pairs[j].1 == id && pairs[j].0 in subscribed;
        }
      }
    }
  }

  function Without(ids: seq<Id>, held: set<Id>): seq<Id> {
    if ids == [] then []
    else
      var init := Without(ids[..|ids| - 1], held);
      if ids[|ids| - 1] in held then init else init + [ids[|ids| - 1]]
  }

  lemma {:induction false} InWithout(ids: seq<Id>, held: set<Id>, id: Id)
    ensures id in Without(ids, held) <==> id in ids && id !in held
    decreases |ids|
  {
    if ids != [] {
      assert ids == ids[..|ids| - 1] + [ids[|ids| - 1]];
      InWithout(ids[..|ids| - 1], held, id);
    }
  }

  /** Holding more removes exactly what is now held. */
  lemma {:induction false} GapShrinks(pairs: seq<Pair>, held: set<Id>, more: set<Id>, subscribed: set<Channel>)
    requires held <= more
    ensures Gap(pairs, more, subscribed) == Without(Gap(pairs, held, subscribed), more)
    decreases |pairs|
  {
    if pairs != [] {
      var init, p := pairs[..|pairs| - 1], pairs[|pairs| - 1];
      GapShrinks(init, held, more, subscribed);
      var w := Gap(init, held, subscribed);
      InWithout(w, more, p.1);
      assert (w + [p.1])[..|w|] == w;
    }
  }

  lemma {:induction false} WithoutFront(ids: seq<Id>, held: set<Id>, n: nat)
    requires n <= |ids|
    requires forall i :: 0 <= i < |ids| ==> (ids[i] in held <==> i < n)
    ensures Without(ids, held) == ids[n..]
    decreases |ids|
  {
    if ids != [] {
      var init := ids[..|ids| - 1];
      if n < |ids| {
        WithoutFront(init, held, n);
        assert ids[n..] == init[n..] + [ids[|ids| - 1]];
      } else {
        WithoutFront(init, held, n - 1);
      }
    }
  }

  // ---------- what a peer serves ----------

  /** Milliseconds in a sync budget period. */
  const PERIOD := 3600 * 1000

  datatype Budget = Budget(sent: nat, periodStart: int, transferLimit: nat, syncLimit: nat)

  /** The budget at `now`: an elapsed period starts afresh. */
  function Renewed(b: Budget, now: int): Budget {
    if now - b.periodStart >= PERIOD then b.(sent := 0, periodStart := now) else b
  }

  predicate Fits(b: Budget, total: nat, size: nat) {
    total + size <= b.transferLimit && b.sent + size <= b.syncLimit
  }

  function RecordAt(p: Store, i: nat): Record
    requires i < |p.metas|
  {
    Record(p.metas[i].channel, p.metas[i].id, if p.metas[i].id in p.blobs then p.blobs[p.metas[i].id] else [])
  }

  /** The loop of `_handleGet`: unknown ids are skipped, and the first blob over a budget ends it. */
  function Collect(p: Store, b: Budget, ids: seq<Id>, total: nat): (Budget, seq<Record>)
    decreases |ids|
  {
    if ids == [] then (b, [])
    else
      var i := IndexOf(p.metas, ids[0]);
      if i == |p.metas| || ids[0] !in p.blobs then Collect(p, b, ids[1..], total)
      else
        var r := RecordAt(p, i);
        if !Fits(b, total, |r.blob|) then (b, [])
        else
          var (b', rs) := Collect(p, b.(sent := b.sent + |r.blob|), ids[1..], total + |r.blob|);
          (b', [r] + rs)
  }

  function HandleGet(p: Store, b: Budget, ids: seq<Id>, now: int): (Budget, seq<Record>) {
    Collect(p, Renewed(b, now), ids, 0)
  }

  function BytesOf(rs: seq<Record>): nat {
    if rs == [] then 0 else |rs[0].blob| + BytesOf(rs[1..])
  }

  lemma {:induction false} CollectBudget(p: Store, b: Budget, ids: seq<Id>, total: nat)
    requires total <= b.transferLimit && b.sent <= b.syncLimit
    ensures var (b', rs) := Collect(p, b, ids, total);
      && total + BytesOf(rs) <= b.transferLimit
      && b'.sent == b.sent + BytesOf(rs) <= b.syncLimit
      && b' == b.(sent := b'.sent)
    decreases |ids|
  {
    if ids != [] {
      var i := IndexOf(p.metas, ids[0]);
      if i == |p.metas| || ids[0] !in p.blobs {
        CollectBudget(p, b, ids[1..], total);
      } else if Fits(b, total, |RecordAt(p, i).blob|) {
        CollectBudget(p, b.(sent := b.sent + |RecordAt(p, i).blob|), ids[1..], total + |RecordAt(p, i).blob|);
      }
    }
  }

  /** Requests served one after the other: the budget left and the bytes of each response. */
  function ServeAll(p: Store, b: Budget, gets: seq<(seq<Id>, int)>): (Budget, nat) {
    if gets == [] then (b, 0)
    else
      var (b1, sum) := ServeAll(p, b, gets[..|gets| - 1]);
      var (b2, rs) := HandleGet(p, b1, gets[|gets| - 1].0, gets[|gets| - 1].1);
      (b2, (if b2.periodStart == b1.periodStart then sum else 0) + BytesOf(rs))
  }

  /**
   Whatever is asked for and when: no response exceeds the transfer limit, and the bytes served since
   the period began, which the budget counts, never exceed the sync limit.
   */
  lemma {:induction false} ServedWithinLimits(p: Store, b: Budget, gets: seq<(seq<Id>, int)>)
    requires b.sent == 0
    ensures var (b', sum) := ServeAll(p, b, gets);
      && b'.sent == sum <= b.syncLimit && b'.syncLimit == b.syncLimit && b'.transferLimit == b.transferLimit
      && forall ids, now :: BytesOf(HandleGet(p, b', ids, now).1) <= b.transferLimit
    decreases |gets|
  {
    if gets != [] {
      ServedWithinLimits(p, b, gets[..|gets| - 1]);
      var (b1, sum) := ServeAll(p, b, gets[..|gets| - 1]);
      CollectBudget(p, Renewed(b1, gets[|gets| - 1].1), gets[|gets| - 1].0, 0);
    }
    var (b', sum) := ServeAll(p, b, gets);
    hide Collect, ServeAll;
    forall ids, now ensures BytesOf(HandleGet(p, b', ids, now).1) <= b.transferLimit {
      CollectBudget(p, Renewed(b', now), ids, 0);
    }
  }

  // ---------- one round ----------

  /** The records not held are stored under their own ids. */
  function Ingest(s: Store, rs: seq<Record>, now: int): Store {
    if rs == [] then s
    else
      var before, r := Ingest(s, rs[..|rs| - 1], now), rs[|rs| - 1];
      if r.id in before.blobs then before else StoreWithId(before, r.channel, r.id, r.blob, now).0
  }

  /** The number of blobs `Ingest` stores. */
  function Ingested(s: Store, rs: seq<Record>, now: int): nat {
    if rs == [] then 0
    else
      Ingested(s, rs[..|rs| - 1], now)
      + if rs[|rs| - 1].id in Ingest(s, rs[..|rs| - 1], now).blobs then 0 else 1
  }

  function WantedFrom(s: Store, p: Store, subscribed: set<Channel>): seq<Id> {
    Gap(Manifest(p.metas), s.blobs.Keys, subscribed)
  }

  /** Offer, gap, get and ingest: `_syncWithPeerInternal`, its fan-out aside. */
  function SyncRound(s: Store, p: Store, b: Budget, subscribed: set<Channel>, now: int): (Store, Budget) {
    var wanted := WantedFrom(s, p, subscribed);
    if wanted == [] then (s, b)
    else
      var (b', rs) := HandleGet(p, b, wanted, now);
      (Ingest(s, Decode(Encode(rs)), now), b')
  }

  /** Identifiers on the wire are 16 bytes wide. */
  ghost predicate WfPeer(p: Store) {
    && Valid(p)
    && forall i :: 0 <= i < |p.metas| ==> |p.metas[i].id| == 16 && |p.metas[i].channel| == 16 && p.metas[i].size < TWO32
  }

  lemma PeerRecord(p: Store, id: Id)
    requires WfPeer(p) && id in p.blobs
    ensures IndexOf(p.metas, id) < |p.metas|
    ensures WfRecord(RecordAt(p, IndexOf(p.metas, id))) && RecordAt(p, IndexOf(p.metas, id)).blob == p.blobs[id]
  {
    NotListed(p, id);
  }

  /** The record is the peer's: its channel and bytes under its id. */
  ghost predicate HeldBy(p: Store, r: Record) {
    var i := IndexOf(p.metas, r.id);
    i < |p.metas| && r == RecordAt(p, i) && r.id in p.blobs && r.blob == p.blobs[r.id]
  }

  /** The peer's records of the first ids, in order. */
  ghost predicate IsFront(p: Store, rs: seq<Record>, ids: seq<Id>) {
    && |rs| <= |ids| && WfRecords(rs)
    && forall k :: 0 <= k < |rs| ==> rs[k].id == ids[k] && HeldBy(p, rs[k])
  }

  lemma FrontGrows(p: Store, rs: seq<Record>, ids: seq<Id>)
    requires WfPeer(p) && ids != [] && ids[0] in p.blobs && IsFront(p, rs, ids[1..])
    ensures IndexOf(p.metas, ids[0]) < |p.metas| && RecordAt(p, IndexOf(p.metas, ids[0])).blob == p.blobs[ids[0]]
    ensures IsFront(p, [RecordAt(p, IndexOf(p.metas, ids[0]))] + rs, ids)
  {
    PeerRecord(p, ids[0]);
    assert HeldBy(p, RecordAt(p, IndexOf(p.metas, ids[0])));
    hide WfPeer, HeldBy, WfRecord;
  }

  /** What is served for known ids is a front of them, in order, as the peer holds them. */
  lemma {:induction false} CollectIsFront(p: Store, b: Budget, ids: seq<Id>, total: nat)
    requires WfPeer(p) && forall id :: id in ids ==> id in p.blobs
    ensures IsFront(p, Collect(p, b, ids, total).1, ids)
    ensures ids != [] ==> (Collect(p, b, ids, total).1 != [] <==> Fits(b, total, |p.blobs[ids[0]]|))
    decreases |ids|
  {
    hide WfPeer, IsFront, IndexOf, RecordAt, Collect, WfRecord;
    if ids == [] {
      NoneCollected(p, b, total);
      NoFront(p, ids);
    } else {
      PeerRecord(p, ids[0]);
      CollectFirst(p, b, ids, total);
      var r := RecordAt(p, IndexOf(p.metas, ids[0]));
      if Fits(b, total, |r.blob|) {
        var b1 := b.(sent := b.sent + |r.blob|);
        CollectIsFront(p, b1, ids[1..], total + |r.blob|);
        FrontGrows(p, Collect(p, b1, ids[1..], total + |r.blob|).1, ids);
      } else {
        NoFront(p, ids);
      }
    }
  }

  lemma NoneCollected(p: Store, b: Budget, total: nat)
    ensures Collect(p, b, [], total).1 == []
  {
  }

  lemma NoFront(p: Store, ids: seq<Id>)
    ensures IsFront(p, [], ids)
  {
  }

  lemma CollectFirst(p: Store, b: Budget, ids: seq<Id>, total: nat)
    requires ids != [] && IndexOf(p.metas, ids[0]) < |p.metas| && ids[0] in p.blobs
    ensures var r := RecordAt(p, IndexOf(p.metas, ids[0]));
      Collect(p, b, ids, total).1
      == if Fits(b, total, |r.blob|)
         then [r] + Collect(p, b.(sent := b.sent + |r.blob|), ids[1..], total + |r.blob|).1
         else []
  {
    hide RecordAt, Fits;
  }

  /** Room for `bytes` more, and nothing to sweep at `now`. */
  ghost predicate Calm(s: Store, bytes: nat, now: int) {
    Valid(s) && s.used + bytes <= s.limit && forall i :: 0 <= i < |s.metas| ==> !Expired(s.metas[i], now - TTL)
  }

  lemma {:induction false} NothingExpired(metas: seq<Meta>, cutoff: int)
    requires forall i :: 0 <= i < |metas| ==> !Expired(metas[i], cutoff)
    ensures ExpiredOnes(metas, cutoff) == []
    decreases |metas|
  {
    if metas != [] {
      NothingExpired(metas[..|metas| - 1], cutoff);
    }
  }

  lemma SweepsNothing(s: Store, now: int, bytes: nat)
    requires Calm(s, bytes, now)
    ensures Swept(s, now) == s.(lastSweep := Swept(s, now).lastSweep)
  {
    NothingExpired(s.metas, now - TTL);
    assert DeleteAll(s, []) == s;
    hide DeleteAll, ExpiredOnes;
  }

  lemma StoreIsInsert(s: Store, r: Record, now: int, bytes: nat)
    requires Calm(s, |r.blob| + bytes, now) && r.id !in s.blobs
    ensures StoreWithId(s, r.channel, r.id, r.blob, now).0
         == Insert(s.(lastSweep := Swept(s, now).lastSweep), r.channel, r.id, r.blob, now)
  {
    NotListed(s, r.id);
    SweepsNothing(s, now, |r.blob| + bytes);
    hide Swept, ByAge, Valid, IndexOf, Insert;
    var swept := Swept(s, now);
    assert EvictToFit(swept, |r.blob|) == swept;
  }

  lemma InsertCalm(s: Store, r: Record, now: int, bytes: nat, at: int)
    requires Calm(s, |r.blob| + bytes, now) && r.id !in s.blobs
    ensures Calm(Insert(s.(lastSweep := at), r.channel, r.id, r.blob, now), bytes, now)
  {
    assert Valid(s.(lastSweep := at));
    hide Matched, DistinctIds, TotalSize, Valid;
    InsertKeeps(s.(lastSweep := at), r.channel, r.id, r.blob, now);
  }

  lemma StoreWhenCalm(s: Store, r: Record, now: int, bytes: nat)
    requires Calm(s, |r.blob| + bytes, now) && r.id !in s.blobs
    ensures var s' := StoreWithId(s, r.channel, r.id, r.blob, now).0;
      && Calm(s', bytes, now) && s'.blobs == s.blobs[r.id := r.blob] && s'.limit == s.limit && s'.used == s.used + |r.blob|
      && s'.metas == s.metas + [Meta(r.id, r.channel, now, |r.blob|)]
  {
    StoreIsInsert(s, r, now, bytes);
    InsertCalm(s, r, now, bytes, Swept(s, now).lastSweep);
    hide Calm, StoreWithId, Swept;
  }

  lemma {:induction false} BytesSplit(rs: seq<Record>)
    requires rs != []
    ensures BytesOf(rs) == BytesOf(rs[..|rs| - 1]) + |rs[|rs| - 1].blob|
    decreases |rs|
  {
    if |rs| > 1 {
      BytesSplit(rs[1..]);
      assert rs[1..][..|rs| - 2] == rs[..|rs| - 1][1..];
    }
  }

  ghost predicate NewOnes(rs: seq<Record>, held: map<Id, Data>) {
    && (forall i :: 0 <= i < |rs| ==> rs[i].id !in held)
    && (forall i, j :: 0 <= i < j < |rs| ==> rs[i].id != rs[j].id)
  }

  function Added(held: map<Id, Data>, rs: seq<Record>): map<Id, Data> {
    if rs == [] then held else Added(held, rs[..|rs| - 1])[rs[|rs| - 1].id := rs[|rs| - 1].blob]
  }

  lemma {:induction false} AddedReads(held: map<Id, Data>, rs: seq<Record>, id: Id)
    requires NewOnes(rs, held)
    ensures id in Added(held, rs) <==> id in held || exists i :: 0 <= i < |rs| && rs[i].id == id
    ensures id in held ==> Added(held, rs)[id] == held[id]
    ensures forall i :: 0 <= i < |rs| && rs[i].id == id ==> id in Added(held, rs) && Added(held, rs)[id] == rs[i].blob
    decreases |rs|
  {
    if rs != [] {
      var init := rs[..|rs| - 1];
      AddedReads(held, init, id);
      if i: nat :| i < |rs| && rs[i].id == id {
        if i < |init| {
          assert init[i].id == id;
        }
      }
      if j: nat :| j < |init| && init[j].id == id {
        assert rs[j].id == id;
      }
    }
  }

  function MetasOf(rs: seq<Record>, now: int): (r: seq<Meta>)
    ensures |r| == |rs| && forall i :: 0 <= i < |r| ==> r[i] == Meta(rs[i].id, rs[i].channel, now, |rs[i].blob|)
  {
    seq(|rs|, i requires 0 <= i < |rs| => Meta(rs[i].id, rs[i].channel, now, |rs[i].blob|))
  }

  /** `s'` is `s` with the records behind everything held. */
  ghost predicate Grown(s: Store, rs: seq<Record>, now: int, s': Store) {
    && s'.limit == s.limit && s'.used == s.used + BytesOf(rs)
    && s'.blobs == Added(s.blobs, rs) && s'.metas == s.metas + MetasOf(rs, now)
  }

  lemma GrownByOne(s: Store, rs: seq<Record>, now: int, before: Store, s': Store)
    requires rs != [] && Grown(s, rs[..|rs| - 1], now, before)
    requires var r := rs[|rs| - 1];
      && s'.limit == before.limit && s'.used == before.used + |r.blob| && s'.blobs == before.blobs[r.id := r.blob]
      && s'.metas == before.metas + [Meta(r.id, r.channel, now, |r.blob|)]
    ensures Grown(s, rs, now, s')
  {
    var init, r := rs[..|rs| - 1], rs[|rs| - 1];
    BytesSplit(rs);
    hide BytesOf;
    assert MetasOf(rs, now) == MetasOf(init, now) + [Meta(r.id, r.channel, now, |r.blob|)];
  }

  lemma NewFront(rs: seq<Record>, held: map<Id, Data>)
    requires rs != [] && NewOnes(rs, held)
    ensures NewOnes(rs[..|rs| - 1], held) && rs[|rs| - 1].id !in Added(held, rs[..|rs| - 1])
  {
    AddedReads(held, rs[..|rs| - 1], rs[|rs| - 1].id);
  }

  lemma IngestStep(s: Store, rs: seq<Record>, now: int)
    requires rs != [] && rs[|rs| - 1].id !in Ingest(s, rs[..|rs| - 1], now).blobs
    ensures Ingested(s, rs, now) == Ingested(s, rs[..|rs| - 1], now) + 1
    ensures var r := rs[|rs| - 1];
      Ingest(s, rs, now) == StoreWithId(Ingest(s, rs[..|rs| - 1], now), r.channel, r.id, r.blob, now).0
  {
    hide StoreWithId;
  }

  /** Everything new is stored as it came, behind everything held, which stays as it was. */
  lemma {:induction false} IngestStores(s: Store, rs: seq<Record>, now: int, bytes: nat)
    requires Calm(s, BytesOf(rs) + bytes, now) && NewOnes(rs, s.blobs)
    ensures Calm(Ingest(s, rs, now), bytes, now) && Grown(s, rs, now, Ingest(s, rs, now))
    ensures Ingested(s, rs, now) == |rs|
    decreases |rs|
  {
    if rs == [] {
      assert s.metas + MetasOf([], now) == s.metas;
    } else {
      hide Calm, StoreWithId, BytesOf, NewOnes, Ingest, Ingested;
      var init, r := rs[..|rs| - 1], rs[|rs| - 1];
      BytesSplit(rs);
      NewFront(rs, s.blobs);
      IngestStores(s, init, now, |r.blob| + bytes);
      var before := Ingest(s, init, now);
      StoreWhenCalm(before, r, now, bytes);
      IngestStep(s, rs, now);
      GrownByOne(s, rs, now, before, Ingest(s, rs, now));
    }
  }

  // ---------- rounds converge ----------

  /** How many of the wanted blobs, in the peer's order, one response takes. */
  function Taken(p: Store, b: Budget, wanted: seq<Id>, now: int): nat {
    |HandleGet(p, b, wanted, now).1|
  }

  /** Every wanted blob, in bytes. */
  function WantedBytes(p: Store, ids: seq<Id>): nat {
    if ids == [] then 0 else (if ids[0] in p.blobs then |p.blobs[ids[0]]| else 0) + WantedBytes(p, ids[1..])
  }

  lemma {:induction false} TakenBytes(p: Store, rs: seq<Record>, ids: seq<Id>)
    requires |rs| <= |ids| && forall k :: 0 <= k < |rs| ==> rs[k].id == ids[k] && HeldBy(p, rs[k])
    ensures BytesOf(rs) + WantedBytes(p, ids[|rs|..]) == WantedBytes(p, ids)
    decreases |rs|
  {
    if rs != [] {
      TakenBytes(p, rs[1..], ids[1..]);
      assert ids[1..][|rs| - 1..] == ids[|rs|..];
    } else {
      assert ids[0..] == ids;
    }
  }

  /** Each of these once, held by the peer and not here. */
  ghost predicate Missing(s: Store, p: Store, w: seq<Id>) {
    && (forall id :: id in w ==> id in p.blobs && id !in s.blobs)
    && (forall i, j :: 0 <= i < j < |w| ==> w[i] != w[j])
  }

  lemma WantedIsMissing(s: Store, p: Store, subscribed: set<Channel>)
    requires WfPeer(p)
    ensures Missing(s, p, WantedFrom(s, p, subscribed))
  {
    var pairs := Manifest(p.metas);
    GapIsSound(pairs, s.blobs.Keys, subscribed);
    hide Gap;
    var w := WantedFrom(s, p, subscribed);
    forall id | id in w ensures id in p.blobs && id !in s.blobs {
      var i :| 0 <= i < |pairs| && pairs[i].1 == id && pairs[i].0 in subscribed;
      assert p.metas[i].id == id;
    }
  }

  /** The entry of a blob taken over: the peer's channel, id and size, received now. */
  ghost predicate StoredAs(p: Store, id: Id, now: int, m: Meta) {
    var i := IndexOf(p.metas, id);
    i < |p.metas| && id in p.blobs && m == Meta(id, p.metas[i].channel, now, |p.blobs[id]|)
  }

  /** `s'` is `s` with these blobs of the peer's stored as the peer has them; all else stays as it was. */
  ghost predicate TookOver(s: Store, p: Store, ids: seq<Id>, now: int, s': Store) {
    && (forall id :: id in s'.blobs <==> id in s.blobs || id in ids)
    && (forall id :: id in s.blobs ==> id in s'.blobs && s'.blobs[id] == s.blobs[id])
    && (forall k :: 0 <= k < |ids| ==> ids[k] in s'.blobs && ids[k] in p.blobs && s'.blobs[ids[k]] == p.blobs[ids[k]])
    && |s'.metas| == |s.metas| + |ids| && s'.metas[..|s.metas|] == s.metas
    && (forall k :: 0 <= k < |ids| ==> StoredAs(p, ids[k], now, s'.metas[|s.metas| + k]))
    && s'.limit == s.limit
  }

  /**
   One round: the blobs taken, which are the front of the gap in the peer's order, are stored with
   the peer's channel, id and bytes; the gap is then exactly the rest; all else stays as it was.
   */
  lemma RoundTakesFront(s: Store, p: Store, b: Budget, subscribed: set<Channel>, now: int, bytes: nat)
    requires WfPeer(p) && Calm(s, WantedBytes(p, WantedFrom(s, p, subscribed)) + bytes, now)
    ensures var wanted := WantedFrom(s, p, subscribed);
      var n := Taken(p, b, wanted, now);
      var s' := SyncRound(s, p, b, subscribed, now).0;
      && n <= |wanted| && WantedFrom(s', p, subscribed) == wanted[n..]
      && TookOver(s, p, wanted[..n], now, s')
      && Calm(s', WantedBytes(p, wanted[n..]) + bytes, now)
  {
    hide WfPeer, Calm, HandleGet, WantedFrom, WantedBytes, Ingest, TookOver, Missing, SyncRound, Taken, Decode;
    var wanted := WantedFrom(s, p, subscribed);
    WantedIsMissing(s, p, subscribed);
    RoundIs(s, p, b, subscribed, now);
    if wanted == [] {
      NothingTaken(s, p, b, now);
    } else {
      RoundStores(s, p, b, wanted, now, bytes);
      GapAfter(s, p, SyncRound(s, p, b, subscribed, now).0, subscribed, Taken(p, b, wanted, now), now);
    }
  }

  lemma RoundIs(s: Store, p: Store, b: Budget, subscribed: set<Channel>, now: int)
    ensures var wanted := WantedFrom(s, p, subscribed);
      SyncRound(s, p, b, subscribed, now).0
      == if wanted == [] then s else Ingest(s, Decode(Encode(HandleGet(p, b, wanted, now).1)), now)
    ensures Taken(p, b, WantedFrom(s, p, subscribed), now) == |HandleGet(p, b, WantedFrom(s, p, subscribed), now).1|
  {
    hide WantedFrom, HandleGet, Ingest, Decode, Encode;
  }

  lemma NothingTaken(s: Store, p: Store, b: Budget, now: int)
    ensures Taken(p, b, [], now) == 0 && TookOver(s, p, [], now, s)
  {
    assert s.metas[..|s.metas|] == s.metas;
  }

  lemma FrontIsHeld(s: Store, p: Store, w: seq<Id>, n: nat, now: int, s': Store)
    requires Missing(s, p, w) && n <= |w| && TookOver(s, p, w[..n], now, s')
    ensures s.blobs.Keys <= s'.blobs.Keys
    ensures forall i :: 0 <= i < |w| ==> (w[i] in s'.blobs.Keys <==> i < n)
  {
    hide StoredAs;
    forall i | 0 <= i < |w| ensures w[i] in s'.blobs.Keys <==> i < n {
      assert w[i] in s'.blobs <==> w[i] in w[..n];
    }
  }

  lemma GapAfter(s: Store, p: Store, s': Store, subscribed: set<Channel>, n: nat, now: int)
    requires Missing(s, p, WantedFrom(s, p, subscribed)) && n <= |WantedFrom(s, p, subscribed)|
    requires TookOver(s, p, WantedFrom(s, p, subscribed)[..n], now, s')
    ensures WantedFrom(s', p, subscribed) == WantedFrom(s, p, subscribed)[n..]
  {
    hide Gap, Missing, TookOver;
    var w := WantedFrom(s, p, subscribed);
    FrontIsHeld(s, p, w, n, now, s');
    GapShrinks(Manifest(p.metas), s.blobs.Keys, s'.blobs.Keys, subscribed);
    WithoutFront(w, s'.blobs.Keys, n);
  }

  lemma RoundStores(s: Store, p: Store, b: Budget, wanted: seq<Id>, now: int, bytes: nat)
    requires WfPeer(p) && Calm(s, WantedBytes(p, wanted) + bytes, now)
    requires Missing(s, p, wanted)
    ensures var rs := HandleGet(p, b, wanted, now).1;
      var s' := Ingest(s, Decode(Encode(rs)), now);
      && |rs| <= |wanted| && TookOver(s, p, wanted[..|rs|], now, s')
      && Calm(s', WantedBytes(p, wanted[|rs|..]) + bytes, now)
  {
    hide WfPeer, Calm, WfRecords, Decode, Encode, BytesOf, WantedBytes, HeldBy, Ingest, Grown, TookOver, Collect, NewOnes;
    var rs := HandleGet(p, b, wanted, now).1;
    CollectIsFront(p, Renewed(b, now), wanted, 0);
    DecodeEncode(rs);
    TakenBytes(p, rs, wanted);
    TakenAreNew(s, p, rs, wanted);
    var rest := WantedBytes(p, wanted[|rs|..]) + bytes;
    assert BytesOf(rs) + rest == WantedBytes(p, wanted) + bytes;
    IngestStores(s, rs, now, rest);
    GrownTookOver(s, p, rs, wanted[..|rs|], now, Ingest(s, rs, now));
  }

  lemma TakenAreNew(s: Store, p: Store, rs: seq<Record>, wanted: seq<Id>)
    requires |rs| <= |wanted| && forall k :: 0 <= k < |rs| ==> rs[k].id == wanted[k]
    requires Missing(s, p, wanted)
    ensures NewOnes(rs, s.blobs)
  {
  }

  lemma AddedTookOver(s: Store, rs: seq<Record>, ids: seq<Id>)
    requires NewOnes(rs, s.blobs) && |rs| == |ids| && forall k :: 0 <= k < |rs| ==> rs[k].id == ids[k]
    ensures forall id :: id in Added(s.blobs, rs) <==> id in s.blobs || id in ids
    ensures forall id :: id in s.blobs ==> Added(s.blobs, rs)[id] == s.blobs[id]
    ensures forall k :: 0 <= k < |rs| ==> Added(s.blobs, rs)[ids[k]] == rs[k].blob
  {
    hide NewOnes, Added;
    forall id
      ensures (id in Added(s.blobs, rs) <==> id in s.blobs || id in ids)
      ensures id in s.blobs ==> Added(s.blobs, rs)[id] == s.blobs[id]
    {
      AddedReads(s.blobs, rs, id);
    }
    forall k | 0 <= k < |rs| ensures ids[k] in Added(s.blobs, rs) && Added(s.blobs, rs)[ids[k]] == rs[k].blob {
      AddedReads(s.blobs, rs, ids[k]);
    }
  }

  lemma MetasTookOver(s: Store, p: Store, rs: seq<Record>, ids: seq<Id>, now: int, metas: seq<Meta>)
    requires |rs| == |ids| && forall k :: 0 <= k < |rs| ==> rs[k].id == ids[k] && HeldBy(p, rs[k])
    requires metas == s.metas + MetasOf(rs, now)
    ensures |metas| == |s.metas| + |ids| && metas[..|s.metas|] == s.metas
    ensures forall k :: 0 <= k < |ids| ==> ids[k] in p.blobs && p.blobs[ids[k]] == rs[k].blob && StoredAs(p, ids[k], now, metas[|s.metas| + k])
  {
  }

  lemma GrownTookOver(s: Store, p: Store, rs: seq<Record>, ids: seq<Id>, now: int, s': Store)
    requires Grown(s, rs, now, s') && NewOnes(rs, s.blobs)
    requires |rs| == |ids| && forall k :: 0 <= k < |rs| ==> rs[k].id == ids[k] && HeldBy(p, rs[k])
    ensures TookOver(s, p, ids, now, s')
  {
    hide BytesOf, Added, NewOnes, HeldBy, StoredAs;
    AddedTookOver(s, rs, ids);
    MetasTookOver(s, p, rs, ids, now, s'.metas);
  }

  lemma TakenAny(s: Store, p: Store, b: Budget, wanted: seq<Id>, now: int)
    requires WfPeer(p) && Missing(s, p, wanted) && wanted != []
    ensures wanted[0] in p.blobs && (Taken(p, b, wanted, now) > 0 <==> Fits(Renewed(b, now), 0, |p.blobs[wanted[0]]|))
  {
    hide WfPeer, Collect, IsFront, Fits;
    CollectIsFront(p, Renewed(b, now), wanted, 0);
  }

  /** The gap shrinks exactly when the first wanted blob fits both budgets. */
  lemma ShrinksIffFirstFits(s: Store, p: Store, b: Budget, subscribed: set<Channel>, now: int)
    requires WfPeer(p) && Calm(s, WantedBytes(p, WantedFrom(s, p, subscribed)), now)
    requires WantedFrom(s, p, subscribed) != []
    ensures var wanted := WantedFrom(s, p, subscribed);
      && wanted[0] in p.blobs
      && (|WantedFrom(SyncRound(s, p, b, subscribed, now).0, p, subscribed)| < |wanted|
          <==> Fits(Renewed(b, now), 0, |p.blobs[wanted[0]]|))
  {
    hide WfPeer, Calm, Collect, WantedFrom, WantedBytes, TookOver, SyncRound, IsFront, Fits, Missing, Taken, HandleGet;
    var wanted := WantedFrom(s, p, subscribed);
    RoundTakesFront(s, p, b, subscribed, now, 0);
    WantedIsMissing(s, p, subscribed);
    TakenAny(s, p, b, wanted, now);
  }

  /** Rounds one after the other, the peer's store unchanged. */
  function Rounds(s: Store, p: Store, b: Budget, subscribed: set<Channel>, nows: seq<int>): Store
    decreases |nows|
  {
    if nows == [] then s
    else
      var (s1, b1) := SyncRound(s, p, b, subscribed, nows[0]);
      Rounds(s1, p, b1, subscribed, nows[1..])
  }

  /** Each round comes a whole budget period after the one before. */
  predicate Spaced(prev: int, nows: seq<int>)
    decreases |nows|
  {
    nows == [] || (nows[0] - prev >= PERIOD && Spaced(nows[0], nows[1..]))
  }

  predicate Servable(p: Store, b: Budget, id: Id) {
    id in p.blobs && |p.blobs[id]| <= b.transferLimit && |p.blobs[id]| <= b.syncLimit
  }

  predicate AllServable(p: Store, b: Budget, ids: seq<Id>) {
    forall i :: 0 <= i < |ids| ==> Servable(p, b, ids[i])
  }

  ghost predicate Within(nows: seq<int>, until: int) {
    forall i :: 0 <= i < |nows| ==> until - TTL <= nows[i] <= until
  }

  lemma CalmLater(s: Store, p: Store, ids: seq<Id>, now: int, s': Store, before: nat, bytes: nat, until: int)
    requires Calm(s, before, until) && TookOver(s, p, ids, now, s') && Calm(s', bytes, now)
    requires until - TTL <= now <= until
    ensures Calm(s', bytes, until)
  {
    hide Valid;
    forall i | 0 <= i < |s'.metas| ensures !Expired(s'.metas[i], until - TTL) {
      if i < |s.metas| {
        assert s'.metas[i] == s'.metas[..|s.metas|][i] == s.metas[i];
      } else {
        assert StoredAs(p, ids[i - |s.metas|], now, s'.metas[|s.metas| + (i - |s.metas|)]);
      }
    }
  }

  lemma CalmEarlier(s: Store, bytes: nat, now: int, until: int)
    requires Calm(s, bytes, until) && now <= until
    ensures Calm(s, bytes, now)
  {
    hide Valid;
  }

  /** A round leaves the limits, and starts a period at the latest now. */
  lemma BudgetAfter(s: Store, p: Store, b: Budget, subscribed: set<Channel>, now: int)
    requires now - b.periodStart >= PERIOD
    ensures var b' := SyncRound(s, p, b, subscribed, now).1;
      b'.transferLimit == b.transferLimit && b'.syncLimit == b.syncLimit && b'.periodStart <= now
  {
    CollectBudget(p, Renewed(b, now), WantedFrom(s, p, subscribed), 0);
    hide Collect, WantedFrom, Ingest, Decode, Encode;
  }

  lemma TakenFits(s: Store, p: Store, b: Budget, wanted: seq<Id>, now: int)
    requires WfPeer(p) && Missing(s, p, wanted)
    ensures var n := Taken(p, b, wanted, now);
      && n <= |wanted| && AllServable(p, b, wanted[..n])
      && (now - b.periodStart >= PERIOD ==> n == PageLength(p, PageLimit(b), wanted, 0))
  {
    CollectIsFront(p, Renewed(b, now), wanted, 0);
    if now - b.periodStart >= PERIOD {
      CollectIsPage(p, Renewed(b, now), wanted, 0);
    }
    CollectServable(p, Renewed(b, now), wanted, 0);
    hide WfPeer, Collect, WfRecords, HeldBy;
    var front := wanted[..Taken(p, b, wanted, now)];
    forall i | 0 <= i < |front| ensures Servable(p, b, front[i]) {
      assert Servable(p, Renewed(b, now), front[i]);
    }
  }

  // ---------- how many rounds it takes ----------

  /** The bytes one response of a fresh period may have. */
  function PageLimit(b: Budget): nat {
    if b.transferLimit < b.syncLimit then b.transferLimit else b.syncLimit
  }

  /** How many of the blobs a page takes that already has `total` bytes. */
  function PageLength(p: Store, limit: nat, ids: seq<Id>, total: nat): (n: nat)
    ensures n <= |ids|
  {
    if ids == [] || ids[0] !in p.blobs || total + |p.blobs[ids[0]]| > limit then 0
    else 1 + PageLength(p, limit, ids[1..], total + |p.blobs[ids[0]]|)
  }

  /** The pages a gap fills, each taking as much as it can; a blob too large for any counts as one. */
  function Pages(p: Store, limit: nat, ids: seq<Id>): nat
    decreases |ids|
  {
    if ids == [] then 0
    else
      var n := PageLength(p, limit, ids, 0);
      1 + Pages(p, limit, ids[if n == 0 then 1 else n..])
  }

  /** A response of a fresh period is exactly one page. */
  lemma {:induction false} CollectIsPage(p: Store, b: Budget, ids: seq<Id>, total: nat)
    requires WfPeer(p) && b.sent == total && forall id :: id in ids ==> id in p.blobs
    ensures |Collect(p, b, ids, total).1| == PageLength(p, PageLimit(b), ids, total)
    decreases |ids|
  {
    hide WfPeer, IndexOf, RecordAt, Collect, WfRecord;
    if ids == [] {
      NoneCollected(p, b, total);
    } else {
      PeerRecord(p, ids[0]);
      CollectFirst(p, b, ids, total);
      var size := |p.blobs[ids[0]]|;
      if Fits(b, total, size) {
        CollectIsPage(p, b.(sent := b.sent + size), ids[1..], total + size);
      }
    }
  }

  lemma {:induction false} BytesOfFront(p: Store, ids: seq<Id>, n: nat)
    requires n <= |ids|
    ensures WantedBytes(p, ids) == WantedBytes(p, ids[..n]) + WantedBytes(p, ids[n..])
    decreases n
  {
    if n == 0 {
      assert ids[..0] == [] && ids[0..] == ids;
    } else {
      BytesOfFront(p, ids[1..], n - 1);
      assert ids[..n][1..] == ids[1..][..n - 1] && ids[n..] == ids[1..][n - 1..];
    }
  }

  /** A page is full: the next blob would not fit. */
  lemma {:induction false} PageIsFull(p: Store, limit: nat, ids: seq<Id>, total: nat)
    requires forall i :: 0 <= i < |ids| ==> ids[i] in p.blobs
    ensures var n := PageLength(p, limit, ids, total);
      n < |ids| ==> total + WantedBytes(p, ids[..n]) + |p.blobs[ids[n]]| > limit
    decreases |ids|
  {
    if ids != [] && total + |p.blobs[ids[0]]| <= limit {
      PageIsFull(p, limit, ids[1..], total + |p.blobs[ids[0]]|);
      var n := PageLength(p, limit, ids, total);
      assert ids[..n][1..] == ids[1..][..n - 1];
      assert n < |ids| ==> ids[n] == ids[1..][n - 1];
    } else {
      assert ids[..0] == [];
    }
  }

  ghost predicate EachFits(p: Store, limit: nat, ids: seq<Id>) {
    forall i :: 0 <= i < |ids| ==> ids[i] in p.blobs && |p.blobs[ids[i]]| <= limit
  }

  lemma EachFitsRest(p: Store, limit: nat, ids: seq<Id>, n: nat)
    requires EachFits(p, limit, ids) && n <= |ids|
    ensures EachFits(p, limit, ids[n..])
    ensures ids != [] ==> PageLength(p, limit, ids, 0) > 0
  {
  }

  /** The bytes of the first page. */
  function FirstPage(p: Store, limit: nat, ids: seq<Id>): nat {
    WantedBytes(p, ids[..PageLength(p, limit, ids, 0)])
  }

  /** Two pages in a row exceed the limit together. */
  lemma TwoPagesExceed(p: Store, limit: nat, ids: seq<Id>)
    requires EachFits(p, limit, ids) && PageLength(p, limit, ids, 0) < |ids|
    ensures FirstPage(p, limit, ids) + FirstPage(p, limit, ids[PageLength(p, limit, ids, 0)..]) > limit
  {
    var n := PageLength(p, limit, ids, 0);
    var rest := ids[n..];
    PageIsFull(p, limit, ids, 0);
    EachFitsRest(p, limit, ids, n);
    EachFitsRest(p, limit, rest, 0);
    var front := rest[..PageLength(p, limit, rest, 0)];
    assert front[0] == rest[0] == ids[n];
    hide PageLength;
    assert WantedBytes(p, front) >= |p.blobs[front[0]]|;
  }

  /** So the bytes of a gap bound its pages: all but one of them amount to half the limit or more. */
  lemma {:induction false} PagesByBytes(p: Store, limit: nat, ids: seq<Id>)
    requires ids != [] && EachFits(p, limit, ids)
    ensures (Pages(p, limit, ids) - 1) * (limit + 1) + FirstPage(p, limit, ids) <= 2 * WantedBytes(p, ids)
    ensures 1 <= Pages(p, limit, ids) <= |ids|
    decreases |ids|
  {
    hide EachFits, WantedBytes, PageLength;
    var n := PageLength(p, limit, ids, 0);
    EachFitsRest(p, limit, ids, n);
    BytesOfFront(p, ids, n);
    var rest := ids[n..];
    if rest == [] {
      assert Pages(p, limit, rest) == 0;
    } else {
      TwoPagesExceed(p, limit, ids);
      PagesByBytes(p, limit, rest);
      OnePageMore(Pages(p, limit, rest), limit + 1);
    }
  }

  lemma OnePageMore(k: nat, unit: nat)
    requires k >= 1
    ensures k * unit == (k - 1) * unit + unit
  {
  }

  /** One round of the run: what is left to fetch, and that the next rounds start as this one did. */
  lemma RoundAdvances(s: Store, p: Store, b: Budget, subscribed: set<Channel>, now: int, until: int) returns (n: nat)
    requires WfPeer(p) && Calm(s, WantedBytes(p, WantedFrom(s, p, subscribed)), until) && until - TTL <= now <= until
    ensures var wanted := WantedFrom(s, p, subscribed);
      var s' := SyncRound(s, p, b, subscribed, now).0;
      && n <= |wanted| && WantedFrom(s', p, subscribed) == wanted[n..]
      && Calm(s', WantedBytes(p, wanted[n..]), until)
      && (now - b.periodStart >= PERIOD ==> n == PageLength(p, PageLimit(b), wanted, 0))
      && AllServable(p, b, wanted[..n])
  {
    hide WfPeer, Calm, WantedFrom, WantedBytes, TookOver, SyncRound, Taken, Missing, Servable;
    var wanted := WantedFrom(s, p, subscribed);
    CalmEarlier(s, WantedBytes(p, wanted), now, until);
    RoundTakesFront(s, p, b, subscribed, now, 0);
    n := Taken(p, b, wanted, now);
    CalmLater(s, p, wanted[..n], now, SyncRound(s, p, b, subscribed, now).0, WantedBytes(p, wanted), WantedBytes(p, wanted[n..]), until);
    WantedIsMissing(s, p, subscribed);
    TakenFits(s, p, b, wanted, now);
  }

  /** Nothing above either limit is ever served. */
  lemma {:induction false} CollectServable(p: Store, b: Budget, ids: seq<Id>, total: nat)
    requires WfPeer(p) && forall id :: id in ids ==> id in p.blobs
    ensures |Collect(p, b, ids, total).1| <= |ids|
    ensures AllServable(p, b, ids[..|Collect(p, b, ids, total).1|])
    decreases |ids|
  {
    hide WfPeer;
    if ids != [] {
      PeerRecord(p, ids[0]);
      var r := RecordAt(p, IndexOf(p.metas, ids[0]));
      if Fits(b, total, |r.blob|) {
        var b1 := b.(sent := b.sent + |r.blob|);
        CollectServable(p, b1, ids[1..], total + |r.blob|);
        var n := |Collect(p, b1, ids[1..], total + |r.blob|).1|;
        var front, rest := ids[..n + 1], ids[1..][..n];
        forall i | 0 <= i < |front| ensures Servable(p, b, front[i]) {
          if i > 0 {
            assert front[i] == rest[i - 1] && Servable(p, b1, rest[i - 1]);
          }
        }
      }
    }
  }

  lemma SpacedEarlier(earlier: int, prev: int, nows: seq<int>)
    requires earlier <= prev && Spaced(prev, nows)
    ensures Spaced(earlier, nows)
  {
  }

  lemma SameLimits(p: Store, b: Budget, b1: Budget, ids: seq<Id>, n: nat)
    requires n <= |ids| && b1.transferLimit == b.transferLimit && b1.syncLimit == b.syncLimit
    ensures AllServable(p, b, ids) ==> AllServable(p, b1, ids[n..])
    ensures AllServable(p, b, ids[..n]) && AllServable(p, b1, ids[n..]) ==> AllServable(p, b, ids)
  {
    if AllServable(p, b, ids[..n]) && AllServable(p, b1, ids[n..]) {
      forall i | 0 <= i < |ids| ensures Servable(p, b, ids[i]) {
        if i < n {
          assert Servable(p, b, ids[..n][i]);
        } else {
          assert Servable(p, b1, ids[n..][i - n]);
        }
      }
    }
  }

  /** What the gap still needs, before a round and after it. */
  predicate Settled(p: Store, b: Budget, ids: seq<Id>, rounds: nat) {
    AllServable(p, b, ids) && rounds >= Pages(p, PageLimit(b), ids)
  }

  lemma RoundSettles(p: Store, b: Budget, b1: Budget, ids: seq<Id>, n: nat, rounds: nat)
    requires rounds > 0 && n == PageLength(p, PageLimit(b), ids, 0) && AllServable(p, b, ids[..n])
    requires b1.transferLimit == b.transferLimit && b1.syncLimit == b.syncLimit
    requires forall i :: 0 <= i < |ids| ==> ids[i] in p.blobs
    ensures Settled(p, b, ids, rounds) <==> Settled(p, b1, ids[n..], rounds - 1)
  {
    SameLimits(p, b, b1, ids, n);
    if ids == [] {
      assert ids[n..] == [];
    } else if n == 0 {
      assert ids[0..] == ids;
      assert !Servable(p, b, ids[0]);
    }
    hide AllServable;
  }

  /** With the peer's store fixed, spaced rounds take one page of the gap each. */
  lemma {:induction false} RoundsSettle(s: Store, p: Store, b: Budget, subscribed: set<Channel>, nows: seq<int>, until: int)
    requires WfPeer(p) && Calm(s, WantedBytes(p, WantedFrom(s, p, subscribed)), until) && Within(nows, until)
    requires Spaced(b.periodStart, nows)
    ensures WantedFrom(Rounds(s, p, b, subscribed, nows), p, subscribed) == []
       <==> Settled(p, b, WantedFrom(s, p, subscribed), |nows|)
    decreases |nows|
  {
    hide WfPeer, Calm, SyncRound, WantedFrom, WantedBytes, Servable, PageLength, Settled;
    var wanted := WantedFrom(s, p, subscribed);
    if nows == [] {
      NoRoundSettles(p, b, wanted);
    } else {
      var now := nows[0];
      var n := RoundAdvances(s, p, b, subscribed, now, until);
      BudgetAfter(s, p, b, subscribed, now);
      var (s1, b1) := SyncRound(s, p, b, subscribed, now);
      SpacedEarlier(b1.periodStart, now, nows[1..]);
      WantedIsMissing(s, p, subscribed);
      RoundSettles(p, b, b1, wanted, n, |nows|);
      RoundsSettle(s1, p, b1, subscribed, nows[1..], until);
    }
  }

  lemma NoRoundSettles(p: Store, b: Budget, ids: seq<Id>)
    ensures Settled(p, b, ids, 0) <==> ids == []
  {
  }

  /**
   With the peer's store fixed, room here, and nothing here old enough to be swept, any number of spaced rounds
   empties the gap exactly when every blob in it is within both limits and there are as many rounds as the
   gap has pages.
   */
  lemma ConvergesIffServable(s: Store, p: Store, b: Budget, subscribed: set<Channel>, nows: seq<int>, until: int)
    requires WfPeer(p) && Calm(s, WantedBytes(p, WantedFrom(s, p, subscribed)), until) && Within(nows, until)
    requires Spaced(b.periodStart, nows)
    ensures WantedFrom(Rounds(s, p, b, subscribed, nows), p, subscribed) == []
       <==> && AllServable(p, b, WantedFrom(s, p, subscribed))
            && |nows| >= Pages(p, PageLimit(b), WantedFrom(s, p, subscribed))
  {
    RoundsSettle(s, p, b, subscribed, nows, until);
    hide Rounds, WantedFrom, AllServable, Pages;
  }

  lemma PagesWithin(p: Store, limit: nat, ids: seq<Id>, rounds: nat)
    requires EachFits(p, limit, ids) && rounds > 0 && (rounds - 1) * (limit + 1) >= 2 * WantedBytes(p, ids)
    ensures rounds >= Pages(p, limit, ids)
  {
    hide EachFits, WantedBytes, FirstPage;
    if ids != [] {
      PagesByBytes(p, limit, ids);
      MultiplesApart(rounds - 1, Pages(p, limit, ids) - 1, limit + 1);
    }
    hide Pages;
  }

  lemma ServableFits(p: Store, b: Budget, ids: seq<Id>)
    requires AllServable(p, b, ids)
    ensures EachFits(p, PageLimit(b), ids)
  {
    forall i | 0 <= i < |ids| ensures ids[i] in p.blobs && |p.blobs[ids[i]]| <= PageLimit(b) {
      assert Servable(p, b, ids[i]);
    }
  }

  /** So rounds whose limits add up to twice the bytes of the gap, and one more, are enough. */
  lemma EnoughRounds(s: Store, p: Store, b: Budget, subscribed: set<Channel>, nows: seq<int>, until: int)
    requires WfPeer(p) && Calm(s, WantedBytes(p, WantedFrom(s, p, subscribed)), until) && Within(nows, until)
    requires Spaced(b.periodStart, nows) && AllServable(p, b, WantedFrom(s, p, subscribed))
    requires |nows| > 0 && (|nows| - 1) * (PageLimit(b) + 1) >= 2 * WantedBytes(p, WantedFrom(s, p, subscribed))
    ensures WantedFrom(Rounds(s, p, b, subscribed, nows), p, subscribed) == []
  {
    hide Rounds, WantedFrom, WantedBytes, Pages, Calm, WfPeer, AllServable, EachFits, PageLimit, Within, Spaced;
    ServableFits(p, b, WantedFrom(s, p, subscribed));
    PagesWithin(p, PageLimit(b), WantedFrom(s, p, subscribed), |nows|);
    ConvergesIffServable(s, p, b, subscribed, nows, until);
  }

  // ---------- the program ----------

  method StreamSize(rs: seq<Record>) returns (total: nat)
    ensures total == |Encode(rs)|
  {
    total := 0;
    for i := 0 to |rs|
      invariant total + |Encode(rs[i..])| == |Encode(rs)|
    {
      assert rs[i..][1..] == rs[i + 1..];
      total := total + HEADER + |rs[i].blob|;
    }
  }

  method EncodeBlobStream(rs: seq<Record>) returns (out: array<Byte>)
    ensures fresh(out) && out[..] == Encode(rs)
  {
    hide Encode, RecordBytes;
    var total := StreamSize(rs);
    out := new Byte[total](_ => 0);
    var off: nat := 0;
    assert rs[0..] == rs && out[..0] + Encode(rs) == Encode(rs);
    for i := 0 to |rs|
      invariant off + |Encode(rs[i..])| == total
      invariant out[..off] + Encode(rs[i..]) == Encode(rs)
    {
      EncodeStep(rs, i, out[..off]);
      WriteRecord(out, off, rs[i]);
      off := off + HEADER + |rs[i].blob|;
    }
    EncodeNothing();
    assert rs[|rs|..] == [] && out[..total] + [] == out[..];
  }

  lemma EncodeNothing()
    ensures Encode([]) == []
  {
  }

  lemma EncodeStep(rs: seq<Record>, i: nat, done: seq<Byte>)
    requires i < |rs|
    ensures |Encode(rs[i..])| == HEADER + |rs[i].blob| + |Encode(rs[i + 1..])|
    ensures done + Encode(rs[i..]) == (done + RecordBytes(rs[i])) + Encode(rs[i + 1..])
  {
    hide RecordBytes;
    assert rs[i..][1..] == rs[i + 1..];
    assert done + (RecordBytes(rs[i]) + Encode(rs[i + 1..])) == (done + RecordBytes(rs[i])) + Encode(rs[i + 1..]);
  }

  method WriteRecord(out: array<Byte>, off: nat, r: Record)
    requires off + HEADER + |r.blob| <= out.Length
    modifies out
    ensures out[..off + HEADER + |r.blob|] == old(out[..off]) + RecordBytes(r)
  {
    var d := RecordBytes(r);
    forall i | 0 <= i < |d| {
      out[off + i] := d[i];
    }
  }

  /** Decoding from `cursor` on. */
  lemma DecodeStep(d: seq<Byte>, cursor: nat)
    requires cursor <= |d|
    ensures cursor + HEADER > |d| ==> Decode(d[cursor..]) == []
    ensures cursor + HEADER <= |d| ==>
      var len := LengthOf(d[cursor..cursor + HEADER]);
      Decode(d[cursor..])
      == if cursor + HEADER + len > |d| then []
         else [Record(d[cursor..cursor + 16], d[cursor + 16..cursor + 32], d[cursor + HEADER..cursor + HEADER + len])]
              + Decode(d[cursor + HEADER + len..])
  {
    var tail := d[cursor..];
    if cursor + HEADER <= |d| {
      var head := d[cursor..cursor + HEADER];
      assert LengthOf(head) == LengthOf(tail);
      var len := LengthOf(head);
      hide LengthOf;
      assert tail[..16] == d[cursor..cursor + 16] && tail[16..32] == d[cursor + 16..cursor + 32];
      if cursor + HEADER + len <= |d| {
        assert tail[HEADER..HEADER + len] == d[cursor + HEADER..cursor + HEADER + len];
        assert tail[HEADER + len..] == d[cursor + HEADER + len..];
      }
    }
  }

  method DecodeBlobStream(d: seq<Byte>) returns (rs: seq<Record>)
    ensures rs == Decode(d)
  {
    hide Decode, LengthOf;
    rs := [];
    var cursor: nat := 0;
    assert d[0..] == d;
    while cursor + HEADER <= |d|
      invariant cursor <= |d|
      invariant rs + Decode(d[cursor..]) == Decode(d)
      decreases |d| - cursor
    {
      DecodeStep(d, cursor);
      var len := LengthOf(d[cursor..cursor + HEADER]);
      if cursor + HEADER + len > |d| {
        return;
      }
      var r := Record(d[cursor..cursor + 16], d[cursor + 16..cursor + 32], d[cursor + HEADER..cursor + HEADER + len]);
      assert (rs + [r]) + Decode(d[cursor + HEADER + len..]) == rs + ([r] + Decode(d[cursor + HEADER + len..]));
      rs := rs + [r];
      cursor := cursor + HEADER + len;
    }
    DecodeStep(d, cursor);
  }

  method GapFromPeer(pairs: seq<Pair>, held: set<Id>, subscribed: set<Channel>) returns (wanted: seq<Id>)
    ensures wanted == Gap(pairs, held, subscribed)
  {
    wanted := [];
    var seen: set<Id> := {};
    for i := 0 to |pairs|
      invariant wanted == Gap(pairs[..i], held, subscribed)
      invariant forall id :: id in seen <==> id in wanted
    {
      assert pairs[..i + 1][..i] == pairs[..i];
      var id := pairs[i].1;
      if pairs[i].0 in subscribed && id !in held && id !in seen {
        seen := seen + {id};
        wanted := wanted + [id];
      }
    }
    assert pairs[..|pairs|] == pairs;
  }

  class Node {
    const store: Blobs
    const transferLimit: nat
    const syncLimit: nat
    var syncBytesSent: nat
    var syncPeriodStart: int

    constructor (store: Blobs, transferLimit: nat, syncLimit: nat, now: int)
      ensures this.store == store && CurrentBudget() == Budget(0, now, transferLimit, syncLimit)
    {
      this.store, this.transferLimit, this.syncLimit := store, transferLimit, syncLimit;
      syncBytesSent, syncPeriodStart := 0, now;
    }

    function CurrentBudget(): Budget
      reads this
    {
      Budget(syncBytesSent, syncPeriodStart, transferLimit, syncLimit)
    }

    method Serve(ids: seq<Id>, now: int) returns (stream: array<Byte>)
      modifies `syncBytesSent, `syncPeriodStart
      ensures var (b, rs) := HandleGet(store.State(), old(CurrentBudget()), ids, now);
        fresh(stream) && CurrentBudget() == b && stream[..] == Encode(rs)
    {
      hide Encode;
      if now - syncPeriodStart >= PERIOD {
        syncBytesSent, syncPeriodStart := 0, now;
      }
      ghost var start := CurrentBudget();
      var records := Select(ids);
      stream := EncodeBlobStream(records);
    }

    /** The record of one id, if known; or that its blob is over a budget. */
    method Offer(id: Id, total: nat) returns (r: Option<Record>, over: bool)
      ensures var i := IndexOf(store.metas, id);
        if i == |store.metas| || id !in store.blobs then r == None && !over
        else r == Some(RecordAt(store.State(), i)) && over == !Fits(CurrentBudget(), total, |r.value.blob|)
    {
      var i := store.Find(id);
      if i == |store.metas| || id !in store.blobs {
        return None, false;
      }
      var blob := store.blobs[id];
      return Some(Record(store.metas[i].channel, store.metas[i].id, blob)),
        total + |blob| > transferLimit || syncBytesSent + |blob| > syncLimit;
    }

    /** The loop of `_handleGet`. */
    method Select(ids: seq<Id>) returns (records: seq<Record>)
      modifies `syncBytesSent
      ensures (CurrentBudget(), records) == Collect(store.State(), old(CurrentBudget()), ids, 0)
    {
      hide IndexOf, RecordAt, Collect, Fits;
      records := [];
      var total: nat := 0;
      ghost var p := store.State();
      ghost var all := Collect(p, CurrentBudget(), ids, 0);
      assert ids[0..] == ids && [] + all.1 == all.1;
      for k := 0 to |ids|
        invariant Behind(records, Collect(p, CurrentBudget(), ids[k..], total)) == all
      {
        CollectStep(p, CurrentBudget(), ids, k, total, records);
        var r, over := Offer(ids[k], total);
        if over {
          return;
        }
        if r.Some? {
          records := records + [r.value];
          total := total + |r.value.blob|;
          syncBytesSent := syncBytesSent + |r.value.blob|;
        }
      }
      CollectNothing(p, CurrentBudget(), total);
      assert ids[|ids|..] == [] && records + [] == records;
    }

    /** Offer, gap, get and ingest, against a peer served over a link. */
    method SyncWithPeer(peer: Node, subscribed: set<Channel>, now: int) returns (ingested: nat)
      requires peer != this && peer.store != store
      modifies store, peer`syncBytesSent, peer`syncPeriodStart
      ensures peer.store.State() == old(peer.store.State())
      ensures (store.State(), peer.CurrentBudget())
           == SyncRound(old(store.State()), old(peer.store.State()), old(peer.CurrentBudget()), subscribed, now)
      ensures var wanted := WantedFrom(old(store.State()), old(peer.store.State()), subscribed);
        var rs := HandleGet(old(peer.store.State()), old(peer.CurrentBudget()), wanted, now).1;
        ingested == if wanted == [] then 0 else Ingested(old(store.State()), Decode(Encode(rs)), now)
    {
      hide HandleGet, Gap, Decode, Encode;
      ingested := 0;
      var manifest := Manifest(peer.store.metas);
      var wanted := GapFromPeer(manifest, store.blobs.Keys, subscribed);
      if wanted == [] {
        return;
      }
      var stream := peer.Serve(wanted, now);
      var records := DecodeBlobStream(stream[..]);
      ingested := IngestAll(records, now);
    }

    method IngestAll(records: seq<Record>, now: int) returns (ingested: nat)
      modifies store
      ensures store.State() == Ingest(old(store.State()), records, now)
      ensures ingested == Ingested(old(store.State()), records, now)
    {
      hide StoreWithId;
      ingested := 0;
      for k := 0 to |records|
        invariant store.State() == Ingest(old(store.State()), records[..k], now)
        invariant ingested == Ingested(old(store.State()), records[..k], now)
      {
        assert records[..k + 1][..k] == records[..k];
        if records[k].id !in store.blobs {
          var r := store.StoreBlob(records[k].channel, records[k].id, records[k].blob, now);
          ingested := ingested + 1;
        }
      }
      assert records[..|records|] == records;
    }
  }

  ghost function Behind(front: seq<Record>, r: (Budget, seq<Record>)): (Budget, seq<Record>) {
    (r.0, front + r.1)
  }

  lemma CollectNothing(p: Store, b: Budget, total: nat)
    ensures Collect(p, b, [], total) == (b, [])
  {
  }

  lemma CollectStep(p: Store, b: Budget, ids: seq<Id>, k: nat, total: nat, front: seq<Record>)
    requires k < |ids|
    ensures var i := IndexOf(p.metas, ids[k]);
      if i == |p.metas| || ids[k] !in p.blobs then
        Collect(p, b, ids[k..], total) == Collect(p, b, ids[k + 1..], total)
      else
        var r := RecordAt(p, i);
        if Fits(b, total, |r.blob|) then
          Behind(front, Collect(p, b, ids[k..], total))
          == Behind(front + [r], Collect(p, b.(sent := b.sent + |r.blob|), ids[k + 1..], total + |r.blob|))
        else Behind(front, Collect(p, b, ids[k..], total)) == (b, front)
  {
    hide RecordAt, Fits;
    assert ids[k..][1..] == ids[k + 1..];
    var i := IndexOf(p.metas, ids[k]);
    if i < |p.metas| && ids[k] in p.blobs {
      var r := RecordAt(p, i);
      var rest := Collect(p, b.(sent := b.sent + |r.blob|), ids[k + 1..], total + |r.blob|).1;
      assert front + ([r] + rest) == (front + [r]) + rest;
      assert front + [] == front;
    }
  }
}
