/** The federated node's blob store: two maps, a byte count, a time-to-live sweep and oldest-first eviction. */
module BlobStore {
  import opened Bytes
  import opened Wrappers

  type Id = seq<Byte>
  type Channel = seq<Byte>
  type Data = seq<Byte>

  /** Times are in milliseconds. */
  const TTL := 30 * 24 * 3600 * 1000
  const SWEEP_INTERVAL := 3600 * 1000

  datatype Meta = Meta(id: Id, channel: Channel, received: int, size: nat)

  /** A JavaScript map iterates in insertion order, which `metas` keeps. */
  datatype Store = Store(blobs: map<Id, Data>, metas: seq<Meta>, limit: nat, used: int, lastSweep: int)

  // ---------- what every operation keeps ----------

  function TotalSize(metas: seq<Meta>): nat {
    if metas == [] then 0 else TotalSize(metas[..|metas| - 1]) + metas[|metas| - 1].size
  }

  ghost predicate DistinctIds(metas: seq<Meta>) {
    forall i, j :: 0 <= i < j < |metas| ==> metas[i].id != metas[j].id
  }

  ghost predicate Holds(metas: seq<Meta>, id: Id) {
    exists i :: 0 <= i < |metas| && metas[i].id == id
  }

  /** The maps have the same keys, every size is that of its blob, and `used` is their sum. */
  ghost predicate Valid(s: Store) {
    DistinctIds(s.metas) && Matched(s.blobs, s.metas) && s.used == TotalSize(s.metas)
  }

  ghost predicate Matched(blobs: map<Id, Data>, metas: seq<Meta>) {
    && (forall id :: id in blobs <==> Holds(metas, id))
    && (forall i :: 0 <= i < |metas| ==> metas[i].id in blobs && |blobs[metas[i].id]| == metas[i].size)
  }

  // ---------- operations ----------

  function IndexOf(metas: seq<Meta>, id: Id): (i: nat)
    ensures i <= |metas|
    ensures i < |metas| ==> metas[i].id == id
    ensures forall k :: 0 <= k < i ==> metas[k].id != id
  {
    if metas == [] then 0
    else
      var i := IndexOf(metas[..|metas| - 1], id);
      if i < |metas| - 1 then i
      else if metas[|metas| - 1].id == id then |metas| - 1
      else |metas|
  }

  /** `delete` */
  function Delete(s: Store, id: Id): Store {
    var i := IndexOf(s.metas, id);
    if i == |s.metas| then s
    else s.(metas := s.metas[..i] + s.metas[i + 1..], blobs := s.blobs - {id}, used := s.used - s.metas[i].size)
  }

  function DeleteAll(s: Store, victims: seq<Meta>): Store {
    if victims == [] then s else Delete(DeleteAll(s, victims[..|victims| - 1]), victims[|victims| - 1].id)
  }

  predicate Expired(m: Meta, cutoff: int) {
    m.received > 0 && m.received < cutoff
  }

  function ExpiredOnes(metas: seq<Meta>, cutoff: int): seq<Meta> {
    if metas == [] then []
    else
      var init := ExpiredOnes(metas[..|metas| - 1], cutoff);
      if Expired(metas[|metas| - 1], cutoff) then init + [metas[|metas| - 1]] else init
  }

  /** `_evictOlderThan` */
  function EvictOlder(s: Store, cutoff: int): Store {
    DeleteAll(s, ExpiredOnes(s.metas, cutoff))
  }

  /** Stable insertion behind everything as old or older. */
  function InsertByAge(m: Meta, sorted: seq<Meta>): seq<Meta> {
    if sorted == [] || sorted[|sorted| - 1].received <= m.received then sorted + [m]
    else InsertByAge(m, sorted[..|sorted| - 1]) + [sorted[|sorted| - 1]]
  }

  function ByAge(metas: seq<Meta>): seq<Meta> {
    if metas == [] then [] else InsertByAge(metas[|metas| - 1], ByAge(metas[..|metas| - 1]))
  }

  function EvictFrom(s: Store, oldest: seq<Meta>, needed: nat): Store
    decreases |oldest|
  {
    if oldest == [] || s.used + needed <= s.limit then s
    else EvictFrom(Delete(s, oldest[0].id), oldest[1..], needed)
  }

  /** `_evictToFit` */
  function EvictToFit(s: Store, needed: nat): Store {
    EvictFrom(s, ByAge(s.metas), needed)
  }

  /** The store swept, if a sweep is due. */
  function Swept(s: Store, now: int): Store {
    if now - s.lastSweep > SWEEP_INTERVAL then EvictOlder(s, now - TTL).(lastSweep := now) else s
  }

  function Insert(s: Store, channel: Channel, id: Id, blob: Data, now: int): Store {
    s.(blobs := s.blobs[id := blob], metas := s.metas + [Meta(id, channel, now, |blob|)], used := s.used + |blob|)
  }

  datatype Error = Collision

  /** `storeWithId` */
  function StoreWithId(s: Store, channel: Channel, id: Id, blob: Data, now: int): (Store, Result<Id, Error>) {
    var i := IndexOf(s.metas, id);
    if i < |s.metas| then (s, if s.metas[i].channel == channel then Success(id) else Failure(Collision))
    else (Insert(EvictToFit(Swept(s, now), |blob|), channel, id, blob, now), Success(id))
  }

  // ---------- the maps and the byte count agree in every run ----------

  lemma {:induction false} SizeSplit(a: seq<Meta>, b: seq<Meta>)
    ensures TotalSize(a + b) == TotalSize(a) + TotalSize(b)
    decreases |b|
  {
    if b == [] {
      assert a + b == a;
    } else {
      assert (a + b)[..|a + b| - 1] == a + b[..|b| - 1];
      SizeSplit(a, b[..|b| - 1]);
    }
  }

  lemma SizeOne(m: Meta)
    ensures TotalSize([m]) == m.size
  {
    assert [m][..0] == [];
  }

  lemma SizeWithout(metas: seq<Meta>, i: nat)
    requires i < |metas|
    ensures TotalSize(metas) == TotalSize(metas[..i] + metas[i + 1..]) + metas[i].size
  {
    hide TotalSize;
    assert metas == metas[..i] + ([metas[i]] + metas[i + 1..]);
    SizeOne(metas[i]);
    SizeSplit([metas[i]], metas[i + 1..]);
    SizeSplit(metas[..i], [metas[i]] + metas[i + 1..]);
    SizeSplit(metas[..i], metas[i + 1..]);
  }

  lemma HoldsWithout(metas: seq<Meta>, i: nat, id: Id)
    requires i < |metas| && DistinctIds(metas)
    ensures Holds(metas[..i] + metas[i + 1..], id) <==> Holds(metas, id) && id != metas[i].id
  {
    var rest := metas[..i] + metas[i + 1..];
    if Holds(metas, id) && id != metas[i].id {
      var k :| 0 <= k < |metas| && metas[k].id == id;
      assert rest[if k < i then k else k - 1].id == id;
    }
    if Holds(rest, id) {
      var k :| 0 <= k < |rest| && rest[k].id == id;
      assert metas[if k < i then k else k + 1].id == id;
    }
  }

  /** The entries behind index `i` moved up by one. */
  lemma Shifted(metas: seq<Meta>, i: nat)
    requires i < |metas|
    ensures var rest := metas[..i] + metas[i + 1..];
      |rest| == |metas| - 1 && forall k :: 0 <= k < |rest| ==> rest[k] == metas[if k < i then k else k + 1]
  {
  }

  lemma DistinctWithout(metas: seq<Meta>, i: nat)
    requires i < |metas| && DistinctIds(metas)
    ensures DistinctIds(metas[..i] + metas[i + 1..])
  {
    Shifted(metas, i);
  }

  lemma MatchedWithout(blobs: map<Id, Data>, metas: seq<Meta>, i: nat)
    requires i < |metas| && DistinctIds(metas) && Matched(blobs, metas)
    ensures Matched(blobs - {metas[i].id}, metas[..i] + metas[i + 1..])
  {
    var rest, after := metas[..i] + metas[i + 1..], blobs - {metas[i].id};
    forall id ensures id in after <==> Holds(rest, id) {
      HoldsWithout(metas, i, id);
    }
    Shifted(metas, i);
    hide Holds;
    forall k | 0 <= k < |rest| ensures rest[k].id in after && |after[rest[k].id]| == rest[k].size {
      var at := if k < i then k else k + 1;
      assert rest[k] == metas[at] && metas[at].id in blobs;
      assert metas[at].id != metas[i].id;
    }
  }

  lemma RemovalKeeps(s: Store, i: nat)
    requires Valid(s) && i < |s.metas|
    ensures Valid(s.(metas := s.metas[..i] + s.metas[i + 1..], blobs := s.blobs - {s.metas[i].id}, used := s.used - s.metas[i].size))
  {
    SizeWithout(s.metas, i);
    DistinctWithout(s.metas, i);
    MatchedWithout(s.blobs, s.metas, i);
    hide TotalSize, Matched, DistinctIds;
  }

  lemma DeleteKeeps(s: Store, id: Id)
    requires Valid(s)
    ensures Valid(Delete(s, id)) && id !in Delete(s, id).blobs
    ensures forall other :: other in s.blobs && other != id ==> other in Delete(s, id).blobs && Delete(s, id).blobs[other] == s.blobs[other]
    ensures Delete(s, id).limit == s.limit && Delete(s, id).lastSweep == s.lastSweep
  {
    NotListed(s, id);
    hide Valid, IndexOf;
    var i := IndexOf(s.metas, id);
    if i < |s.metas| {
      RemovalKeeps(s, i);
    }
  }

  lemma NotListed(s: Store, id: Id)
    requires Valid(s)
    ensures id in s.blobs <==> IndexOf(s.metas, id) < |s.metas|
  {
    if id in s.blobs {
      var k :| 0 <= k < |s.metas| && s.metas[k].id == id;
    } else {
      forall k | 0 <= k < |s.metas| ensures s.metas[k].id != id {
        assert Holds(s.metas, s.metas[k].id);
      }
    }
  }

  lemma {:induction false} DeleteAllKeeps(s: Store, victims: seq<Meta>)
    requires Valid(s)
    ensures Valid(DeleteAll(s, victims))
    ensures DeleteAll(s, victims).limit == s.limit && DeleteAll(s, victims).lastSweep == s.lastSweep
    decreases |victims|
  {
    hide Valid, Delete;
    if victims != [] {
      DeleteAllKeeps(s, victims[..|victims| - 1]);
      DeleteKeeps(DeleteAll(s, victims[..|victims| - 1]), victims[|victims| - 1].id);
    }
  }

  lemma {:induction false} EvictFromKeeps(s: Store, oldest: seq<Meta>, needed: nat)
    requires Valid(s)
    ensures Valid(EvictFrom(s, oldest, needed)) && EvictFrom(s, oldest, needed).limit == s.limit
    decreases |oldest|
  {
    hide Valid, Delete;
    if oldest != [] && s.used + needed > s.limit {
      DeleteKeeps(s, oldest[0].id);
      EvictFromKeeps(Delete(s, oldest[0].id), oldest[1..], needed);
    }
  }

  lemma MatchedWith(blobs: map<Id, Data>, metas: seq<Meta>, m: Meta, blob: Data)
    requires Matched(blobs, metas) && m.id !in blobs && |blob| == m.size
    ensures Matched(blobs[m.id := blob], metas + [m])
  {
    var all, after := metas + [m], blobs[m.id := blob];
    forall id ensures id in after <==> Holds(all, id) {
      if Holds(metas, id) {
        var k :| 0 <= k < |metas| && metas[k].id == id;
        assert all[k].id == id;
      }
      assert all[|metas|].id == m.id;
    }
  }

  lemma DistinctWith(blobs: map<Id, Data>, metas: seq<Meta>, m: Meta)
    requires Matched(blobs, metas) && m.id !in blobs && DistinctIds(metas)
    ensures DistinctIds(metas + [m])
  {
  }

  lemma InsertKeeps(s: Store, channel: Channel, id: Id, blob: Data, now: int)
    requires Valid(s) && id !in s.blobs
    ensures Valid(Insert(s, channel, id, blob, now))
  {
    var m := Meta(id, channel, now, |blob|);
    MatchedWith(s.blobs, s.metas, m, blob);
    DistinctWith(s.blobs, s.metas, m);
    assert (s.metas + [m])[..|s.metas|] == s.metas;
    hide Matched, DistinctIds;
  }

  lemma {:induction false} EvictedIsGone(s: Store, oldest: seq<Meta>, needed: nat, id: Id)
    requires Valid(s) && id !in s.blobs
    ensures id !in EvictFrom(s, oldest, needed).blobs
    decreases |oldest|
  {
    hide Valid;
    if oldest != [] && s.used + needed > s.limit {
      DeleteKeeps(s, oldest[0].id);
      EvictedIsGone(Delete(s, oldest[0].id), oldest[1..], needed, id);
    }
  }

  lemma {:induction false} DeletedStaysGone(s: Store, victims: seq<Meta>, id: Id)
    requires Valid(s) && id !in s.blobs
    ensures id !in DeleteAll(s, victims).blobs
    decreases |victims|
  {
    hide Valid;
    if victims != [] {
      DeletedStaysGone(s, victims[..|victims| - 1], id);
    }
  }

  lemma SweptKeeps(s: Store, now: int, id: Id)
    requires Valid(s) && id !in s.blobs
    ensures Valid(Swept(s, now)) && id !in Swept(s, now).blobs && Swept(s, now).limit == s.limit
  {
    var victims := ExpiredOnes(s.metas, now - TTL);
    DeleteAllKeeps(s, victims);
    DeletedStaysGone(s, victims, id);
    hide DeleteAll, TotalSize, DistinctIds, Holds;
  }

  // ---------- a sweep removes exactly what has expired ----------

  lemma LeavesOthers(metas: seq<Meta>, i: nat, m: Meta)
    requires i < |metas| && DistinctIds(metas)
    ensures m in metas[..i] + metas[i + 1..] <==> m in metas && m.id != metas[i].id
  {
    var rest := metas[..i] + metas[i + 1..];
    Shifted(metas, i);
    if m in metas && m.id != metas[i].id {
      var k :| 0 <= k < |metas| && metas[k] == m;
      assert rest[if k < i then k else k - 1] == m;
    }
    if m in rest {
      var k :| 0 <= k < |rest| && rest[k] == m;
      assert rest[k] == metas[if k < i then k else k + 1];
    }
  }

  lemma DeleteLeaves(s: Store, id: Id, m: Meta)
    requires Valid(s)
    ensures m in Delete(s, id).metas <==> m in s.metas && m.id != id
  {
    var i := IndexOf(s.metas, id);
    hide IndexOf, Matched, TotalSize, DistinctIds;
    if i < |s.metas| {
      LeavesOthers(s.metas, i, m);
    }
  }

  lemma {:induction false} DeleteAllLeaves(s: Store, victims: seq<Meta>, m: Meta)
    requires Valid(s)
    ensures m in DeleteAll(s, victims).metas <==> m in s.metas && forall v :: v in victims ==> v.id != m.id
    decreases |victims|
  {
    if victims != [] {
      hide Valid, Delete;
      var init, v := victims[..|victims| - 1], victims[|victims| - 1];
      assert victims == init + [v];
      DeleteAllKeeps(s, init);
      DeleteAllLeaves(s, init, m);
      DeleteLeaves(DeleteAll(s, init), v.id, m);
    }
  }

  lemma {:induction false} ExpiredAre(metas: seq<Meta>, cutoff: int, m: Meta)
    ensures m in ExpiredOnes(metas, cutoff) <==> m in metas && Expired(m, cutoff)
    decreases |metas|
  {
    if metas != [] {
      ExpiredAre(metas[..|metas| - 1], cutoff, m);
      assert metas == metas[..|metas| - 1] + [metas[|metas| - 1]];
    }
  }

  lemma SameEntry(metas: seq<Meta>, a: Meta, b: Meta)
    requires DistinctIds(metas) && a in metas && b in metas && a.id == b.id
    ensures a == b
  {
  }

  lemma SweepIsExact(s: Store, cutoff: int, m: Meta)
    requires Valid(s)
    ensures m in EvictOlder(s, cutoff).metas <==> m in s.metas && !Expired(m, cutoff)
  {
    var victims := ExpiredOnes(s.metas, cutoff);
    DeleteAllLeaves(s, victims, m);
    hide DeleteAll, ExpiredOnes, Matched, TotalSize, DistinctIds, Expired;
    ExpiredAre(s.metas, cutoff, m);
    if m in s.metas && !Expired(m, cutoff) {
      forall v | v in victims ensures v.id != m.id {
        ExpiredAre(s.metas, cutoff, v);
        if v.id == m.id {
          SameEntry(s.metas, v, m);
        }
      }
    }
  }

  // ---------- eviction removes the shortest oldest-first prefix ----------

  ghost predicate Aged(metas: seq<Meta>) {
    forall i, j :: 0 <= i < j < |metas| ==> metas[i].received <= metas[j].received
  }

  lemma {:induction false} InsertKeepsAge(m: Meta, sorted: seq<Meta>)
    requires Aged(sorted)
    ensures Aged(InsertByAge(m, sorted)) && |InsertByAge(m, sorted)| > 0
    ensures var r := InsertByAge(m, sorted);
      r[|r| - 1].received == if |sorted| == 0 then m.received else Max(m.received, sorted[|sorted| - 1].received)
    decreases |sorted|
  {
    if sorted != [] && m.received < sorted[|sorted| - 1].received {
      InsertKeepsAge(m, sorted[..|sorted| - 1]);
    }
  }

  lemma {:induction false} InsertAdds(m: Meta, sorted: seq<Meta>)
    ensures multiset(InsertByAge(m, sorted)) == multiset(sorted) + multiset{m}
    decreases |sorted|
  {
    if sorted != [] && m.received < sorted[|sorted| - 1].received {
      InsertAdds(m, sorted[..|sorted| - 1]);
      assert sorted == sorted[..|sorted| - 1] + [sorted[|sorted| - 1]];
    }
  }

  lemma {:induction false} ByAgeSorts(metas: seq<Meta>)
    ensures Aged(ByAge(metas)) && multiset(ByAge(metas)) == multiset(metas)
    decreases |metas|
  {
    hide InsertByAge, Aged;
    if metas != [] {
      ByAgeSorts(metas[..|metas| - 1]);
      InsertKeepsAge(metas[|metas| - 1], ByAge(metas[..|metas| - 1]));
      InsertAdds(metas[|metas| - 1], ByAge(metas[..|metas| - 1]));
      assert metas == metas[..|metas| - 1] + [metas[|metas| - 1]];
    } else {
      AgedNothing();
    }
  }

  lemma AgedNothing()
    ensures Aged([])
  {
  }

  /** `s` lists exactly what is in `oldest`, each once. */
  ghost predicate Lists(oldest: seq<Meta>, s: Store) {
    multiset(oldest) == multiset(s.metas) && DistinctIds(oldest)
  }

  lemma {:induction false} SizeOfSame(a: seq<Meta>, b: seq<Meta>)
    requires multiset(a) == multiset(b)
    ensures TotalSize(a) == TotalSize(b)
    decreases |a|
  {
    if a == [] {
      assert |b| == |multiset(b)| == 0;
    } else {
      var m, init := a[|a| - 1], a[..|a| - 1];
      assert m in multiset(b);
      var i :| 0 <= i < |b| && b[i] == m;
      hide TotalSize;
      assert a == init + [m];
      assert multiset(a) == multiset(init) + multiset{m};
      SizeSplit(init, [m]);
      SizeOne(m);
      SizeWithout(b, i);
      MultisetWithout(b, i);
      SizeOfSame(init, b[..i] + b[i + 1..]);
    }
  }

  lemma MultisetWithout(metas: seq<Meta>, i: nat)
    requires i < |metas|
    ensures multiset(metas[..i] + metas[i + 1..]) == multiset(metas) - multiset{metas[i]}
  {
    assert metas == metas[..i] + [metas[i]] + metas[i + 1..];
  }

  lemma ListedAt(metas: seq<Meta>, m: Meta)
    requires DistinctIds(metas) && m in multiset(metas)
    ensures IndexOf(metas, m.id) < |metas| && metas[IndexOf(metas, m.id)] == m
  {
    var k :| 0 <= k < |metas| && metas[k] == m;
    assert IndexOf(metas, m.id) == k;
  }

  lemma ListsRest(oldest: seq<Meta>, metas: seq<Meta>, i: nat)
    requires oldest != [] && multiset(oldest) == multiset(metas) && DistinctIds(oldest)
    requires i < |metas| && metas[i] == oldest[0]
    ensures multiset(oldest[1..]) == multiset(metas[..i] + metas[i + 1..]) && DistinctIds(oldest[1..])
  {
    DistinctRest(oldest);
    hide DistinctIds;
    MultisetWithout(metas, i);
    assert oldest == [oldest[0]] + oldest[1..];
    assert multiset(oldest) == multiset{oldest[0]} + multiset(oldest[1..]);
  }

  lemma DistinctRest(oldest: seq<Meta>)
    requires oldest != [] && DistinctIds(oldest)
    ensures DistinctIds(oldest[1..])
  {
  }

  lemma DeleteFirst(s: Store, oldest: seq<Meta>)
    requires Valid(s) && Lists(oldest, s) && oldest != []
    ensures Lists(oldest[1..], Delete(s, oldest[0].id))
    ensures Delete(s, oldest[0].id).used == s.used - oldest[0].size
  {
    var m := oldest[0];
    assert m in multiset(oldest);
    ListedAt(s.metas, m);
    ListsRest(oldest, s.metas, IndexOf(s.metas, m.id));
    hide TotalSize, Valid, DistinctIds, IndexOf;
  }

  /** The first `k` of `oldest` are gone, and no fewer would have done. */
  ghost predicate PrefixGone(s: Store, oldest: seq<Meta>, needed: nat, k: nat, r: Store) {
    && k <= |oldest| && Valid(r) && Lists(oldest[k..], r) && r.limit == s.limit
    && r.used == s.used - TotalSize(oldest[..k])
    && (k < |oldest| ==> r.used + needed <= r.limit)
    && forall j :: 0 <= j < k ==> s.used - TotalSize(oldest[..j]) + needed > s.limit
  }

  lemma OneMoreGone(s: Store, s1: Store, oldest: seq<Meta>, needed: nat, k1: nat, r: Store)
    requires oldest != [] && s.used + needed > s.limit
    requires s1.used == s.used - oldest[0].size && s1.limit == s.limit && PrefixGone(s1, oldest[1..], needed, k1, r)
    ensures PrefixGone(s, oldest, needed, k1 + 1, r)
  {
    var rest := oldest[1..];
    assert rest[k1..] == oldest[k1 + 1..];
    assert oldest[..0] == [];
    PrefixSize(oldest, k1 + 1);
    forall j | 0 <= j < k1 + 1 ensures s.used - TotalSize(oldest[..j]) + needed > s.limit {
      if j > 0 {
        PrefixSize(oldest, j);
        assert s1.used - TotalSize(rest[..j - 1]) + needed > s1.limit;
      }
    }
    hide Valid, Lists;
  }

  lemma NoneGone(s: Store, oldest: seq<Meta>, needed: nat)
    requires Valid(s) && Lists(oldest, s) && (oldest == [] || s.used + needed <= s.limit)
    ensures PrefixGone(s, oldest, needed, 0, s)
  {
    hide Valid, Lists;
    assert oldest[0..] == oldest && oldest[..0] == [];
  }

  lemma {:induction false} EvictFromIsPrefix(s: Store, oldest: seq<Meta>, needed: nat) returns (k: nat)
    requires Valid(s) && Lists(oldest, s)
    ensures PrefixGone(s, oldest, needed, k, EvictFrom(s, oldest, needed))
    decreases |oldest|
  {
    if oldest == [] || s.used + needed <= s.limit {
      k := 0;
      NoneGone(s, oldest, needed);
      hide Valid, Lists, Delete, PrefixGone;
    } else {
      var s1 := Delete(s, oldest[0].id);
      DeleteKeeps(s, oldest[0].id);
      DeleteFirst(s, oldest);
      EvictStep(s, oldest, needed);
      hide Valid, Lists, EvictFrom, Delete, PrefixGone;
      var k1 := EvictFromIsPrefix(s1, oldest[1..], needed);
      OneMoreGone(s, s1, oldest, needed, k1, EvictFrom(s1, oldest[1..], needed));
      k := k1 + 1;
    }
  }

  lemma EvictStep(s: Store, oldest: seq<Meta>, needed: nat)
    requires oldest != [] && s.used + needed > s.limit
    ensures EvictFrom(s, oldest, needed) == EvictFrom(Delete(s, oldest[0].id), oldest[1..], needed)
  {
    hide Delete;
  }

  lemma PrefixSize(oldest: seq<Meta>, j: nat)
    requires 0 < j <= |oldest|
    ensures TotalSize(oldest[..j]) == oldest[0].size + TotalSize(oldest[1..][..j - 1])
  {
    assert oldest[..j] == [oldest[0]] + oldest[1..][..j - 1];
    SizeOne(oldest[0]);
    SizeSplit([oldest[0]], oldest[1..][..j - 1]);
  }

  /**
   Making room removes the shortest oldest-first run of blobs that makes room, or everything when
   nothing less does.
   */
  lemma EvictsShortestPrefix(s: Store, needed: nat) returns (k: nat)
    requires Valid(s)
    ensures var r, oldest := EvictToFit(s, needed), ByAge(s.metas);
      && k <= |oldest| && Aged(oldest) && multiset(oldest) == multiset(s.metas)
      && Valid(r) && multiset(r.metas) == multiset(oldest[k..]) && r.limit == s.limit
      && (k < |oldest| ==> r.used + needed <= s.limit)
      && (k == |oldest| ==> r.used == 0)
      && forall j :: 0 <= j < k ==> s.used - TotalSize(oldest[..j]) + needed > s.limit
  {
    var oldest := ByAge(s.metas);
    ByAgeSorts(s.metas);
    SameIds(oldest, s.metas);
    k := EvictFromIsPrefix(s, oldest, needed);
    if k == |oldest| {
      AllGone(s, oldest, needed, EvictToFit(s, needed));
    }
    hide ByAge, EvictFrom, Valid, Aged, DistinctIds, TotalSize;
  }

  lemma AllGone(s: Store, oldest: seq<Meta>, needed: nat, r: Store)
    requires PrefixGone(s, oldest, needed, |oldest|, r)
    ensures r.used == 0
  {
    assert oldest[|oldest|..] == [];
    assert |r.metas| == |multiset(r.metas)| == 0;
  }

  lemma SameIds(a: seq<Meta>, b: seq<Meta>)
    requires multiset(a) == multiset(b) && DistinctIds(b)
    ensures DistinctIds(a)
  {
    forall i, j | 0 <= i < j < |a| ensures a[i].id != a[j].id {
      if a[i].id == a[j].id {
        assert a[i] in multiset(b) && a[j] in multiset(b);
        var p :| 0 <= p < |b| && b[p] == a[i];
        var q :| 0 <= q < |b| && b[q] == a[j];
        assert p == q;
        Twice(a, i, j);
        Once(b, p);
      }
    }
  }

  lemma Twice(a: seq<Meta>, i: nat, j: nat)
    requires i < j < |a| && a[i] == a[j]
    ensures multiset(a)[a[i]] >= 2
  {
    assert a == a[..i] + [a[i]] + a[i + 1..j] + [a[j]] + a[j + 1..];
  }

  lemma Once(b: seq<Meta>, p: nat)
    requires p < |b| && DistinctIds(b)
    ensures multiset(b)[b[p]] == 1
  {
    assert b == b[..p] + [b[p]] + b[p + 1..];
    assert b[p] !in b[..p] && b[p] !in b[p + 1..];
  }

  /**
   Storing a new blob keeps the maps and the count in step, holds exactly this blob under its id, and
   leaves no more than the limit, or than the blob itself.
   */
  lemma StoreAccounts(s: Store, channel: Channel, id: Id, blob: Data, now: int)
    requires Valid(s)
    ensures var (s', r) := StoreWithId(s, channel, id, blob, now);
      && Valid(s') && s'.limit == s.limit
      && if id in s.blobs then s' == s
         else r == Success(id) && id in s'.blobs && s'.blobs[id] == blob && s'.used <= Max(s.limit, |blob|)
              && s'.metas[|s'.metas| - 1] == Meta(id, channel, now, |blob|)
  {
    hide EvictToFit, TotalSize;
    NotListed(s, id);
    if id !in s.blobs {
      SweptKeeps(s, now, id);
      var swept := Swept(s, now);
      var k := EvictsShortestPrefix(swept, |blob|);
      EvictedIsGone(swept, ByAge(swept.metas), |blob|, id);
      assert EvictToFit(swept, |blob|) == EvictFrom(swept, ByAge(swept.metas), |blob|) by {
        FitIsFrom(swept, |blob|);
      }
      InsertKeeps(EvictToFit(swept, |blob|), channel, id, blob, now);
    }
  }

  lemma FitIsFrom(s: Store, needed: nat)
    ensures EvictToFit(s, needed) == EvictFrom(s, ByAge(s.metas), needed)
  {
  }

  function Max(a: int, b: int): int {
    if a < b then b else a
  }

  // ---------- runs ----------

  datatype Op =
    | Put(channel: Channel, id: Id, blob: Data, at: int)
    | Remove(id: Id)
    | Prune(cutoff: int)

  function Apply(s: Store, op: Op): Store {
    match op
    case Put(channel, id, blob, at) => StoreWithId(s, channel, id, blob, at).0
    case Remove(id) => Delete(s, id)
    case Prune(cutoff) => EvictOlder(s, cutoff)
  }

  function ApplyAll(s: Store, ops: seq<Op>): Store {
    if ops == [] then s else Apply(ApplyAll(s, ops[..|ops| - 1]), ops[|ops| - 1])
  }

  /** Across any run of stores, deletes and sweeps. */
  lemma {:induction false} RunKeeps(s: Store, ops: seq<Op>)
    requires Valid(s)
    ensures Valid(ApplyAll(s, ops))
    decreases |ops|
  {
    hide Valid, StoreWithId, Delete, DeleteAll;
    if ops != [] {
      var before := ApplyAll(s, ops[..|ops| - 1]);
      RunKeeps(s, ops[..|ops| - 1]);
      match ops[|ops| - 1]
      case Put(channel, id, blob, at) => StoreAccounts(before, channel, id, blob, at);
      case Remove(id) => DeleteKeeps(before, id);
      case Prune(cutoff) => DeleteAllKeeps(before, ExpiredOnes(before.metas, cutoff));
    }
  }

  // ---------- the program ----------

  class Blobs {
    var blobs: map<Id, Data>
    var metas: seq<Meta>
    const limit: nat
    var used: int
    var lastSweep: int

    function State(): Store
      reads this
    {
      Store(blobs, metas, limit, used, lastSweep)
    }

    constructor (limit: nat)
      ensures State() == Store(map[], [], limit, 0, 0) && Valid(State())
    {
      blobs, metas, this.limit, used, lastSweep := map[], [], limit, 0, 0;
    }

    method Find(id: Id) returns (i: nat)
      ensures i == IndexOf(metas, id)
    {
      i := 0;
      while i < |metas| && metas[i].id != id
        invariant i <= |metas|
        invariant forall k :: 0 <= k < i ==> metas[k].id != id
      {
        i := i + 1;
      }
      FirstIndex(metas, id, i);
    }

    method Remove(id: Id) returns (removed: bool)
      modifies this
      ensures State() == Delete(old(State()), id) && removed == (IndexOf(old(metas), id) < |old(metas)|)
    {
      var i := Find(id);
      if i == |metas| {
        return false;
      }
      used := used - metas[i].size;
      metas := metas[..i] + metas[i + 1..];
      blobs := blobs - {id};
      return true;
    }

    method SweepOlder(cutoff: int) returns (count: nat)
      modifies this
      ensures State() == EvictOlder(old(State()), cutoff)
    {
      hide Delete;
      count := 0;
      var all := metas;
      for k := 0 to |all|
        invariant State() == DeleteAll(old(State()), ExpiredOnes(all[..k], cutoff))
      {
        assert all[..k + 1][..k] == all[..k];
        if Expired(all[k], cutoff) {
          var victims := ExpiredOnes(all[..k], cutoff);
          assert (victims + [all[k]])[..|victims|] == victims;
          var removed := Remove(all[k].id);
          count := count + 1;
        }
      }
      assert all[..|all|] == all;
    }

    method MakeRoom(needed: nat)
      modifies this
      ensures State() == EvictToFit(old(State()), needed)
    {
      hide Delete;
      if used + needed <= limit {
        return;
      }
      var oldest := Sort(metas);
      var k := 0;
      while k < |oldest| && used + needed > limit
        invariant k <= |oldest|
        invariant EvictFrom(State(), oldest[k..], needed) == EvictFrom(old(State()), oldest, needed)
        decreases |oldest| - k
      {
        assert oldest[k..][1..] == oldest[k + 1..];
        var removed := Remove(oldest[k].id);
        k := k + 1;
      }
    }

    method StoreBlob(channel: Channel, id: Id, blob: Data, now: int) returns (r: Result<Id, Error>)
      modifies this
      ensures (State(), r) == StoreWithId(old(State()), channel, id, blob, now)
    {
      hide EvictToFit, EvictOlder;
      var i := Find(id);
      if i < |metas| {
        return if metas[i].channel == channel then Success(id) else Failure(Collision);
      }
      if now - lastSweep > SWEEP_INTERVAL {
        var swept := SweepOlder(now - TTL);
        lastSweep := now;
      }
      MakeRoom(|blob|);
      blobs := blobs[id := blob];
      metas := metas + [Meta(id, channel, now, |blob|)];
      used := used + |blob|;
      return Success(id);
    }
  }

  lemma FirstIndex(metas: seq<Meta>, id: Id, i: nat)
    requires i <= |metas| && (forall k :: 0 <= k < i ==> metas[k].id != id) && (i < |metas| ==> metas[i].id == id)
    ensures IndexOf(metas, id) == i
  {
    hide IndexOf;
  }

  method InsertAged(m: Meta, sorted: seq<Meta>) returns (r: seq<Meta>)
    ensures r == InsertByAge(m, sorted)
  {
    var at: nat := |sorted|;
    assert sorted[..at] == sorted && sorted[at..] == [];
    while at > 0 && m.received < sorted[at - 1].received
      invariant at <= |sorted|
      invariant InsertByAge(m, sorted[..at]) + sorted[at..] == InsertByAge(m, sorted)
    {
      assert sorted[..at][..at - 1] == sorted[..at - 1];
      InsertAgedStep(m, sorted, at);
      at := at - 1;
    }
    assert at > 0 ==> sorted[..at][at - 1] == sorted[at - 1];
    r := sorted[..at] + [m] + sorted[at..];
  }

  lemma InsertAgedStep(m: Meta, sorted: seq<Meta>, at: nat)
    requires 0 < at <= |sorted| && m.received < sorted[at - 1].received
    ensures InsertByAge(m, sorted[..at]) + sorted[at..] == InsertByAge(m, sorted[..at - 1]) + sorted[at - 1..]
  {
    var init := InsertByAge(m, sorted[..at - 1]);
    assert sorted[..at][..at - 1] == sorted[..at - 1];
    assert InsertByAge(m, sorted[..at]) == init + [sorted[at - 1]];
    assert [sorted[at - 1]] + sorted[at..] == sorted[at - 1..];
  }

  method Sort(metas: seq<Meta>) returns (sorted: seq<Meta>)
    ensures sorted == ByAge(metas)
  {
    sorted := [];
    for i := 0 to |metas|
      invariant sorted == ByAge(metas[..i])
    {
      assert metas[..i + 1][..i] == metas[..i];
      sorted := InsertAged(metas[i], sorted);
    }
    assert metas[..|metas|] == metas;
  }
}
