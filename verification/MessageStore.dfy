/** A propagation node's message store: each entry knows which peers have it and which still need it. */
module MessageStore {
  import opened Bytes
  import opened Wrappers

  type Tid = seq<Byte>
  type Peer = seq<Byte>

  datatype Entry = Entry(id: Tid, destination: seq<Byte>, data: seq<Byte>, size: nat, stampValue: int, received: int,
                         handled: set<Peer>, unhandled: set<Peer>)

  /** The eviction weight of an entry at some moment: its age times its size. */
  type Weight = Entry -> real

  /** The entries in the iteration order of the JavaScript map that holds them. */
  datatype Store = Store(entries: seq<Entry>, total: int, limit: Option<nat>)

  function Sizes(es: seq<Entry>): nat {
    if es == [] then 0 else Sizes(es[..|es| - 1]) + es[|es| - 1].size
  }

  /** Each id once, the total right, and no peer both handled and unhandled. */
  ghost predicate Valid(s: Store) {
    DistinctIds(s.entries) && s.total == Sizes(s.entries) && Disjoint(s.entries)
  }

  ghost predicate DistinctIds(es: seq<Entry>) {
    forall i, j :: 0 <= i < j < |es| ==> es[i].id != es[j].id
  }

  ghost predicate Disjoint(es: seq<Entry>) {
    forall i :: 0 <= i < |es| ==> es[i].handled !! es[i].unhandled
  }

  function IndexOf(es: seq<Entry>, id: Tid): (i: nat)
    ensures i <= |es|
    ensures i < |es| ==> es[i].id == id
    ensures forall k :: 0 <= k < i ==> es[k].id != id
  {
    if es == [] then 0
    else
      var i := IndexOf(es[..|es| - 1], id);
      if i < |es| - 1 || es[|es| - 1].id == id then i else |es|
  }

  predicate Has(s: Store, id: Tid) {
    IndexOf(s.entries, id) < |s.entries|
  }

  predicate HandledBy(s: Store, id: Tid, p: Peer) {
    Has(s, id) && p in s.entries[IndexOf(s.entries, id)].handled
  }

  // ---------- operations ----------

  function Remove(s: Store, id: Tid): Store {
    var i := IndexOf(s.entries, id);
    if i == |s.entries| then s
    else s.(entries := s.entries[..i] + s.entries[i + 1..], total := s.total - s.entries[i].size)
  }

  /** Stable insertion behind everything as light or lighter. */
  function InsertByWeight(e: Entry, sorted: seq<Entry>, w: Weight): seq<Entry> {
    if sorted == [] || w(sorted[|sorted| - 1]) <= w(e) then sorted + [e]
    else InsertByWeight(e, sorted[..|sorted| - 1], w) + [sorted[|sorted| - 1]]
  }

  function ByWeight(es: seq<Entry>, w: Weight): seq<Entry> {
    if es == [] then [] else InsertByWeight(es[|es| - 1], ByWeight(es[..|es| - 1], w), w)
  }

  function Negated(w: Weight): Weight {
    e => 0.0 - w(e)
  }

  function EvictFrom(s: Store, ranked: seq<Entry>, limit: nat): Store
    decreases |ranked|
  {
    if ranked == [] || s.total <= limit then s
    else EvictFrom(Remove(s, ranked[0].id), ranked[1..], limit)
  }

  /** `_enforceCapacity`: the heaviest go first. */
  function EnforceCapacity(s: Store, w: Weight): Store {
    if s.limit.None? then s else EvictFrom(s, ByWeight(s.entries, Negated(w)), s.limit.value)
  }

  function Add(s: Store, e: Entry, w: Weight): (Store, bool) {
    if Has(s, e.id) then (s, false)
    else (EnforceCapacity(s.(entries := s.entries + [e], total := s.total + e.size), w), true)
  }

  function SetPeers(s: Store, i: nat, handled: set<Peer>, unhandled: set<Peer>): Store
    requires i < |s.entries|
  {
    s.(entries := s.entries[i := s.entries[i].(handled := handled, unhandled := unhandled)])
  }

  function MarkHandled(s: Store, id: Tid, p: Peer): Store {
    var i := IndexOf(s.entries, id);
    if i == |s.entries| then s else SetPeers(s, i, s.entries[i].handled + {p}, s.entries[i].unhandled - {p})
  }

  function MarkUnhandled(s: Store, id: Tid, p: Peer): Store {
    var i := IndexOf(s.entries, id);
    if i == |s.entries| then s else SetPeers(s, i, s.entries[i].handled - {p}, s.entries[i].unhandled + {p})
  }

  function AllUnhandled(es: seq<Entry>, p: Peer): (r: seq<Entry>)
    ensures |r| == |es|
    ensures forall i :: 0 <= i < |es| ==>
      r[i] == if p in es[i].unhandled then es[i]
              else es[i].(unhandled := es[i].unhandled + {p}, handled := es[i].handled - {p})
  {
    seq(|es|, i requires 0 <= i < |es| =>
      if p in es[i].unhandled then es[i]
      else es[i].(unhandled := es[i].unhandled + {p}, handled := es[i].handled - {p}))
  }

  function MarkAllUnhandled(s: Store, p: Peer): Store {
    s.(entries := AllUnhandled(s.entries, p))
  }

  function Young(es: seq<Entry>, cutoff: int): seq<Entry> {
    if es == [] then []
    else
      var init := Young(es[..|es| - 1], cutoff);
      if es[|es| - 1].received < cutoff then init else init + [es[|es| - 1]]
  }

  function Prune(s: Store, cutoff: Option<int>, w: Weight): Store {
    var young := if cutoff.None? then s.entries else Young(s.entries, cutoff.value);
    EnforceCapacity(s.(entries := young, total := s.total - (Sizes(s.entries) - Sizes(young))), w)
  }

  function Needing(es: seq<Entry>, p: Peer, minCost: int): seq<Entry> {
    if es == [] then []
    else
      var init, e := Needing(es[..|es| - 1], p, minCost), es[|es| - 1];
      if p in e.unhandled && e.stampValue >= minCost then init + [e] else init
  }

  /** `unhandledEntriesForPeer`: lightest first. */
  function UnhandledFor(s: Store, p: Peer, minCost: int, w: Weight): seq<Entry> {
    ByWeight(Needing(s.entries, p, minCost), w)
  }

  // ---------- what every operation keeps ----------

  lemma {:induction false} SizesSplit(a: seq<Entry>, b: seq<Entry>)
    ensures Sizes(a + b) == Sizes(a) + Sizes(b)
    decreases |b|
  {
    if b == [] {
      assert a + b == a;
    } else {
      assert (a + b)[..|a + b| - 1] == a + b[..|b| - 1];
      SizesSplit(a, b[..|b| - 1]);
    }
  }

  lemma SizesOne(e: Entry)
    ensures Sizes([e]) == e.size
  {
    assert [e][..0] == [];
  }

  lemma SizesWithout(es: seq<Entry>, i: nat)
    requires i < |es|
    ensures Sizes(es[..i] + es[i + 1..]) == Sizes(es) - es[i].size
  {
    hide Sizes;
    assert es == es[..i] + ([es[i]] + es[i + 1..]);
    SizesOne(es[i]);
    SizesSplit([es[i]], es[i + 1..]);
    SizesSplit(es[..i], [es[i]] + es[i + 1..]);
    SizesSplit(es[..i], es[i + 1..]);
  }

  lemma {:induction false} SizesAlike(a: seq<Entry>, b: seq<Entry>)
    requires |a| == |b| && forall i :: 0 <= i < |a| ==> a[i].size == b[i].size
    ensures Sizes(a) == Sizes(b)
    decreases |a|
  {
    if a != [] {
      SizesAlike(a[..|a| - 1], b[..|b| - 1]);
    }
  }

  lemma RemoveKeeps(s: Store, id: Tid)
    requires Valid(s)
    ensures Valid(Remove(s, id)) && Remove(s, id).limit == s.limit
    ensures forall e :: e in Remove(s, id).entries ==> e in s.entries
  {
    var i := IndexOf(s.entries, id);
    if i < |s.entries| {
      SizesWithout(s.entries, i);
      WithoutKeeps(s.entries, i);
      hide Sizes, IndexOf, DistinctIds, Disjoint;
    }
  }

  lemma WithoutKeeps(es: seq<Entry>, i: nat)
    requires i < |es| && DistinctIds(es) && Disjoint(es)
    ensures var rest := es[..i] + es[i + 1..];
      DistinctIds(rest) && Disjoint(rest) && forall e :: e in rest ==> e in es
  {
    var rest := es[..i] + es[i + 1..];
    assert forall k :: 0 <= k < |rest| ==> rest[k] == es[if k < i then k else k + 1];
  }

  lemma {:induction false} EvictKeeps(s: Store, ranked: seq<Entry>, limit: nat)
    requires Valid(s)
    ensures Valid(EvictFrom(s, ranked, limit)) && EvictFrom(s, ranked, limit).limit == s.limit
    ensures forall e :: e in EvictFrom(s, ranked, limit).entries ==> e in s.entries
    decreases |ranked|
  {
    if ranked != [] && s.total > limit {
      RemoveKeeps(s, ranked[0].id);
      hide Valid, Remove;
      EvictKeeps(Remove(s, ranked[0].id), ranked[1..], limit);
    }
  }

  lemma CapacityKeeps(s: Store, w: Weight)
    requires Valid(s)
    ensures Valid(EnforceCapacity(s, w)) && EnforceCapacity(s, w).limit == s.limit
    ensures forall e :: e in EnforceCapacity(s, w).entries ==> e in s.entries
  {
    hide Valid, EvictFrom;
    if s.limit.Some? {
      EvictKeeps(s, ByWeight(s.entries, Negated(w)), s.limit.value);
    }
  }

  /** Ranking loses nothing. */
  lemma {:induction false} InsertAdds(e: Entry, sorted: seq<Entry>, w: Weight)
    ensures multiset(InsertByWeight(e, sorted, w)) == multiset(sorted) + multiset{e}
    decreases |sorted|
  {
    if sorted != [] && w(sorted[|sorted| - 1]) > w(e) {
      InsertAdds(e, sorted[..|sorted| - 1], w);
      assert sorted == sorted[..|sorted| - 1] + [sorted[|sorted| - 1]];
    }
  }

  lemma {:induction false} RankedAll(es: seq<Entry>, w: Weight)
    ensures multiset(ByWeight(es, w)) == multiset(es)
    decreases |es|
  {
    if es != [] {
      RankedAll(es[..|es| - 1], w);
      InsertAdds(es[|es| - 1], ByWeight(es[..|es| - 1], w), w);
      assert es == es[..|es| - 1] + [es[|es| - 1]];
    }
  }

  ghost predicate Ascending(es: seq<Entry>, w: Weight) {
    forall i, j :: 0 <= i < j < |es| ==> w(es[i]) <= w(es[j])
  }

  lemma {:induction false} InsertAscends(e: Entry, sorted: seq<Entry>, w: Weight)
    requires Ascending(sorted, w)
    ensures Ascending(InsertByWeight(e, sorted, w), w) && |InsertByWeight(e, sorted, w)| > 0
    ensures var r := InsertByWeight(e, sorted, w);
      w(r[|r| - 1]) == w(e) || (sorted != [] && w(e) <= w(sorted[|sorted| - 1]) == w(r[|r| - 1]))
    decreases |sorted|
  {
    if sorted != [] && w(sorted[|sorted| - 1]) > w(e) {
      InsertAscends(e, sorted[..|sorted| - 1], w);
    }
  }

  /** Offers go out lightest first, and everything a peer still needs at its price is among them. */
  lemma {:induction false} RankedAscends(es: seq<Entry>, w: Weight)
    ensures Ascending(ByWeight(es, w), w)
    decreases |es|
  {
    if es != [] {
      RankedAscends(es[..|es| - 1], w);
      InsertAscends(es[|es| - 1], ByWeight(es[..|es| - 1], w), w);
    }
  }

  /** All that is listed and not yet removed is still in the ranking. */
  ghost predicate Covers(ranked: seq<Entry>, s: Store) {
    forall e :: e in s.entries ==> exists k :: 0 <= k < |ranked| && ranked[k].id == e.id
  }

  lemma RemoveCovers(s: Store, ranked: seq<Entry>)
    requires Valid(s) && ranked != [] && Covers(ranked, s)
    ensures Covers(ranked[1..], Remove(s, ranked[0].id))
  {
    var s' := Remove(s, ranked[0].id);
    RemoveKeeps(s, ranked[0].id);
    forall e | e in s'.entries ensures exists k :: 0 <= k < |ranked[1..]| && ranked[1..][k].id == e.id {
      var k :| 0 <= k < |ranked| && ranked[k].id == e.id;
      RemovedIsGone(s, ranked[0].id, e);
      assert ranked[1..][k - 1].id == e.id;
    }
  }

  lemma RemovedIsGone(s: Store, id: Tid, e: Entry)
    requires Valid(s) && e in Remove(s, id).entries
    ensures e.id != id
  {
    var i := IndexOf(s.entries, id);
    if i < |s.entries| {
      var rest := s.entries[..i] + s.entries[i + 1..];
      var k :| 0 <= k < |rest| && rest[k] == e;
      assert rest[k] == s.entries[if k < i then k else k + 1];
    }
  }

  lemma CoverIsNotEmpty(s: Store, ranked: seq<Entry>)
    requires Covers(ranked, s) && s.entries != []
    ensures ranked != []
  {
    var e := s.entries[0];
    assert e in s.entries;
    var k :| 0 <= k < |ranked| && ranked[k].id == e.id;
  }

  lemma {:induction false} EvictFits(s: Store, ranked: seq<Entry>, limit: nat)
    requires Valid(s) && Covers(ranked, s)
    ensures EvictFrom(s, ranked, limit).total <= limit
    decreases |ranked|
  {
    if s.entries != [] {
      CoverIsNotEmpty(s, ranked);
    }
    if ranked != [] && s.total > limit {
      RemoveKeeps(s, ranked[0].id);
      RemoveCovers(s, ranked);
      hide Valid, Covers, Remove;
      EvictFits(Remove(s, ranked[0].id), ranked[1..], limit);
    }
  }

  /** After enforcing a cap the total is within it, whatever the weights. */
  lemma CapacityFits(s: Store, w: Weight)
    requires Valid(s) && s.limit.Some?
    ensures EnforceCapacity(s, w).total <= s.limit.value
  {
    var ranked := ByWeight(s.entries, Negated(w));
    RankedAll(s.entries, Negated(w));
    hide ByWeight, EvictFrom, Valid;
    forall e | e in s.entries ensures exists k :: 0 <= k < |ranked| && ranked[k].id == e.id {
      assert e in multiset(ranked);
      var k :| 0 <= k < |ranked| && ranked[k] == e;
    }
    EvictFits(s, ranked, s.limit.value);
  }

  // ---------- eviction removes the shortest heaviest-first front ----------

  lemma Without(es: seq<Entry>, i: nat, e: Entry)
    requires i < |es| && DistinctIds(es)
    ensures e in es[..i] + es[i + 1..] <==> e in es && e.id != es[i].id
  {
    var rest := es[..i] + es[i + 1..];
    assert forall k :: 0 <= k < |rest| ==> rest[k] == es[if k < i then k else k + 1];
    if e in es && e.id != es[i].id {
      var k :| 0 <= k < |es| && es[k] == e;
      assert rest[if k < i then k else k - 1] == e;
    }
  }

  lemma RemoveLeaves(s: Store, id: Tid, e: Entry)
    requires Valid(s)
    ensures e in Remove(s, id).entries <==> e in s.entries && e.id != id
  {
    var i := IndexOf(s.entries, id);
    hide IndexOf, Sizes, Disjoint, DistinctIds;
    if i < |s.entries| {
      Without(s.entries, i, e);
    }
  }

  lemma RemoveTotal(s: Store, e: Entry)
    requires Valid(s) && e in s.entries
    ensures Remove(s, e.id).total == s.total - e.size
  {
    var k :| 0 <= k < |s.entries| && s.entries[k] == e;
    assert IndexOf(s.entries, e.id) == k;
    hide IndexOf, Sizes;
  }

  /** `ranked` lists exactly what `s` holds, each once. */
  ghost predicate Ranks(ranked: seq<Entry>, s: Store) {
    DistinctIds(ranked) && forall e :: e in ranked <==> e in s.entries
  }

  lemma {:induction false} InsertDistinct(e: Entry, sorted: seq<Entry>, w: Weight)
    requires DistinctIds(sorted) && forall x :: x in sorted ==> x.id != e.id
    ensures DistinctIds(InsertByWeight(e, sorted, w))
    ensures forall x :: x in InsertByWeight(e, sorted, w) <==> x in sorted || x == e
    decreases |sorted|
  {
    if sorted != [] && w(sorted[|sorted| - 1]) > w(e) {
      var init, last := sorted[..|sorted| - 1], sorted[|sorted| - 1];
      assert sorted == init + [last];
      InsertDistinct(e, init, w);
      LastApart(sorted, e, InsertByWeight(e, init, w));
    }
  }

  lemma LastApart(sorted: seq<Entry>, e: Entry, r: seq<Entry>)
    requires sorted != [] && DistinctIds(sorted) && sorted[|sorted| - 1].id != e.id
    requires DistinctIds(r) && forall x :: x in r ==> x in sorted[..|sorted| - 1] || x == e
    ensures DistinctIds(r + [sorted[|sorted| - 1]])
  {
    forall i | 0 <= i < |r| ensures r[i].id != sorted[|sorted| - 1].id {
      assert r[i] in r;
    }
  }

  lemma {:induction false} RankedDistinct(es: seq<Entry>, w: Weight)
    requires DistinctIds(es)
    ensures DistinctIds(ByWeight(es, w)) && forall e :: e in ByWeight(es, w) <==> e in es
    decreases |es|
  {
    hide InsertByWeight;
    if es != [] {
      var init, last := es[..|es| - 1], es[|es| - 1];
      assert es == init + [last];
      RankedDistinct(init, w);
      forall x | x in ByWeight(init, w) ensures x.id != last.id {
        var k :| 0 <= k < |init| && init[k] == x;
      }
      InsertDistinct(last, ByWeight(init, w), w);
    }
  }

  lemma RankedRest(s: Store, ranked: seq<Entry>)
    requires Valid(s) && ranked != [] && Ranks(ranked, s)
    ensures Ranks(ranked[1..], Remove(s, ranked[0].id))
    ensures Remove(s, ranked[0].id).total == s.total - ranked[0].size
  {
    var s1, rest := Remove(s, ranked[0].id), ranked[1..];
    assert ranked[0] in s.entries;
    RemoveTotal(s, ranked[0]);
    hide Valid, Remove;
    forall e ensures e in rest <==> e in s1.entries {
      RemoveLeaves(s, ranked[0].id, e);
      RestOf(ranked, e);
    }
    assert forall k :: 0 <= k < |rest| ==> rest[k] == ranked[k + 1];
  }

  lemma RestOf(ranked: seq<Entry>, e: Entry)
    requires ranked != [] && DistinctIds(ranked)
    ensures e in ranked[1..] <==> e in ranked && e.id != ranked[0].id
  {
    var rest := ranked[1..];
    if e in rest {
      var k :| 0 <= k < |rest| && rest[k] == e;
      assert ranked[k + 1] == e;
    }
    if e in ranked && e.id != ranked[0].id {
      var k :| 0 <= k < |ranked| && ranked[k] == e;
      assert rest[k - 1] == e;
    }
  }

  /** The first `k` of `ranked` are gone, and no fewer would have done. */
  ghost predicate FrontGone(s: Store, ranked: seq<Entry>, limit: nat, k: nat, r: Store) {
    && k <= |ranked| && (forall e :: e in r.entries <==> e in ranked[k..])
    && r.total == s.total - Sizes(ranked[..k])
    && (k < |ranked| ==> r.total <= limit)
    && forall j :: 0 <= j < k ==> s.total - Sizes(ranked[..j]) > limit
  }

  lemma FrontSize(ranked: seq<Entry>, j: nat)
    requires 0 < j <= |ranked|
    ensures Sizes(ranked[..j]) == ranked[0].size + Sizes(ranked[1..][..j - 1])
  {
    assert ranked[..j] == [ranked[0]] + ranked[1..][..j - 1];
    SizesOne(ranked[0]);
    SizesSplit([ranked[0]], ranked[1..][..j - 1]);
  }

  lemma OneMoreGone(s: Store, s1: Store, ranked: seq<Entry>, limit: nat, k1: nat, r: Store)
    requires ranked != [] && s.total > limit && s1.total == s.total - ranked[0].size
    requires FrontGone(s1, ranked[1..], limit, k1, r)
    ensures FrontGone(s, ranked, limit, k1 + 1, r)
  {
    var rest := ranked[1..];
    assert rest[k1..] == ranked[k1 + 1..];
    assert Sizes(ranked[..0]) == 0;
    FrontSize(ranked, k1 + 1);
    hide Sizes;
    forall j | 0 <= j < k1 + 1 ensures s.total - Sizes(ranked[..j]) > limit {
      if j > 0 {
        FrontSize(ranked, j);
        assert s1.total - Sizes(rest[..j - 1]) > limit;
      }
    }
  }

  lemma NoneGone(s: Store, ranked: seq<Entry>, limit: nat)
    requires Ranks(ranked, s) && (ranked == [] || s.total <= limit)
    ensures FrontGone(s, ranked, limit, 0, s)
  {
    assert ranked[0..] == ranked && ranked[..0] == [];
  }

  lemma EvictStep(s: Store, ranked: seq<Entry>, limit: nat)
    requires ranked != [] && s.total > limit
    ensures EvictFrom(s, ranked, limit) == EvictFrom(Remove(s, ranked[0].id), ranked[1..], limit)
  {
    hide Remove;
  }

  lemma {:induction false} EvictFromIsFront(s: Store, ranked: seq<Entry>, limit: nat) returns (k: nat)
    requires Valid(s) && Ranks(ranked, s)
    ensures FrontGone(s, ranked, limit, k, EvictFrom(s, ranked, limit))
    decreases |ranked|
  {
    hide Valid, Ranks, Remove, FrontGone;
    if ranked == [] || s.total <= limit {
      k := 0;
      NoneGone(s, ranked, limit);
    } else {
      var s1 := Remove(s, ranked[0].id);
      RemoveKeeps(s, ranked[0].id);
      RankedRest(s, ranked);
      EvictStep(s, ranked, limit);
      hide EvictFrom;
      var k1 := EvictFromIsFront(s1, ranked[1..], limit);
      OneMoreGone(s, s1, ranked, limit, k1, EvictFrom(s1, ranked[1..], limit));
      k := k1 + 1;
    }
  }

  /** From the heaviest to the lightest. */
  ghost predicate Descending(es: seq<Entry>, w: Weight) {
    forall i, j :: 0 <= i < j < |es| ==> w(es[i]) >= w(es[j])
  }

  /**
   Enforcing a cap removes the shortest heaviest-first front of the entries that brings the total within
   it, or everything when nothing less does.
   */
  lemma EvictsHeaviestFront(s: Store, w: Weight) returns (k: nat)
    requires Valid(s) && s.limit.Some?
    ensures var r, ranked := EnforceCapacity(s, w), ByWeight(s.entries, Negated(w));
      && k <= |ranked| && Descending(ranked, w) && multiset(ranked) == multiset(s.entries)
      && (forall e :: e in r.entries <==> e in ranked[k..])
      && (k < |ranked| ==> r.total <= s.limit.value) && (k == |ranked| ==> r.entries == [])
      && forall j :: 0 <= j < k ==> s.total - Sizes(ranked[..j]) > s.limit.value
  {
    var ranked := ByWeight(s.entries, Negated(w));
    RankedDistinct(s.entries, Negated(w));
    RankedAll(s.entries, Negated(w));
    RankedAscends(s.entries, Negated(w));
    hide ByWeight, EvictFrom, Sizes, Disjoint, DistinctIds;
    k := EvictFromIsFront(s, ranked, s.limit.value);
    var r := EvictFrom(s, ranked, s.limit.value);
    assert k == |ranked| ==> ranked[k..] == [];
    assert r.entries != [] ==> r.entries[0] in r.entries;
    AscendingNegated(ranked, w);
  }

  lemma AscendingNegated(es: seq<Entry>, w: Weight)
    requires Ascending(es, Negated(w))
    ensures Descending(es, w)
  {
    forall i, j | 0 <= i < j < |es| ensures w(es[i]) >= w(es[j]) {
      assert Negated(w)(es[i]) <= Negated(w)(es[j]);
    }
  }

  lemma SetPeersKeeps(s: Store, i: nat, handled: set<Peer>, unhandled: set<Peer>)
    requires Valid(s) && i < |s.entries| && handled !! unhandled
    ensures Valid(SetPeers(s, i, handled, unhandled))
  {
    SizesAlike(s.entries, SetPeers(s, i, handled, unhandled).entries);
    hide Sizes;
  }

  lemma MarkKeeps(s: Store, id: Tid, p: Peer)
    requires Valid(s)
    ensures Valid(MarkHandled(s, id, p)) && Valid(MarkUnhandled(s, id, p))
  {
    var i := IndexOf(s.entries, id);
    if i < |s.entries| {
      assert s.entries[i].handled !! s.entries[i].unhandled;
      SetPeersKeeps(s, i, s.entries[i].handled + {p}, s.entries[i].unhandled - {p});
      SetPeersKeeps(s, i, s.entries[i].handled - {p}, s.entries[i].unhandled + {p});
    }
    hide Valid;
  }

  lemma MarkAllKeeps(s: Store, p: Peer)
    requires Valid(s)
    ensures Valid(MarkAllUnhandled(s, p))
  {
    SizesAlike(s.entries, AllUnhandled(s.entries, p));
    hide Sizes;
  }

  lemma AddKeeps(s: Store, e: Entry, w: Weight)
    requires Valid(s) && e.handled !! e.unhandled
    ensures Valid(Add(s, e, w).0) && Add(s, e, w).0.limit == s.limit
  {
    hide Valid, EnforceCapacity, Has;
    if !Has(s, e.id) {
      AppendKeeps(s, e);
      CapacityKeeps(s.(entries := s.entries + [e], total := s.total + e.size), w);
    }
  }

  /** An addition brings in nothing but the new entry. */
  lemma AddedFrom(s: Store, e: Entry, w: Weight, x: Entry)
    requires Valid(s) && e.handled !! e.unhandled && x in Add(s, e, w).0.entries
    ensures x in s.entries || x == e
  {
    hide Valid, EnforceCapacity, Has;
    if !Has(s, e.id) {
      AppendKeeps(s, e);
      CapacityKeeps(s.(entries := s.entries + [e], total := s.total + e.size), w);
    }
  }

  lemma AppendKeeps(s: Store, e: Entry)
    requires Valid(s) && e.handled !! e.unhandled && !Has(s, e.id)
    ensures Valid(s.(entries := s.entries + [e], total := s.total + e.size))
  {
    SizesSplit(s.entries, [e]);
    SizesOne(e);
    hide Sizes;
  }

  lemma {:induction false} YoungKeeps(es: seq<Entry>, cutoff: int)
    requires DistinctIds(es) && Disjoint(es)
    ensures DistinctIds(Young(es, cutoff)) && Disjoint(Young(es, cutoff))
    ensures forall e :: e in Young(es, cutoff) ==> e in es
    decreases |es|
  {
    if es != [] {
      var init, e := es[..|es| - 1], es[|es| - 1];
      YoungKeeps(init, cutoff);
      var y := Young(init, cutoff);
      forall i | 0 <= i < |y| ensures y[i].id != e.id {
        assert y[i] in init;
      }
    }
  }

  lemma PruneKeeps(s: Store, cutoff: Option<int>, w: Weight)
    requires Valid(s)
    ensures Valid(Prune(s, cutoff, w))
    ensures forall e :: e in Prune(s, cutoff, w).entries ==> e in s.entries
  {
    if cutoff.Some? {
      YoungKeeps(s.entries, cutoff.value);
    }
    var young := if cutoff.None? then s.entries else Young(s.entries, cutoff.value);
    var aged := s.(entries := young, total := s.total - (Sizes(s.entries) - Sizes(young)));
    assert Valid(aged);
    hide Valid, EnforceCapacity;
    CapacityKeeps(aged, w);
  }

  datatype Op =
    | AddOp(e: Entry, w: Weight)
    | RemoveOp(id: Tid)
    | HandledOp(id: Tid, p: Peer)
    | UnhandledOp(id: Tid, p: Peer)
    | AllUnhandledOp(p: Peer)
    | PruneOp(cutoff: Option<int>, w: Weight)

  function Apply(s: Store, op: Op): Store {
    match op
    case AddOp(e, w) => Add(s, e, w).0
    case RemoveOp(id) => Remove(s, id)
    case HandledOp(id, p) => MarkHandled(s, id, p)
    case UnhandledOp(id, p) => MarkUnhandled(s, id, p)
    case AllUnhandledOp(p) => MarkAllUnhandled(s, p)
    case PruneOp(cutoff, w) => Prune(s, cutoff, w)
  }

  function ApplyAll(s: Store, ops: seq<Op>): Store {
    if ops == [] then s else Apply(ApplyAll(s, ops[..|ops| - 1]), ops[|ops| - 1])
  }

  /** Over any run from a valid store: the byte total is right and no peer is both handled and unhandled. */
  lemma {:induction false} RunKeeps(s: Store, ops: seq<Op>)
    requires Valid(s) && forall i :: 0 <= i < |ops| && ops[i].AddOp? ==> ops[i].e.handled !! ops[i].e.unhandled
    ensures Valid(ApplyAll(s, ops))
    decreases |ops|
  {
    hide Valid, Add, Remove, MarkHandled, MarkUnhandled, MarkAllUnhandled, Prune;
    if ops != [] {
      RunKeeps(s, ops[..|ops| - 1]);
      var before := ApplyAll(s, ops[..|ops| - 1]);
      match ops[|ops| - 1]
      case AddOp(e, w) => AddKeeps(before, e, w);
      case RemoveOp(id) => RemoveKeeps(before, id);
      case HandledOp(id, p) => MarkKeeps(before, id, p);
      case UnhandledOp(id, p) => MarkKeeps(before, id, p);
      case AllUnhandledOp(p) => MarkAllKeeps(before, p);
      case PruneOp(cutoff, w) => PruneKeeps(before, cutoff, w);
    }
  }

  // ---------- the program ----------

  class Messages {
    var entries: seq<Entry>
    var total: int
    const limit: Option<nat>

    function State(): Store
      reads this
    {
      Store(entries, total, limit)
    }

    constructor (limit: Option<nat>)
      ensures State() == Store([], 0, limit) && Valid(State())
    {
      entries, total, this.limit := [], 0, limit;
    }

    method Find(id: Tid) returns (i: nat)
      ensures i == IndexOf(entries, id)
    {
      i := 0;
      while i < |entries| && entries[i].id != id
        invariant i <= |entries|
        invariant forall k :: 0 <= k < i ==> entries[k].id != id
      {
        i := i + 1;
      }
    }

    method Discard(id: Tid) returns (removed: bool)
      modifies this
      ensures State() == Remove(old(State()), id) && removed == Has(old(State()), id)
    {
      var i := Find(id);
      if i == |entries| {
        return false;
      }
      total := total - entries[i].size;
      entries := entries[..i] + entries[i + 1..];
      return true;
    }

    method MakeRoom(w: Weight)
      modifies this
      ensures State() == EnforceCapacity(old(State()), w)
    {
      hide Remove;
      if limit.None? || total <= limit.value {
        return;
      }
      var ranked := ByWeight(entries, Negated(w));
      var k := 0;
      while k < |ranked| && total > limit.value
        invariant k <= |ranked|
        invariant EvictFrom(State(), ranked[k..], limit.value) == EvictFrom(old(State()), ranked, limit.value)
        decreases |ranked| - k
      {
        assert ranked[k..][1..] == ranked[k + 1..];
        var removed := Discard(ranked[k].id);
        k := k + 1;
      }
    }

    method AddEntry(e: Entry, w: Weight) returns (added: bool)
      modifies this
      ensures (State(), added) == Add(old(State()), e, w)
    {
      hide EnforceCapacity;
      var i := Find(e.id);
      if i < |entries| {
        return false;
      }
      entries := entries + [e];
      total := total + e.size;
      MakeRoom(w);
      return true;
    }

    method SetHandled(id: Tid, p: Peer) returns (known: bool)
      modifies this
      ensures State() == MarkHandled(old(State()), id, p) && known == Has(old(State()), id)
    {
      var i := Find(id);
      if i == |entries| {
        return false;
      }
      var e := entries[i];
      entries := entries[i := e.(handled := e.handled + {p}, unhandled := e.unhandled - {p})];
      return true;
    }

    method SetUnhandled(id: Tid, p: Peer) returns (known: bool)
      modifies this
      ensures State() == MarkUnhandled(old(State()), id, p) && known == Has(old(State()), id)
    {
      var i := Find(id);
      if i == |entries| {
        return false;
      }
      var e := entries[i];
      entries := entries[i := e.(handled := e.handled - {p}, unhandled := e.unhandled + {p})];
      return true;
    }

    method ListUnhandled(p: Peer, minCost: int, w: Weight) returns (out: seq<Entry>)
      ensures out == UnhandledFor(State(), p, minCost, w)
    {
      out := [];
      for i := 0 to |entries|
        invariant out == Needing(entries[..i], p, minCost)
      {
        assert entries[..i + 1][..i] == entries[..i];
        if p in entries[i].unhandled && entries[i].stampValue >= minCost {
          out := out + [entries[i]];
        }
      }
      assert entries[..|entries|] == entries;
      out := ByWeight(out, w);
    }
  }
}
