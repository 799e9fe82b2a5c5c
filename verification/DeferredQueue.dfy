/** Deferred delivery: one FIFO bucket for each subscriber, paged out channel by channel. */
module DeferredQueue {
  import opened Bytes

  type Subscriber = seq<Byte>
  type Channel = seq<Byte>

  datatype Pending = Pending(channel: Channel, blob: seq<Byte>, at: int)

  datatype Bucket = Bucket(subscriber: Subscriber, items: seq<Pending>)

  /** The buckets in the iteration order of the JavaScript map that holds them. */
  type Buckets = seq<Bucket>

  function Total(bs: Buckets): nat {
    if bs == [] then 0 else Total(bs[..|bs| - 1]) + |bs[|bs| - 1].items|
  }

  ghost predicate Valid(bs: Buckets, globalLimit: nat) {
    WellFormed(bs) && Total(bs) <= globalLimit
  }

  /** One bucket for each subscriber, and none empty. */
  ghost predicate WellFormed(bs: Buckets) {
    && (forall i, j :: 0 <= i < j < |bs| ==> bs[i].subscriber != bs[j].subscriber)
    && (forall i :: 0 <= i < |bs| ==> bs[i].items != [])
  }

  function IndexOf(bs: Buckets, s: Subscriber): (i: nat)
    ensures i <= |bs|
    ensures i < |bs| ==> bs[i].subscriber == s
    ensures forall k :: 0 <= k < i ==> bs[k].subscriber != s
  {
    if bs == [] then 0
    else
      var i := IndexOf(bs[..|bs| - 1], s);
      if i < |bs| - 1 || bs[|bs| - 1].subscriber == s then i else |bs|
  }

  function Items(bs: Buckets, s: Subscriber): seq<Pending> {
    var i := IndexOf(bs, s);
    if i < |bs| then bs[i].items else []
  }

  /** The subscriber's bucket set to these items; an emptied bucket is removed. */
  function Put(bs: Buckets, s: Subscriber, items: seq<Pending>): Buckets {
    var i := IndexOf(bs, s);
    if i < |bs| then (if items == [] then bs[..i] + bs[i + 1..] else bs[i := Bucket(s, items)])
    else if items == [] then bs
    else bs + [Bucket(s, items)]
  }

  // ---------- operations ----------

  /** `enqueue`: a full bucket drops its oldest, a full queue takes nothing. */
  function Enqueue(bs: Buckets, globalLimit: nat, s: Subscriber, p: Pending, limit: nat): Buckets {
    if Total(bs) >= globalLimit then bs
    else
      var items := Items(bs, s);
      Put(bs, s, (if items != [] && |items| >= limit then items[1..] else items) + [p])
  }

  function Drain(bs: Buckets, s: Subscriber): (Buckets, seq<Pending>) {
    (Put(bs, s, []), Items(bs, s))
  }

  function Least(a: int, b: int): int {
    if a < b then a else b
  }

  function DrainBatch(bs: Buckets, s: Subscriber, max: int): (Buckets, seq<Pending>) {
    var items := Items(bs, s);
    if max <= 0 || items == [] then (bs, [])
    else (Put(bs, s, items[Least(max, |items|)..]), items[..Least(max, |items|)])
  }

  /** The first `max` items of the channel, and the others, both in order. */
  function Split(items: seq<Pending>, c: Channel, max: int): (r: (seq<Pending>, seq<Pending>)) {
    if items == [] then ([], [])
    else
      var (removed, kept) := Split(items[..|items| - 1], c, max);
      var e := items[|items| - 1];
      if |removed| < max && e.channel == c then (removed + [e], kept) else (removed, kept + [e])
  }

  function DrainChannelBatch(bs: Buckets, s: Subscriber, c: Channel, max: int): (Buckets, seq<Pending>) {
    var (removed, kept) := Split(Items(bs, s), c, max);
    (Put(bs, s, kept), removed)
  }

  function HasPendingChannel(bs: Buckets, s: Subscriber, c: Channel): bool {
    exists i :: 0 <= i < |Items(bs, s)| && Items(bs, s)[i].channel == c
  }

  function Fresh(items: seq<Pending>, threshold: int): seq<Pending> {
    if items == [] then []
    else
      var init := Fresh(items[..|items| - 1], threshold);
      if items[|items| - 1].at >= threshold then init + [items[|items| - 1]] else init
  }

  function EvictExpired(bs: Buckets, threshold: int): Buckets {
    if bs == [] then []
    else
      var init, last := EvictExpired(bs[..|bs| - 1], threshold), bs[|bs| - 1];
      var kept := Fresh(last.items, threshold);
      if kept == [] then init else init + [Bucket(last.subscriber, kept)]
  }

  // ---------- the total ----------

  lemma {:induction false} TotalSplit(a: Buckets, b: Buckets)
    ensures Total(a + b) == Total(a) + Total(b)
    decreases |b|
  {
    if b == [] {
      assert a + b == a;
    } else {
      assert (a + b)[..|a + b| - 1] == a + b[..|b| - 1];
      TotalSplit(a, b[..|b| - 1]);
    }
  }

  lemma TotalOne(b: Bucket)
    ensures Total([b]) == |b.items|
  {
    assert [b][..0] == [];
  }

  lemma TotalAround(bs: Buckets, i: nat, b: Bucket)
    requires i < |bs|
    ensures Total(bs[i := b]) == Total(bs) - |bs[i].items| + |b.items|
    ensures Total(bs[..i] + bs[i + 1..]) == Total(bs) - |bs[i].items|
  {
    hide Total;
    assert bs == bs[..i] + ([bs[i]] + bs[i + 1..]);
    assert bs[i := b] == bs[..i] + ([b] + bs[i + 1..]);
    TotalOne(bs[i]);
    TotalOne(b);
    TotalSplit([bs[i]], bs[i + 1..]);
    TotalSplit([b], bs[i + 1..]);
    TotalSplit(bs[..i], [bs[i]] + bs[i + 1..]);
    TotalSplit(bs[..i], [b] + bs[i + 1..]);
    TotalSplit(bs[..i], bs[i + 1..]);
  }

  lemma PutTotal(bs: Buckets, s: Subscriber, items: seq<Pending>)
    ensures Total(Put(bs, s, items)) == Total(bs) - |Items(bs, s)| + |items|
  {
    var i := IndexOf(bs, s);
    if i < |bs| {
      TotalAround(bs, i, Bucket(s, items));
    } else {
      TotalOne(Bucket(s, items));
      TotalSplit(bs, [Bucket(s, items)]);
    }
    hide Total, IndexOf;
  }

  lemma PutKeeps(bs: Buckets, s: Subscriber, items: seq<Pending>)
    requires WellFormed(bs)
    ensures WellFormed(Put(bs, s, items))
  {
    var i := IndexOf(bs, s);
    if i < |bs| && items == [] {
      var rest := bs[..i] + bs[i + 1..];
      assert forall k :: 0 <= k < |rest| ==> rest[k] == bs[if k < i then k else k + 1];
    }
  }

  /** The bucket that was set reads back, and no other subscriber's changes. */
  lemma PutReads(bs: Buckets, s: Subscriber, items: seq<Pending>, other: Subscriber)
    requires WellFormed(bs)
    ensures Items(Put(bs, s, items), other) == if other == s then items else Items(bs, other)
  {
    var i, j := IndexOf(bs, s), IndexOf(bs, other);
    var after := Put(bs, s, items);
    if other == s {
      if i < |bs| {
        if items == [] {
          assert forall k :: 0 <= k < |after| ==> after[k] == bs[if k < i then k else k + 1];
          NotThere(after, s);
        } else {
          FirstIndex(after, s, i);
        }
      } else if items == [] {
      } else {
        FirstIndex(after, s, |bs|);
      }
    } else {
      OthersStay(bs, s, items, other);
    }
  }

  /** Taking a bucket out leaves the others theirs. */
  lemma OthersStayBehind(bs: Buckets, i: nat, other: Subscriber)
    requires i < |bs| && bs[i].subscriber != other
    ensures Items(bs[..i] + bs[i + 1..], other) == Items(bs, other)
  {
    hide IndexOf;
    var j, after := IndexOf(bs, other), bs[..i] + bs[i + 1..];
    assert forall k :: 0 <= k < |after| ==> after[k] == bs[if k < i then k else k + 1];
    if j == |bs| {
      NotThere(after, other);
    } else {
      FirstIndex(after, other, if j < i then j else j - 1);
    }
  }

  lemma OthersStay(bs: Buckets, s: Subscriber, items: seq<Pending>, other: Subscriber)
    requires WellFormed(bs) && other != s
    ensures Items(Put(bs, s, items), other) == Items(bs, other)
  {
    hide IndexOf, WellFormed;
    var i, j := IndexOf(bs, s), IndexOf(bs, other);
    var after := Put(bs, s, items);
    if i < |bs| && items == [] {
      OthersStayBehind(bs, i, other);
    } else if j < |bs| {
      FirstIndex(after, other, j);
    } else {
      NotThere(after, other);
    }
  }

  lemma FirstIndex(bs: Buckets, s: Subscriber, i: nat)
    requires i < |bs| && bs[i].subscriber == s && forall k :: 0 <= k < i ==> bs[k].subscriber != s
    ensures IndexOf(bs, s) == i
  {
    hide IndexOf;
  }

  lemma NotThere(bs: Buckets, s: Subscriber)
    requires forall k :: 0 <= k < |bs| ==> bs[k].subscriber != s
    ensures IndexOf(bs, s) == |bs|
  {
    hide IndexOf;
  }

  /**
   With room in the queue the new blob is the bucket's last and all but perhaps the oldest stay; a bucket within its limit
   stays within it, counting a limit of zero as one; no other bucket changes.
   */
  lemma EnqueueKeepsNewest(bs: Buckets, globalLimit: nat, s: Subscriber, p: Pending, limit: nat, other: Subscriber)
    requires WellFormed(bs) && Total(bs) < globalLimit
    ensures var before, after := Items(bs, s), Items(Enqueue(bs, globalLimit, s, p, limit), s);
      && after == (if before != [] && |before| >= limit then before[1..] else before) + [p]
      && (|before| <= Largest(limit, 1) ==> |after| <= Largest(limit, 1))
    ensures other != s ==> Items(Enqueue(bs, globalLimit, s, p, limit), other) == Items(bs, other)
  {
    var items := Items(bs, s);
    var next := (if items != [] && |items| >= limit then items[1..] else items) + [p];
    PutReads(bs, s, next, s);
    PutReads(bs, s, next, other);
    hide Items, Put, WellFormed, Total;
  }

  // ---------- runs ----------

  datatype Op =
    | EnqueueOp(subscriber: Subscriber, p: Pending, limit: nat)
    | DrainOp(subscriber: Subscriber)
    | BatchOp(subscriber: Subscriber, max: int)
    | ChannelOp(subscriber: Subscriber, channel: Channel, max: int)
    | ExpireOp(threshold: int)

  function Apply(bs: Buckets, globalLimit: nat, op: Op): Buckets {
    match op
    case EnqueueOp(s, p, limit) => Enqueue(bs, globalLimit, s, p, limit)
    case DrainOp(s) => Drain(bs, s).0
    case BatchOp(s, max) => DrainBatch(bs, s, max).0
    case ChannelOp(s, c, max) => DrainChannelBatch(bs, s, c, max).0
    case ExpireOp(threshold) => EvictExpired(bs, threshold)
  }

  function ApplyAll(bs: Buckets, globalLimit: nat, ops: seq<Op>): Buckets {
    if ops == [] then bs else Apply(ApplyAll(bs, globalLimit, ops[..|ops| - 1]), globalLimit, ops[|ops| - 1])
  }

  lemma {:induction false} SplitSizes(items: seq<Pending>, c: Channel, max: int)
    ensures var (removed, kept) := Split(items, c, max);
      |removed| + |kept| == |items| && |removed| <= Largest(max, 0)
    decreases |items|
  {
    if items != [] {
      SplitSizes(items[..|items| - 1], c, max);
    }
  }

  function Largest(a: int, b: int): int {
    if a < b then b else a
  }

  lemma {:induction false} FreshShorter(items: seq<Pending>, threshold: int)
    ensures |Fresh(items, threshold)| <= |items|
    decreases |items|
  {
    if items != [] {
      FreshShorter(items[..|items| - 1], threshold);
    }
  }

  ghost predicate Named(bs: Buckets, s: Subscriber) {
    exists i :: 0 <= i < |bs| && bs[i].subscriber == s
  }

  lemma {:induction false} ExpireNames(bs: Buckets, threshold: int, s: Subscriber)
    requires Named(EvictExpired(bs, threshold), s)
    ensures Named(bs, s)
    decreases |bs|
  {
    if bs != [] {
      var init, last := bs[..|bs| - 1], bs[|bs| - 1];
      if last.subscriber != s {
        var after := EvictExpired(init, threshold);
        var k :| 0 <= k < |EvictExpired(bs, threshold)| && EvictExpired(bs, threshold)[k].subscriber == s;
        assert after[k].subscriber == s;
        ExpireNames(init, threshold, s);
        var i :| 0 <= i < |init| && init[i].subscriber == s;
        assert bs[i].subscriber == s;
      }
    }
  }

  lemma AppendExpire(bs: Buckets, b: Bucket, threshold: int)
    ensures var after, kept := EvictExpired(bs, threshold), Fresh(b.items, threshold);
      EvictExpired(bs + [b], threshold) == if kept == [] then after else after + [Bucket(b.subscriber, kept)]
  {
    assert (bs + [b])[..|bs|] == bs;
  }

  lemma {:induction false} ExpireTotal(bs: Buckets, threshold: int)
    ensures Total(EvictExpired(bs, threshold)) <= Total(bs)
    decreases |bs|
  {
    if bs != [] {
      hide Fresh, Total, EvictExpired;
      var init, last := bs[..|bs| - 1], bs[|bs| - 1];
      assert bs == init + [last];
      ExpireTotal(init, threshold);
      FreshShorter(last.items, threshold);
      var after, kept := EvictExpired(init, threshold), Fresh(last.items, threshold);
      AppendExpire(init, last, threshold);
      TotalOne(Bucket(last.subscriber, kept));
      TotalSplit(after, [Bucket(last.subscriber, kept)]);
      TotalSplit(init, [last]);
      TotalOne(last);
    }
  }

  lemma {:induction false} ExpireKeeps(bs: Buckets, threshold: int)
    requires WellFormed(bs)
    ensures WellFormed(EvictExpired(bs, threshold))
    decreases |bs|
  {
    if bs != [] {
      var init, last := bs[..|bs| - 1], bs[|bs| - 1];
      ExpireKeeps(init, threshold);
      var after := EvictExpired(init, threshold);
      hide Fresh;
      forall i | 0 <= i < |after| ensures after[i].subscriber != last.subscriber {
        assert Named(after, after[i].subscriber);
        ExpireNames(init, threshold, after[i].subscriber);
        var k :| 0 <= k < |init| && init[k].subscriber == after[i].subscriber;
        assert bs[k].subscriber != bs[|bs| - 1].subscriber;
      }
    }
  }

  // ---------- a sweep keeps exactly the items young enough ----------

  /** `kept` are the items at these places, in order. */
  ghost predicate Picks(items: seq<Pending>, kept: seq<Pending>, at: seq<nat>) {
    && |at| == |kept|
    && (forall k :: 0 <= k < |at| ==> at[k] < |items| && kept[k] == items[at[k]])
    && forall i, j :: 0 <= i < j < |at| ==> at[i] < at[j]
  }

  /** They are all the items young enough. */
  ghost predicate AllFresh(items: seq<Pending>, at: seq<nat>, threshold: int) {
    forall i: nat :: i < |items| ==> (i in at <==> items[i].at >= threshold)
  }

  lemma {:induction false} FreshPicks(items: seq<Pending>, threshold: int) returns (at: seq<nat>)
    ensures Picks(items, Fresh(items, threshold), at) && AllFresh(items, at, threshold)
    decreases |items|
  {
    hide Picks, AllFresh;
    if items == [] {
      at := [];
      NothingPicked(threshold);
    } else {
      var before := FreshPicks(items[..|items| - 1], threshold);
      PicksMore(items, Fresh(items[..|items| - 1], threshold), before, threshold);
      at := if items[|items| - 1].at >= threshold then before + [|items| - 1] else before;
    }
  }

  lemma NothingPicked(threshold: int)
    ensures Picks([], [], []) && AllFresh([], [], threshold)
  {
  }

  lemma PicksMore(items: seq<Pending>, kept: seq<Pending>, at: seq<nat>, threshold: int)
    requires items != [] && Picks(items[..|items| - 1], kept, at) && AllFresh(items[..|items| - 1], at, threshold)
    ensures var n := |items| - 1;
      if items[n].at >= threshold then Picks(items, kept + [items[n]], at + [n]) && AllFresh(items, at + [n], threshold)
      else Picks(items, kept, at) && AllFresh(items, at, threshold)
  {
    FreshMore(items, at, threshold);
    hide AllFresh;
  }

  lemma FreshMore(items: seq<Pending>, at: seq<nat>, threshold: int)
    requires items != [] && AllFresh(items[..|items| - 1], at, threshold)
    requires forall k :: 0 <= k < |at| ==> at[k] < |items| - 1
    ensures var n := |items| - 1;
      AllFresh(items, if items[n].at >= threshold then at + [n] else at, threshold)
  {
    var init, n := items[..|items| - 1], |items| - 1;
    var next := if items[n].at >= threshold then at + [n] else at;
    forall i: nat | i < |items| ensures i in next <==> items[i].at >= threshold {
      if i < n {
        assert init[i] == items[i];
        assert i in next <==> i in at;
      }
    }
  }

  lemma ItemsAppend(bs: Buckets, b: Bucket, s: Subscriber)
    ensures Items(bs + [b], s) == if Named(bs, s) then Items(bs, s) else if b.subscriber == s then b.items else []
  {
    assert (bs + [b])[..|bs|] == bs;
    var i := IndexOf(bs, s);
    hide IndexOf;
    assert Named(bs, s) <==> i < |bs|;
    if i < |bs| {
      assert (bs + [b])[i].subscriber == s;
    }
  }

  lemma NotNamed(bs: Buckets, s: Subscriber)
    requires !Named(bs, s)
    ensures Items(bs, s) == []
  {
  }

  lemma {:induction false} ExpireReads(bs: Buckets, threshold: int, s: Subscriber)
    requires WellFormed(bs)
    ensures Items(EvictExpired(bs, threshold), s) == Fresh(Items(bs, s), threshold)
    decreases |bs|
  {
    hide Fresh, Items, EvictExpired, Named;
    if bs == [] {
      NothingExpires(threshold, s);
    } else {
      var init, last := bs[..|bs| - 1], bs[|bs| - 1];
      assert bs == init + [last];
      ExpireReads(init, threshold, s);
      var after, kept := EvictExpired(init, threshold), Fresh(last.items, threshold);
      AppendExpire(init, last, threshold);
      ItemsAppend(init, last, s);
      ItemsAppend(after, Bucket(last.subscriber, kept), s);
      NothingFresh(threshold);
      if Named(after, s) {
        ExpireNames(init, threshold, s);
      } else {
        NotNamed(after, s);
      }
      if last.subscriber == s {
        NamedOnce(bs, s);
      }
    }
  }

  lemma NamedOnce(bs: Buckets, s: Subscriber)
    requires WellFormed(bs) && bs != [] && bs[|bs| - 1].subscriber == s
    ensures !Named(bs[..|bs| - 1], s)
  {
  }

  lemma NothingFresh(threshold: int)
    ensures Fresh([], threshold) == []
  {
  }

  lemma NothingExpires(threshold: int, s: Subscriber)
    ensures Items(EvictExpired([], threshold), s) == Fresh(Items([], s), threshold)
  {
  }

  /** What a sweep leaves of any bucket are the items young enough, all of them, and in their order. */
  lemma SweepIsExact(bs: Buckets, threshold: int, s: Subscriber) returns (at: seq<nat>)
    requires WellFormed(bs)
    ensures Picks(Items(bs, s), Items(EvictExpired(bs, threshold), s), at)
    ensures AllFresh(Items(bs, s), at, threshold)
  {
    ExpireReads(bs, threshold, s);
    at := FreshPicks(Items(bs, s), threshold);
    hide Items, EvictExpired, Fresh, Picks, AllFresh;
  }

  lemma StepKeeps(bs: Buckets, globalLimit: nat, op: Op)
    requires Valid(bs, globalLimit)
    ensures Valid(Apply(bs, globalLimit, op), globalLimit)
  {
    hide Total, WellFormed, Put, Items;
    match op
    case EnqueueOp(s, p, limit) =>
      var items := Items(bs, s);
      var next := (if items != [] && |items| >= limit then items[1..] else items) + [p];
      PutKeeps(bs, s, next);
      PutTotal(bs, s, next);
    case DrainOp(s) =>
      PutKeeps(bs, s, []);
      PutTotal(bs, s, []);
    case BatchOp(s, max) =>
      var items := Items(bs, s);
      if max > 0 {
        PutKeeps(bs, s, items[Least(max, |items|)..]);
        PutTotal(bs, s, items[Least(max, |items|)..]);
      }
    case ChannelOp(s, c, max) =>
      SplitSizes(Items(bs, s), c, max);
      PutKeeps(bs, s, Split(Items(bs, s), c, max).1);
      PutTotal(bs, s, Split(Items(bs, s), c, max).1);
    case ExpireOp(threshold) =>
      ExpireKeeps(bs, threshold);
      ExpireTotal(bs, threshold);
  }

  /** Across all operations the total stays within the global limit and no bucket is empty. */
  lemma {:induction false} RunKeeps(bs: Buckets, globalLimit: nat, ops: seq<Op>)
    requires Valid(bs, globalLimit)
    ensures Valid(ApplyAll(bs, globalLimit, ops), globalLimit)
    decreases |ops|
  {
    hide Valid, Apply;
    if ops != [] {
      RunKeeps(bs, globalLimit, ops[..|ops| - 1]);
      StepKeeps(ApplyAll(bs, globalLimit, ops[..|ops| - 1]), globalLimit, ops[|ops| - 1]);
    }
  }

  // ---------- paging a channel ----------

  /** The items of one channel, in order. */
  function Of(items: seq<Pending>, c: Channel): seq<Pending> {
    if items == [] then []
    else
      var init := Of(items[..|items| - 1], c);
      if items[|items| - 1].channel == c then init + [items[|items| - 1]] else init
  }

  /** All items but those of one channel, in order. */
  function NotOf(items: seq<Pending>, c: Channel): seq<Pending> {
    if items == [] then []
    else
      var init := NotOf(items[..|items| - 1], c);
      if items[|items| - 1].channel == c then init else init + [items[|items| - 1]]
  }

  lemma AppendOf(items: seq<Pending>, e: Pending, c: Channel)
    ensures Of(items + [e], c) == if e.channel == c then Of(items, c) + [e] else Of(items, c)
    ensures NotOf(items + [e], c) == if e.channel == c then NotOf(items, c) else NotOf(items, c) + [e]
  {
    assert (items + [e])[..|items|] == items;
  }

  lemma AppendSplit(items: seq<Pending>, e: Pending, c: Channel, max: int)
    ensures var (removed, kept) := Split(items, c, max);
      Split(items + [e], c, max)
      == if |removed| < max && e.channel == c then (removed + [e], kept) else (removed, kept + [e])
  {
    assert (items + [e])[..|items|] == items;
  }

  /** Nothing of the channel is kept in front of a full page. */
  lemma {:induction false} SplitFills(items: seq<Pending>, c: Channel, max: nat)
    ensures var (removed, kept) := Split(items, c, max);
      |removed| <= max && (|removed| < max ==> Of(kept, c) == [])
    decreases |items|
  {
    if items != [] {
      hide Split, Of;
      var init, e := items[..|items| - 1], items[|items| - 1];
      assert items == init + [e];
      SplitFills(init, c, max);
      AppendSplit(init, e, c, max);
      AppendOf(Split(init, c, max).1, e, c);
    }
  }

  lemma {:induction false} SplitKeepsOthers(items: seq<Pending>, c: Channel, max: nat)
    ensures NotOf(Split(items, c, max).1, c) == NotOf(items, c)
    decreases |items|
  {
    if items != [] {
      hide Split, NotOf;
      var init, e := items[..|items| - 1], items[|items| - 1];
      assert items == init + [e];
      SplitKeepsOthers(init, c, max);
      AppendSplit(init, e, c, max);
      AppendOf(init, e, c);
      AppendOf(Split(init, c, max).1, e, c);
    }
  }

  lemma MoveBracket(a: seq<Pending>, b: seq<Pending>, e: Pending)
    ensures a + b + [e] == a + (b + [e])
  {
  }

  lemma {:induction false} SplitInOrder(items: seq<Pending>, c: Channel, max: nat)
    ensures var (removed, kept) := Split(items, c, max);
      removed + Of(kept, c) == Of(items, c)
    decreases |items|
  {
    if items != [] {
      hide Split, Of;
      var init, e := items[..|items| - 1], items[|items| - 1];
      assert items == init + [e];
      SplitInOrder(init, c, max);
      SplitFills(init, c, max);
      var (removed, kept) := Split(init, c, max);
      AppendSplit(init, e, c, max);
      AppendOf(init, e, c);
      AppendOf(kept, e, c);
      if e.channel == c {
        if |removed| < max {
          assert removed == Of(init, c);
        } else {
          MoveBracket(removed, Of(kept, c), e);
        }
      }
    }
  }

  /**
   A page is the front of the channel's items; what is kept is the rest of them, among the other
   channels' items in their old order.
   */
  lemma SplitIsFront(items: seq<Pending>, c: Channel, max: nat)
    ensures var (removed, kept) := Split(items, c, max);
      && |removed| == Least(max, |Of(items, c)|)
      && removed + Of(kept, c) == Of(items, c)
      && NotOf(kept, c) == NotOf(items, c)
  {
    SplitFills(items, c, max);
    SplitInOrder(items, c, max);
    SplitKeepsOthers(items, c, max);
    hide Split, Of, NotOf;
  }

  /** A page leaves the subsequence of every other channel as it was. */
  lemma {:induction false} OtherChannelsStay(items: seq<Pending>, c: Channel, max: nat, d: Channel)
    requires d != c
    ensures Of(Split(items, c, max).1, d) == Of(items, d)
    decreases |items|
  {
    if items != [] {
      hide Split, Of;
      var init, e := items[..|items| - 1], items[|items| - 1];
      assert items == init + [e];
      OtherChannelsStay(init, c, max, d);
      AppendSplit(init, e, c, max);
      AppendOf(init, e, d);
      AppendOf(Split(init, c, max).1, e, d);
    }
  }

  lemma {:induction false} PendingIsOf(items: seq<Pending>, c: Channel)
    ensures (exists i :: 0 <= i < |items| && items[i].channel == c) <==> Of(items, c) != []
    decreases |items|
  {
    if items != [] {
      var init := items[..|items| - 1];
      PendingIsOf(init, c);
      if i: nat :| i < |items| && items[i].channel == c {
        if i < |init| {
          assert init[i].channel == c;
        }
      }
      if j: nat :| j < |init| && init[j].channel == c {
        assert items[j].channel == c;
      }
    }
  }

  /** Pull pages while more is pending. */
  ghost function Pull(bs: Buckets, s: Subscriber, c: Channel, max: nat): (r: (Buckets, seq<seq<Pending>>))
    requires max > 0 && WellFormed(bs)
    ensures WellFormed(r.0)
    decreases |Of(Items(bs, s), c)|
  {
    if !HasPendingChannel(bs, s, c) then (bs, [])
    else
      var (next, page) := DrainChannelBatch(bs, s, c, max);
      PagesShrink(bs, s, c, max);
      var (last, pages) := Pull(next, s, c, max);
      (last, [page] + pages)
  }

  lemma PagesShrink(bs: Buckets, s: Subscriber, c: Channel, max: nat)
    requires max > 0 && WellFormed(bs)
    ensures var (next, page) := DrainChannelBatch(bs, s, c, max);
      && WellFormed(next) && page + Of(Items(next, s), c) == Of(Items(bs, s), c)
      && |page| == Least(max, |Of(Items(bs, s), c)|)
      && NotOf(Items(next, s), c) == NotOf(Items(bs, s), c)
      && (HasPendingChannel(bs, s, c) <==> page != [])
      && forall other :: other != s ==> Items(next, other) == Items(bs, other)
  {
    var items := Items(bs, s);
    var (removed, kept) := Split(items, c, max);
    SplitIsFront(items, c, max);
    PendingIsOf(items, c);
    PutKeeps(bs, s, kept);
    PutReads(bs, s, kept, s);
    hide Split, Of, NotOf, Put, Items, WellFormed;
    forall other | other != s ensures Items(Put(bs, s, kept), other) == Items(bs, other) {
      PutReads(bs, s, kept, other);
    }
  }

  function Joined(pages: seq<seq<Pending>>): seq<Pending> {
    if pages == [] then [] else pages[0] + Joined(pages[1..])
  }

  /**
   Paging while the channel is pending ends, and returns exactly the channel's items, in order and
   each once, in full pages up to the last; the other channels' items and every other bucket stay.
   */
  lemma {:induction false} PullReturnsChannel(bs: Buckets, s: Subscriber, c: Channel, max: nat)
    requires max > 0 && WellFormed(bs)
    ensures var (last, pages) := Pull(bs, s, c, max);
      && Joined(pages) == Of(Items(bs, s), c)
      && (forall i :: 0 <= i < |pages| ==> 0 < |pages[i]| <= max)
      && (forall i :: 0 <= i < |pages| - 1 ==> |pages[i]| == max)
      && Of(Items(last, s), c) == [] && NotOf(Items(last, s), c) == NotOf(Items(bs, s), c)
      && forall other :: other != s ==> Items(last, other) == Items(bs, other)
    decreases |Of(Items(bs, s), c)|
  {
    PagesShrink(bs, s, c, max);
    PendingIsOf(Items(bs, s), c);
    hide Of, NotOf, Items, WellFormed;
    if HasPendingChannel(bs, s, c) {
      var (next, page) := DrainChannelBatch(bs, s, c, max);
      hide DrainChannelBatch;
      PendingIsOf(Items(next, s), c);
      PullReturnsChannel(next, s, c, max);
    }
  }

  // ---------- the program ----------

  class Queue {
    var buckets: Buckets
    const globalLimit: nat

    constructor (globalLimit: nat)
      ensures this.globalLimit == globalLimit && buckets == [] && Valid(buckets, globalLimit)
    {
      this.globalLimit, buckets := globalLimit, [];
    }

    method Find(s: Subscriber) returns (i: nat)
      ensures i == IndexOf(buckets, s)
    {
      i := 0;
      while i < |buckets| && buckets[i].subscriber != s
        invariant i <= |buckets|
        invariant forall k :: 0 <= k < i ==> buckets[k].subscriber != s
      {
        i := i + 1;
      }
    }

    method TotalLen() returns (n: nat)
      ensures n == Total(buckets)
    {
      n := 0;
      for i := 0 to |buckets|
        invariant n == Total(buckets[..i])
      {
        assert buckets[..i + 1][..i] == buckets[..i];
        n := n + |buckets[i].items|;
      }
      assert buckets[..|buckets|] == buckets;
    }

    /** `set`, or `delete` for an emptied bucket. */
    method SetBucket(s: Subscriber, items: seq<Pending>)
      modifies this
      ensures buckets == Put(old(buckets), s, items)
    {
      var i := Find(s);
      if i < |buckets| {
        if items == [] {
          buckets := buckets[..i] + buckets[i + 1..];
        } else {
          buckets := buckets[i := Bucket(s, items)];
        }
      } else if items != [] {
        buckets := buckets + [Bucket(s, items)];
      }
    }

    method EnqueueBlob(s: Subscriber, p: Pending, limit: nat)
      modifies this
      ensures buckets == Enqueue(old(buckets), globalLimit, s, p, limit)
    {
      var total := TotalLen();
      if total >= globalLimit {
        return;
      }
      var i := Find(s);
      var items := if i < |buckets| then buckets[i].items else [];
      if |items| >= limit && |items| > 0 {
        items := items[1..];
      }
      items := items + [p];
      SetBucket(s, items);
    }

    method DrainAll(s: Subscriber) returns (items: seq<Pending>)
      modifies this
      ensures (buckets, items) == Drain(old(buckets), s)
    {
      var i := Find(s);
      if i == |buckets| {
        return [];
      }
      items := buckets[i].items;
      SetBucket(s, []);
    }

    method DrainFirst(s: Subscriber, max: int) returns (page: seq<Pending>)
      requires WellFormed(buckets)
      modifies this
      ensures (buckets, page) == DrainBatch(old(buckets), s, max)
    {
      if max <= 0 {
        return [];
      }
      var i := Find(s);
      if i == |buckets| {
        return [];
      }
      var items := buckets[i].items;
      var n := if max < |items| then max else |items|;
      page := items[..n];
      SetBucket(s, items[n..]);
    }

    method DrainChannel(s: Subscriber, c: Channel, max: int) returns (removed: seq<Pending>)
      modifies this
      ensures (buckets, removed) == DrainChannelBatch(old(buckets), s, c, max)
    {
      var i := Find(s);
      if i == |buckets| {
        return [];
      }
      var items := buckets[i].items;
      removed := [];
      var kept: seq<Pending> := [];
      for k := 0 to |items|
        invariant (removed, kept) == Split(items[..k], c, max)
      {
        assert items[..k + 1][..k] == items[..k];
        if |removed| < max && items[k].channel == c {
          removed := removed + [items[k]];
        } else {
          kept := kept + [items[k]];
        }
      }
      assert items[..|items|] == items;
      SetBucket(s, kept);
    }

    method SweepExpired(threshold: int)
      requires WellFormed(buckets)
      modifies this
      ensures buckets == EvictExpired(old(buckets), threshold)
    {
      var all := buckets;
      var done: Buckets := [];
      for k := 0 to |all|
        invariant done == EvictExpired(all[..k], threshold)
      {
        assert all[..k + 1][..k] == all[..k];
        var kept := Fresh(all[k].items, threshold);
        if kept != [] {
          done := done + [Bucket(all[k].subscriber, kept)];
        }
      }
      assert all[..|all|] == all;
      buckets := done;
    }
  }
}
