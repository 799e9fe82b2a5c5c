/** The sending side of a resource: requests, hashmap continuations, proofs and its watchdog. */
module ResourceSender {
  import opened Bytes
  import opened Wrappers
  import opened Resource

  datatype SenderStatus = Advertised | Proven | Cancelled

  datatype Sender = Sender(
    full: Data, segmentIndex: nat, totalSegments: nat, status: SenderStatus, current: Segment,
    retriesLeft: nat, gotRequests: bool, advSentAt: int, lastActivity: int, sent: set<nat>)

  // ---------- segments ----------

  function SegmentCount(size: nat): nat {
    if size <= MAX_EFFICIENT_SIZE then 1 else (size - 1) / MAX_EFFICIENT_SIZE + 1
  }

  /** The plaintext of segment `i`, counted from 1. */
  function SegmentText(full: Data, i: nat): Data
    requires i >= 1
  {
    Take(Drop(full, (i - 1) * MAX_EFFICIENT_SIZE), MAX_EFFICIENT_SIZE)
  }

  /** The segment with this index as one run of `_prepareSegment` leaves it. */
  ghost predicate IsPrepared(c: Crypto, full: Data, i: nat, sdu: nat, span: nat, g: Segment)
    requires sdu > 0 && i >= 1
  {
    exists compressed: bool, tries: seq<Attempt> ::
      FirstClean(c, SegmentText(full, i), compressed, sdu, span, tries) == Some(g)
  }

  function AdvertisementOf(g: Segment, i: nat, l: nat, hasMetadata: bool, maxLen: nat): Advertisement {
    Advertisement(g.size, |g.plaintext|, |g.parts|, g.h, g.r, i, l, g.compressed, hasMetadata,
                  g.hashmap[..Min(|g.hashmap|, maxLen)])
  }

  // ---------- requests ----------

  /** `_findPartByMapHash` and the `findIndex` of a continuation: the first place with this hash. */
  function Find(hashmap: seq<MapHash>, mh: MapHash, i: nat): (r: nat)
    requires i <= |hashmap|
    ensures i <= r <= |hashmap|
    ensures r < |hashmap| ==> hashmap[r] == mh
    ensures forall k :: i <= k < r ==> hashmap[k] != mh
    decreases |hashmap| - i
  {
    if i == |hashmap| || hashmap[i] == mh then i else Find(hashmap, mh, i + 1)
  }

  /** The indices served for a request, in order. */
  function Served(hashmap: seq<MapHash>, requested: seq<MapHash>): (r: seq<nat>)
    ensures forall k :: 0 <= k < |r| ==> r[k] < |hashmap|
  {
    if requested == [] then []
    else
      var rest, i := Served(hashmap, requested[..|requested| - 1]), Find(hashmap, requested[|requested| - 1], 0);
      if i < |hashmap| then rest + [i] else rest
  }

  function Elements(indices: seq<nat>): set<nat> {
    set i | i in indices
  }

  function PartsAt(parts: seq<Data>, indices: seq<nat>): (r: seq<Data>)
    requires forall k :: 0 <= k < |indices| ==> indices[k] < |parts|
    ensures |r| == |indices| && forall k :: 0 <= k < |r| ==> r[k] == parts[indices[k]]
  {
    seq(|indices|, k requires 0 <= k < |indices| => parts[indices[k]])
  }

  /** `_sendHashmapUpdate`: the continuation behind `last`, or nothing on a sequencing error. */
  function Continuation(hashmap: seq<MapHash>, maxLen: nat, last: MapHash): Option<Update> {
    var from := Find(hashmap, last, 0);
    if from == |hashmap| || maxLen == 0 || (from + 1) % maxLen != 0 then None
    else
      var start := (from + 1) % |hashmap|;
      Some(Update((from + 1) / maxLen, hashmap[start..Min(start + maxLen, |hashmap|)]))
  }

  datatype Reply = Reply(parts: seq<Data>, update: Option<Update>, cancel: bool)

  predicate Serving(s: Sender) {
    |s.current.parts| == |s.current.hashmap|
  }

  /** `handleRequest` of a request routed to this segment. */
  function HandleRequest(s: Sender, maxLen: nat, q: Request, now: int): (Sender, Reply)
    requires Serving(s)
  {
    var indices := Served(s.current.hashmap, q.requested);
    var s1 := s.(gotRequests := true, lastActivity := now, sent := s.sent + Elements(indices));
    var parts := PartsAt(s.current.parts, indices);
    if !q.exhausted || q.last.None? then (s1, Reply(parts, None, false))
    else
      match Continuation(s.current.hashmap, maxLen, q.last.value)
      case Some(u) => (s1, Reply(parts, Some(u), false))
      case None => (Stop(s1), Reply(parts, None, true))
  }

  /** `cancel` */
  function Stop(s: Sender): Sender {
    if s.status == Advertised then s.(status := Cancelled) else s
  }

  // ---------- requests on the wire ----------

  function Joined(hashes: seq<MapHash>): Data {
    if hashes == [] then [] else hashes[0] + Joined(hashes[1..])
  }

  /** `_sendRequest` */
  function RequestBytes(h: Data, q: Request): Data {
    [if q.exhausted then 0xff else 0]
    + (if q.exhausted && q.last.Some? then q.last.value else [])
    + h + Joined(q.requested)
  }

  /** `_splitHashmap`: whole 4-byte hashes, a shorter rest dropped. */
  function SplitHashes(d: Data): seq<MapHash> {
    if |d| < 4 then [] else [d[..4]] + SplitHashes(d[4..])
  }

  /** `_parseRequest`: the resource hash and the request. */
  function ParseRequest(d: Data): (Data, Request) {
    var exhausted := |d| > 0 && d[0] == 0xff;
    var offset := if exhausted then 5 else 1;
    (Take(Drop(d, offset), 32),
     Request(SplitHashes(Drop(d, offset + 32)), exhausted, if exhausted then Some(Take(Drop(d, 1), 4)) else None))
  }

  lemma {:induction false} SplitJoined(hashes: seq<MapHash>)
    requires forall i :: 0 <= i < |hashes| ==> |hashes[i]| == 4
    ensures SplitHashes(Joined(hashes)) == hashes
    decreases |hashes|
  {
    if hashes != [] {
      var d := Joined(hashes);
      assert d[..4] == hashes[0] && d[4..] == Joined(hashes[1..]);
      SplitJoined(hashes[1..]);
    }
  }

  /** The sender reads back every request the receiver writes, once it knows a map hash to name. */
  lemma RequestRoundTrip(h: Data, q: Request)
    requires |h| == 32 && (q.exhausted <==> q.last.Some?)
    requires forall i :: 0 <= i < |q.requested| ==> |q.requested[i]| == 4
    requires q.last.Some? ==> |q.last.value| == 4
    ensures ParseRequest(RequestBytes(h, q)) == (h, q)
  {
    var last := if q.exhausted then q.last.value else [];
    var tail := Joined(q.requested);
    var d := RequestBytes(h, q);
    var offset := 1 + |last|;
    assert d[1..] == last + h + tail;
    assert Take(Drop(d, 1), |last|) == last;
    assert Drop(d, offset) == h + tail;
    assert Take(Drop(d, offset), 32) == h;
    assert Drop(d, offset + 32) == tail;
    SplitJoined(q.requested);
  }

  /** Without one the request is misrouted: the sender looks for another resource and drops it. */
  lemma UnnamedExhaustionMisroutes(h: Data)
    requires |h| == 32
    ensures ParseRequest(RequestBytes(h, Request([], true, None))).0 == h[4..]
    ensures ParseRequest(RequestBytes(h, Request([], true, None))).0 != h
  {
    var d := RequestBytes(h, Request([], true, None));
    assert d == [0xff] + h;
    assert Drop(d, 5) == h[4..];
  }

  // ---------- proofs ----------

  /** `validateProof` of a proof routed to this segment; `next` is the segment prepared after it. */
  function ValidateProof(s: Sender, p: Proof, next: Segment, now: int): Sender {
    if s.status == Cancelled then s
    else if p.full != s.current.proof then s.(status := Cancelled)
    else if s.segmentIndex < s.totalSegments then
      s.(segmentIndex := s.segmentIndex + 1, current := next, retriesLeft := MAX_RETRIES, status := Advertised,
         gotRequests := false, advSentAt := now, lastActivity := now, sent := {})
    else s.(status := Proven)
  }

  // ---------- the sender's watchdog ----------

  const ADVERTISEMENT_GRACE := 1.0
  /** Sixteen retries of traffic timeout aside: the sender grace and the summed retry delays, in seconds. */
  const REQUEST_GRACE := 10.0 + 68.0

  predicate Unanswered(s: Sender, now: int, rtt: real) {
    !s.gotRequests && Seconds(now) >= Seconds(s.advSentAt) + RttSeconds(rtt) * 6.0 + ADVERTISEMENT_GRACE
  }

  predicate DriedUp(s: Sender, now: int, rtt: real) {
    s.gotRequests && Seconds(s.lastActivity) + (RttSeconds(rtt) * 6.0 * 16.0 + REQUEST_GRACE) <= Seconds(now)
  }

  /** `_watchdogTick` on a sender: whether the segment is advertised again, and the new state. */
  function TickSender(s: Sender, now: int, rtt: real): (Sender, bool) {
    if s.status != Advertised then (s, false)
    else if Unanswered(s, now, rtt) then
      if s.retriesLeft > 0 then
        (s.(retriesLeft := s.retriesLeft - 1, advSentAt := now, lastActivity := now, gotRequests := false), true)
      else (Stop(s), false)
    else if DriedUp(s, now, rtt) then (Stop(s), false)
    else (s, false)
  }

  class ResourceUpload {
    const c: Crypto
    const full: Data
    const sdu: nat
    const span: nat
    const maxLen: nat
    const totalSegments: nat
    var segmentIndex: nat
    var status: SenderStatus
    var current: Segment
    var retriesLeft: nat
    var gotRequests: bool
    var advSentAt: int
    var lastActivity: int
    var sent: set<nat>

    ghost predicate Valid()
      reads this
    {
      && sdu > 0 && totalSegments == SegmentCount(|full|) && 1 <= segmentIndex <= totalSegments
      && IsPrepared(c, full, segmentIndex, sdu, span, current) && Serving(State())
    }

    function State(): Sender
      reads this
    {
      Sender(full, segmentIndex, totalSegments, status, current, retriesLeft, gotRequests, advSentAt, lastActivity, sent)
    }

    /** Preparing and advertising the first segment; some salt is clean. */
    constructor (c: Crypto, full: Data, sdu: nat, span: nat, maxLen: nat, compressed: bool, tries: seq<Attempt>, now: int)
      requires sdu > 0
      requires FirstClean(c, SegmentText(full, 1), compressed, sdu, span, tries).Some?
      ensures Valid() && this.full == full && this.maxLen == maxLen && status == Advertised
      ensures segmentIndex == 1 && retriesLeft == MAX_RETRIES && !gotRequests && advSentAt == now && sent == {}
      ensures Some(current) == FirstClean(c, SegmentText(full, 1), compressed, sdu, span, tries)
    {
      var g := BuildIntegrityAndParts(c, SegmentText(full, 1), compressed, sdu, span, tries);
      CleanServes(c, SegmentText(full, 1), compressed, sdu, span, tries);
      this.c, this.full, this.sdu, this.span, this.maxLen := c, full, sdu, span, maxLen;
      totalSegments := SegmentCount(|full|);
      segmentIndex, status, current := 1, Advertised, g.value;
      retriesLeft, gotRequests, advSentAt, lastActivity, sent := MAX_RETRIES, false, now, now, {};
    }

    method FindPart(mh: MapHash) returns (i: nat)
      ensures i == Find(current.hashmap, mh, 0)
    {
      i := 0;
      while i < |current.hashmap| && current.hashmap[i] != mh
        invariant i <= |current.hashmap|
        invariant Find(current.hashmap, mh, i) == Find(current.hashmap, mh, 0)
      {
        i := i + 1;
      }
    }

    method ServeParts(requested: seq<MapHash>) returns (out: seq<Data>)
      requires Serving(State())
      modifies `sent
      ensures sent == old(sent) + Elements(Served(current.hashmap, requested))
      ensures out == PartsAt(current.parts, Served(current.hashmap, requested))
    {
      out := [];
      ghost var indices: seq<nat> := [];
      for k := 0 to |requested|
        invariant indices == Served(current.hashmap, requested[..k])
        invariant out == PartsAt(current.parts, indices)
        invariant sent == old(sent) + Elements(indices)
      {
        assert requested[..k + 1][..k] == requested[..k];
        var i := FindPart(requested[k]);
        if i < |current.parts| {
          out := out + [current.parts[i]];
          sent := sent + {i};
          assert Elements(indices + [i]) == Elements(indices) + {i};
          indices := indices + [i];
        }
      }
      assert requested[..|requested|] == requested;
    }

    method Serve(q: Request, now: int) returns (reply: Reply)
      requires Valid()
      modifies this
      ensures Valid() && (State(), reply) == HandleRequest(old(State()), maxLen, q, now)
    {
      hide IsPrepared, Served, Continuation;
      gotRequests, lastActivity := true, now;
      var out := ServeParts(q.requested);
      if !q.exhausted || q.last.None? {
        return Reply(out, None, false);
      }
      var update := ContinueAfter(q.last.value);
      if update.None? && status == Advertised {
        status := Cancelled;
      }
      return Reply(out, update, update.None?);
    }

    method ContinueAfter(last: MapHash) returns (update: Option<Update>)
      ensures update == Continuation(current.hashmap, maxLen, last)
    {
      var from := FindPart(last);
      if from == |current.hashmap| || maxLen == 0 || (from + 1) % maxLen != 0 {
        return None;
      }
      var start := (from + 1) % |current.hashmap|;
      var end := Min(start + maxLen, |current.hashmap|);
      return Some(Update((from + 1) / maxLen, current.hashmap[start..end]));
    }

    /** A matching proof moves on to the next segment, prepared from fresh salts, some of them clean. */
    method CheckProof(p: Proof, compressed: bool, tries: seq<Attempt>, now: int)
      requires Valid()
      requires segmentIndex < totalSegments ==>
        FirstClean(c, SegmentText(full, segmentIndex + 1), compressed, sdu, span, tries).Some?
      modifies this
      ensures Valid()
      ensures var next := if old(segmentIndex) < totalSegments
          then FirstClean(c, SegmentText(full, old(segmentIndex) + 1), compressed, sdu, span, tries).value
          else old(current);
        State() == ValidateProof(old(State()), p, next, now)
    {
      hide FirstClean, IsPrepared;
      if status == Cancelled {
        return;
      }
      if p.full != current.proof {
        status := Cancelled;
        return;
      }
      if segmentIndex < totalSegments {
        Advance(compressed, tries, now);
      } else {
        status := Proven;
      }
    }

    method Advance(compressed: bool, tries: seq<Attempt>, now: int)
      requires Valid() && segmentIndex < totalSegments
      requires FirstClean(c, SegmentText(full, segmentIndex + 1), compressed, sdu, span, tries).Some?
      modifies this
      ensures Valid()
      ensures var g := FirstClean(c, SegmentText(full, old(segmentIndex) + 1), compressed, sdu, span, tries).value;
        State() == Sender(full, old(segmentIndex) + 1, totalSegments, Advertised, g, MAX_RETRIES, false, now, now, {})
    {
      hide FirstClean, Build, HasCollision, SegmentText;
      segmentIndex := segmentIndex + 1;
      var g := BuildIntegrityAndParts(c, SegmentText(full, segmentIndex), compressed, sdu, span, tries);
      assert IsPrepared(c, full, segmentIndex, sdu, span, g.value);
      CleanServes(c, SegmentText(full, segmentIndex), compressed, sdu, span, tries);
      hide IsPrepared;
      current := g.value;
      retriesLeft, status, gotRequests, advSentAt, lastActivity, sent := MAX_RETRIES, Advertised, false, now, now, {};
    }

    method WatchdogTick(now: int, rtt: real) returns (readvertise: bool)
      requires Valid()
      modifies this
      ensures Valid() && (State(), readvertise) == TickSender(old(State()), now, rtt)
    {
      hide IsPrepared;
      if status != Advertised {
        return false;
      }
      var timeout := RttSeconds(rtt) * 6.0;
      if !gotRequests {
        if Seconds(now) >= Seconds(advSentAt) + timeout + ADVERTISEMENT_GRACE {
          if retriesLeft > 0 {
            retriesLeft, advSentAt, lastActivity := retriesLeft - 1, now, now;
            return true;
          }
          status := Cancelled;
        }
      } else if Seconds(lastActivity) + (timeout * 16.0 + REQUEST_GRACE) <= Seconds(now) {
        status := Cancelled;
      }
      return false;
    }
  }

  lemma {:induction false} CleanServes(c: Crypto, plaintext: Data, compressed: bool, sdu: nat, span: nat, tries: seq<Attempt>)
    requires sdu > 0 && FirstClean(c, plaintext, compressed, sdu, span, tries).Some?
    ensures var g := FirstClean(c, plaintext, compressed, sdu, span, tries).value;
      && |g.parts| == |g.hashmap| && g.plaintext == plaintext && !HasCollision(g.hashmap, span)
      && exists a :: a in tries && g == Build(c, plaintext, compressed, sdu, a)
    decreases |tries|
  {
    var g := Build(c, plaintext, compressed, sdu, tries[0]);
    if HasCollision(g.hashmap, span) {
      CleanServes(c, plaintext, compressed, sdu, span, tries[1..]);
    }
  }
}
