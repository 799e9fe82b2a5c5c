/**
 One segment over a channel that loses, repeats and reorders requests and parts, and delivers each
 hashmap continuation at most once: what every run keeps, and how loss-free runs end.
 */
module ResourceTransfer {
  import opened Bytes
  import opened Wrappers
  import opened Resource
  import opened ResourceSender

  ghost predicate Distinct(hashmap: seq<MapHash>) {
    forall i, j :: 0 <= i < j < |hashmap| ==> hashmap[i] != hashmap[j]
  }

  /** A segment whose parts open to its plaintext, with pairwise distinct map hashes. */
  ghost predicate Sound(c: Crypto, g: Segment, adv: Advertisement) {
    && |g.parts| == |g.hashmap| > 0 && Distinct(g.hashmap)
    && (forall i :: 0 <= i < |g.parts| ==> g.hashmap[i] == MapHashOf(c, g.parts[i], g.r))
    && c.hash(g.plaintext + g.r) == g.h && c.hash(g.plaintext + g.h) == g.proof
    && adv.h == g.h && adv.r == g.r && adv.n == |g.parts|
    && Opened(c, adv, Concat(g.parts)) == Some(g.plaintext)
  }

  // ---------- what a receiver is missing ----------

  /** The known map hashes whose slots are open, from slot `i` on. */
  function Wanted(parts: seq<Option<Data>>, hashmap: seq<MapHash>, i: nat): seq<MapHash>
    requires i <= |hashmap|
    decreases |hashmap| - i
  {
    if i == |hashmap| then []
    else (if Open(parts, i) then [hashmap[i]] else []) + Wanted(parts, hashmap, i + 1)
  }

  lemma {:induction false} ScanTakesWanted(parts: seq<Option<Data>>, hashmap: seq<MapHash>, size: nat, i: nat,
                                           requested: seq<MapHash>, last: Option<MapHash>)
    requires i <= |hashmap| && |requested| <= size
    ensures var w := Wanted(parts, hashmap, i);
      Scan(parts, hashmap, size, i, requested, last).0 == requested + w[..Min(size - |requested|, |w|)]
    decreases |hashmap| - i
  {
    if i < |hashmap| && |requested| < size {
      var next := if Open(parts, i) then requested + [hashmap[i]] else requested;
      ScanTakesWanted(parts, hashmap, size, i + 1, next, Some(hashmap[i]));
      var w, w' := Wanted(parts, hashmap, i), Wanted(parts, hashmap, i + 1);
      assert requested + w[..Min(size - |requested|, |w|)] == next + w'[..Min(size - |next|, |w'|)];
    } else {
      var w := Wanted(parts, hashmap, i);
      assert w[..0] == [];
    }
  }

  lemma {:induction false} ScanLast(parts: seq<Option<Data>>, hashmap: seq<MapHash>, size: nat, i: nat, last: Option<MapHash>)
    requires i <= |hashmap| && size > 0 && Wanted(parts, hashmap, i) == []
    ensures Scan(parts, hashmap, size, i, [], last).1 == if i == |hashmap| then last else Some(hashmap[|hashmap| - 1])
    decreases |hashmap| - i
  {
    if i < |hashmap| {
      ScanLast(parts, hashmap, size, i + 1, Some(hashmap[i]));
    }
  }

  lemma {:induction false} WantedAreKnown(parts: seq<Option<Data>>, hashmap: seq<MapHash>, i: nat)
    requires i <= |hashmap|
    ensures forall h :: h in Wanted(parts, hashmap, i) ==> h in hashmap
    decreases |hashmap| - i
  {
    if i < |hashmap| {
      WantedAreKnown(parts, hashmap, i + 1);
    }
  }

  lemma {:induction false} NothingWanted(parts: seq<Option<Data>>, hashmap: seq<MapHash>, i: nat)
    requires i <= |hashmap| && Wanted(parts, hashmap, i) == []
    ensures forall k :: i <= k < |hashmap| ==> !Open(parts, k)
    decreases |hashmap| - i
  {
    if i < |hashmap| {
      NothingWanted(parts, hashmap, i + 1);
    }
  }

  /** The first wanted hash is that of the first open slot, where a part with this hash goes. */
  lemma {:induction false} FirstWanted(parts: seq<Option<Data>>, hashmap: seq<MapHash>, i: nat) returns (k: nat)
    requires i <= |hashmap| && Wanted(parts, hashmap, i) != []
    ensures i <= k < |hashmap| && Open(parts, k) && forall j :: i <= j < k ==> !Open(parts, j)
    ensures Wanted(parts, hashmap, i)[0] == hashmap[k]
    ensures Slot(parts, hashmap, hashmap[k], i) == k
    decreases |hashmap| - i
  {
    if Open(parts, i) {
      k := i;
    } else {
      k := FirstWanted(parts, hashmap, i + 1);
    }
  }

  /** Filling a slot in front of `i` changes nothing from `i` on. */
  lemma {:induction false} WantedBehind(parts: seq<Option<Data>>, hashmap: seq<MapHash>, i: nat, k: nat, d: Data)
    requires k < |parts| && k < i <= |hashmap|
    ensures Wanted(parts[k := Some(d)], hashmap, i) == Wanted(parts, hashmap, i)
    decreases |hashmap| - i
  {
    if i < |hashmap| {
      WantedBehind(parts, hashmap, i + 1, k, d);
    }
  }

  lemma {:induction false} FillRemoves(parts: seq<Option<Data>>, hashmap: seq<MapHash>, i: nat, k: nat, d: Data)
    requires i <= k < |hashmap| && Open(parts, k)
    ensures |Wanted(parts[k := Some(d)], hashmap, i)| + 1 == |Wanted(parts, hashmap, i)|
    ensures (forall j :: i <= j < k ==> !Open(parts, j)) ==>
      Wanted(parts[k := Some(d)], hashmap, i) == Wanted(parts, hashmap, i)[1..]
    decreases |hashmap| - i
  {
    if i == k {
      WantedBehind(parts, hashmap, i + 1, k, d);
    } else {
      FillRemoves(parts, hashmap, i + 1, k, d);
    }
  }

  lemma {:induction false} WantedGrows(parts: seq<Option<Data>>, hashmap: seq<MapHash>, more: seq<MapHash>, i: nat)
    requires i <= |hashmap|
    ensures |Wanted(parts, hashmap + more, i)| >= |Wanted(parts, hashmap, i)|
    decreases |hashmap| - i
  {
    if i < |hashmap| {
      WantedGrows(parts, hashmap, more, i + 1);
    }
  }

  // ---------- filled slots ----------

  lemma {:induction false} FilledAfter(parts: seq<Option<Data>>, i: nat, d: Data)
    requires i < |parts| && parts[i].None?
    ensures |Filled(parts[i := Some(d)])| == |Filled(parts)| + 1
    decreases |parts|
  {
    var after := parts[i := Some(d)];
    if i == 0 {
      assert after[1..] == parts[1..];
    } else {
      assert after[1..] == parts[1..][i - 1 := Some(d)];
      FilledAfter(parts[1..], i - 1, d);
    }
  }

  lemma {:induction false} AllFilled(parts: seq<Option<Data>>)
    ensures |Filled(parts)| <= |parts|
    ensures |Filled(parts)| == |parts| ==>
      forall i :: 0 <= i < |parts| ==> parts[i].Some? && Filled(parts)[i] == parts[i].value
    ensures |Filled(parts)| < |parts| ==> AnyOpen(parts)
    decreases |parts|
  {
    if parts != [] {
      AllFilled(parts[1..]);
      if |Filled(parts)| < |parts| && parts[0].Some? {
        assert AnyOpen(parts[1..]);
        var i :| 0 <= i < |parts[1..]| && parts[1..][i].None?;
        assert parts[i + 1].None?;
      }
    }
  }

  lemma {:induction false} NoneFilled(n: nat)
    ensures Filled(seq(n, i => None)) == []
  {
    if n > 0 {
      var parts: seq<Option<Data>> := seq(n, i => None);
      assert parts[1..] == seq(n - 1, i => None);
      NoneFilled(n - 1);
    }
  }

  // ---------- the invariant of a receiver ----------

  /** After the advertisement and `m - 1` continuations. */
  function Known(g: Segment, maxLen: nat, m: nat): (k: nat)
    ensures k <= |g.hashmap|
  {
    Min(m * maxLen, |g.hashmap|)
  }

  ghost predicate HashesKept(g: Segment, maxLen: nat, m: nat, r: Receiver) {
    m >= 1 && (m - 1) * maxLen < |g.hashmap| && r.hashmap == g.hashmap[..Known(g, maxLen, m)]
  }

  ghost predicate SlotsKept(g: Segment, r: Receiver) {
    && |r.parts| == |g.parts| == |g.hashmap| && |r.hashmap| <= |g.hashmap|
    && (forall i :: 0 <= i < |r.parts| && r.parts[i].Some? ==> i < |r.hashmap| && r.parts[i].value == g.parts[i])
    && r.received == |Filled(r.parts)| < |g.parts|
    && r.outstanding <= |Wanted(r.parts, r.hashmap, 0)|
  }

  ghost predicate WfWindow(w: Window) {
    2 <= w.min <= w.size <= WINDOW_MAX_FAST && w.max <= WINDOW_MAX_FAST
  }

  ghost predicate ReceiverKept(g: Segment, maxLen: nat, m: nat, adv: Advertisement, r: Receiver) {
    && r.adv == adv && WfWindow(r.window)
    && match r.status
       case Transferring => HashesKept(g, maxLen, m, r) && SlotsKept(g, r)
       case Complete => r.data == Some(Strip(adv, g.plaintext).0) && r.metadata == Strip(adv, g.plaintext).1
       case Failed => true
       case _ => false
  }

  /** An exhausted request names the last hash in front of a boundary the sender can continue from. */
  ghost predicate RequestKept(g: Segment, maxLen: nat, m: nat, q: Request) {
    q.exhausted ==> exists k :: 1 <= k <= m && 0 < k * maxLen < |g.hashmap| && q.last == Some(g.hashmap[k * maxLen - 1])
  }

  lemma WindowKept(w: Window, elapsed: int, rxd: nat)
    requires WfWindow(w)
    ensures WfWindow(Drained(w, elapsed, rxd)) && WfWindow(Shrunk(w))
  {
  }

  ghost predicate OptionKept(g: Segment, maxLen: nat, m: nat, q: Option<Request>) {
    q.Some? ==> RequestKept(g, maxLen, m, q.value)
  }

  /** The next request of a healthy receiver. */
  lemma RequestNextKept(g: Segment, maxLen: nat, m: nat, adv: Advertisement, r: Receiver, now: int)
    requires maxLen > 0 && adv.n == |g.parts| && r.status == Transferring && ReceiverKept(g, maxLen, m, adv, r)
    ensures var (r', q) := RequestNext(r, now);
      var w := Wanted(r.parts, r.hashmap, 0);
      && ReceiverKept(g, maxLen, m, adv, r')
      && r' == r.(outstanding := r'.outstanding, sentAt := now, rxd := 0)
      && q.Some? && RequestKept(g, maxLen, m, q.value)
      && q.value.requested == w[..Min(r.window.size, |w|)] && r'.outstanding == |q.value.requested|
      && (q.value.exhausted <==> w == [])
      && (w == [] ==> 0 < |r.hashmap| == m * maxLen < |g.hashmap|
                      && q.value.last == Some(g.hashmap[m * maxLen - 1]))
  {
    var w := Wanted(r.parts, r.hashmap, 0);
    ScanTakesWanted(r.parts, r.hashmap, r.window.size, 0, [], None);
    AllFilled(r.parts);
    assert AnyOpen(r.parts);
    if w == [] {
      NothingWanted(r.parts, r.hashmap, 0);
      ScanLast(r.parts, r.hashmap, r.window.size, 0, None);
      var i :| 0 <= i < |r.parts| && r.parts[i].None?;
      assert !Open(r.parts, i) || i >= |r.hashmap|;
      assert Open(r.parts, i);
      MulMonotone(1, m, maxLen);
      assert |r.hashmap| == m * maxLen;
    }
  }

  /** A sender's part goes where the sender has it. */
  lemma SlotIsPlace(c: Crypto, g: Segment, maxLen: nat, m: nat, adv: Advertisement, r: Receiver, j: nat, i: nat)
    requires Sound(c, g, adv) && r.status == Transferring && ReceiverKept(g, maxLen, m, adv, r)
    requires j < |g.parts| && i < |r.hashmap| && r.hashmap[i] == MapHashOf(c, g.parts[j], g.r)
    ensures i == j
  {
    assert g.hashmap[i] == r.hashmap[i] == g.hashmap[j];
  }

  /** A placed part, in front of assembly, drain or nothing. */
  lemma PlaceKept(c: Crypto, g: Segment, maxLen: nat, m: nat, adv: Advertisement, r: Receiver, i: nat, now: int)
    requires Sound(c, g, adv) && r.status == Transferring && ReceiverKept(g, maxLen, m, adv, r)
    requires i < |r.hashmap| && Open(r.parts, i)
    ensures var p := Place(r, i, g.parts[i], now);
      && p.received == |Filled(p.parts)| == r.received + 1
      && p.adv == adv && p.status == Transferring && WfWindow(p.window)
      && (p.received < adv.n ==> ReceiverKept(g, maxLen, m, adv, p))
      && (p.received >= adv.n ==> Filled(p.parts) == g.parts)
  {
    var p := Place(r, i, g.parts[i], now);
    FilledAfter(r.parts, i, g.parts[i]);
    FillRemoves(r.parts, r.hashmap, 0, i, g.parts[i]);
    AllFilled(p.parts);
  }

  ghost predicate OutputKept(g: Segment, maxLen: nat, m: nat, out: Output) {
    OptionKept(g, maxLen, m, out.request) && (out.proof.Some? ==> out.proof.value == Proof(g.h, g.proof))
  }

  lemma AssembleKept(c: Crypto, g: Segment, maxLen: nat, m: nat, adv: Advertisement, p: Receiver)
    requires Sound(c, g, adv) && p.adv == adv && WfWindow(p.window) && Filled(p.parts) == g.parts
    ensures var (r', proof) := Assemble(c, p);
      r'.status == Complete && ReceiverKept(g, maxLen, m, adv, r') && proof == Some(Proof(g.h, g.proof))
  {
  }

  lemma PartKept(c: Crypto, g: Segment, maxLen: nat, m: nat, adv: Advertisement, r: Receiver, chunk: Data, now: int)
    requires maxLen > 0 && Sound(c, g, adv) && ReceiverKept(g, maxLen, m, adv, r) && chunk in g.parts
    ensures var (r', out) := ReceivePart(c, r, chunk, now);
      ReceiverKept(g, maxLen, m, adv, r') && OutputKept(g, maxLen, m, out)
  {
    hide RequestNext, Assemble, Drained, RequestKept, MapHashOf, Wanted, Filled, Place, Opened;
    if r.status == Transferring {
      var j :| 0 <= j < |g.parts| && g.parts[j] == chunk;
      var i := Slot(r.parts, r.hashmap, MapHashOf(c, chunk, r.adv.r), 0);
      if i < |r.hashmap| {
        SlotIsPlace(c, g, maxLen, m, adv, r, j, i);
        PlaceKept(c, g, maxLen, m, adv, r, i, now);
        AfterPlacingKept(c, g, maxLen, m, adv, Place(r, i, chunk, now), now);
      }
    }
  }

  lemma AfterPlacingKept(c: Crypto, g: Segment, maxLen: nat, m: nat, adv: Advertisement, p: Receiver, now: int)
    requires maxLen > 0 && Sound(c, g, adv) && p.adv == adv && WfWindow(p.window)
    requires p.received < adv.n ==> p.status == Transferring && ReceiverKept(g, maxLen, m, adv, p)
    requires p.received >= adv.n ==> Filled(p.parts) == g.parts
    ensures var (r', out) := AfterPlacing(c, p, now);
      ReceiverKept(g, maxLen, m, adv, r') && OutputKept(g, maxLen, m, out)
  {
    hide RequestNext, Assemble, Drained, RequestKept, Wanted, Filled, Opened;
    if p.received >= adv.n {
      AssembleKept(c, g, maxLen, m, adv, p);
    } else if p.outstanding == 0 {
      WindowKept(p.window, now - p.sentAt, p.rxd);
      var p1 := p.(window := Drained(p.window, now - p.sentAt, p.rxd));
      RequestNextKept(g, maxLen, m, adv, p1, now);
    }
  }

  /** The continuation with this number. */
  function ContinuationAt(g: Segment, maxLen: nat, k: nat): Update
    requires k * maxLen <= |g.hashmap|
  {
    Update(k, g.hashmap[k * maxLen..Min(k * maxLen + maxLen, |g.hashmap|)])
  }

  ghost predicate UpdateKept(g: Segment, maxLen: nat, m: nat, u: Update) {
    1 <= u.segment <= m && u.segment * maxLen < |g.hashmap| && u == ContinuationAt(g, maxLen, u.segment)
  }

  lemma ContinuationExtends(g: Segment, maxLen: nat, m: nat)
    requires m >= 1 && m * maxLen < |g.hashmap|
    ensures g.hashmap[..Known(g, maxLen, m)] + ContinuationAt(g, maxLen, m).hashes == g.hashmap[..Known(g, maxLen, m + 1)]
  {
    assert (m + 1) * maxLen == m * maxLen + maxLen;
  }

  lemma MoreHashesKept(g: Segment, maxLen: nat, m: nat, adv: Advertisement, r: Receiver, now: int)
    requires maxLen > 0 && m * maxLen < |g.hashmap| && r.status == Transferring && ReceiverKept(g, maxLen, m, adv, r)
    ensures ReceiverKept(g, maxLen, m + 1, adv,
                         r.(hashmap := r.hashmap + ContinuationAt(g, maxLen, m).hashes, lastActivity := now))
  {
    ContinuationExtends(g, maxLen, m);
    WantedGrows(r.parts, r.hashmap, ContinuationAt(g, maxLen, m).hashes, 0);
  }

  /** The continuation with the next number extends the prefix by one more run. */
  lemma UpdateReceivedKept(g: Segment, maxLen: nat, m: nat, adv: Advertisement, r: Receiver, now: int)
    requires maxLen > 0 && adv.n == |g.parts| && m * maxLen < |g.hashmap|
    requires r.status == Transferring && ReceiverKept(g, maxLen, m, adv, r)
    ensures var (r', q) := HashmapUpdate(r, ContinuationAt(g, maxLen, m), now);
      && r'.status == Transferring && ReceiverKept(g, maxLen, m + 1, adv, r')
      && OptionKept(g, maxLen, m + 1, q)
  {
    hide RequestNext, RequestKept, Wanted, Filled;
    MoreHashesKept(g, maxLen, m, adv, r, now);
    var r1 := r.(hashmap := r.hashmap + ContinuationAt(g, maxLen, m).hashes, lastActivity := now);
    if r1.outstanding == 0 {
      RequestNextKept(g, maxLen, m + 1, adv, r1, now);
    }
  }

  lemma TickKept(g: Segment, maxLen: nat, m: nat, adv: Advertisement, r: Receiver, now: int, rtt: real)
    requires maxLen > 0 && adv.n == |g.parts| && ReceiverKept(g, maxLen, m, adv, r)
    ensures var (r', q) := Tick(r, now, rtt);
      ReceiverKept(g, maxLen, m, adv, r') && OptionKept(g, maxLen, m, q)
  {
    hide RequestNext, RequestKept, Wanted, Filled, Shrunk, StallTime;
    if Stalls(r, now, rtt) && r.retriesLeft > 0 {
      WindowKept(r.window, 0, 0);
      var r1 := r.(retriesLeft := r.retriesLeft - 1, window := Shrunk(r.window), outstanding := 0, lastActivity := now);
      assert ReceiverKept(g, maxLen, m, adv, r1);
      RequestNextKept(g, maxLen, m, adv, r1, now);
    }
  }

  // ---------- the sender's answers ----------

  lemma {:induction false} ServedAll(c: Crypto, g: Segment, adv: Advertisement, requested: seq<MapHash>)
    requires Sound(c, g, adv) && forall h :: h in requested ==> h in g.hashmap
    ensures var indices := Served(g.hashmap, requested);
      |indices| == |requested| && forall k :: 0 <= k < |requested| ==> g.hashmap[indices[k]] == requested[k]
    decreases |requested|
  {
    if requested != [] {
      var init := requested[..|requested| - 1];
      ServedAll(c, g, adv, init);
      assert requested[|requested| - 1] in g.hashmap;
    }
  }

  lemma ContinuesAt(hashmap: seq<MapHash>, maxLen: nat, at: nat)
    requires Distinct(hashmap) && maxLen > 0 && 0 < at < |hashmap| && at % maxLen == 0
    ensures Continuation(hashmap, maxLen, hashmap[at - 1])
         == Some(Update(at / maxLen, hashmap[at..Min(at + maxLen, |hashmap|)]))
  {
    hide Distinct, Find;
    FoundAtPlace(hashmap, at - 1);
    SmallRemainder(at, |hashmap|);
    var from := Find(hashmap, hashmap[at - 1], 0);
    assert from + 1 == at;
  }

  lemma FoundAtPlace(hashmap: seq<MapHash>, at: nat)
    requires Distinct(hashmap) && at < |hashmap|
    ensures Find(hashmap, hashmap[at], 0) == at
  {
  }

  lemma SmallRemainder(a: nat, b: nat)
    requires a < b
    ensures a % b == a
  {
    var q := a / b;
    assert a == q * b + a % b;
    if q > 0 {
      MulMonotone(1, q, b);
    }
  }

  /** A boundary hash is answered by the continuation behind it. */
  lemma BoundaryContinues(g: Segment, maxLen: nat, k: nat)
    requires Distinct(g.hashmap) && maxLen > 0 && k >= 1 && 0 < k * maxLen < |g.hashmap|
    ensures Continuation(g.hashmap, maxLen, g.hashmap[k * maxLen - 1]) == Some(ContinuationAt(g, maxLen, k))
  {
    Divides(k, maxLen);
    ContinuesAt(g.hashmap, maxLen, k * maxLen);
  }

  lemma Divides(k: nat, d: nat)
    requires d > 0
    ensures (k * d) % d == 0 && (k * d) / d == k
  {
    var q, m := (k * d) / d, (k * d) % d;
    assert k * d == q * d + m;
    MultiplesApart(k, q, d);
    MultiplesApart(q, k, d);
  }

  /** A request the invariant allows is answered with parts and perhaps a continuation, never a cancel. */
  lemma ServeKept(c: Crypto, g: Segment, adv: Advertisement, maxLen: nat, m: nat, s: Sender, q: Request, now: int)
    requires maxLen > 0 && Sound(c, g, adv) && s.current == g && RequestKept(g, maxLen, m, q)
    ensures var (s', reply) := HandleRequest(s, maxLen, q, now);
      && s'.current == g && s'.status == s.status && !reply.cancel
      && (forall p :: p in reply.parts ==> p in g.parts)
      && (reply.update.Some? ==> UpdateKept(g, maxLen, m, reply.update.value))
      && (q.exhausted ==> reply.update.Some?)
  {
    hide Continuation, Served;
    if q.exhausted {
      var k :| 1 <= k <= m && 0 < k * maxLen < |g.hashmap| && q.last == Some(g.hashmap[k * maxLen - 1]);
      BoundaryContinues(g, maxLen, k);
    }
  }

  // ---------- runs ----------

  datatype Net = Net(sender: Sender, receiver: Receiver, requests: set<Request>, chunks: set<Data>, updates: set<Update>,
                     delivered: set<nat>, runs: nat, proofs: set<Proof>, sequencingError: bool)

  datatype Event =
    | Serve(q: Request, at: int)
    | DeliverPart(chunk: Data, at: int)
    | DeliverUpdate(u: Update, at: int)
    | ReceiverTick(at: int, rtt: real)
    | SenderTick(at: int, rtt: real)

  /** Anything sent may arrive at any time and any number of times; a continuation arrives once. */
  predicate Enabled(net: Net, e: Event) {
    match e
    case Serve(q, _) => q in net.requests && net.sender.status == Advertised && Serving(net.sender)
    case DeliverPart(chunk, _) => chunk in net.chunks
    case DeliverUpdate(u, _) => u in net.updates && u.segment !in net.delivered && net.receiver.status == Transferring
    case _ => true
  }

  function Elements<T(==)>(s: seq<T>): set<T> {
    set x | x in s
  }

  function Just<T(==)>(o: Option<T>): set<T> {
    if o.Some? then {o.value} else {}
  }

  function Next(c: Crypto, maxLen: nat, net: Net, e: Event): Net
    requires Enabled(net, e)
  {
    match e
    case Serve(q, at) =>
      var (s, reply) := HandleRequest(net.sender, maxLen, q, at);
      net.(sender := s, chunks := net.chunks + Elements(reply.parts), updates := net.updates + Just(reply.update),
           sequencingError := net.sequencingError || reply.cancel)
    case DeliverPart(chunk, at) =>
      var (r, out) := ReceivePart(c, net.receiver, chunk, at);
      net.(receiver := r, requests := net.requests + Just(out.request), proofs := net.proofs + Just(out.proof))
    case DeliverUpdate(u, at) =>
      var (r, q) := HashmapUpdate(net.receiver, u, at);
      net.(receiver := r, requests := net.requests + Just(q), delivered := net.delivered + {u.segment}, runs := net.runs + 1)
    case ReceiverTick(at, rtt) =>
      var (r, q) := Tick(net.receiver, at, rtt);
      net.(receiver := r, requests := net.requests + Just(q))
    case SenderTick(at, rtt) =>
      net.(sender := TickSender(net.sender, at, rtt).0)
  }

  ghost predicate NetKept(c: Crypto, g: Segment, adv: Advertisement, maxLen: nat, net: Net) {
    && net.sender.current == g && !net.sequencingError
    && ReceiverKept(g, maxLen, net.runs, adv, net.receiver)
    && net.runs >= 1 && (forall k :: k in net.delivered <==> 1 <= k < net.runs)
    && (forall q :: q in net.requests ==> RequestKept(g, maxLen, net.runs, q))
    && (forall d :: d in net.chunks ==> d in g.parts)
    && (forall u :: u in net.updates ==> UpdateKept(g, maxLen, net.runs, u))
    && (forall p :: p in net.proofs ==> p == Proof(g.h, g.proof))
  }

  lemma StepKept(c: Crypto, g: Segment, adv: Advertisement, maxLen: nat, net: Net, e: Event)
    requires maxLen > 0 && Sound(c, g, adv) && NetKept(c, g, adv, maxLen, net) && Enabled(net, e)
    ensures NetKept(c, g, adv, maxLen, Next(c, maxLen, net, e))
  {
    assert adv.n == |g.parts|;
    hide HandleRequest, ReceivePart, HashmapUpdate, Tick, ReceiverKept, Sound;
    match e
    case Serve(q, at) =>
      ServeKept(c, g, adv, maxLen, net.runs, net.sender, q, at);
    case DeliverPart(chunk, at) =>
      PartKept(c, g, maxLen, net.runs, adv, net.receiver, chunk, at);
    case DeliverUpdate(u, at) =>
      DeliverUpdateKept(c, g, adv, maxLen, net, u, at);
    case ReceiverTick(at, rtt) =>
      TickKept(g, maxLen, net.runs, adv, net.receiver, at, rtt);
    case SenderTick(_, _) =>
  }

  lemma DeliverUpdateKept(c: Crypto, g: Segment, adv: Advertisement, maxLen: nat, net: Net, u: Update, at: int)
    requires maxLen > 0 && Sound(c, g, adv) && NetKept(c, g, adv, maxLen, net) && Enabled(net, DeliverUpdate(u, at))
    ensures NetKept(c, g, adv, maxLen, Next(c, maxLen, net, DeliverUpdate(u, at)))
  {
    hide HashmapUpdate, ReceiverKept;
    assert u.segment == net.runs;
    UpdateReceivedKept(g, maxLen, net.runs, adv, net.receiver, at);
  }

  /** The network once the receiver has accepted the advertisement and sent its first request. */
  function Start(s: Sender, r: Receiver, now: int): Net {
    var (r1, q) := RequestNext(r, now);
    Net(s, r1, Just(q), {}, {}, {}, 1, {}, false)
  }

  lemma StartKept(c: Crypto, g: Segment, adv: Advertisement, maxLen: nat, s: Sender, limits: Limits, sdu: int, last: nat, now: int)
    requires maxLen > 0 && Sound(c, g, adv) && adv.m == g.hashmap[..Min(|g.hashmap|, maxLen)] && s.current == g
    requires Accept(adv, limits, sdu, last, now).Some? && (last == 0 || 2 <= last <= WINDOW_MAX_FAST)
    ensures NetKept(c, g, adv, maxLen, Start(s, Accept(adv, limits, sdu, last, now).value, now))
  {
    var r := Accept(adv, limits, sdu, last, now).value;
    NoneFilled(adv.n);
    assert ReceiverKept(g, maxLen, 1, adv, r);
    RequestNextKept(g, maxLen, 1, adv, r, now);
    hide RequestNext, ReceiverKept, RequestKept;
  }

  predicate CanRun(c: Crypto, maxLen: nat, net: Net, events: seq<Event>)
    decreases |events|
  {
    events == [] || (Enabled(net, events[0]) && CanRun(c, maxLen, Next(c, maxLen, net, events[0]), events[1..]))
  }

  function Run(c: Crypto, maxLen: nat, net: Net, events: seq<Event>): Net
    requires CanRun(c, maxLen, net, events)
    decreases |events|
  {
    if events == [] then net else Run(c, maxLen, Next(c, maxLen, net, events[0]), events[1..])
  }

  lemma {:induction false} RunKept(c: Crypto, g: Segment, adv: Advertisement, maxLen: nat, net: Net, events: seq<Event>)
    requires maxLen > 0 && Sound(c, g, adv) && NetKept(c, g, adv, maxLen, net) && CanRun(c, maxLen, net, events)
    ensures NetKept(c, g, adv, maxLen, Run(c, maxLen, net, events))
    decreases |events|
  {
    hide Next, NetKept, Sound, Enabled;
    if events != [] {
      StepKept(c, g, adv, maxLen, net, events[0]);
      RunKept(c, g, adv, maxLen, Next(c, maxLen, net, events[0]), events[1..]);
    }
  }

  /**
   Whatever is lost, repeated or reordered: while transferring, the receiver knows a prefix of the
   sender's hashmap cut at a multiple of `maxLen` or complete, every filled slot holds the sender's
   part of that index, and `received` counts the filled slots; once complete it holds exactly the
   sender's plaintext. An exhausted request never runs into the sequencing cancel, and no run ends
   corrupt.
   */
  lemma TransferIsFaithful(c: Crypto, g: Segment, adv: Advertisement, maxLen: nat, s: Sender,
                           limits: Limits, sdu: int, last: nat, now: int, events: seq<Event>)
    requires maxLen > 0 && Sound(c, g, adv) && adv.m == g.hashmap[..Min(|g.hashmap|, maxLen)] && s.current == g
    requires Accept(adv, limits, sdu, last, now).Some? && (last == 0 || 2 <= last <= WINDOW_MAX_FAST)
    requires CanRun(c, maxLen, Start(s, Accept(adv, limits, sdu, last, now).value, now), events)
    ensures var net := Run(c, maxLen, Start(s, Accept(adv, limits, sdu, last, now).value, now), events);
      var r := net.receiver;
      && !net.sequencingError
      && (r.status == Transferring ==>
            && r.hashmap <= g.hashmap && (|r.hashmap| % maxLen == 0 || r.hashmap == g.hashmap)
            && |r.parts| == |g.parts|
            && (forall i :: 0 <= i < |r.parts| && r.parts[i].Some? ==> r.parts[i].value == g.parts[i])
            && r.received == |Filled(r.parts)| < |g.parts|
            && r.outstanding <= |Wanted(r.parts, r.hashmap, 0)|)
      && (r.status == Complete ==> r.data == Some(Strip(adv, g.plaintext).0) && r.metadata == Strip(adv, g.plaintext).1)
      && r.status in {Transferring, Complete, Failed}
      && (forall p :: p in net.proofs ==> p == Proof(g.h, g.proof))
  {
    hide Sound, Accept, CanRun, Start, Next, RequestKept, UpdateKept;
    var start := Start(s, Accept(adv, limits, sdu, last, now).value, now);
    StartKept(c, g, adv, maxLen, s, limits, sdu, last, now);
    RunKept(c, g, adv, maxLen, start, events);
    var net := Run(c, maxLen, start, events);
    Divides(net.runs, maxLen);
    hide Run, Filled, Wanted, Strip;
  }

  // ---------- loss-free runs ----------

  /** The receiver waits for exactly what `q` asks for. */
  ghost predicate Awaiting(g: Segment, maxLen: nat, m: nat, adv: Advertisement, r: Receiver, q: Request) {
    && r.status == Transferring && ReceiverKept(g, maxLen, m, adv, r)
    && var w := Wanted(r.parts, r.hashmap, 0);
       if q.exhausted then
         && w == [] && q.requested == [] && r.outstanding == 0
         && 0 < m * maxLen < |g.hashmap| && q.last == Some(g.hashmap[m * maxLen - 1])
       else 0 < r.outstanding == |q.requested| <= |w| && q.requested == w[..r.outstanding]
  }

  lemma RequestAwaits(g: Segment, maxLen: nat, m: nat, adv: Advertisement, r: Receiver, now: int)
    requires maxLen > 0 && adv.n == |g.parts| && r.status == Transferring && ReceiverKept(g, maxLen, m, adv, r)
    ensures var (r', q) := RequestNext(r, now);
      && q.Some? && Awaiting(g, maxLen, m, adv, r', q.value)
      && r'.received == r.received && r'.hashmap == r.hashmap
  {
    RequestNextKept(g, maxLen, m, adv, r, now);
    hide RequestNext, Wanted, RequestKept;
  }

  /** Deliver parts in order; the clock is read off how far the transfer has come. */
  function DeliverAll(c: Crypto, r: Receiver, parts: seq<Data>, clock: nat -> int): (Receiver, Option<Request>)
    decreases |parts|
  {
    if parts == [] then (r, None)
    else
      var (r1, out) := ReceivePart(c, r, parts[0], clock(r.received + |r.hashmap|));
      var (r2, q) := DeliverAll(c, r1, parts[1..], clock);
      (r2, if q.Some? then q else out.request)
  }

  ghost predicate Answers(c: Crypto, g: Segment, parts: seq<Data>, requested: seq<MapHash>) {
    && |parts| == |requested|
    && forall k :: 0 <= k < |parts| ==> parts[k] in g.parts && MapHashOf(c, parts[k], g.r) == requested[k]
  }

  /** The first requested part fills the first open slot. */
  lemma NextPartPlaced(c: Crypto, g: Segment, maxLen: nat, m: nat, adv: Advertisement, r: Receiver, chunk: Data, now: int)
    requires maxLen > 0 && Sound(c, g, adv) && r.status == Transferring && ReceiverKept(g, maxLen, m, adv, r)
    requires Wanted(r.parts, r.hashmap, 0) != [] && chunk in g.parts
    requires MapHashOf(c, chunk, g.r) == Wanted(r.parts, r.hashmap, 0)[0]
    ensures var i := Slot(r.parts, r.hashmap, MapHashOf(c, chunk, adv.r), 0);
      && i < |r.hashmap| && chunk == g.parts[i]
      && var p := Place(r, i, chunk, now);
         && ReceivePart(c, r, chunk, now) == AfterPlacing(c, p, now)
         && p.received == r.received + 1 && p.hashmap == r.hashmap && p.adv == adv
         && Wanted(p.parts, p.hashmap, 0) == Wanted(r.parts, r.hashmap, 0)[1..]
         && (p.received < adv.n ==> p.status == Transferring && ReceiverKept(g, maxLen, m, adv, p))
         && (p.received >= adv.n ==> Filled(p.parts) == g.parts && Wanted(p.parts, p.hashmap, 0) == [] && WfWindow(p.window))
  {
    hide MapHashOf, AfterPlacing, Slot;
    var i := FirstWanted(r.parts, r.hashmap, 0);
    var j :| 0 <= j < |g.parts| && g.parts[j] == chunk;
    SlotIsPlace(c, g, maxLen, m, adv, r, j, i);
    PlaceKept(c, g, maxLen, m, adv, r, i, now);
    FillRemoves(r.parts, r.hashmap, 0, i, chunk);
    var p := Place(r, i, chunk, now);
    AllFilled(p.parts);
    if p.received >= adv.n && Wanted(p.parts, p.hashmap, 0) != [] {
      var k := FirstWanted(p.parts, p.hashmap, 0);
      assert false;
    }
  }

  lemma {:induction false} DeliverAllKept(c: Crypto, g: Segment, maxLen: nat, m: nat, adv: Advertisement, r: Receiver,
                                          requested: seq<MapHash>, parts: seq<Data>, clock: nat -> int)
    requires maxLen > 0 && Sound(c, g, adv) && r.status == Transferring && ReceiverKept(g, maxLen, m, adv, r)
    requires 0 < r.outstanding == |requested| <= |Wanted(r.parts, r.hashmap, 0)|
    requires requested == Wanted(r.parts, r.hashmap, 0)[..|requested|] && Answers(c, g, parts, requested)
    ensures var (r', q) := DeliverAll(c, r, parts, clock);
      || (r'.status == Complete && ReceiverKept(g, maxLen, m, adv, r'))
      || (q.Some? && Awaiting(g, maxLen, m, adv, r', q.value) && r'.received > r.received && r'.hashmap == r.hashmap)
    decreases |parts|
  {
    hide MapHashOf, ReceivePart, RequestNext, Assemble, Drained, Wanted, Filled, Opened, Slot;
    var now := clock(r.received + |r.hashmap|);
    NextPartPlaced(c, g, maxLen, m, adv, r, parts[0], now);
    var w := Wanted(r.parts, r.hashmap, 0);
    var p := Place(r, Slot(r.parts, r.hashmap, MapHashOf(c, parts[0], adv.r), 0), parts[0], now);
    assert adv.n == |g.parts|;
    if p.received >= adv.n {
      assert |w| == 1;
      AssembleKept(c, g, maxLen, m, adv, p);
      assert parts[1..] == [];
    } else if p.outstanding == 0 {
      WindowKept(p.window, now - p.sentAt, p.rxd);
      var p1 := p.(window := Drained(p.window, now - p.sentAt, p.rxd));
      RequestAwaits(g, maxLen, m, adv, p1, now);
      assert parts[1..] == [];
    } else {
      assert requested[1..] == w[1..][..|requested| - 1];
      DeliverAllKept(c, g, maxLen, m, adv, p, requested[1..], parts[1..], clock);
    }
  }

  lemma ServeAnswers(c: Crypto, g: Segment, adv: Advertisement, s: Sender, maxLen: nat, q: Request, now: int)
    requires Sound(c, g, adv) && s.current == g && !q.exhausted && forall h :: h in q.requested ==> h in g.hashmap
    ensures var (s', reply) := HandleRequest(s, maxLen, q, now);
      s'.current == g && Answers(c, g, reply.parts, q.requested)
  {
    ServedAll(c, g, adv, q.requested);
    hide Served, MapHashOf, Opened;
  }

  lemma ServeContinues(c: Crypto, g: Segment, maxLen: nat, m: nat, adv: Advertisement, s: Sender, r: Receiver, q: Request, now: int)
    requires maxLen > 0 && Sound(c, g, adv) && s.current == g && q.exhausted && Awaiting(g, maxLen, m, adv, r, q)
    ensures var (s', reply) := HandleRequest(s, maxLen, q, now);
      s'.current == g && reply.update == Some(ContinuationAt(g, maxLen, m))
  {
    MulMonotone(1, m, maxLen);
    BoundaryContinues(g, maxLen, m);
    hide Served, Wanted, Filled, Opened, Continuation;
  }

  lemma ContinuationAwaits(g: Segment, maxLen: nat, m: nat, adv: Advertisement, r: Receiver, q: Request, now: int)
    requires maxLen > 0 && adv.n == |g.parts| && q.exhausted && Awaiting(g, maxLen, m, adv, r, q)
    ensures var (r', q') := HashmapUpdate(r, ContinuationAt(g, maxLen, m), now);
      && q'.Some? && Awaiting(g, maxLen, m + 1, adv, r', q'.value)
      && r'.received == r.received && |r'.hashmap| > |r.hashmap|
  {
    MoreHashesKept(g, maxLen, m, adv, r, now);
    RequestAwaits(g, maxLen, m + 1, adv, r.(hashmap := r.hashmap + ContinuationAt(g, maxLen, m).hashes, lastActivity := now), now);
    hide RequestNext, Wanted, Filled, ReceiverKept;
  }

  lemma WantedKnown(g: Segment, maxLen: nat, m: nat, adv: Advertisement, r: Receiver, q: Request)
    requires Awaiting(g, maxLen, m, adv, r, q) && !q.exhausted
    ensures forall h :: h in q.requested ==> h in g.hashmap
  {
    var w := Wanted(r.parts, r.hashmap, 0);
    WantedAreKnown(r.parts, r.hashmap, 0);
    forall h | h in q.requested ensures h in g.hashmap {
      assert h in w && h in r.hashmap;
    }
  }

  /**
   Request, serve, deliver, and again: without loss the loop ends, and it ends with the plaintext.
   */
  ghost function Exchange(c: Crypto, g: Segment, maxLen: nat, m: nat, adv: Advertisement,
                          s: Sender, r: Receiver, q: Request, clock: nat -> int): (r': Receiver)
    requires maxLen > 0 && Sound(c, g, adv) && s.current == g && Awaiting(g, maxLen, m, adv, r, q)
    ensures r'.status == Complete && r'.data == Some(Strip(adv, g.plaintext).0) && r'.metadata == Strip(adv, g.plaintext).1
    decreases |g.parts| - r.received, |g.hashmap| - |r.hashmap|
  {
    hide HandleRequest, DeliverAll, HashmapUpdate, Wanted, Filled, Opened;
    var now := clock(r.received + |r.hashmap|);
    var (s1, reply) := HandleRequest(s, maxLen, q, now);
    if q.exhausted then
      ServeContinues(c, g, maxLen, m, adv, s, r, q, now);
      ContinuationAwaits(g, maxLen, m, adv, r, q, now);
      var (r1, q1) := HashmapUpdate(r, reply.update.value, now);
      Exchange(c, g, maxLen, m + 1, adv, s1, r1, q1.value, clock)
    else
      WantedKnown(g, maxLen, m, adv, r, q);
      ServeAnswers(c, g, adv, s, maxLen, q, now);
      DeliverAllKept(c, g, maxLen, m, adv, r, q.requested, reply.parts, clock);
      var (r1, q1) := DeliverAll(c, r, reply.parts, clock);
      if r1.status == Complete then r1
      else Exchange(c, g, maxLen, m, adv, s1, r1, q1.value, clock)
  }

  lemma FirstRequestAwaits(c: Crypto, g: Segment, adv: Advertisement, maxLen: nat,
                           limits: Limits, sdu: int, last: nat, now: int)
    requires maxLen > 0 && Sound(c, g, adv) && adv.m == g.hashmap[..Min(|g.hashmap|, maxLen)]
    requires Accept(adv, limits, sdu, last, now).Some? && (last == 0 || 2 <= last <= WINDOW_MAX_FAST)
    ensures var (r, q) := RequestNext(Accept(adv, limits, sdu, last, now).value, now);
      q.Some? && Awaiting(g, maxLen, 1, adv, r, q.value)
  {
    var r := Accept(adv, limits, sdu, last, now).value;
    NoneFilled(adv.n);
    assert ReceiverKept(g, maxLen, 1, adv, r);
    RequestAwaits(g, maxLen, 1, adv, r, now);
    hide RequestNext, ReceiverKept, Wanted;
  }

  /** From an accepted advertisement on: the receiver of a loss-free transfer ends with the plaintext. */
  ghost function LossFree(c: Crypto, g: Segment, adv: Advertisement, maxLen: nat, s: Sender,
                          limits: Limits, sdu: int, last: nat, now: int, clock: nat -> int): (r': Receiver)
    requires maxLen > 0 && Sound(c, g, adv) && adv.m == g.hashmap[..Min(|g.hashmap|, maxLen)] && s.current == g
    requires Accept(adv, limits, sdu, last, now).Some? && (last == 0 || 2 <= last <= WINDOW_MAX_FAST)
    ensures r'.status == Complete && r'.data == Some(Strip(adv, g.plaintext).0) && r'.metadata == Strip(adv, g.plaintext).1
  {
    FirstRequestAwaits(c, g, adv, maxLen, limits, sdu, last, now);
    hide RequestNext, Awaiting, Sound, Accept, Strip;
    var (r, q) := RequestNext(Accept(adv, limits, sdu, last, now).value, now);
    Exchange(c, g, maxLen, 1, adv, s, r, q.value, clock)
  }

  // ---------- prepared segments are sound ----------

  lemma {:induction false} ConcatOne(pieces: seq<Data>, last: Data)
    ensures Concat(pieces + [last]) == Concat(pieces) + last
    decreases |pieces|
  {
    if pieces == [] {
      assert Concat([last]) == last + Concat([]);
    } else {
      ConcatOne(pieces[1..], last);
      assert (pieces + [last])[1..] == pieces[1..] + [last];
    }
  }

  /** The parts put together again are the blob they were cut from. */
  lemma {:induction false} PartsConcat(encrypted: Data, sdu: nat, n: nat)
    requires sdu > 0 && 0 < n <= PartCount(|encrypted|, sdu)
    ensures Concat(Parts(encrypted, sdu, n)) == encrypted[..Min(n * sdu, |encrypted|)]
    decreases n
  {
    PartBounds(|encrypted|, sdu, n - 1);
    ConcatOne(Parts(encrypted, sdu, n - 1), Part(encrypted, sdu, n - 1));
    if n > 1 {
      PartsConcat(encrypted, sdu, n - 1);
      PartBounds(|encrypted|, sdu, n - 2);
      assert encrypted[..(n - 1) * sdu] + Part(encrypted, sdu, n - 1) == encrypted[..Min(n * sdu, |encrypted|)];
    } else {
      assert Parts(encrypted, sdu, 0) == [];
    }
  }

  /** The token and bz2 undo what the sender did to this plaintext. */
  ghost predicate Undone(c: Crypto, plaintext: Data, compressed: bool, encrypted: Data) {
    exists prefix: Data, body: Data ::
      && |prefix| == RANDOM_HASH_SIZE && c.decrypt(encrypted) == Some(prefix + body)
      && if compressed then c.decompress.Some? && c.decompress.value(body, |plaintext|) == Some(plaintext)
         else body == plaintext
  }

  lemma BuildIsSound(c: Crypto, plaintext: Data, compressed: bool, sdu: nat, a: Attempt,
                     i: nat, l: nat, hasMetadata: bool, maxLen: nat)
    requires sdu > 0 && Undone(c, plaintext, compressed, a.encrypted)
    requires Distinct(Build(c, plaintext, compressed, sdu, a).hashmap)
    ensures var g := Build(c, plaintext, compressed, sdu, a);
      Sound(c, g, AdvertisementOf(g, i, l, hasMetadata, maxLen))
  {
    var n := PartCount(|a.encrypted|, sdu);
    PartsConcat(a.encrypted, sdu, n);
    PartBounds(|a.encrypted|, sdu, n - 1);
    assert a.encrypted[..|a.encrypted|] == a.encrypted;
    var prefix, body :|
      && |prefix| == RANDOM_HASH_SIZE && c.decrypt(a.encrypted) == Some(prefix + body)
      && if compressed then c.decompress.Some? && c.decompress.value(body, |plaintext|) == Some(plaintext)
         else body == plaintext;
    assert Drop(prefix + body, RANDOM_HASH_SIZE) == body;
  }

  // ---------- the collision guard ----------

  /** The guard is enough for every resource of at most `span + 1` parts. */
  lemma GuardSuffices(hashmap: seq<MapHash>, span: nat)
    requires |hashmap| <= span + 1
    ensures HasCollision(hashmap, span) <==> !Distinct(hashmap)
  {
  }

  /** A map hash of four bytes for each number below 2^32. */
  function Counter(k: nat): (h: MapHash) {
    [(k / 0x100_0000) % 256, (k / 0x1_0000) % 256, (k / 0x100) % 256, k % 256]
  }

  lemma CounterIsInjective(j: nat, k: nat)
    requires j < TWO32 && k < TWO32 && Counter(j) == Counter(k)
    ensures j == k
  {
    assert Counter(j)[0] == Counter(k)[0] && Counter(j)[1] == Counter(k)[1];
    assert Counter(j)[2] == Counter(k)[2] && Counter(j)[3] == Counter(k)[3];
    CounterSums(j);
    CounterSums(k);
  }

  lemma CounterSums(k: nat)
    requires k < TWO32
    ensures k == 0x100_0000 * ((k / 0x100_0000) % 256) + 0x1_0000 * ((k / 0x1_0000) % 256) + 0x100 * ((k / 0x100) % 256) + k % 256
  {
    assert k / 0x1_0000 == (k / 0x100) / 256 && k / 0x100_0000 == (k / 0x1_0000) / 256;
    assert k == 256 * (k / 0x100) + k % 256;
    assert k / 0x100 == 256 * (k / 0x1_0000) + (k / 0x100) % 256;
    assert k / 0x1_0000 == 256 * (k / 0x100_0000) + (k / 0x1_0000) % 256;
  }

  /** The numbers up to `n`, with the first hash again just outside its span. */
  function Repeating(span: nat, n: nat): (hashmap: seq<MapHash>)
    requires span + 2 <= n
    ensures |hashmap| == n && forall k :: 0 <= k < n ==> hashmap[k] == Counter(if k == span + 1 then 0 else k)
  {
    seq(n, (k: nat) => Counter(if k == span + 1 then 0 else k))
  }

  /** From one part more on it is not: the guard accepts a repeated hash, whose second part is never served. */
  lemma GuardGap(span: nat, n: nat)
    requires span + 2 <= n <= TWO32
    ensures var hashmap := Repeating(span, n);
      && !HasCollision(hashmap, span) && !Distinct(hashmap)
      && Served(hashmap, [hashmap[span + 1]]) == [0]
  {
    hide Counter, Repeating;
    var hashmap := Repeating(span, n);
    assert hashmap[0] == hashmap[span + 1];
    forall i, j | 0 <= j < i < |hashmap| && i - span <= j ensures hashmap[i] != hashmap[j] {
      if hashmap[i] == hashmap[j] {
        CounterIsInjective(if i == span + 1 then 0 else i, if j == span + 1 then 0 else j);
      }
    }
    ServesFirst(hashmap, hashmap[0]);
  }

  lemma ServesFirst(hashmap: seq<MapHash>, h: MapHash)
    requires hashmap != [] && hashmap[0] == h
    ensures Served(hashmap, [h]) == [0]
  {
    assert Find(hashmap, h, 0) == 0;
    assert Served(hashmap, []) == [];
  }

  /**
   Why a continuation must not arrive twice: appending one keeps the prefix exactly when it is the
   next one in turn.
   */
  lemma UpdateExtendsIff(g: Segment, maxLen: nat, m: nat, k: nat)
    requires maxLen > 0 && m >= 1 && Distinct(g.hashmap) && 1 <= k <= m && k * maxLen < |g.hashmap|
    ensures g.hashmap[..Known(g, maxLen, m)] + ContinuationAt(g, maxLen, k).hashes <= g.hashmap <==> k == m
  {
    var known, more := g.hashmap[..Known(g, maxLen, m)], ContinuationAt(g, maxLen, k).hashes;
    if k == m {
      ContinuationExtends(g, maxLen, m);
    } else {
      MultiplesApart(k, m, maxLen);
      assert more[0] == g.hashmap[k * maxLen];
      if |known| < |g.hashmap| {
        assert (known + more)[|known|] == more[0] != g.hashmap[|known|];
      }
    }
  }
}
