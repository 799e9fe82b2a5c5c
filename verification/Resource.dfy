/** The resource transfer protocol: sender and receiver of one advertised segment, and the split assembler. */
module Resource {
  import opened Bytes
  import opened Wrappers

  type Data = seq<Byte>
  type MapHash = seq<Byte>

  const WINDOW := 4
  const WINDOW_MIN := 2
  const WINDOW_MAX_SLOW := 10
  const WINDOW_MAX_VERY_SLOW := 4
  const WINDOW_MAX_FAST := 75
  const WINDOW_FLEXIBILITY := 4
  const FAST_RATE_THRESHOLD := 4
  const VERY_SLOW_RATE_THRESHOLD := 2
  const RATE_FAST := 6250
  const RATE_VERY_SLOW := 250
  const MAX_RETRIES := 16
  const RANDOM_HASH_SIZE := 4
  const MAX_EFFICIENT_SIZE := 1048575

  /** What the protocol calls out for: SHA-256, the link token, and the injected bz2 module. */
  datatype Crypto = Crypto(
    hash: Data -> Data,
    decrypt: Data -> Option<Data>,
    decompress: Option<(Data, nat) -> Option<Data>>)

  function Take(d: Data, n: nat): Data {
    if n <= |d| then d[..n] else d
  }

  function Drop(d: Data, n: nat): Data {
    if n <= |d| then d[n..] else []
  }

  function Concat(pieces: seq<Data>): Data {
    if pieces == [] then [] else pieces[0] + Concat(pieces[1..])
  }

  function MapHashOf(c: Crypto, part: Data, r: Data): MapHash {
    Take(c.hash(part + r), 4)
  }

  // ---------- preparing a segment ----------

  function PartCount(size: nat, sdu: nat): nat
    requires sdu > 0
  {
    if size == 0 then 1 else (size - 1) / sdu + 1
  }

  function Min(a: nat, b: nat): nat {
    if a < b then a else b
  }

  lemma PartBounds(size: nat, sdu: nat, i: nat)
    requires sdu > 0 && i < PartCount(size, sdu)
    ensures i * sdu <= Min((i + 1) * sdu, size) <= size
    ensures i + 1 < PartCount(size, sdu) ==> (i + 1) * sdu <= size
    ensures i + 1 == PartCount(size, sdu) ==> Min((i + 1) * sdu, size) == size
  {
    if size > 0 {
      var q, m := (size - 1) / sdu, (size - 1) % sdu;
      assert size - 1 == q * sdu + m;
      MulMonotone(i, q, sdu);
      if i + 1 <= q {
        MulMonotone(i + 1, q, sdu);
      } else {
        assert (i + 1) * sdu == q * sdu + sdu;
      }
      assert (i + 1) * sdu == i * sdu + sdu;
    } else {
      assert i * sdu == 0;
    }
  }

  /** Part `i` of the encrypted blob. */
  function Part(encrypted: Data, sdu: nat, i: nat): Data
    requires sdu > 0 && i < PartCount(|encrypted|, sdu)
  {
    PartBounds(|encrypted|, sdu, i);
    encrypted[i * sdu..Min((i + 1) * sdu, |encrypted|)]
  }

  /** The first `n` parts. */
  function Parts(encrypted: Data, sdu: nat, n: nat): (r: seq<Data>)
    requires sdu > 0 && n <= PartCount(|encrypted|, sdu)
    ensures |r| == n
    ensures forall i :: 0 <= i < n ==> r[i] == Part(encrypted, sdu, i)
  {
    if n == 0 then [] else Parts(encrypted, sdu, n - 1) + [Part(encrypted, sdu, n - 1)]
  }

  function MapHashes(c: Crypto, parts: seq<Data>, r: Data): (hashes: seq<MapHash>)
    ensures |hashes| == |parts|
    ensures forall i :: 0 <= i < |parts| ==> hashes[i] == MapHashOf(c, parts[i], r)
  {
    if parts == [] then []
    else MapHashes(c, parts[..|parts| - 1], r) + [MapHashOf(c, parts[|parts| - 1], r)]
  }

  /** `_hasCollision`: two equal map hashes at most `span` places apart. */
  predicate HasCollision(hashmap: seq<MapHash>, span: nat) {
    exists i, j :: 0 <= j < i < |hashmap| && i - span <= j && hashmap[i] == hashmap[j]
  }

  /** The random choices of one preparation attempt: the salt and the encrypted blob. */
  datatype Attempt = Attempt(r: Data, encrypted: Data)

  datatype Segment = Segment(plaintext: Data, compressed: bool, h: Data, proof: Data, r: Data, size: nat,
                             parts: seq<Data>, hashmap: seq<MapHash>)

  function Build(c: Crypto, plaintext: Data, compressed: bool, sdu: nat, a: Attempt): Segment
    requires sdu > 0
  {
    var h := c.hash(plaintext + a.r);
    var parts := Parts(a.encrypted, sdu, PartCount(|a.encrypted|, sdu));
    Segment(plaintext, compressed, h, c.hash(plaintext + h), a.r, |a.encrypted|, parts, MapHashes(c, parts, a.r))
  }

  /** `_buildIntegrityAndParts`: the first attempt without a collision. */
  function FirstClean(c: Crypto, plaintext: Data, compressed: bool, sdu: nat, span: nat, tries: seq<Attempt>): Option<Segment>
    requires sdu > 0
  {
    if tries == [] then None
    else
      var g := Build(c, plaintext, compressed, sdu, tries[0]);
      if HasCollision(g.hashmap, span) then FirstClean(c, plaintext, compressed, sdu, span, tries[1..]) else Some(g)
  }

  method FindCollision(hashmap: seq<MapHash>, span: nat) returns (found: bool)
    ensures found == HasCollision(hashmap, span)
  {
    for i := 0 to |hashmap|
      invariant forall p, q :: 0 <= q < p < i && p - span <= q ==> hashmap[p] != hashmap[q]
    {
      var j := if i < span then 0 else i - span;
      while j < i
        invariant i - span <= j <= i
        invariant forall q :: 0 <= q < j && i - span <= q ==> hashmap[i] != hashmap[q]
      {
        if hashmap[i] == hashmap[j] {
          return true;
        }
        j := j + 1;
      }
    }
    return false;
  }

  method Slices(encrypted: Data, sdu: nat) returns (parts: seq<Data>)
    requires sdu > 0
    ensures parts == Parts(encrypted, sdu, PartCount(|encrypted|, sdu))
  {
    parts := [];
    for i := 0 to PartCount(|encrypted|, sdu)
      invariant parts == Parts(encrypted, sdu, i)
    {
      PartBounds(|encrypted|, sdu, i);
      parts := parts + [encrypted[i * sdu..Min((i + 1) * sdu, |encrypted|)]];
    }
  }

  method BuildIntegrityAndParts(c: Crypto, plaintext: Data, compressed: bool, sdu: nat, span: nat, tries: seq<Attempt>)
    returns (g: Option<Segment>)
    requires sdu > 0
    ensures g == FirstClean(c, plaintext, compressed, sdu, span, tries)
  {
    for attempt := 0 to |tries|
      invariant FirstClean(c, plaintext, compressed, sdu, span, tries[attempt..])
             == FirstClean(c, plaintext, compressed, sdu, span, tries)
    {
      var a := tries[attempt];
      var h := c.hash(plaintext + a.r);
      var parts := Slices(a.encrypted, sdu);
      var hashmap := MapHashes(c, parts, a.r);
      assert tries[attempt..][1..] == tries[attempt + 1..];
      var collides := FindCollision(hashmap, span);
      if !collides {
        return Some(Segment(plaintext, compressed, h, c.hash(plaintext + h), a.r, |a.encrypted|, parts, hashmap));
      }
    }
    return None;
  }

  // ---------- messages ----------

  datatype Request = Request(requested: seq<MapHash>, exhausted: bool, last: Option<MapHash>)

  datatype Update = Update(segment: nat, hashes: seq<MapHash>)

  datatype Proof = Proof(h: Data, full: Data)

  datatype Advertisement = Advertisement(t: nat, d: nat, n: nat, h: Data, r: Data, i: nat, l: nat,
                                         compressed: bool, hasMetadata: bool, m: seq<MapHash>)

  // ---------- the receiver ----------

  datatype Status = Transferring | Assembling | Complete | Failed | Corrupt

  datatype Window = Window(size: nat, max: nat, min: nat, fast: nat, slow: nat)

  datatype Receiver = Receiver(
    adv: Advertisement, status: Status, parts: seq<Option<Data>>, hashmap: seq<MapHash>, received: nat,
    outstanding: nat, window: Window, sentAt: int, rxd: nat, retriesLeft: nat, lastActivity: int,
    data: Option<Data>, metadata: Option<Data>)

  datatype Limits = Limits(size: nat, parts: nat, segments: nat)

  function Ceil(t: nat, sdu: nat): nat
    requires sdu > 0
  {
    (t + sdu - 1) / sdu
  }

  /** The checks of `accept`. */
  predicate Acceptable(adv: Advertisement, limits: Limits, sdu: int) {
    && !(adv.l > 1 && (adv.i < 1 || adv.i > adv.l || adv.l > limits.segments))
    && adv.t <= limits.size && adv.d <= limits.size
    && adv.n > 0 && adv.n <= limits.parts && adv.n <= adv.t
    && !(sdu > 0 && Ceil(adv.t, sdu) > 0 && adv.n > Ceil(adv.t, sdu) + 1)
  }

  /** The window a transfer starts with; a link resumes at the size its last transfer adapted to. */
  function FirstWindow(last: nat): Window {
    Window(if last > 0 then last else WINDOW, WINDOW_MAX_SLOW, WINDOW_MIN, 0, 0)
  }

  function Accept(adv: Advertisement, limits: Limits, sdu: int, last: nat, now: int): Option<Receiver> {
    if !Acceptable(adv, limits, sdu) then None
    else Some(Receiver(adv, Transferring, seq(adv.n, i => None), adv.m, 0, 0, FirstWindow(last), 0, 0,
                       MAX_RETRIES, now, None, None))
  }

  /** A slot is open when it exists and holds no part. */
  predicate Open(parts: seq<Option<Data>>, i: nat) {
    i < |parts| && parts[i].None?
  }

  /** The request loop from slot `i` on. */
  function Scan(parts: seq<Option<Data>>, hashmap: seq<MapHash>, size: nat, i: nat,
                requested: seq<MapHash>, last: Option<MapHash>): (seq<MapHash>, Option<MapHash>)
    requires i <= |hashmap|
    decreases |hashmap| - i
  {
    if i < |hashmap| && |requested| < size then
      Scan(parts, hashmap, size, i + 1,
           if Open(parts, i) then requested + [hashmap[i]] else requested, Some(hashmap[i]))
    else (requested, last)
  }

  predicate AnyOpen(parts: seq<Option<Data>>) {
    exists i :: 0 <= i < |parts| && parts[i].None?
  }

  /** `requestNext` */
  function RequestNext(r: Receiver, now: int): (Receiver, Option<Request>) {
    if r.status != Transferring || r.received >= r.adv.n then (r, None)
    else
      var (requested, last) := Scan(r.parts, r.hashmap, r.window.size, 0, [], None);
      var exhausted := AnyOpen(r.parts) && requested == [];
      if !exhausted && requested == [] then (r, None)
      else (r.(outstanding := |requested|, sentAt := now, rxd := 0),
            Some(Request(requested, exhausted, if exhausted then last else None)))
  }

  function Grow(w: Window): Window {
    if w.size < w.max then
      w.(size := w.size + 1, min := if w.size + 1 - w.min > WINDOW_FLEXIBILITY - 1 then w.min + 1 else w.min)
    else w
  }

  /** `_onWindowDrained`, `elapsed` milliseconds after the request. */
  function Drained(w0: Window, elapsed: int, rxd: nat): Window {
    var w := Grow(w0);
    if (elapsed <= 0 || rxd * 1000 > RATE_FAST * elapsed) && w.fast < FAST_RATE_THRESHOLD then
      w.(fast := w.fast + 1, max := if w.fast + 1 == FAST_RATE_THRESHOLD then WINDOW_MAX_FAST else w.max)
    else if w.fast == 0 && elapsed > 0 && rxd * 1000 < RATE_VERY_SLOW * elapsed && w.slow < VERY_SLOW_RATE_THRESHOLD then
      w.(slow := w.slow + 1, max := if w.slow + 1 == VERY_SLOW_RATE_THRESHOLD then WINDOW_MAX_VERY_SLOW else w.max)
    else w
  }

  /** The window after a stall. */
  function Shrunk(w: Window): Window {
    if w.size > w.min then
      var size := w.size - 1;
      if w.max > w.min then
        var max := w.max - 1;
        w.(size := size, max := if max - size > WINDOW_FLEXIBILITY - 1 then max - 1 else max)
      else w.(size := size)
    else w
  }

  /** The first open slot from `i` on whose map hash is `mh`; the number of known hashes if none. */
  function Slot(parts: seq<Option<Data>>, hashmap: seq<MapHash>, mh: MapHash, i: nat): (r: nat)
    requires i <= |hashmap|
    ensures i <= r <= |hashmap|
    ensures r < |hashmap| ==> Open(parts, r) && hashmap[r] == mh
    ensures forall k :: i <= k < r ==> !(Open(parts, k) && hashmap[k] == mh)
    decreases |hashmap| - i
  {
    if i == |hashmap| then i
    else if Open(parts, i) && hashmap[i] == mh then i
    else Slot(parts, hashmap, mh, i + 1)
  }

  function Place(r: Receiver, i: nat, chunk: Data, now: int): Receiver
    requires i < |r.parts|
  {
    r.(parts := r.parts[i := Some(chunk)], received := r.received + 1,
       outstanding := if r.outstanding > 0 then r.outstanding - 1 else 0,
       lastActivity := now, rxd := r.rxd + |chunk|)
  }

  datatype Output = Output(placed: bool, request: Option<Request>, proof: Option<Proof>)

  /** What follows the placing of a part. */
  function AfterPlacing(c: Crypto, p: Receiver, now: int): (Receiver, Output) {
    if p.received >= p.adv.n then
      var (done, proof) := Assemble(c, p);
      (done, Output(true, None, proof))
    else if p.outstanding == 0 then
      var (next, request) := RequestNext(p.(window := Drained(p.window, now - p.sentAt, p.rxd)), now);
      (next, Output(true, request, None))
    else (p, Output(true, None, None))
  }

  /** `receivePart` */
  function ReceivePart(c: Crypto, r: Receiver, chunk: Data, now: int): (Receiver, Output) {
    if r.status != Transferring && r.status != Assembling then (r, Output(false, None, None))
    else
      var i := Slot(r.parts, r.hashmap, MapHashOf(c, chunk, r.adv.r), 0);
      if i == |r.hashmap| then (r, Output(false, None, None))
      else AfterPlacing(c, Place(r, i, chunk, now), now)
  }

  /** `hashmapUpdate` */
  function HashmapUpdate(r: Receiver, u: Update, now: int): (Receiver, Option<Request>) {
    var r1 := r.(hashmap := r.hashmap + u.hashes, lastActivity := now);
    if r1.outstanding == 0 then RequestNext(r1, now) else (r1, None)
  }

  // ---------- assembly ----------

  function Filled(parts: seq<Option<Data>>): seq<Data> {
    if parts == [] then []
    else (if parts[0].Some? then [parts[0].value] else []) + Filled(parts[1..])
  }

  /** The plaintext an encrypted blob stands for, when every step succeeds. */
  function Opened(c: Crypto, adv: Advertisement, encrypted: Data): Option<Data> {
    match c.decrypt(encrypted)
    case None => None
    case Some(decrypted) =>
      var body := Drop(decrypted, RANDOM_HASH_SIZE);
      if !adv.compressed then Some(body)
      else if c.decompress.None? then None
      else c.decompress.value(body, adv.d)
  }

  function MetadataSize(p: Data): nat {
    ByteAt(p, 0) * 65536 + ByteAt(p, 1) * 256 + ByteAt(p, 2)
  }

  /** The payload and the packed metadata of a segment. */
  function Strip(adv: Advertisement, p: Data): (Data, Option<Data>) {
    if adv.hasMetadata && adv.i == 1 && 3 + MetadataSize(p) <= |p| then
      (p[3 + MetadataSize(p)..], Some(p[3..3 + MetadataSize(p)]))
    else (p, None)
  }

  function Spoiled(r: Receiver): Receiver {
    r.(status := Corrupt, parts := [], data := None)
  }

  /** `assemble` */
  function Assemble(c: Crypto, r: Receiver): (Receiver, Option<Proof>) {
    match Opened(c, r.adv, Concat(Filled(r.parts)))
    case None => (Spoiled(r), None)
    case Some(p) =>
      if c.hash(p + r.adv.r) != r.adv.h then (Spoiled(r), None)
      else
        var (data, metadata) := Strip(r.adv, p);
        (r.(status := Complete, parts := [], data := Some(data), metadata := metadata),
         Some(Proof(r.adv.h, c.hash(p + r.adv.h))))
  }

  // ---------- the receiver's watchdog ----------

  function RttSeconds(rtt: real): real {
    if rtt < 0.5 then 0.5 else rtt
  }

  /** How long a window of `outstanding` parts may stall, in seconds. */
  function StallTime(outstanding: nat, used: nat, rtt: real): real {
    4.0 * (RttSeconds(rtt) * 6.0 + outstanding as real * RttSeconds(rtt) * 3.0) + 0.25 + used as real * 0.5
  }

  function Seconds(ms: int): real {
    ms as real / 1000.0
  }

  function Fail(r: Receiver): Receiver {
    r.(status := Failed, parts := [], data := None)
  }

  predicate Stalls(r: Receiver, now: int, rtt: real) {
    && r.status == Transferring
    && Seconds(now) >= Seconds(r.lastActivity) + StallTime(r.outstanding, MAX_RETRIES - Min(r.retriesLeft, MAX_RETRIES), rtt)
  }

  /** `_watchdogTick` on a receiver */
  function Tick(r: Receiver, now: int, rtt: real): (Receiver, Option<Request>) {
    if !Stalls(r, now, rtt) then (r, None)
    else if r.retriesLeft > 0 then
      RequestNext(r.(retriesLeft := r.retriesLeft - 1, window := Shrunk(r.window), outstanding := 0, lastActivity := now), now)
    else (Fail(r), None)
  }

  class ResourceReceiver {
    const c: Crypto
    const adv: Advertisement
    var status: Status
    var parts: seq<Option<Data>>
    var hashmap: seq<MapHash>
    var received: nat
    var outstanding: nat
    var window: nat
    var windowMax: nat
    var windowMin: nat
    var fastRateRounds: nat
    var verySlowRateRounds: nat
    var sentAt: int
    var rxd: nat
    var retriesLeft: nat
    var lastActivity: int
    var data: Option<Data>
    var metadata: Option<Data>

    function State(): Receiver
      reads this
    {
      Receiver(adv, status, parts, hashmap, received, outstanding, CurrentWindow(),
               sentAt, rxd, retriesLeft, lastActivity, data, metadata)
    }

    function CurrentWindow(): Window
      reads this
    {
      Window(window, windowMax, windowMin, fastRateRounds, verySlowRateRounds)
    }

    constructor (c: Crypto, adv: Advertisement, limits: Limits, sdu: int, last: nat, now: int)
      requires Acceptable(adv, limits, sdu)
      ensures this.c == c
      ensures Accept(adv, limits, sdu, last, now) == Some(State())
    {
      this.c, this.adv, status := c, adv, Transferring;
      window := if last > 0 then last else WINDOW;
      windowMax, windowMin, fastRateRounds, verySlowRateRounds := WINDOW_MAX_SLOW, WINDOW_MIN, 0, 0;
      parts, hashmap, received, outstanding := seq(adv.n, i => None), adv.m, 0, 0;
      sentAt, rxd, retriesLeft, lastActivity, data, metadata := 0, 0, MAX_RETRIES, now, None, None;
    }

    method RequestMore(now: int) returns (request: Option<Request>)
      modifies this
      ensures (State(), request) == RequestNext(old(State()), now)
    {
      if status != Transferring || received >= adv.n {
        return None;
      }
      var requested: seq<MapHash> := [];
      var last: Option<MapHash> := None;
      var i := 0;
      while i < |hashmap| && |requested| < window
        invariant 0 <= i <= |hashmap|
        invariant Scan(parts, hashmap, window, i, requested, last) == Scan(parts, hashmap, window, 0, [], None)
      {
        if i < |parts| && parts[i].None? {
          requested := requested + [hashmap[i]];
        }
        last := Some(hashmap[i]);
        i := i + 1;
      }
      var exhausted := AnyOpen(parts) && requested == [];
      if !exhausted && requested == [] {
        return None;
      }
      outstanding, sentAt, rxd := |requested|, now, 0;
      return Some(Request(requested, exhausted, if exhausted then last else None));
    }

    method OnWindowDrained(now: int)
      modifies `window, `windowMax, `windowMin, `fastRateRounds, `verySlowRateRounds
      ensures CurrentWindow() == Drained(old(CurrentWindow()), now - sentAt, rxd)
    {
      if window < windowMax {
        window := window + 1;
        if window - windowMin > WINDOW_FLEXIBILITY - 1 {
          windowMin := windowMin + 1;
        }
      }
      var elapsed := now - sentAt;
      if (elapsed <= 0 || rxd * 1000 > RATE_FAST * elapsed) && fastRateRounds < FAST_RATE_THRESHOLD {
        fastRateRounds := fastRateRounds + 1;
        if fastRateRounds == FAST_RATE_THRESHOLD {
          windowMax := WINDOW_MAX_FAST;
        }
      } else if fastRateRounds == 0 && elapsed > 0 && rxd * 1000 < RATE_VERY_SLOW * elapsed
                && verySlowRateRounds < VERY_SLOW_RATE_THRESHOLD {
        verySlowRateRounds := verySlowRateRounds + 1;
        if verySlowRateRounds == VERY_SLOW_RATE_THRESHOLD {
          windowMax := WINDOW_MAX_VERY_SLOW;
        }
      }
    }

    method AssembleParts() returns (proof: Option<Proof>)
      modifies this
      ensures (State(), proof) == Assemble(c, old(State()))
    {
      status := Assembling;
      var plaintext := Opened(c, adv, Concat(Filled(parts)));
      if plaintext.None? || c.hash(plaintext.value + adv.r) != adv.h {
        status, parts, data := Corrupt, [], None;
        return None;
      }
      var p := plaintext.value;
      proof := Some(Proof(adv.h, c.hash(p + adv.h)));
      var stripped := Strip(adv, p);
      data, metadata := Some(stripped.0), stripped.1;
      status, parts := Complete, [];
    }

    method Put(i: nat, chunk: Data, now: int)
      requires i < |parts|
      modifies this
      ensures State() == Place(old(State()), i, chunk, now)
    {
      parts := parts[i := Some(chunk)];
      received := received + 1;
      if outstanding > 0 {
        outstanding := outstanding - 1;
      }
      lastActivity := now;
      rxd := rxd + |chunk|;
    }

    /** The open slot `i` takes the part; the last part assembles, a drained window requests more. */
    method Fill(i: nat, chunk: Data, now: int) returns (out: Output)
      requires i < |parts|
      modifies this
      ensures (State(), out) == AfterPlacing(c, Place(old(State()), i, chunk, now), now)
    {
      hide RequestNext, Drained, Assemble, Place;
      ghost var p := Place(State(), i, chunk, now);
      Put(i, chunk, now);
      if received >= adv.n {
        var proof := AssembleParts();
        return Output(true, None, proof);
      }
      if outstanding <= 0 {
        OnWindowDrained(now);
        assert State() == p.(window := Drained(p.window, now - p.sentAt, p.rxd));
        var request := RequestMore(now);
        return Output(true, request, None);
      }
      return Output(true, None, None);
    }

    method Receive(chunk: Data, now: int) returns (out: Output)
      modifies this
      ensures (State(), out) == ReceivePart(c, old(State()), chunk, now)
    {
      hide AfterPlacing, MapHashOf;
      if status != Transferring && status != Assembling {
        return Output(false, None, None);
      }
      var mh := MapHashOf(c, chunk, adv.r);
      var i := 0;
      while i < |hashmap|
        invariant 0 <= i <= |hashmap|
        invariant Slot(parts, hashmap, mh, i) == Slot(parts, hashmap, mh, 0)
        invariant State() == old(State())
      {
        if i < |parts| && parts[i].None? && hashmap[i] == mh {
          out := Fill(i, chunk, now);
          return;
        }
        i := i + 1;
      }
      return Output(false, None, None);
    }

    method ApplyUpdate(u: Update, now: int) returns (request: Option<Request>)
      modifies this
      ensures (State(), request) == HashmapUpdate(old(State()), u, now)
    {
      for i := 0 to |u.hashes|
        invariant State() == old(State()).(hashmap := old(hashmap) + u.hashes[..i])
      {
        hashmap := hashmap + [u.hashes[i]];
        assert u.hashes[..i + 1] == u.hashes[..i] + [u.hashes[i]];
      }
      assert u.hashes[..|u.hashes|] == u.hashes;
      lastActivity := now;
      if outstanding > 0 {
        return None;
      }
      request := RequestMore(now);
    }

    method ShrinkWindow()
      modifies `window, `windowMax
      ensures CurrentWindow() == Shrunk(old(CurrentWindow()))
    {
      if window > windowMin {
        window := window - 1;
        if windowMax > windowMin {
          windowMax := windowMax - 1;
          if windowMax - window > WINDOW_FLEXIBILITY - 1 {
            windowMax := windowMax - 1;
          }
        }
      }
    }

    method Overdue(now: int, rtt: real) returns (b: bool)
      requires retriesLeft <= MAX_RETRIES
      ensures b == Stalls(State(), now, rtt)
    {
      if status != Transferring {
        return false;
      }
      var r := RttSeconds(rtt);
      var expected := r * 6.0 + outstanding as real * r * 3.0;
      var used := MAX_RETRIES - retriesLeft;
      return Seconds(now) >= Seconds(lastActivity) + (4.0 * expected + 0.25 + used as real * 0.5);
    }

    method WatchdogTick(now: int, rtt: real) returns (request: Option<Request>)
      requires retriesLeft <= MAX_RETRIES
      modifies this
      ensures (State(), request) == Tick(old(State()), now, rtt)
    {
      hide RequestNext, Shrunk, Stalls;
      var overdue := Overdue(now, rtt);
      if !overdue {
        return None;
      }
      if retriesLeft == 0 {
        status, parts, data := Failed, [], None;
        return None;
      }
      retriesLeft := retriesLeft - 1;
      ShrinkWindow();
      outstanding, lastActivity := 0, now;
      request := RequestMore(now);
    }
  }
}
