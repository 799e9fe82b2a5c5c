/** Window and retry bounds over every run of a receiver, and how soon silence ends a transfer. */
module ResourceWatchdog {
  import opened Wrappers
  import opened Resource
  import opened ResourceSender
  import opened ResourceTransfer

  // ---------- bounds, whatever the peer sends ----------

  datatype Happening =
    | Chunk(chunk: Data, at: int)
    | Hashes(u: Update, at: int)
    | Clock(at: int, rtt: real)

  function After(c: Crypto, r: Receiver, e: Happening): Receiver {
    match e
    case Chunk(chunk, at) => ReceivePart(c, r, chunk, at).0
    case Hashes(u, at) => if r.status == Transferring then HashmapUpdate(r, u, at).0 else r
    case Clock(at, rtt) => Tick(r, at, rtt).0
  }

  function AfterAll(c: Crypto, r: Receiver, es: seq<Happening>): Receiver {
    if es == [] then r else After(c, AfterAll(c, r, es[..|es| - 1]), es[|es| - 1])
  }

  /** The watchdog retries in a run. */
  function Retries(c: Crypto, r: Receiver, es: seq<Happening>): nat {
    if es == [] then 0
    else
      var before, e := AfterAll(c, r, es[..|es| - 1]), es[|es| - 1];
      Retries(c, r, es[..|es| - 1]) + if e.Clock? && Stalls(before, e.at, e.rtt) && before.retriesLeft > 0 then 1 else 0
  }

  ghost predicate Bounded(r: Receiver) {
    && WfWindow(r.window) && r.retriesLeft <= MAX_RETRIES
    && (r.status == Transferring ==>
          && |r.parts| == r.adv.n && r.received == |Filled(r.parts)| < r.adv.n
          && r.outstanding <= |Wanted(r.parts, r.hashmap, 0)|)
  }

  lemma RequestBounded(r: Receiver, now: int)
    requires Bounded(r)
    ensures Bounded(RequestNext(r, now).0) && RequestNext(r, now).0.retriesLeft == r.retriesLeft
  {
    ScanTakesWanted(r.parts, r.hashmap, r.window.size, 0, [], None);
  }

  lemma PlaceBounded(r: Receiver, i: nat, chunk: Data, now: int)
    requires r.status == Transferring && Bounded(r) && i < |r.hashmap| && Open(r.parts, i)
    ensures var p := Place(r, i, chunk, now);
      && p.status == Transferring && p.retriesLeft == r.retriesLeft && p.window == r.window && p.adv == r.adv
      && (p.received < p.adv.n ==> Bounded(p))
  {
    FilledAfter(r.parts, i, chunk);
    FillRemoves(r.parts, r.hashmap, 0, i, chunk);
  }

  lemma AssembleBounded(c: Crypto, r: Receiver)
    requires WfWindow(r.window) && r.retriesLeft <= MAX_RETRIES
    ensures Bounded(Assemble(c, r).0) && Assemble(c, r).0.retriesLeft == r.retriesLeft
  {
  }

  lemma ChunkBounded(c: Crypto, r: Receiver, chunk: Data, at: int)
    requires Bounded(r) && r.status != Assembling
    ensures var r' := ReceivePart(c, r, chunk, at).0;
      Bounded(r') && r'.status != Assembling && r'.retriesLeft == r.retriesLeft
  {
    hide RequestNext, Drained, Wanted, Filled, MapHashOf, Opened;
    if r.status == Transferring {
      var i := Slot(r.parts, r.hashmap, MapHashOf(c, chunk, r.adv.r), 0);
      if i < |r.hashmap| {
        PlaceBounded(r, i, chunk, at);
        var p := Place(r, i, chunk, at);
        AssembleBounded(c, p);
        WindowKept(p.window, at - p.sentAt, p.rxd);
        var p1 := p.(window := Drained(p.window, at - p.sentAt, p.rxd));
        if p.received < p.adv.n {
          RequestBounded(p1, at);
          RequestStatus(p1, at);
        }
      }
    }
  }

  lemma RequestStatus(r: Receiver, now: int)
    ensures RequestNext(r, now).0.status == r.status
  {
  }

  lemma StepBounded(c: Crypto, r: Receiver, e: Happening)
    requires Bounded(r) && r.status != Assembling
    ensures Bounded(After(c, r, e)) && After(c, r, e).status != Assembling
    ensures After(c, r, e).retriesLeft
         == r.retriesLeft - if e.Clock? && Stalls(r, e.at, e.rtt) && r.retriesLeft > 0 then 1 else 0
  {
    hide RequestNext, ReceivePart, Shrunk, Filled, Stalls;
    match e
    case Chunk(chunk, at) =>
      ChunkBounded(c, r, chunk, at);
    case Hashes(u, at) =>
      WantedGrows(r.parts, r.hashmap, u.hashes, 0);
      hide Wanted;
      var r1 := r.(hashmap := r.hashmap + u.hashes, lastActivity := at);
      if r.status == Transferring && r1.outstanding == 0 {
        RequestBounded(r1, at);
        RequestStatus(r1, at);
      }
    case Clock(at, rtt) =>
      hide Wanted;
      WindowKept(r.window, 0, 0);
      if Stalls(r, at, rtt) && r.retriesLeft > 0 {
        var r1 := r.(retriesLeft := r.retriesLeft - 1, window := Shrunk(r.window), outstanding := 0, lastActivity := at);
        RequestBounded(r1, at);
        RequestStatus(r1, at);
      }
  }

  /**
   Over any interleaving of parts, continuations and ticks, from any peer: the window keeps its
   bounds, no more parts are outstanding than known slots are open, and no segment is retried more
   than sixteen times.
   */
  lemma {:induction false} RunBounded(c: Crypto, r: Receiver, es: seq<Happening>)
    requires Bounded(r) && r.status != Assembling
    ensures var r' := AfterAll(c, r, es);
      && 2 <= r'.window.min <= r'.window.size <= 75
      && (r'.status == Transferring ==> r'.outstanding <= |Wanted(r'.parts, r'.hashmap, 0)|)
      && Retries(c, r, es) + r'.retriesLeft == r.retriesLeft <= 16
      && Bounded(r') && r'.status != Assembling
    decreases |es|
  {
    hide After, Stalls, Wanted, Filled;
    if es != [] {
      RunBounded(c, r, es[..|es| - 1]);
      StepBounded(c, AfterAll(c, r, es[..|es| - 1]), es[|es| - 1]);
    }
  }

  /** Every accepted transfer starts within the bounds, also one that resumes at an earlier window. */
  lemma AcceptedBounded(adv: Advertisement, limits: Limits, sdu: int, last: nat, now: int)
    requires Accept(adv, limits, sdu, last, now).Some? && (last == 0 || 2 <= last <= 75)
    ensures Bounded(Accept(adv, limits, sdu, last, now).value)
    ensures Accept(adv, limits, sdu, last, now).value.retriesLeft == 16
  {
    NoneFilled(adv.n);
  }

  // ---------- the window's ceiling ----------

  /** A drained window: the milliseconds since its request and the bytes received in it. */
  datatype Drain = Drain(elapsed: int, rxd: nat)

  predicate IsFast(d: Drain) {
    d.elapsed <= 0 || d.rxd * 1000 > RATE_FAST * d.elapsed
  }

  predicate IsVerySlow(d: Drain) {
    d.elapsed > 0 && d.rxd * 1000 < RATE_VERY_SLOW * d.elapsed
  }

  function DrainAll(w: Window, ds: seq<Drain>): Window {
    if ds == [] then w else Drained(DrainAll(w, ds[..|ds| - 1]), ds[|ds| - 1].elapsed, ds[|ds| - 1].rxd)
  }

  function FastOnes(ds: seq<Drain>): nat {
    if ds == [] then 0 else FastOnes(ds[..|ds| - 1]) + if IsFast(ds[|ds| - 1]) then 1 else 0
  }

  /** The very slow drains in front of the first fast one. */
  function SlowLead(ds: seq<Drain>): nat {
    if ds == [] then 0
    else SlowLead(ds[..|ds| - 1]) + if FastOnes(ds) == 0 && IsVerySlow(ds[|ds| - 1]) then 1 else 0
  }

  /**
   Of a transfer that never stalls: four fast drains open the large window for good, two very slow ones before
   any fast one close it to the smallest, and otherwise the ceiling stays where it began.
   */
  lemma {:induction false} CeilingFollowsRates(last: nat, ds: seq<Drain>)
    ensures var w := DrainAll(FirstWindow(last), ds);
      && w.max == (if FastOnes(ds) >= 4 then 75 else if SlowLead(ds) >= 2 then 4 else 10)
      && w.fast == Min(FastOnes(ds), 4) && w.slow == Min(SlowLead(ds), 2)
    decreases |ds|
  {
    if ds != [] {
      CeilingFollowsRates(last, ds[..|ds| - 1]);
    }
  }

  // ---------- silence ----------

  /** Ticks with no inbound traffic. */
  function Silent(r: Receiver, times: seq<int>, rtt: real): Receiver
    decreases |times|
  {
    if times == [] then r else Silent(Tick(r, times[0], rtt).0, times[1..], rtt)
  }

  /** Ticks come in order, none more than `gap` seconds behind the one before. */
  predicate Regular(prev: int, times: seq<int>, gap: real)
    decreases |times|
  {
    times == []
    || (prev <= times[0] && Seconds(times[0]) <= Seconds(prev) + gap && Regular(times[0], times[1..], gap))
  }

  function LastTime(prev: int, times: seq<int>): int {
    if times == [] then prev else times[|times| - 1]
  }

  function Scaled(n: nat, x: real): real {
    n as real * x
  }

  lemma ScaledStep(n: nat, x: real)
    ensures Scaled(0, x) == 0.0 && Scaled(n + 1, x) == Scaled(n, x) + x
  {
    assert (n + 1) as real == n as real + 1.0;
  }

  lemma ScaledGrows(a: nat, b: nat, x: real)
    requires a <= b && x >= 0.0
    ensures Scaled(a, x) <= Scaled(b, x)
  {
  }

  /** The longest stall of a window of at most `w` parts, retry delays aside, and one late tick. */
  function PerRetry(w: nat, rtt: real, gap: real): real {
    24.0 * RttSeconds(rtt) + 12.0 * Scaled(w, RttSeconds(rtt)) + 0.25 + gap
  }

  /** The wait for `n` more retries and the cancel, in seconds, for windows of at most `w` parts. */
  function SilenceBound(n: nat, w: nat, rtt: real, gap: real): real {
    Scaled(n + 1, PerRetry(w, rtt, gap)) + 0.25 * ((n + 1) * (32 - n)) as real
  }

  lemma StallBound(outstanding: nat, w: nat, used: nat, rtt: real)
    requires outstanding <= w
    ensures StallTime(outstanding, used, rtt) <= PerRetry(w, rtt, 0.0) + used as real * 0.5
  {
    var r := RttSeconds(rtt);
    ScaledGrows(outstanding, w, r);
    assert outstanding as real * r * 3.0 == 3.0 * Scaled(outstanding, r);
  }

  lemma DelaySum(n: nat)
    requires 0 < n <= 16
    ensures 0.25 * ((n + 1) * (32 - n)) as real == 0.25 * (n * (33 - n)) as real + (16 - n) as real * 0.5
  {
    assert (n + 1) * (32 - n) == n * (33 - n) + 2 * (16 - n);
  }

  /** One retry's wait is the difference of two bounds. */
  lemma BoundStep(n: nat, w: nat, rtt: real, gap: real)
    requires n <= 16
    ensures var wait := PerRetry(w, rtt, gap) + (16 - n) as real * 0.5;
      SilenceBound(n, w, rtt, gap) == if n == 0 then wait else SilenceBound(n - 1, w, rtt, gap) + wait
  {
    hide Scaled, PerRetry;
    ScaledStep(n, PerRetry(w, rtt, gap));
    if n > 0 {
      DelaySum(n);
    }
  }

  lemma {:induction false} BoundGrows(n: nat, w: nat, rtt: real, gap: real)
    requires n <= 16 && gap >= 0.0
    ensures SilenceBound(n, w, rtt, gap) >= PerRetry(w, rtt, gap) + (16 - n) as real * 0.5 > 0.0
    decreases n
  {
    ScaledGrows(0, w, RttSeconds(rtt));
    BoundStep(n, w, rtt, gap);
    hide SilenceBound;
    if n > 0 {
      BoundGrows(n - 1, w, rtt, gap);
    }
  }

  lemma TickOutstanding(r: Receiver, now: int, rtt: real, w: nat)
    requires r.status == Transferring && r.retriesLeft <= MAX_RETRIES && r.outstanding <= w && r.window.size <= w
    ensures var r' := Tick(r, now, rtt).0;
      if !Stalls(r, now, rtt) then r' == r
      else if r.retriesLeft == 0 then r'.status == Failed
      else r'.status == Transferring && r'.retriesLeft == r.retriesLeft - 1 && r'.lastActivity == now
           && r'.outstanding <= w && r'.window.size <= w
  {
    hide Stalls, Wanted;
    var r1 := r.(window := Shrunk(r.window));
    ScanTakesWanted(r.parts, r.hashmap, r1.window.size, 0, [], None);
  }

  /** After the bound of silence the transfer has failed. */
  lemma {:induction false} SilenceFails(r: Receiver, prev: int, times: seq<int>, rtt: real, gap: real, w: nat)
    requires r.status == Transferring && r.retriesLeft <= MAX_RETRIES && r.outstanding <= w && r.window.size <= w
    requires gap >= 0.0 && Regular(prev, times, gap)
    requires prev == r.lastActivity || !Stalls(r, prev, rtt)
    requires Seconds(LastTime(prev, times)) >= Seconds(r.lastActivity) + SilenceBound(r.retriesLeft, w, rtt, gap)
    ensures Silent(r, times, rtt).status == Failed
    decreases |times|
  {
    hide Tick, SilenceBound, StallTime, PerRetry, RttSeconds, Seconds, Stalls;
    var n := r.retriesLeft;
    DeadlineInBound(r, prev, rtt, gap, w);
    if times != [] {
      var t, rest := times[0], times[1..];
      TickOutstanding(r, t, rtt, w);
      DeadlineInBound(r, t, rtt, gap, w);
      var r' := Tick(r, t, rtt).0;
      assert LastTime(t, rest) == LastTime(prev, times);
      if r'.status == Failed {
        FailedStays(r', rest, rtt);
      } else {
        SilenceFails(r', t, rest, rtt, gap, w);
      }
    }
  }

  /** A tick that does not stall comes early enough for the retries that are left. */
  lemma DeadlineInBound(r: Receiver, t: int, rtt: real, gap: real, w: nat)
    requires r.status == Transferring && r.retriesLeft <= MAX_RETRIES && r.outstanding <= w && gap >= 0.0
    ensures var n := r.retriesLeft;
      t == r.lastActivity || !Stalls(r, t, rtt) ==>
        && Seconds(t) < Seconds(r.lastActivity) + SilenceBound(n, w, rtt, gap)
        && (n > 0 ==> Seconds(t) + gap + SilenceBound(n - 1, w, rtt, gap) <= Seconds(r.lastActivity) + SilenceBound(n, w, rtt, gap))
  {
    var n := r.retriesLeft;
    BoundGrows(n, w, rtt, gap);
    BoundStep(n, w, rtt, gap);
    StallBound(r.outstanding, w, MAX_RETRIES - n, rtt);
    BoundGrows(16, w, rtt, 0.0);
    assert PerRetry(w, rtt, gap) == PerRetry(w, rtt, 0.0) + gap;
    hide SilenceBound, StallTime, PerRetry, Seconds;
  }

  lemma {:induction false} FailedStays(r: Receiver, times: seq<int>, rtt: real)
    requires r.status == Failed
    ensures Silent(r, times, rtt).status == Failed
    decreases |times|
  {
    if times != [] {
      FailedStays(r, times[1..], rtt);
    }
  }

  /**
   A fresh transfer whose window never exceeded `w` parts, left without inbound traffic, fails within
   17 (24 rtt + 12 w rtt + 1/4 + gap) + 68 seconds, for ticks at most `gap` seconds apart.
   */
  lemma SilenceFailsFresh(r: Receiver, times: seq<int>, rtt: real, gap: real, w: nat)
    requires Bounded(r) && r.status == Transferring && r.outstanding <= w && r.window.size <= w
    requires r.retriesLeft == MAX_RETRIES && gap >= 0.0 && Regular(r.lastActivity, times, gap)
    requires Seconds(LastTime(r.lastActivity, times)) >= Seconds(r.lastActivity)
      + 17.0 * (24.0 * RttSeconds(rtt) + 12.0 * (w as real * RttSeconds(rtt)) + 0.25 + gap) + 68.0
    ensures Silent(r, times, rtt).status == Failed
  {
    assert (17 * 16) as real == 272.0;
    SilenceFails(r, r.lastActivity, times, rtt, gap, w);
  }

  // ---------- a sender nobody answers ----------

  function SilentSender(s: Sender, times: seq<int>, rtt: real): Sender
    decreases |times|
  {
    if times == [] then s else SilentSender(TickSender(s, times[0], rtt).0, times[1..], rtt)
  }

  lemma {:induction false} StoppedStays(s: Sender, times: seq<int>, rtt: real)
    requires s.status == Cancelled
    ensures SilentSender(s, times, rtt).status == Cancelled
    decreases |times|
  {
    if times != [] {
      StoppedStays(s, times[1..], rtt);
    }
  }

  /** An advertisement nobody requests from is cancelled after its last retry. */
  lemma {:induction false} UnansweredFails(s: Sender, prev: int, times: seq<int>, rtt: real, gap: real)
    requires s.status == Advertised && !s.gotRequests && gap >= 0.0 && Regular(prev, times, gap)
    requires prev == s.advSentAt || !Unanswered(s, prev, rtt)
    requires Seconds(LastTime(prev, times)) >= Seconds(s.advSentAt)
      + Scaled(s.retriesLeft + 1, 6.0 * RttSeconds(rtt) + 1.0 + gap)
    ensures SilentSender(s, times, rtt).status == Cancelled
    decreases |times|
  {
    var n, step := s.retriesLeft, 6.0 * RttSeconds(rtt) + 1.0 + gap;
    ScaledStep(n, step);
    ScaledGrows(0, n, step);
    hide RttSeconds, Scaled;
    if times == [] {
      assert false;
    } else {
      var t, rest := times[0], times[1..];
      var s' := TickSender(s, t, rtt).0;
      assert LastTime(t, rest) == LastTime(prev, times);
      if s'.status == Cancelled {
        StoppedStays(s', rest, rtt);
      } else {
        UnansweredFails(s', t, rest, rtt, gap);
      }
    }
  }

  /** Once requests dry up, the sender cancels after one wait for the whole retry window. */
  lemma {:induction false} DriedUpFails(s: Sender, prev: int, times: seq<int>, rtt: real, gap: real)
    requires s.status == Advertised && s.gotRequests && gap >= 0.0 && Regular(prev, times, gap)
    requires prev == s.lastActivity || !DriedUp(s, prev, rtt)
    requires Seconds(LastTime(prev, times)) >= Seconds(s.lastActivity) + 96.0 * RttSeconds(rtt) + 78.0 + gap
    ensures SilentSender(s, times, rtt).status == Cancelled
    decreases |times|
  {
    if times == [] {
      assert false;
    } else {
      var t, rest := times[0], times[1..];
      assert LastTime(t, rest) == LastTime(prev, times);
      if DriedUp(s, t, rtt) {
        StoppedStays(TickSender(s, t, rtt).0, rest, rtt);
      } else {
        DriedUpFails(s, t, rest, rtt, gap);
      }
    }
  }
}
