/** Ingress control of an interface: burst latches, cooldown, held announces and their release. */
module Ingress {
  import opened Bytes
  import opened Wrappers

  const PR_COOLDOWN := 3
  const MIN_SAMPLE := 2
  const NEAR_MAX_HOPS := 127

  /** One reading: a frequency, the threshold for the interface's age, and the time in seconds. */
  datatype Reading = Reading(freq: real, threshold: real, now: real)

  // ---------- the frequency window ----------

  /** `frequencyOverWindow`: the reading, and the window after dropping a decayed oldest sample. */
  function Frequency(window: seq<real>, minSample: nat, decay: real, now: real): (real, seq<real>) {
    if |window| <= minSample then (0.0, window)
    else
      var span := now - window[0];
      (if span <= 0.0 then 0.0 else |window| as real / span, if span > decay then window[1..] else window)
  }

  /** The window after readings at these times, with nothing new arriving. */
  function Decayed(window: seq<real>, minSample: nat, decay: real, times: seq<real>): seq<real>
    decreases |times|
  {
    if times == [] then window else Decayed(Frequency(window, minSample, decay, times[0]).1, minSample, decay, times[1..])
  }

  /** Each reading forgets one decayed sample, so an idle window reads zero after as many as it has to spare. */
  lemma {:induction false} IdleReadsZero(window: seq<real>, minSample: nat, decay: real, times: seq<real>, now: real)
    requires forall i, k :: 0 <= i < |times| && 0 <= k < |window| ==> times[i] - window[k] > decay
    requires |times| + minSample >= |window|
    ensures Frequency(Decayed(window, minSample, decay, times), minSample, decay, now).0 == 0.0
    decreases |times|
  {
    if times != [] && |window| > minSample {
      IdleReadsZero(window[1..], minSample, decay, times[1..], now);
    } else if times != [] {
      IdleReadsZero(window, minSample, decay, times[1..], now);
    }
  }

  // ---------- path-request bursts ----------

  datatype Burst = Burst(active: bool, activated: real, cooldown: int, count: nat)

  /** Below the threshold, and past the hold. */
  predicate Quiet(r: Reading, activated: real, hold: real) {
    r.freq < r.threshold && r.now > activated + hold
  }

  /** `shouldIngressLimitPr`: the latch and the verdict. */
  function EvaluatePr(b: Burst, r: Reading, hold: real): (Burst, bool) {
    if b.active then
      (if Quiet(r, b.activated, hold) then
         if b.cooldown <= 0 then b.(active := false) else b.(cooldown := b.cooldown - 1)
       else b.(cooldown := PR_COOLDOWN),
       true)
    else if r.freq > r.threshold then (Burst(true, r.now, PR_COOLDOWN, b.count + 1), true)
    else (b, false)
  }

  function EvaluateAll(b: Burst, rs: seq<Reading>, hold: real): Burst {
    if rs == [] then b else EvaluatePr(EvaluateAll(b, rs[..|rs| - 1], hold), rs[|rs| - 1], hold).0
  }

  /** The verdict on the last of these readings. */
  function LastVerdict(b: Burst, rs: seq<Reading>, hold: real): bool
    requires rs != []
  {
    EvaluatePr(EvaluateAll(b, rs[..|rs| - 1], hold), rs[|rs| - 1], hold).1
  }

  /** The quiet readings at the end. */
  function Trailing(rs: seq<Reading>, activated: real, hold: real): (n: nat)
    ensures n <= |rs|
    ensures forall k :: |rs| - n <= k < |rs| ==> Quiet(rs[k], activated, hold)
    ensures n < |rs| ==> !Quiet(rs[|rs| - 1 - n], activated, hold)
  {
    if rs == [] || !Quiet(rs[|rs| - 1], activated, hold) then 0
    else 1 + Trailing(rs[..|rs| - 1], activated, hold)
  }

  /** Four quiet readings in a row, the last of them reading `n`. */
  predicate FourQuiet(rs: seq<Reading>, n: nat, activated: real, hold: real) {
    4 <= n <= |rs| && forall k :: n - 4 <= k < n ==> Quiet(rs[k], activated, hold)
  }

  ghost predicate NoFourQuiet(rs: seq<Reading>, activated: real, hold: real) {
    forall n :: 0 <= n <= |rs| ==> !FourQuiet(rs, n, activated, hold)
  }

  predicate Latched(b: Burst, activated: real) {
    b.active && b.activated == activated
  }

  lemma NoFourInFront(rs: seq<Reading>, activated: real, hold: real)
    requires rs != [] && NoFourQuiet(rs, activated, hold)
    ensures NoFourQuiet(rs[..|rs| - 1], activated, hold)
  {
    var init := rs[..|rs| - 1];
    forall n | 0 <= n <= |init| ensures !FourQuiet(init, n, activated, hold) {
      if FourQuiet(init, n, activated, hold) {
        forall k | n - 4 <= k < n ensures Quiet(rs[k], activated, hold) {
          assert rs[k] == init[k];
        }
        assert FourQuiet(rs, n, activated, hold);
      }
    }
  }

  /** While no four quiet readings have come, the burst is latched and its cooldown counts them down. */
  lemma {:induction false} CooldownCounts(b: Burst, rs: seq<Reading>, hold: real)
    requires b.active && b.cooldown == PR_COOLDOWN && NoFourQuiet(rs, b.activated, hold)
    ensures var after := EvaluateAll(b, rs, hold);
      && Latched(after, b.activated) && after.count == b.count
      && after.cooldown == PR_COOLDOWN - Trailing(rs, b.activated, hold) >= 0
    decreases |rs|
  {
    if rs != [] {
      NoFourInFront(rs, b.activated, hold);
      CooldownCounts(b, rs[..|rs| - 1], hold);
      var n := Trailing(rs, b.activated, hold);
      if n >= 4 {
        assert FourQuiet(rs, |rs|, b.activated, hold);
      }
    }
  }

  /**
   A latched burst limits every evaluation up to and including the fourth of the first four
   consecutive quiet ones, and is released by exactly that one.
   */
  lemma LimitsUntilFourQuiet(b: Burst, rs: seq<Reading>, hold: real)
    requires b.active && b.cooldown == PR_COOLDOWN && rs != []
    requires NoFourQuiet(rs[..|rs| - 1], b.activated, hold)
    ensures LastVerdict(b, rs, hold)
    ensures EvaluateAll(b, rs, hold).active <==> !FourQuiet(rs, |rs|, b.activated, hold)
  {
    var init := rs[..|rs| - 1];
    CooldownCounts(b, init, hold);
    var n := Trailing(init, b.activated, hold);
    if FourQuiet(rs, |rs|, b.activated, hold) {
      assert Quiet(rs[|rs| - 1], b.activated, hold);
      forall k | |rs| - 4 <= k < |init| ensures Quiet(init[k], b.activated, hold) {
        assert init[k] == rs[k];
      }
      assert n >= 3;
    } else if n == 3 {
      assert forall k :: |init| - 3 <= k < |init| ==> rs[k] == init[k];
      assert !Quiet(rs[|rs| - 1], b.activated, hold);
    }
  }

  // ---------- announce bursts and held announces ----------

  datatype Held = Held(destination: seq<Byte>, hops: nat, packet: seq<Byte>)

  datatype Config = Config(hold: real, penalty: real, interval: real, maxHeld: nat)

  datatype State = State(active: bool, activated: real, releaseAt: real, held: seq<Held>, drops: nat, released: seq<(real, Held)>)

  /** `shouldIngressLimit`; `samples` is the length of the frequency window. */
  function Evaluate(s: State, r: Reading, samples: nat, cfg: Config): (State, bool) {
    if s.active then
      (if r.freq < r.threshold && r.now > s.activated + cfg.hold && samples >= MIN_SAMPLE then s.(active := false) else s, true)
    else if r.freq > r.threshold then
      (s.(active := true, activated := r.now, releaseAt := r.now + cfg.penalty), true)
    else (s, false)
  }

  function IndexOf(held: seq<Held>, destination: seq<Byte>): (i: nat)
    ensures i <= |held|
    ensures i < |held| ==> held[i].destination == destination
    ensures forall k :: 0 <= k < i ==> held[k].destination != destination
  {
    if held == [] then 0
    else
      var i := IndexOf(held[..|held| - 1], destination);
      if i < |held| - 1 || held[|held| - 1].destination == destination then i else |held|
  }

  /** `holdAnnounce` */
  function HoldAnnounce(s: State, h: Held, cfg: Config): State {
    if h.hops >= NEAR_MAX_HOPS then s
    else
      var i := IndexOf(s.held, h.destination);
      if i < |s.held| then s.(held := s.held[i := h])
      else if |s.held| < cfg.maxHeld then s.(held := s.held + [h])
      else s.(drops := s.drops + 1)
  }

  /** The first of the announces with the fewest hops. */
  function Nearest(held: seq<Held>): (i: nat)
    requires held != []
    ensures i < |held| && (forall k :: 0 <= k < |held| ==> held[i].hops <= held[k].hops)
    ensures forall k :: 0 <= k < i ==> held[k].hops > held[i].hops
  {
    if |held| == 1 then 0
    else
      var i := Nearest(held[..|held| - 1]);
      if held[|held| - 1].hops < held[i].hops then |held| - 1 else i
  }

  /** `processHeldAnnounces` */
  function Release(s: State, r: Reading, cfg: Config): (State, Option<Held>) {
    if s.held == [] || r.now <= s.releaseAt || !(r.freq < r.threshold) then (s, None)
    else
      var i := Nearest(s.held);
      (s.(releaseAt := r.now + cfg.interval, held := s.held[..i] + s.held[i + 1..], released := s.released + [(r.now, s.held[i])]),
       Some(s.held[i]))
  }

  datatype Event =
    | Evaluates(r: Reading, samples: nat)
    | Holds(h: Held)
    | Releases(r: Reading)

  function Step(s: State, e: Event, cfg: Config): State {
    match e
    case Evaluates(r, samples) => Evaluate(s, r, samples, cfg).0
    case Holds(h) => HoldAnnounce(s, h, cfg)
    case Releases(r) => Release(s, r, cfg).0
  }

  function Run(s: State, es: seq<Event>, cfg: Config): State {
    if es == [] then s else Step(Run(s, es[..|es| - 1], cfg), es[|es| - 1], cfg)
  }

  function TimeOf(e: Event, otherwise: real): real {
    match e
    case Evaluates(r, _) => r.now
    case Holds(_) => otherwise
    case Releases(r) => r.now
  }

  /** The clock at the end of a run that starts at `start`. */
  function Clock(es: seq<Event>, start: real): real {
    if es == [] then start else TimeOf(es[|es| - 1], Clock(es[..|es| - 1], start))
  }

  /** The clock does not go backwards. */
  predicate Ordered(es: seq<Event>, start: real) {
    es == [] || (Ordered(es[..|es| - 1], start) && Clock(es[..|es| - 1], start) <= Clock(es, start))
  }

  ghost predicate Spaced(released: seq<(real, Held)>, interval: real) {
    forall i, j :: 0 <= i < j < |released| ==> released[j].0 > released[i].0 + interval
  }

  /** The distance releases keep: a burst right after a release replaces the interval by the penalty. */
  function Gap(cfg: Config): real {
    if cfg.penalty < cfg.interval then cfg.penalty else cfg.interval
  }

  /** Held announces are within the cap, each destination once, and the next release waits out the gap. */
  ghost predicate Kept(s: State, cfg: Config, now: real) {
    && |s.held| <= cfg.maxHeld
    && (forall i, j :: 0 <= i < j < |s.held| ==> s.held[i].destination != s.held[j].destination)
    && (forall i :: 0 <= i < |s.held| ==> s.held[i].hops < NEAR_MAX_HOPS)
    && Spaced(s.released, Gap(cfg))
    && (forall i :: 0 <= i < |s.released| ==> s.released[i].0 <= now && s.releaseAt >= s.released[i].0 + Gap(cfg))
  }

  lemma HoldKept(s: State, h: Held, cfg: Config, now: real)
    requires Kept(s, cfg, now)
    ensures Kept(HoldAnnounce(s, h, cfg), cfg, now)
  {
    hide Spaced;
  }

  lemma EvaluateKept(s: State, r: Reading, samples: nat, cfg: Config, now: real)
    requires Kept(s, cfg, now) && r.now >= now
    ensures Kept(Evaluate(s, r, samples, cfg).0, cfg, r.now)
  {
    hide Spaced;
  }

  lemma SpacedAfter(s: State, h: Held, at: real, cfg: Config, now: real)
    requires Kept(s, cfg, now) && at > s.releaseAt
    ensures Spaced(s.released + [(at, h)], Gap(cfg))
  {
  }

  lemma ReleaseKept(s: State, r: Reading, cfg: Config, now: real)
    requires Kept(s, cfg, now) && r.now >= now
    ensures Kept(Release(s, r, cfg).0, cfg, r.now)
  {
    if Release(s, r, cfg).1.Some? {
      var i := Nearest(s.held);
      var rest := s.held[..i] + s.held[i + 1..];
      assert forall k :: 0 <= k < |rest| ==> rest[k] == s.held[if k < i then k else k + 1];
      SpacedAfter(s, s.held[i], r.now, cfg, now);
      hide Spaced, Nearest;
    }
  }

  lemma StepKept(s: State, e: Event, cfg: Config, now: real)
    requires Kept(s, cfg, now) && TimeOf(e, now) >= now
    ensures Kept(Step(s, e, cfg), cfg, TimeOf(e, now))
  {
    hide Kept, Evaluate, HoldAnnounce, Release;
    match e
    case Evaluates(r, samples) => EvaluateKept(s, r, samples, cfg, now);
    case Holds(h) => HoldKept(s, h, cfg, now);
    case Releases(r) => ReleaseKept(s, r, cfg, now);
  }

  /**
   Over every run with a clock that does not go backwards: held announces stay within the cap, one for each
   destination, and releases are spaced by more than the interval, or by more than the penalty where that is
   shorter.
   */
  lemma {:induction false} ReleasesSpaced(s: State, es: seq<Event>, cfg: Config, start: real)
    requires Kept(s, cfg, start) && Ordered(es, start)
    ensures Kept(Run(s, es, cfg), cfg, Clock(es, start))
    ensures |Run(s, es, cfg).held| <= cfg.maxHeld
    ensures forall i, j :: 0 <= i < j < |Run(s, es, cfg).released| ==>
      Run(s, es, cfg).released[j].0 > Run(s, es, cfg).released[i].0 + Gap(cfg)
    decreases |es|
  {
    if es != [] {
      hide Kept, Step, Spaced;
      ReleasesSpaced(s, es[..|es| - 1], cfg, start);
      StepKept(Run(s, es[..|es| - 1], cfg), es[|es| - 1], cfg, Clock(es[..|es| - 1], start));
      KeptMeans(Run(s, es, cfg), cfg, Clock(es, start));
    }
  }

  lemma KeptMeans(s: State, cfg: Config, now: real)
    requires Kept(s, cfg, now)
    ensures |s.held| <= cfg.maxHeld
    ensures forall i, j :: 0 <= i < j < |s.released| ==> s.released[j].0 > s.released[i].0 + Gap(cfg)
  {
  }

  /** With a penalty below the interval, every distance above the penalty and up to the interval does occur. */
  lemma ShortPenaltyCrowds(cfg: Config, a: Held, b: Held, gap: real)
    requires 0.0 <= cfg.penalty < gap <= cfg.interval && cfg.maxHeld >= 2 && a.destination != b.destination
    requires a.hops <= b.hops
    ensures var s := State(false, 0.0, 0.0, [a, b], 0, []);
      var s1 := Step(s, Releases(Reading(0.0, 1.0, 1.0)), cfg);
      var s2 := Step(s1, Evaluates(Reading(2.0, 1.0, 1.0), 3), cfg);
      var s3 := Step(s2, Releases(Reading(0.0, 1.0, 1.0 + gap)), cfg);
      && |s3.released| == 2 && s3.released[1].0 == s3.released[0].0 + gap
      && !Spaced(s3.released, cfg.interval)
  {
    var s := State(false, 0.0, 0.0, [a, b], 0, []);
    assert Nearest([a, b]) == 0;
    var s1 := Step(s, Releases(Reading(0.0, 1.0, 1.0)), cfg);
    assert s1.held == [b] && s1.released == [(1.0, a)];
    var s2 := Step(s1, Evaluates(Reading(2.0, 1.0, 1.0), 3), cfg);
    var s3 := Step(s2, Releases(Reading(0.0, 1.0, 1.0 + gap)), cfg);
    assert s3.released == [(1.0, a), (1.0 + gap, b)];
    assert s3.released[1].0 == s3.released[0].0 + gap;
  }

  /** A release is of the nearest held announce, and takes nothing else from the table. */
  lemma ReleasedIsNearest(s: State, r: Reading, cfg: Config)
    ensures var (s', h) := Release(s, r, cfg);
      match h
      case None => s' == s
      case Some(h) =>
        && h in s.held && (forall x :: x in s.held ==> h.hops <= x.hops)
        && multiset(s'.held) == multiset(s.held) - multiset{h}
        && r.now > s.releaseAt && s'.releaseAt == r.now + cfg.interval
  {
    if Release(s, r, cfg).1.Some? {
      var i := Nearest(s.held);
      assert s.held == s.held[..i] + [s.held[i]] + s.held[i + 1..];
    }
  }

  /** A latched announce burst limits until its hold has passed. */
  lemma {:induction false} LimitsThroughHold(s: State, es: seq<Event>, cfg: Config, r: Reading, samples: nat)
    requires s.active && r.now <= s.activated + cfg.hold
    requires forall i :: 0 <= i < |es| ==> TimeOf(es[i], r.now) <= r.now
    ensures Evaluate(Run(s, es, cfg), r, samples, cfg).1
    ensures Run(s, es, cfg).active && Run(s, es, cfg).activated == s.activated
    decreases |es|
  {
    if es != [] {
      LimitsThroughHold(s, es[..|es| - 1], cfg, r, samples);
    }
  }

  // ---------- the program ----------

  class Limiter {
    const cfg: Config
    var burst: Burst
    var active: bool
    var activated: real
    var releaseAt: real
    var held: seq<Held>
    var drops: nat
    ghost var released: seq<(real, Held)>

    ghost function Announces(): State
      reads this
    {
      State(active, activated, releaseAt, held, drops, released)
    }

    constructor (cfg: Config)
      ensures this.cfg == cfg && burst == Burst(false, 0.0, 0, 0)
      ensures Announces() == State(false, 0.0, 0.0, [], 0, []) && Kept(Announces(), cfg, 0.0)
    {
      this.cfg, burst := cfg, Burst(false, 0.0, 0, 0);
      active, activated, releaseAt, held, drops, released := false, 0.0, 0.0, [], 0, [];
    }

    method ShouldLimitPr(r: Reading) returns (limit: bool)
      modifies `burst
      ensures (burst, limit) == EvaluatePr(old(burst), r, cfg.hold)
    {
      if burst.active {
        if r.freq < r.threshold && r.now > burst.activated + cfg.hold {
          if burst.cooldown <= 0 {
            burst := burst.(active := false);
          } else {
            burst := burst.(cooldown := burst.cooldown - 1);
          }
        } else {
          burst := burst.(cooldown := PR_COOLDOWN);
        }
        return true;
      }
      if r.freq > r.threshold {
        burst := Burst(true, r.now, PR_COOLDOWN, burst.count + 1);
        return true;
      }
      return false;
    }

    method ShouldLimit(r: Reading, samples: nat) returns (limit: bool)
      modifies `active, `activated, `releaseAt
      ensures (Announces(), limit) == Evaluate(old(Announces()), r, samples, cfg)
    {
      if active {
        if r.freq < r.threshold && r.now > activated + cfg.hold {
          if samples >= MIN_SAMPLE {
            active := false;
          }
        }
        return true;
      }
      if r.freq > r.threshold {
        active, activated, releaseAt := true, r.now, r.now + cfg.penalty;
        return true;
      }
      return false;
    }

    method Find(destination: seq<Byte>) returns (i: nat)
      ensures i == IndexOf(held, destination)
    {
      i := 0;
      while i < |held| && held[i].destination != destination
        invariant i <= |held|
        invariant forall k :: 0 <= k < i ==> held[k].destination != destination
      {
        i := i + 1;
      }
    }

    method Hold(h: Held)
      modifies `held, `drops
      ensures Announces() == HoldAnnounce(old(Announces()), h, cfg)
    {
      if h.hops >= NEAR_MAX_HOPS {
        return;
      }
      var i := Find(h.destination);
      if i < |held| {
        held := held[i := h];
      } else if |held| < cfg.maxHeld {
        held := held + [h];
      } else {
        drops := drops + 1;
      }
    }

    method ProcessHeld(r: Reading) returns (out: Option<Held>)
      requires forall i :: 0 <= i < |held| ==> held[i].hops < NEAR_MAX_HOPS
      modifies `held, `releaseAt, `released
      ensures (Announces(), out) == Release(old(Announces()), r, cfg)
    {
      if held == [] || r.now <= releaseAt || !(r.freq < r.threshold) {
        return None;
      }
      var selected, minHops := 0, 128;
      for i := 0 to |held|
        invariant 0 <= selected < |held|
        invariant i > 0 ==> selected < i && minHops == held[selected].hops
        invariant i > 0 ==> forall k :: 0 <= k < i ==> held[selected].hops <= held[k].hops
        invariant i > 0 ==> forall k :: 0 <= k < selected ==> held[k].hops > held[selected].hops
        invariant i == 0 ==> minHops == 128
      {
        if held[i].hops < minHops {
          minHops := held[i].hops;
          selected := i;
        }
      }
      var h := held[selected];
      releaseAt := r.now + cfg.interval;
      held := held[..selected] + held[selected + 1..];
      released := released + [(r.now, h)];
      return Some(h);
    }
  }
}
