/** Outbound sync with one propagation peer: offer, reply, transfer, and the state the steps share. */
module PeerSync {
  import opened Wrappers
  import opened MessageStore

  const BACKOFF_STEP := 12 * 60
  const THROTTLE_SECS := 180
  const OFFER_OVERHEAD := 24
  const MESSAGE_OVERHEAD := 16

  datatype Phase = Idle | LinkEstablishing | RequestSent | ResourceTransferring

  datatype LocalPeer = LocalPeer(phase: Phase, lastOffer: seq<Tid>, backoff: int, nextAttempt: int, offered: nat, outgoing: nat)

  /** The peer's advertised limits, in kilobytes. */
  datatype Limits = Limits(transfer: Option<nat>, sync: Option<nat>)

  datatype Reply = Throttled | Refused | HasAll | WantsAll | WantsSome(ids: seq<Tid>)

  // ---------- building an offer ----------

  predicate TooLarge(e: Entry, limits: Limits) {
    limits.transfer.Some? && e.size + MESSAGE_OVERHEAD > limits.transfer.value * 1000
  }

  predicate OverBudget(e: Entry, limits: Limits, cumulative: nat) {
    limits.sync.Some? && cumulative + (e.size + MESSAGE_OVERHEAD) >= limits.sync.value * 1000
  }

  /** The offer loop: messages too large for the peer count as handled, those over its budget wait. */
  function BuildOffer(s: Store, p: Peer, candidates: seq<Entry>, limits: Limits, cumulative: nat): (Store, seq<Entry>)
    decreases |candidates|
  {
    if candidates == [] then (s, [])
    else
      var e, rest := candidates[0], candidates[1..];
      if TooLarge(e, limits) then BuildOffer(MarkHandled(s, e.id, p), p, rest, limits, cumulative)
      else if OverBudget(e, limits, cumulative) then BuildOffer(s, p, rest, limits, cumulative)
      else
        var (s', offered) := BuildOffer(s, p, rest, limits, cumulative + e.size + MESSAGE_OVERHEAD);
        (s', [e] + offered)
  }

  function Ids(es: seq<Entry>): (r: seq<Tid>)
    ensures |r| == |es| && forall i :: 0 <= i < |es| ==> r[i] == es[i].id
  {
    seq(|es|, i requires 0 <= i < |es| => es[i].id)
  }

  function TransferSize(es: seq<Entry>): nat {
    if es == [] then 0 else es[0].size + MESSAGE_OVERHEAD + TransferSize(es[1..])
  }

  function MarkEach(s: Store, p: Peer, ids: seq<Tid>): Store
    decreases |ids|
  {
    if ids == [] then s else MarkEach(MarkHandled(s, ids[0], p), p, ids[1..])
  }

  /** The ids not in the reply, in order. */
  function Declined(ids: seq<Tid>, wanted: seq<Tid>): seq<Tid> {
    if ids == [] then [] else (if ids[0] in wanted then [] else [ids[0]]) + Declined(ids[1..], wanted)
  }

  /** `_interpretOfferResponse` */
  function Interpret(s: Store, p: Peer, lastOffer: seq<Tid>, reply: Reply): (Store, seq<Tid>) {
    match reply
    case HasAll => (MarkEach(s, p, lastOffer), [])
    case WantsAll => (s, lastOffer)
    case WantsSome(ids) => (MarkEach(s, p, Declined(lastOffer, ids)), ids)
    case _ => (s, [])
  }

  /** The wanted messages still in the store when the container is packed. */
  function Packed(s: Store, wanted: seq<Tid>): seq<Tid> {
    if wanted == [] then [] else (if Has(s, wanted[0]) then [wanted[0]] else []) + Packed(s, wanted[1..])
  }

  // ---------- the other node ----------

  datatype Remote = Remote(
    stored: set<Tid>, processed: set<Tid>, known: set<Tid>,
    accepts: bool, throttledUntil: Option<int>, bypass: bool, sequential: bool, validating: nat, inbound: nat, maxInbound: nat)

  function Lacking(r: Remote, offered: seq<Tid>): seq<Tid> {
    if offered == [] then []
    else
      var init, tid := Lacking(r, offered[..|offered| - 1]), offered[|offered| - 1];
      if tid in r.stored || tid in r.processed then init else init + [tid]
  }

  /** The admission gates of `handleOfferRequest`, behind identity and peering key. */
  predicate Busy(r: Remote, now: int) {
    || (r.throttledUntil.Some? && now < r.throttledUntil.value)
    || (!r.bypass && ((r.sequential && r.validating > 0) || (r.maxInbound > 0 && r.inbound >= r.maxInbound)))
  }

  /** `handleOfferRequest`: the reply, and an elapsed throttle forgotten. */
  function HandleOffer(r: Remote, offered: seq<Tid>, now: int): (Remote, Reply) {
    if !r.accepts then (r, Refused)
    else if r.throttledUntil.Some? && now < r.throttledUntil.value then (r, Throttled)
    else
      var r1 := r.(throttledUntil := None);
      if Busy(r1, now) then (r1, Throttled)
      else
        var wanted := Lacking(r, offered);
        (r1, if wanted == [] then HasAll else if |wanted| == |offered| then WantsAll else WantsSome(wanted))
  }

  // ---------- what a reply says ----------

  lemma {:induction false} LackingIsSubset(r: Remote, offered: seq<Tid>)
    ensures forall tid :: tid in Lacking(r, offered) <==> tid in offered && tid !in r.stored && tid !in r.processed
    ensures |Lacking(r, offered)| <= |offered|
    ensures |Lacking(r, offered)| == |offered| ==> Lacking(r, offered) == offered
    decreases |offered|
  {
    if offered != [] {
      LackingIsSubset(r, offered[..|offered| - 1]);
      assert offered == offered[..|offered| - 1] + [offered[|offered| - 1]];
    }
  }

  lemma {:induction false} DeclinedMeans(ids: seq<Tid>, wanted: seq<Tid>)
    ensures forall tid :: tid in Declined(ids, wanted) <==> tid in ids && tid !in wanted
    decreases |ids|
  {
    if ids != [] {
      DeclinedMeans(ids[1..], wanted);
      assert ids == [ids[0]] + ids[1..];
    }
  }

  /** An admitted offer is answered with exactly what the node has neither stored nor processed. */
  lemma ReplyIsExact(r: Remote, offered: seq<Tid>, now: int, tid: Tid)
    requires r.accepts && !Busy(r, now) && tid in offered
    ensures var reply := HandleOffer(r, offered, now).1;
      var wants := reply.WantsAll? || (reply.WantsSome? && tid in reply.ids);
      && (wants <==> tid !in r.stored && tid !in r.processed)
      && (reply.HasAll? || reply.WantsAll? || reply.WantsSome?)
      && (reply.WantsSome? ==> forall x :: x in reply.ids ==> x in offered)
  {
    LackingIsSubset(r, offered);
    hide Lacking;
  }

  /** An offer stays below the peer's sync limit and takes no message above its transfer limit. */
  lemma {:induction false} OfferWithinLimits(s: Store, p: Peer, candidates: seq<Entry>, limits: Limits, cumulative: nat)
    requires limits.sync.Some? ==> cumulative < limits.sync.value * 1000
    ensures var offered := BuildOffer(s, p, candidates, limits, cumulative).1;
      && (limits.sync.Some? ==> cumulative + TransferSize(offered) < limits.sync.value * 1000)
      && (forall e :: e in offered ==> e in candidates && !TooLarge(e, limits))
    decreases |candidates|
  {
    if candidates != [] {
      var e, rest := candidates[0], candidates[1..];
      hide MarkHandled;
      if TooLarge(e, limits) {
        OfferWithinLimits(MarkHandled(s, e.id, p), p, rest, limits, cumulative);
      } else if OverBudget(e, limits, cumulative) {
        OfferWithinLimits(s, p, rest, limits, cumulative);
      } else {
        OfferWithinLimits(s, p, rest, limits, cumulative + e.size + MESSAGE_OVERHEAD);
      }
    }
  }

  function Oversize(candidates: seq<Entry>, limits: Limits): seq<Entry> {
    if candidates == [] then []
    else (if TooLarge(candidates[0], limits) then [candidates[0]] else []) + Oversize(candidates[1..], limits)
  }

  // ---------- steps ----------

  /** A call of `sync` between two of its awaits. */
  datatype Call =
    | Gated(candidates: seq<Entry>)
    | Linking(candidates: seq<Entry>)
    | Awaiting(offer: seq<Tid>)
    | Answered(offer: seq<Tid>, reply: Reply)
    | Sending(offer: seq<Tid>, wanted: seq<Tid>, packed: seq<Tid>)
    | Over

  /** The gates at the head of `sync`; `ready` stands for a usable peering key. */
  function Begin(s: Store, p: Peer, a: LocalPeer, now: int, ready: bool, minCost: int, w: Weight): Call {
    if now < a.nextAttempt || a.phase != Idle || !ready then Over
    else
      var candidates := UnhandledFor(s, p, minCost, w);
      if candidates == [] then Over else Gated(candidates)
  }

  function Establish(a: LocalPeer, now: int): LocalPeer {
    a.(phase := LinkEstablishing, backoff := a.backoff + BACKOFF_STEP, nextAttempt := now + a.backoff + BACKOFF_STEP)
  }

  function Teardown(a: LocalPeer): LocalPeer {
    a.(phase := Idle)
  }

  /** The link is up and identified: offer, if anything is left to offer. */
  function Offer(s: Store, p: Peer, a: LocalPeer, candidates: seq<Entry>, limits: Limits): (Store, LocalPeer, Call) {
    var (s', offered) := BuildOffer(s, p, candidates, limits, OFFER_OVERHEAD);
    var a1 := a.(backoff := 0, nextAttempt := 0);
    if offered == [] then (s', Teardown(a1), Over)
    else (s', a1.(lastOffer := Ids(offered), phase := RequestSent), Awaiting(Ids(offered)))
  }

  /** The reply to this call's offer; `_interpretOfferResponse` reads the offer last made. */
  function TakeReply(s: Store, p: Peer, a: LocalPeer, offer: seq<Tid>, reply: Reply, now: int): (Store, LocalPeer, Call) {
    if reply.Throttled? then (s, Teardown(a.(nextAttempt := now + THROTTLE_SECS)), Over)
    else
      var (s', wanted) := Interpret(s, p, a.lastOffer, reply);
      if wanted == [] then (s', Teardown(a.(offered := a.offered + |offer|)), Over)
      else (s', a.(phase := ResourceTransferring), Sending(offer, wanted, Packed(s', wanted)))
  }

  /** The transfer is complete and proven. */
  function Conclude(s: Store, p: Peer, a: LocalPeer, offer: seq<Tid>, wanted: seq<Tid>): (Store, LocalPeer) {
    (MarkEach(s, p, wanted), Teardown(a.(offered := a.offered + |offer|, outgoing := a.outgoing + |wanted|)))
  }

  /** Attempts at these times that break before the link is up. */
  function BrokenAttempts(a: LocalPeer, nows: seq<int>): LocalPeer {
    if nows == [] then a else Teardown(Establish(BrokenAttempts(a, nows[..|nows| - 1]), nows[|nows| - 1]))
  }

  /** Each of them waits twelve minutes longer than the one before, and the offer made last stays. */
  lemma {:induction false} BackoffGrows(a: LocalPeer, nows: seq<int>)
    ensures var b := BrokenAttempts(a, nows);
      && b.backoff == a.backoff + |nows| * BACKOFF_STEP && b.lastOffer == a.lastOffer
      && (nows != [] ==> b.phase == Idle && b.nextAttempt == nows[|nows| - 1] + a.backoff + |nows| * BACKOFF_STEP)
    decreases |nows|
  {
    if nows != [] {
      BackoffGrows(a, nows[..|nows| - 1]);
    }
  }

  // ---------- runs of two honest nodes ----------

  /**
   This node's store and sync calls with the peer, and the peer; `carried` collects what completed
   transfers carried, `oversize` what was too large to offer, and `remembered` is this node's own dedup
   cache, the gate in front of the one place where its store grows.
   */
  datatype World = World(store: Store, a: LocalPeer, calls: seq<Call>, remote: Remote,
                         carried: set<Tid>, oversize: set<Tid>, remembered: set<Tid>)

  datatype Event =
    | Calls(now: int, ready: bool, minCost: int, w: Weight)
    | Establishes(i: nat, now: int)
    | Offers(i: nat)
    | RemoteReplies(i: nat, now: int)
    | ReplyArrives(i: nat, now: int)
    | Completes(i: nat)
    | Breaks(i: nat)
    | RemoteTakes(tid: Tid, stores: bool)
    | RemoteForgets(tid: Tid)
    | RemoteBusy(throttledUntil: Option<int>, validating: nat, inbound: nat)
    | LocalAdds(e: Entry, w: Weight)
    | LocalDrops(id: Tid)
    | LocalRequeues(id: Tid)
    | LocalForgets(ids: set<Tid>)

  predicate Enabled(world: World, p: Peer, ev: Event) {
    match ev
    case Establishes(i, _) => i < |world.calls| && world.calls[i].Gated?
    case Offers(i) => i < |world.calls| && world.calls[i].Linking?
    case RemoteReplies(i, _) => i < |world.calls| && world.calls[i].Awaiting?
    case ReplyArrives(i, _) => i < |world.calls| && world.calls[i].Answered?
    case Completes(i) => i < |world.calls| && world.calls[i].Sending?
    case Breaks(i) => i < |world.calls| && !world.calls[i].Over?
    case LocalAdds(e, _) => e.id !in world.remembered && p !in e.handled && e.handled !! e.unhandled
    case _ => true
  }

  function Elements(ids: seq<Tid>): set<Tid> {
    set tid | tid in ids
  }

  function Step(world: World, p: Peer, limits: Limits, ev: Event): World
    requires Enabled(world, p, ev)
  {
    match ev
    case Calls(now, ready, minCost, w) =>
      world.(calls := world.calls + [Begin(world.store, p, world.a, now, ready, minCost, w)])
    case Establishes(i, now) =>
      world.(a := Establish(world.a, now), calls := world.calls[i := Linking(world.calls[i].candidates)])
    case Offers(i) =>
      var candidates := world.calls[i].candidates;
      var (s, a, call) := Offer(world.store, p, world.a, candidates, limits);
      world.(store := s, a := a, calls := world.calls[i := call],
             oversize := world.oversize + Elements(Ids(Oversize(candidates, limits))))
    case RemoteReplies(i, now) =>
      var (r, reply) := HandleOffer(world.remote, world.calls[i].offer, now);
      world.(remote := r, calls := world.calls[i := Answered(world.calls[i].offer, reply)])
    case ReplyArrives(i, now) =>
      var (s, a, call) := TakeReply(world.store, p, world.a, world.calls[i].offer, world.calls[i].reply, now);
      world.(store := s, a := a, calls := world.calls[i := call])
    case Completes(i) =>
      var c := world.calls[i];
      var (s, a) := Conclude(world.store, p, world.a, c.offer, c.wanted);
      world.(store := s, a := a, calls := world.calls[i := Over],
             carried := world.carried + Elements(c.packed))
    case Breaks(i) =>
      world.(a := if world.calls[i].Gated? then world.a else Teardown(world.a), calls := world.calls[i := Over])
    case RemoteTakes(tid, stores) =>
      world.(remote := world.remote.(processed := world.remote.processed + {tid}, known := world.remote.known + {tid},
                                     stored := if stores then world.remote.stored + {tid} else world.remote.stored))
    case RemoteForgets(tid) =>
      world.(remote := world.remote.(processed := world.remote.processed - {tid}, stored := world.remote.stored - {tid}))
    case RemoteBusy(throttledUntil, validating, inbound) =>
      world.(remote := world.remote.(throttledUntil := throttledUntil, validating := validating, inbound := inbound))
    case LocalAdds(e, w) => world.(store := Add(world.store, e, w).0, remembered := world.remembered + {e.id})
    case LocalDrops(id) => world.(store := Remove(world.store, id))
    case LocalRequeues(id) => world.(store := MarkUnhandled(world.store, id, p))
    case LocalForgets(ids) => world.(remembered := world.remembered - ids)
  }

  // ---------- soundness ----------

  /** Why a message may count as handled for the peer. */
  predicate Explained(world: World, tid: Tid) {
    tid in world.remote.known || tid in world.carried || tid in world.oversize
  }

  ghost predicate AllExplained(s: Store, p: Peer, why: set<Tid>) {
    forall e :: e in s.entries && p in e.handled ==> e.id in why
  }

  function Reasons(world: World): set<Tid> {
    world.remote.known + world.carried + world.oversize
  }

  function StoredIds(s: Store): set<Tid> {
    set e | e in s.entries :: e.id
  }

  lemma HasIsStored(s: Store, id: Tid)
    ensures Has(s, id) <==> id in StoredIds(s)
  {
    var i := IndexOf(s.entries, id);
    hide IndexOf;
    if i < |s.entries| {
      assert s.entries[i] in s.entries;
    }
  }

  lemma SameIds(s: Store, t: Store)
    requires |s.entries| == |t.entries| && forall i :: 0 <= i < |s.entries| ==> s.entries[i].id == t.entries[i].id
    ensures StoredIds(s) == StoredIds(t)
  {
    forall e | e in s.entries ensures e.id in StoredIds(t) {
      var i :| 0 <= i < |s.entries| && s.entries[i] == e;
      assert t.entries[i] in t.entries;
    }
    forall e | e in t.entries ensures e.id in StoredIds(s) {
      var i :| 0 <= i < |t.entries| && t.entries[i] == e;
      assert s.entries[i] in s.entries;
    }
  }

  /** Marking a message that is not in the store changes nothing, so it needs no reason. */
  lemma MarkExplained(s: Store, p: Peer, id: Tid, why: set<Tid>)
    requires AllExplained(s, p, why) && (id in StoredIds(s) ==> id in why)
    ensures AllExplained(MarkHandled(s, id, p), p, why)
    ensures StoredIds(MarkHandled(s, id, p)) == StoredIds(s)
  {
    HasIsStored(s, id);
    SameIds(s, MarkHandled(s, id, p));
    hide StoredIds, IndexOf;
  }

  lemma {:induction false} MarkEachExplained(s: Store, p: Peer, ids: seq<Tid>, why: set<Tid>)
    requires AllExplained(s, p, why) && forall tid :: tid in ids && tid in StoredIds(s) ==> tid in why
    ensures AllExplained(MarkEach(s, p, ids), p, why)
    decreases |ids|
  {
    hide AllExplained, MarkHandled, StoredIds;
    if ids != [] {
      MarkExplained(s, p, ids[0], why);
      MarkEachExplained(MarkHandled(s, ids[0], p), p, ids[1..], why);
    }
  }

  lemma MoreReasons(s: Store, p: Peer, why: set<Tid>, more: set<Tid>)
    requires AllExplained(s, p, why) && why <= more
    ensures AllExplained(s, p, more)
  {
  }

  ghost predicate Live(c: Call) {
    !c.Over?
  }

  /** What the honest reply says about the offer. */
  ghost predicate ReplyKnown(offer: seq<Tid>, reply: Reply, known: set<Tid>) {
    match reply
    case HasAll => forall tid :: tid in offer ==> tid in known
    case WantsSome(ids) => forall tid :: tid in offer && tid !in ids ==> tid in known
    case _ => true
  }

  ghost predicate CallKept(c: Call, a: LocalPeer, known: set<Tid>) {
    match c
    case Gated(_) => true
    case Over => true
    case Linking(_) => a.phase != Idle
    case Sending(_, _, _) => a.phase != Idle
    case Awaiting(offer) => a.phase != Idle && a.lastOffer == offer
    case Answered(offer, reply) => a.phase != Idle && a.lastOffer == offer && ReplyKnown(offer, reply, known)
  }

  ghost predicate OneLive(calls: seq<Call>) {
    forall i, j :: 0 <= i < j < |calls| ==> calls[i].Over? || calls[j].Over?
  }

  ghost predicate Kept(world: World, p: Peer) {
    && AllExplained(world.store, p, Reasons(world))
    && world.remote.stored <= world.remote.known && world.remote.processed <= world.remote.known
    && OneLive(world.calls) && CallsAreKept(world.calls, world.a, world.remote.known)
  }

  ghost predicate CallsAreKept(calls: seq<Call>, a: LocalPeer, known: set<Tid>) {
    forall i :: 0 <= i < |calls| ==> CallKept(calls[i], a, known)
  }

  /** A call is not made while an earlier one has passed the gates but not yet set the phase. */
  predicate NoOverlap(world: World, ev: Event) {
    ev.Calls? ==> forall i :: 0 <= i < |world.calls| ==> !world.calls[i].Gated?
  }

  lemma ReplyIsKnown(r: Remote, offer: seq<Tid>, now: int)
    requires r.stored <= r.known && r.processed <= r.known
    ensures ReplyKnown(offer, HandleOffer(r, offer, now).1, r.known)
  {
    LackingIsSubset(r, offer);
    hide Lacking;
  }

  lemma CallsKept(world: World, p: Peer, limits: Limits, ev: Event)
    requires Kept(world, p) && ev.Calls? && Enabled(world, p, ev) && NoOverlap(world, ev)
    ensures Kept(Step(world, p, limits, ev), p)
  {
    hide UnhandledFor, AllExplained;
    var c := Begin(world.store, p, world.a, ev.now, ev.ready, ev.minCost, ev.w);
    if c.Gated? {
      forall i | 0 <= i < |world.calls| ensures world.calls[i].Over? {
        assert CallKept(world.calls[i], world.a, world.remote.known);
      }
    }
  }

  /** One call moves on; the others are over. */
  lemma CallMoves(world: World, i: nat, c: Call, a: LocalPeer, known: set<Tid>)
    requires OneLive(world.calls) && i < |world.calls| && Live(world.calls[i]) && CallKept(c, a, known)
    ensures OneLive(world.calls[i := c]) && CallsAreKept(world.calls[i := c], a, known)
  {
  }

  lemma OffersKept(world: World, p: Peer, limits: Limits, i: nat)
    requires Kept(world, p) && Enabled(world, p, Offers(i))
    ensures Kept(Step(world, p, limits, Offers(i)), p)
  {
    hide AllExplained, MarkEach, BuildOffer;
    var candidates := world.calls[i].candidates;
    var over := Ids(Oversize(candidates, limits));
    OfferMarks(world.store, p, candidates, limits);
    MoreReasons(world.store, p, Reasons(world), Reasons(world) + Elements(over));
    MarkEachExplained(world.store, p, over, Reasons(world) + Elements(over));
    var (s, a, call) := Offer(world.store, p, world.a, candidates, limits);
    CallMoves(world, i, call, a, world.remote.known);
    var next := Step(world, p, limits, Offers(i));
    assert Reasons(next) == Reasons(world) + Elements(over);
  }

  /** An offer marks exactly the candidates above the peer's transfer limit. */
  lemma {:induction false} OfferMarksFrom(s: Store, p: Peer, candidates: seq<Entry>, limits: Limits, cumulative: nat)
    ensures BuildOffer(s, p, candidates, limits, cumulative).0 == MarkEach(s, p, Ids(Oversize(candidates, limits)))
    decreases |candidates|
  {
    if candidates != [] {
      var e, rest := candidates[0], candidates[1..];
      hide MarkHandled, TooLarge, OverBudget;
      if TooLarge(e, limits) {
        OfferMarksFrom(MarkHandled(s, e.id, p), p, rest, limits, cumulative);
        assert Ids([e] + Oversize(rest, limits))[1..] == Ids(Oversize(rest, limits));
      } else {
        assert Oversize(candidates, limits) == Oversize(rest, limits);
        if OverBudget(e, limits, cumulative) {
          OfferMarksFrom(s, p, rest, limits, cumulative);
        } else {
          OfferMarksFrom(s, p, rest, limits, cumulative + e.size + MESSAGE_OVERHEAD);
        }
      }
    }
  }

  lemma OfferMarks(s: Store, p: Peer, candidates: seq<Entry>, limits: Limits)
    ensures BuildOffer(s, p, candidates, limits, OFFER_OVERHEAD).0 == MarkEach(s, p, Ids(Oversize(candidates, limits)))
  {
    OfferMarksFrom(s, p, candidates, limits, OFFER_OVERHEAD);
  }

  lemma ReplyArrivesKept(world: World, p: Peer, limits: Limits, i: nat, now: int)
    requires Kept(world, p) && Enabled(world, p, ReplyArrives(i, now))
    ensures Kept(Step(world, p, limits, ReplyArrives(i, now)), p)
  {
    hide AllExplained, MarkEach, Packed;
    var c := world.calls[i];
    assert CallKept(c, world.a, world.remote.known);
    match c.reply {
      case HasAll => MarkEachExplained(world.store, p, c.offer, Reasons(world));
      case WantsSome(ids) =>
        DeclinedMeans(c.offer, ids);
        MarkEachExplained(world.store, p, Declined(c.offer, ids), Reasons(world));
      case _ =>
    }
    hide Declined;
    var (s, a, call) := TakeReply(world.store, p, world.a, c.offer, c.reply, now);
    CallMoves(world, i, call, a, world.remote.known);
  }

  lemma CompletesKept(world: World, p: Peer, limits: Limits, i: nat)
    requires Kept(world, p) && Memory(world) && Enabled(world, p, Completes(i))
    ensures Kept(Step(world, p, limits, Completes(i)), p)
  {
    hide AllExplained, MarkEach, StoredIds;
    assert CallHolds(world.calls[i], StoredIds(world.store), world.remembered);
    var c := world.calls[i];
    var next := Step(world, p, limits, Completes(i));
    MoreReasons(world.store, p, Reasons(world), Reasons(next));
    MarkEachExplained(world.store, p, c.wanted, Reasons(next));
    CallMoves(world, i, Over, next.a, world.remote.known);
  }

  lemma AddsKept(world: World, p: Peer, limits: Limits, e: Entry, w: Weight)
    requires Kept(world, p) && Enabled(world, p, LocalAdds(e, w)) && Valid(world.store)
    ensures Kept(Step(world, p, limits, LocalAdds(e, w)), p)
  {
    hide Add, Valid, OneLive, CallsAreKept;
    forall x | x in Add(world.store, e, w).0.entries ensures x in world.store.entries || x == e {
      AddedFrom(world.store, e, w, x);
    }
  }

  lemma DropsKept(world: World, p: Peer, limits: Limits, id: Tid)
    requires Kept(world, p) && Valid(world.store)
    ensures Kept(Step(world, p, limits, LocalDrops(id)), p)
  {
    RemoveKeeps(world.store, id);
    hide Remove, Valid, OneLive, CallsAreKept;
  }

  lemma RequeuesKept(world: World, p: Peer, limits: Limits, id: Tid)
    requires Kept(world, p)
    ensures Kept(Step(world, p, limits, LocalRequeues(id)), p)
  {
    hide OneLive, CallsAreKept;
  }

  /** The peer's own steps: what it knows only grows. A prune here touches nothing the invariant names. */
  lemma RemoteKept(world: World, p: Peer, limits: Limits, ev: Event)
    requires Kept(world, p) && Enabled(world, p, ev)
    requires ev.RemoteTakes? || ev.RemoteForgets? || ev.RemoteBusy? || ev.LocalForgets?
    ensures Kept(Step(world, p, limits, ev), p)
  {
    hide AllExplained;
    var next := Step(world, p, limits, ev);
    MoreReasons(world.store, p, Reasons(world), Reasons(next));
    forall i | 0 <= i < |world.calls| ensures CallKept(world.calls[i], world.a, next.remote.known) {
      assert CallKept(world.calls[i], world.a, world.remote.known);
    }
  }

  lemma StepKept(world: World, p: Peer, limits: Limits, ev: Event)
    requires Kept(world, p) && Memory(world) && Valid(world.store) && Enabled(world, p, ev) && NoOverlap(world, ev)
    ensures Kept(Step(world, p, limits, ev), p)
  {
    match ev
    case Calls(_, _, _, _) => CallsKept(world, p, limits, ev);
    case Establishes(i, now) => CallMoves(world, i, Linking(world.calls[i].candidates), Establish(world.a, now), world.remote.known);
    case Offers(i) => OffersKept(world, p, limits, i);
    case RemoteReplies(i, now) => RemoteRepliesKept(world, p, limits, i, now);
    case ReplyArrives(i, now) => ReplyArrivesKept(world, p, limits, i, now);
    case Completes(i) => CompletesKept(world, p, limits, i);
    case Breaks(i) => CallMoves(world, i, Over, Step(world, p, limits, ev).a, world.remote.known);
    case LocalAdds(e, w) => AddsKept(world, p, limits, e, w);
    case LocalDrops(id) => DropsKept(world, p, limits, id);
    case LocalRequeues(id) => RequeuesKept(world, p, limits, id);
    case _ => RemoteKept(world, p, limits, ev);
  }

  lemma RemoteRepliesKept(world: World, p: Peer, limits: Limits, i: nat, now: int)
    requires Kept(world, p) && Enabled(world, p, RemoteReplies(i, now))
    ensures Kept(Step(world, p, limits, RemoteReplies(i, now)), p)
  {
    var c := world.calls[i];
    assert CallKept(c, world.a, world.remote.known);
    ReplyIsKnown(world.remote, c.offer, now);
    var (r, reply) := HandleOffer(world.remote, c.offer, now);
    CallMoves(world, i, Answered(c.offer, reply), world.a, world.remote.known);
    hide AllExplained, Lacking, ReplyKnown;
  }

  // ---------- what this node has ever stored does not come back ----------

  /** The messages a call may still mark. */
  function CallIds(c: Call): set<Tid> {
    match c
    case Gated(candidates) => Elements(Ids(candidates))
    case Linking(candidates) => Elements(Ids(candidates))
    case Awaiting(offer) => Elements(offer)
    case Answered(offer, _) => Elements(offer)
    case Sending(_, wanted, _) => Elements(wanted)
    case Over => {}
  }

  /** What a call names is remembered, and what a transfer lacks is not in the store. */
  ghost predicate CallHolds(c: Call, stored: set<Tid>, remembered: set<Tid>) {
    && CallIds(c) <= remembered
    && (c.Answered? && c.reply.WantsSome? ==> Elements(c.reply.ids) <= Elements(c.offer))
    && (c.Sending? ==> forall tid :: tid in c.wanted && tid in stored ==> tid in c.packed)
  }

  ghost predicate CallsHold(calls: seq<Call>, stored: set<Tid>, remembered: set<Tid>) {
    forall i :: 0 <= i < |calls| ==> CallHolds(calls[i], stored, remembered)
  }

  ghost predicate Memory(world: World) {
    StoredIds(world.store) <= world.remembered && CallsHold(world.calls, StoredIds(world.store), world.remembered)
  }

  /** A dedup prune drops only ids that are neither in the store nor named by a call. */
  ghost predicate SafePrune(world: World, ev: Event) {
    ev.LocalForgets? ==>
      ev.ids !! StoredIds(world.store) && forall i :: 0 <= i < |world.calls| ==> ev.ids !! CallIds(world.calls[i])
  }

  /** Only ids that were not remembered come into the store. */
  lemma HoldAcross(calls: seq<Call>, stored: set<Tid>, remembered: set<Tid>, stored': set<Tid>, remembered': set<Tid>)
    requires CallsHold(calls, stored, remembered) && stored' * remembered <= stored
    requires forall i :: 0 <= i < |calls| ==> CallIds(calls[i]) <= remembered'
    ensures CallsHold(calls, stored', remembered')
  {
    forall i | 0 <= i < |calls| ensures CallHolds(calls[i], stored', remembered') {
      assert CallHolds(calls[i], stored, remembered);
    }
  }

  lemma OneHolds(calls: seq<Call>, i: nat, c: Call, stored: set<Tid>, remembered: set<Tid>)
    requires i < |calls| && CallsHold(calls, stored, remembered) && CallHolds(c, stored, remembered)
    ensures CallsHold(calls[i := c], stored, remembered)
  {
    hide CallHolds;
  }

  lemma {:induction false} MarkEachIds(s: Store, p: Peer, ids: seq<Tid>)
    ensures StoredIds(MarkEach(s, p, ids)) == StoredIds(s)
    decreases |ids|
  {
    if ids != [] {
      SameIds(s, MarkHandled(s, ids[0], p));
      hide MarkHandled, StoredIds;
      MarkEachIds(MarkHandled(s, ids[0], p), p, ids[1..]);
    }
  }

  lemma {:induction false} NeedingAreStored(es: seq<Entry>, p: Peer, minCost: int)
    ensures forall e :: e in Needing(es, p, minCost) ==> e in es
    decreases |es|
  {
    if es != [] {
      NeedingAreStored(es[..|es| - 1], p, minCost);
    }
  }

  lemma CandidatesAreStored(s: Store, p: Peer, minCost: int, w: Weight)
    ensures Elements(Ids(UnhandledFor(s, p, minCost, w))) <= StoredIds(s)
  {
    var es := Needing(s.entries, p, minCost);
    NeedingAreStored(s.entries, p, minCost);
    RankedAll(es, w);
    hide Needing, ByWeight;
    var ranked := ByWeight(es, w);
    forall i | 0 <= i < |ranked| ensures ranked[i].id in StoredIds(s) {
      assert ranked[i] in multiset(ranked);
      assert ranked[i] in multiset(es);
    }
  }

  lemma {:induction false} OfferedAreCandidates(s: Store, p: Peer, candidates: seq<Entry>, limits: Limits, cumulative: nat)
    ensures Elements(Ids(BuildOffer(s, p, candidates, limits, cumulative).1)) <= Elements(Ids(candidates))
    decreases |candidates|
  {
    if candidates != [] {
      var e, rest := candidates[0], candidates[1..];
      TailIds(candidates);
      hide MarkHandled, TooLarge, OverBudget, Elements, Ids;
      if TooLarge(e, limits) {
        OfferedAreCandidates(MarkHandled(s, e.id, p), p, rest, limits, cumulative);
      } else if OverBudget(e, limits, cumulative) {
        OfferedAreCandidates(s, p, rest, limits, cumulative);
      } else {
        OfferedAreCandidates(s, p, rest, limits, cumulative + e.size + MESSAGE_OVERHEAD);
        var offered := BuildOffer(s, p, rest, limits, cumulative + e.size + MESSAGE_OVERHEAD).1;
        assert ([e] + offered)[1..] == offered;
        TailIds([e] + offered);
      }
    }
  }

  lemma TailIds(es: seq<Entry>)
    requires es != []
    ensures Elements(Ids(es)) == {es[0].id} + Elements(Ids(es[1..]))
  {
    assert Ids(es)[1..] == Ids(es[1..]);
    assert Ids(es) == [es[0].id] + Ids(es)[1..];
  }

  lemma {:induction false} PackedHas(s: Store, wanted: seq<Tid>, tid: Tid)
    requires tid in wanted && tid in StoredIds(s)
    ensures tid in Packed(s, wanted)
    decreases |wanted|
  {
    HasIsStored(s, wanted[0]);
    hide Has, StoredIds;
    if tid != wanted[0] {
      assert tid in wanted[1..];
      PackedHas(s, wanted[1..], tid);
    }
  }

  lemma CallsRemembered(world: World, p: Peer, limits: Limits, ev: Event)
    requires Memory(world) && ev.Calls? && Enabled(world, p, ev)
    ensures Memory(Step(world, p, limits, ev))
  {
    hide StoredIds, CallHolds, UnhandledFor;
    var c := Begin(world.store, p, world.a, ev.now, ev.ready, ev.minCost, ev.w);
    CandidatesAreStored(world.store, p, ev.minCost, ev.w);
    BegunHolds(c, StoredIds(world.store), world.remembered);
  }

  lemma BegunHolds(c: Call, stored: set<Tid>, remembered: set<Tid>)
    requires c.Over? || c.Gated?
    requires c.Gated? ==> Elements(Ids(c.candidates)) <= stored
    requires stored <= remembered
    ensures CallHolds(c, stored, remembered)
  {
  }

  lemma EstablishesRemembered(world: World, p: Peer, limits: Limits, i: nat, now: int)
    requires Memory(world) && Enabled(world, p, Establishes(i, now))
    ensures Memory(Step(world, p, limits, Establishes(i, now)))
  {
    assert CallHolds(world.calls[i], StoredIds(world.store), world.remembered);
    OneHolds(world.calls, i, Linking(world.calls[i].candidates), StoredIds(world.store), world.remembered);
    hide StoredIds;
  }

  lemma OffersRemembered(world: World, p: Peer, limits: Limits, i: nat)
    requires Memory(world) && Enabled(world, p, Offers(i))
    ensures Memory(Step(world, p, limits, Offers(i)))
  {
    hide StoredIds, BuildOffer, MarkEach, Oversize, CallsHold;
    var candidates := world.calls[i].candidates;
    assert CallHolds(world.calls[i], StoredIds(world.store), world.remembered) by {
      CallsHoldAt(world.calls, i, StoredIds(world.store), world.remembered);
    }
    OfferMarks(world.store, p, candidates, limits);
    MarkEachIds(world.store, p, Ids(Oversize(candidates, limits)));
    OfferedAreCandidates(world.store, p, candidates, limits, OFFER_OVERHEAD);
    var (_, _, call) := Offer(world.store, p, world.a, candidates, limits);
    OneHolds(world.calls, i, call, StoredIds(world.store), world.remembered);
  }

  lemma CallsHoldAt(calls: seq<Call>, i: nat, stored: set<Tid>, remembered: set<Tid>)
    requires i < |calls| && CallsHold(calls, stored, remembered)
    ensures CallHolds(calls[i], stored, remembered)
  {
  }

  lemma RepliesRemembered(world: World, p: Peer, limits: Limits, i: nat, now: int)
    requires Memory(world) && Enabled(world, p, RemoteReplies(i, now))
    ensures Memory(Step(world, p, limits, RemoteReplies(i, now)))
  {
    hide StoredIds, CallsHold, Lacking;
    var offer := world.calls[i].offer;
    CallsHoldAt(world.calls, i, StoredIds(world.store), world.remembered);
    LackingIsSubset(world.remote, offer);
    var (_, reply) := HandleOffer(world.remote, offer, now);
    OneHolds(world.calls, i, Answered(offer, reply), StoredIds(world.store), world.remembered);
  }

  lemma ReplyArrivesRemembered(world: World, p: Peer, limits: Limits, i: nat, now: int)
    requires Kept(world, p) && Memory(world) && Enabled(world, p, ReplyArrives(i, now))
    ensures Memory(Step(world, p, limits, ReplyArrives(i, now)))
  {
    var c := world.calls[i];
    assert CallKept(c, world.a, world.remote.known);
    hide StoredIds, CallsHold, Kept, MarkEach, Packed, Declined;
    CallsHoldAt(world.calls, i, StoredIds(world.store), world.remembered);
    var (s, _, call) := TakeReply(world.store, p, world.a, c.offer, c.reply, now);
    MarkEachIds(world.store, p, c.offer);
    if c.reply.WantsSome? {
      MarkEachIds(world.store, p, Declined(c.offer, c.reply.ids));
    }
    assert StoredIds(s) == StoredIds(world.store);
    if call.Sending? {
      forall tid | tid in call.wanted && tid in StoredIds(s) ensures tid in call.packed {
        PackedHas(s, call.wanted, tid);
      }
    }
    OneHolds(world.calls, i, call, StoredIds(world.store), world.remembered);
  }

  lemma CompletesRemembered(world: World, p: Peer, limits: Limits, i: nat)
    requires Memory(world) && Enabled(world, p, Completes(i))
    ensures Memory(Step(world, p, limits, Completes(i)))
  {
    MarkEachIds(world.store, p, world.calls[i].wanted);
    OneHolds(world.calls, i, Over, StoredIds(world.store), world.remembered);
    hide StoredIds, MarkEach, CallsHold;
  }

  /** A change of the store alone that lets in only what was not remembered. */
  lemma StoreRemembered(world: World, next: World)
    requires Memory(world) && next.calls == world.calls && world.remembered <= next.remembered
    requires StoredIds(next.store) <= next.remembered && StoredIds(next.store) * world.remembered <= StoredIds(world.store)
    ensures Memory(next)
  {
    hide StoredIds;
    forall i | 0 <= i < |world.calls| ensures CallIds(world.calls[i]) <= next.remembered {
      assert CallHolds(world.calls[i], StoredIds(world.store), world.remembered);
    }
    hide CallIds, CallHolds;
    HoldAcross(world.calls, StoredIds(world.store), world.remembered, StoredIds(next.store), next.remembered);
  }

  lemma AddedIds(s: Store, e: Entry, w: Weight)
    requires Valid(s) && e.handled !! e.unhandled
    ensures StoredIds(Add(s, e, w).0) <= StoredIds(s) + {e.id}
  {
    hide Valid, Add;
    forall x | x in Add(s, e, w).0.entries ensures x in s.entries || x == e {
      AddedFrom(s, e, w, x);
    }
  }

  lemma AddsRemembered(world: World, p: Peer, limits: Limits, e: Entry, w: Weight)
    requires Memory(world) && Valid(world.store) && Enabled(world, p, LocalAdds(e, w))
    ensures Memory(Step(world, p, limits, LocalAdds(e, w)))
  {
    hide Valid, Add, StoredIds, CallsHold;
    AddedIds(world.store, e, w);
    StoreRemembered(world, Step(world, p, limits, LocalAdds(e, w)));
  }

  lemma DropsRemembered(world: World, p: Peer, limits: Limits, id: Tid)
    requires Memory(world) && Valid(world.store)
    ensures Memory(Step(world, p, limits, LocalDrops(id)))
  {
    RemoveKeeps(world.store, id);
    hide Valid, Remove, CallsHold;
    StoreRemembered(world, Step(world, p, limits, LocalDrops(id)));
  }

  lemma RequeuesRemembered(world: World, p: Peer, limits: Limits, id: Tid)
    requires Memory(world)
    ensures Memory(Step(world, p, limits, LocalRequeues(id)))
  {
    SameIds(world.store, MarkUnhandled(world.store, id, p));
    hide MarkUnhandled, StoredIds, CallsHold;
    StoreRemembered(world, Step(world, p, limits, LocalRequeues(id)));
  }

  lemma ForgetsRemembered(world: World, p: Peer, limits: Limits, ids: set<Tid>)
    requires Memory(world) && SafePrune(world, LocalForgets(ids))
    ensures Memory(Step(world, p, limits, LocalForgets(ids)))
  {
    hide StoredIds;
    var next := world.remembered - ids;
    forall i | 0 <= i < |world.calls| ensures CallIds(world.calls[i]) <= next {
      assert CallHolds(world.calls[i], StoredIds(world.store), world.remembered);
    }
    hide CallIds, CallHolds;
    HoldAcross(world.calls, StoredIds(world.store), world.remembered, StoredIds(world.store), next);
  }

  lemma StepRemembers(world: World, p: Peer, limits: Limits, ev: Event)
    requires Kept(world, p) && Memory(world) && Valid(world.store) && Enabled(world, p, ev) && SafePrune(world, ev)
    ensures Memory(Step(world, p, limits, ev))
  {
    match ev
    case Calls(_, _, _, _) => CallsRemembered(world, p, limits, ev);
    case Establishes(i, now) => EstablishesRemembered(world, p, limits, i, now);
    case Offers(i) => OffersRemembered(world, p, limits, i);
    case RemoteReplies(i, now) => RepliesRemembered(world, p, limits, i, now);
    case ReplyArrives(i, now) => ReplyArrivesRemembered(world, p, limits, i, now);
    case Completes(i) => CompletesRemembered(world, p, limits, i);
    case Breaks(i) => OneHolds(world.calls, i, Over, StoredIds(world.store), world.remembered);
    case RemoteTakes(_, _) =>
    case RemoteForgets(_) =>
    case RemoteBusy(_, _, _) =>
    case LocalAdds(e, w) => AddsRemembered(world, p, limits, e, w);
    case LocalDrops(id) => DropsRemembered(world, p, limits, id);
    case LocalRequeues(id) => RequeuesRemembered(world, p, limits, id);
    case LocalForgets(ids) => ForgetsRemembered(world, p, limits, ids);
  }

  lemma {:induction false} MarkEachKeeps(s: Store, p: Peer, ids: seq<Tid>)
    requires Valid(s)
    ensures Valid(MarkEach(s, p, ids))
    decreases |ids|
  {
    hide Valid, MarkHandled;
    if ids != [] {
      MarkKeeps(s, ids[0], p);
      MarkEachKeeps(MarkHandled(s, ids[0], p), p, ids[1..]);
    }
  }

  lemma StepValid(world: World, p: Peer, limits: Limits, ev: Event)
    requires Valid(world.store) && Enabled(world, p, ev)
    ensures Valid(Step(world, p, limits, ev).store)
  {
    hide Valid, Add, Remove, MarkUnhandled, MarkEach, BuildOffer, Declined, Packed, Oversize, HandleOffer, Begin;
    match ev {
      case Offers(i) =>
        OfferMarks(world.store, p, world.calls[i].candidates, limits);
        MarkEachKeeps(world.store, p, Ids(Oversize(world.calls[i].candidates, limits)));
      case ReplyArrives(i, now) =>
        MarkEachKeeps(world.store, p, world.a.lastOffer);
        if world.calls[i].reply.WantsSome? {
          MarkEachKeeps(world.store, p, Declined(world.a.lastOffer, world.calls[i].reply.ids));
        }
      case Completes(i) => MarkEachKeeps(world.store, p, world.calls[i].wanted);
      case LocalAdds(e, w) => AddKeeps(world.store, e, w);
      case LocalDrops(id) => RemoveKeeps(world.store, id);
      case LocalRequeues(id) => MarkKeeps(world.store, id, p);
      case _ =>
    }
  }

  ghost predicate Orderly(world: World, p: Peer, ev: Event) {
    Enabled(world, p, ev) && NoOverlap(world, ev) && SafePrune(world, ev)
  }

  ghost predicate CanRun(world: World, p: Peer, limits: Limits, evs: seq<Event>)
    decreases |evs|
  {
    evs == [] || (Orderly(world, p, evs[0]) && CanRun(Step(world, p, limits, evs[0]), p, limits, evs[1..]))
  }

  ghost function Run(world: World, p: Peer, limits: Limits, evs: seq<Event>): World
    requires CanRun(world, p, limits, evs)
    decreases |evs|
  {
    if evs == [] then world else Run(Step(world, p, limits, evs[0]), p, limits, evs[1..])
  }

  lemma {:induction false} RunKept(world: World, p: Peer, limits: Limits, evs: seq<Event>)
    requires Kept(world, p) && Memory(world) && Valid(world.store) && CanRun(world, p, limits, evs)
    ensures Kept(Run(world, p, limits, evs), p) && Valid(Run(world, p, limits, evs).store)
    decreases |evs|
  {
    hide Kept, Memory, Valid, Step, Enabled, NoOverlap, SafePrune;
    if evs != [] {
      StepKept(world, p, limits, evs[0]);
      StepRemembers(world, p, limits, evs[0]);
      StepValid(world, p, limits, evs[0]);
      RunKept(Step(world, p, limits, evs[0]), p, limits, evs[1..]);
    }
  }

  /**
   Over every run of offers, throttles, errors, broken links and transfers with an honest peer, calls
   not overlapping at the gates and the dedup cache not forgetting what is stored or on offer: a message
   counts as handled for the peer only if the peer had processed it, a completed transfer carried it, or
   it exceeds the peer's transfer limit; and no message is both handled and unhandled.
   */
  lemma HandledIsExplained(world: World, p: Peer, limits: Limits, evs: seq<Event>, e: Entry)
    requires world.calls == [] && Valid(world.store) && AllExplained(world.store, p, {})
    requires StoredIds(world.store) <= world.remembered
    requires world.remote.stored <= world.remote.known && world.remote.processed <= world.remote.known
    requires CanRun(world, p, limits, evs)
    requires e in Run(world, p, limits, evs).store.entries
    ensures var after := Run(world, p, limits, evs);
      && (p in e.handled ==> e.id in after.remote.known || e.id in after.carried || e.id in after.oversize)
      && e.handled !! e.unhandled
  {
    MoreReasons(world.store, p, {}, Reasons(world));
    RunKept(world, p, limits, evs);
    hide Run, CanRun;
  }

  /** What is missing here cannot be marked. */
  lemma MissingIsNotMarked(s: Store, p: Peer, id: Tid)
    requires !Has(s, id)
    ensures MarkEach(s, p, [id]) == s
  {
    assert [id][1..] == [];
    assert MarkEach(s, p, []) == s;
  }

  // ---------- what a reply marks ----------

  lemma {:induction false} IndexAlike(es: seq<Entry>, fs: seq<Entry>, id: Tid)
    requires |es| == |fs| && forall i :: 0 <= i < |es| ==> es[i].id == fs[i].id
    ensures IndexOf(es, id) == IndexOf(fs, id)
    decreases |es|
  {
    if es != [] {
      IndexAlike(es[..|es| - 1], fs[..|fs| - 1], id);
    }
  }

  lemma MarkMarks(s: Store, p: Peer, id: Tid, other: Tid)
    ensures var s' := MarkHandled(s, id, p);
      && (Has(s', other) <==> Has(s, other))
      && (HandledBy(s', other, p) <==> Has(s, other) && (HandledBy(s, other, p) || other == id))
  {
    IndexAlike(s.entries, MarkHandled(s, id, p).entries, other);
    hide IndexOf;
  }

  lemma {:induction false} MarkEachMarks(s: Store, p: Peer, ids: seq<Tid>, id: Tid)
    ensures HandledBy(MarkEach(s, p, ids), id, p) <==> Has(s, id) && (HandledBy(s, id, p) || id in ids)
    decreases |ids|
  {
    if ids != [] {
      MarkMarks(s, p, ids[0], id);
      assert ids == [ids[0]] + ids[1..];
      hide MarkHandled, Has, HandledBy;
      MarkEachMarks(MarkHandled(s, ids[0], p), p, ids[1..], id);
    } else {
      assert MarkEach(s, p, ids) == s;
    }
  }

  /**
   A reply marks exactly the stored messages of the offer last made that it does not ask for, whichever
   call's reply it is: sound for the call that made that offer, and for no other.
   */
  lemma ReplyMarks(world: World, p: Peer, limits: Limits, i: nat, now: int, id: Tid)
    requires Enabled(world, p, ReplyArrives(i, now))
    ensures var reply := world.calls[i].reply;
      HandledBy(Step(world, p, limits, ReplyArrives(i, now)).store, id, p) <==>
        || HandledBy(world.store, id, p)
        || (Has(world.store, id) && id in world.a.lastOffer && (reply.HasAll? || (reply.WantsSome? && id !in reply.ids)))
  {
    var offer, reply := world.a.lastOffer, world.calls[i].reply;
    MarkEachMarks(world.store, p, offer, id);
    if reply.WantsSome? {
      DeclinedMeans(offer, reply.ids);
      MarkEachMarks(world.store, p, Declined(offer, reply.ids), id);
    }
    assert HandledBy(world.store, id, p) ==> Has(world.store, id);
    hide MarkEach, Declined, Has, HandledBy, Packed;
  }

  /** A completed transfer marks exactly the stored messages that were wanted. */
  lemma CompletionMarks(world: World, p: Peer, limits: Limits, i: nat, id: Tid)
    requires Enabled(world, p, Completes(i))
    ensures HandledBy(Step(world, p, limits, Completes(i)).store, id, p)
       <==> HandledBy(world.store, id, p) || (Has(world.store, id) && id in world.calls[i].wanted)
  {
    MarkEachMarks(world.store, p, world.calls[i].wanted, id);
    assert HandledBy(world.store, id, p) ==> Has(world.store, id);
    hide MarkEach, Has, HandledBy;
  }

  // ---------- why calls must not overlap ----------

  function Plain(id: Tid, p: Peer): Entry {
    Entry(id, [], [], 1, 0, 0, {}, {p})
  }

  predicate Possible(world: World, p: Peer, limits: Limits, evs: seq<Event>)
    decreases |evs|
  {
    evs == [] || (Enabled(world, p, evs[0]) && Possible(Step(world, p, limits, evs[0]), p, limits, evs[1..]))
  }

  function Result(world: World, p: Peer, limits: Limits, evs: seq<Event>): World
    requires Possible(world, p, limits, evs)
    decreases |evs|
  {
    if evs == [] then world else Result(Step(world, p, limits, evs[0]), p, limits, evs[1..])
  }

  lemma {:induction false} OneMore(world: World, p: Peer, limits: Limits, evs: seq<Event>, ev: Event)
    requires Possible(world, p, limits, evs) && Enabled(Result(world, p, limits, evs), p, ev)
    ensures Possible(world, p, limits, evs + [ev])
    ensures Result(world, p, limits, evs + [ev]) == Step(Result(world, p, limits, evs), p, limits, ev)
    decreases |evs|
  {
    hide Enabled, Step;
    if evs == [] {
      assert [ev][1..] == [];
    } else {
      assert (evs + [ev])[1..] == evs[1..] + [ev];
      OneMore(Step(world, p, limits, evs[0]), p, limits, evs[1..], ev);
    }
  }

  lemma OneCandidate(e: Entry, p: Peer, w: Weight)
    requires p in e.unhandled && e.stampValue >= 0
    ensures UnhandledFor(Store([e], e.size, None), p, 0, w) == [e]
  {
    assert [e][..0] == [];
    assert Needing([e], p, 0) == [e];
    assert ByWeight([e], w) == InsertByWeight(e, [], w) == [e];
  }

  lemma TwoCandidates(e: Entry, f: Entry, total: int, p: Peer, w: Weight)
    requires p in e.unhandled && e.stampValue >= 0 && p in f.unhandled && f.stampValue >= 0 && w(e) <= w(f)
    ensures UnhandledFor(Store([e, f], total, None), p, 0, w) == [e, f]
  {
    assert [e][..0] == [] && [e, f][..1] == [e];
    assert Needing([e], p, 0) == [e];
    assert Needing([e, f], p, 0) == [e, f];
    assert ByWeight([e], w) == [e];
  }

  lemma OffersOne(s: Store, p: Peer, e: Entry, cumulative: nat)
    ensures BuildOffer(s, p, [e], Limits(None, None), cumulative) == (s, [e])
  {
    assert [e][1..] == [];
    assert BuildOffer(s, p, [e][1..], Limits(None, None), cumulative + e.size + MESSAGE_OVERHEAD) == (s, []);
    assert [e] + [] == [e];
  }

  lemma NoneOversize(e: Entry, f: Entry)
    ensures Oversize([e], Limits(None, None)) == [] && Oversize([e, f], Limits(None, None)) == []
  {
    assert [e][1..] == [] && [e, f][1..] == [f] && [f][1..] == [];
    assert Oversize([f], Limits(None, None)) == [];
  }

  lemma OffersTwo(s: Store, p: Peer, e: Entry, f: Entry)
    ensures BuildOffer(s, p, [e, f], Limits(None, None), OFFER_OVERHEAD) == (s, [e, f])
  {
    assert [e, f][1..] == [f] && [e] + [f] == [e, f];
    OffersOne(s, p, f, OFFER_OVERHEAD + e.size + MESSAGE_OVERHEAD);
  }

  lemma TwoMarked(e: Entry, f: Entry, total: int, p: Peer)
    requires e.id != f.id
    ensures HandledBy(MarkEach(Store([e, f], total, None), p, [e.id, f.id]), f.id, p)
  {
    var s := Store([e, f], total, None);
    FirstAt(s.entries, e.id, 0);
    var s1 := MarkHandled(s, e.id, p);
    FirstAt(s1.entries, f.id, 1);
    var s2 := MarkHandled(s1, f.id, p);
    FirstAt(s2.entries, f.id, 1);
    assert [e.id, f.id][1..] == [f.id] && [f.id][1..] == [];
    assert MarkEach(s, p, [e.id, f.id]) == MarkEach(s1, p, [f.id]) == s2;
  }

  lemma FirstAt(es: seq<Entry>, id: Tid, i: nat)
    requires i < |es| && es[i].id == id && forall k :: 0 <= k < i ==> es[k].id != id
    ensures IndexOf(es, id) == i
  {
    hide IndexOf;
  }

  lemma NotThere(es: seq<Entry>, id: Tid)
    requires forall k :: 0 <= k < |es| ==> es[k].id != id
    ensures IndexOf(es, id) == |es|
  {
    hide IndexOf;
  }

  /** Both calls have passed the gates. */
  lemma BothGated(p: Peer) returns (evs: seq<Event>)
    ensures Possible(OverlapStart(p), p, Limits(None, None), evs)
    ensures Result(OverlapStart(p), p, Limits(None, None), evs)
      == OverlapStart(p).(calls := [Gated([Plain([1], p)]), Gated([Plain([1], p), Plain([2], p)])],
                          store := Store([Plain([1], p), Plain([2], p)], 2, None), remembered := {[1], [2]})
  {
    var limits, w: Weight := Limits(None, None), e => 0.0;
    var e, f := Plain([1], p), Plain([2], p);
    var w0 := OverlapStart(p);
    OneCandidate(e, p, w);
    evs := [];
    OneMore(w0, p, limits, evs, Calls(0, true, 0, w));
    evs := evs + [Calls(0, true, 0, w)];
    var w1 := w0.(calls := [Gated([e])]);
    assert Result(w0, p, limits, evs) == w1;
    NotThere([e], [2]);
    OneMore(w0, p, limits, evs, LocalAdds(f, w));
    evs := evs + [LocalAdds(f, w)];
    var w2 := w1.(store := Store([e, f], 2, None), remembered := {[1], [2]});
    assert Result(w0, p, limits, evs) == w2;
    TwoCandidates(e, f, 2, p, w);
    OneMore(w0, p, limits, evs, Calls(0, true, 0, w));
    evs := evs + [Calls(0, true, 0, w)];
  }

  /** The first call has made its offer. */
  lemma FirstOffered(p: Peer) returns (evs: seq<Event>, a: LocalPeer)
    ensures Possible(OverlapStart(p), p, Limits(None, None), evs)
    ensures Result(OverlapStart(p), p, Limits(None, None), evs)
      == OverlapStart(p).(a := a, calls := [Awaiting([[1]]), Gated([Plain([1], p), Plain([2], p)])],
                          store := Store([Plain([1], p), Plain([2], p)], 2, None), remembered := {[1], [2]})
  {
    var limits := Limits(None, None);
    var e, f := Plain([1], p), Plain([2], p);
    var w0 := OverlapStart(p);
    evs := BothGated(p);
    var w3 := Result(w0, p, limits, evs);
    OneMore(w0, p, limits, evs, Establishes(0, 0));
    evs := evs + [Establishes(0, 0)];
    var w4 := w3.(a := Establish(w3.a, 0), calls := [Linking([e]), Gated([e, f])]);
    assert Result(w0, p, limits, evs) == w4;
    OffersOne(w4.store, p, e, OFFER_OVERHEAD);
    NoneOversize(e, f);
    OneMore(w0, p, limits, evs, Offers(0));
    evs := evs + [Offers(0)];
    a := w4.a.(backoff := 0, nextAttempt := 0, lastOffer := [[1]], phase := RequestSent);
    assert Ids([e]) == [[1]];
  }

  /** The two calls up to the first one's answer. */
  lemma FirstAnswered(p: Peer) returns (evs: seq<Event>, a: LocalPeer)
    ensures Possible(OverlapStart(p), p, Limits(None, None), evs)
    ensures Result(OverlapStart(p), p, Limits(None, None), evs)
      == OverlapStart(p).(a := a, calls := [Answered([[1]], HasAll), Gated([Plain([1], p), Plain([2], p)])],
                          store := Store([Plain([1], p), Plain([2], p)], 2, None), remembered := {[1], [2]})
  {
    var limits, w0 := Limits(None, None), OverlapStart(p);
    evs, a := FirstOffered(p);
    var w5 := Result(w0, p, limits, evs);
    assert Lacking(w5.remote, [[1]]) == [] by {
      assert [[1]][..0] == [];
    }
    hide Lacking;
    OneMore(w0, p, limits, evs, RemoteReplies(0, 0));
    evs := evs + [RemoteReplies(0, 0)];
  }

  /**
   The phase is set only after two more awaits behind the gates. When a second call passes the gates in
   between, it replaces the offer that the first call's reply is read against: with an honest peer
   that has message 1 only, message 2 is marked handled although it was never sent.
   */
  lemma OverlapMarksUnknown(p: Peer) returns (evs: seq<Event>)
    ensures Possible(OverlapStart(p), p, Limits(None, None), evs)
    ensures var after := Result(OverlapStart(p), p, Limits(None, None), evs);
      HandledBy(after.store, [2], p) && !Explained(after, [2])
  {
    var limits := Limits(None, None);
    var e, f := Plain([1], p), Plain([2], p);
    var w0 := OverlapStart(p);
    var a;
    evs, a := FirstAnswered(p);
    var w6 := Result(w0, p, limits, evs);
    OneMore(w0, p, limits, evs, Establishes(1, 0));
    evs := evs + [Establishes(1, 0)];
    var w7 := w6.(a := Establish(a, 0), calls := [Answered([[1]], HasAll), Linking([e, f])]);
    assert Result(w0, p, limits, evs) == w7;
    OffersTwo(w7.store, p, e, f);
    OneMore(w0, p, limits, evs, Offers(1));
    evs := evs + [Offers(1)];
    assert Ids([e, f]) == [[1], [2]];
    NoneOversize(e, f);
    var w8 := Result(w0, p, limits, evs);
    assert w8.calls[0] == Answered([[1]], HasAll) && w8.a.lastOffer == [[1], [2]];
    assert w8.store == Store([e, f], 2, None);
    TwoMarked(e, f, 2, p);
    OneMore(w0, p, limits, evs, ReplyArrives(0, 0));
    evs := evs + [ReplyArrives(0, 0)];
  }

  /** An honest peer that has processed message 1 only; message 1 waits for it here. */
  function OverlapStart(p: Peer): World {
    World(Store([Plain([1], p)], 1, None), LocalPeer(Idle, [], 0, 0, 0, 0), [],
          Remote({[1]}, {}, {[1]}, true, None, false, false, 0, 0, 0), {}, {}, {[1]})
  }

  // ---------- why the dedup cache must not forget too early ----------

  /** An honest peer that has nothing; message 1 waits for it here. */
  function PruneStart(p: Peer): World {
    World(Store([Plain([1], p)], 1, None), LocalPeer(Idle, [], 0, 0, 0, 0), [],
          Remote({}, {}, {}, true, None, false, false, 0, 0, 0), {}, {}, {[1]})
  }

  /** The offer of message 1 is out. */
  lemma PrunedOffered(p: Peer) returns (evs: seq<Event>, a: LocalPeer)
    ensures Possible(PruneStart(p), p, Limits(None, None), evs)
    ensures Result(PruneStart(p), p, Limits(None, None), evs) == PruneStart(p).(a := a, calls := [Awaiting([[1]])])
    ensures a.lastOffer == [[1]]
  {
    var limits, w: Weight := Limits(None, None), e => 0.0;
    var e, w0 := Plain([1], p), PruneStart(p);
    OneCandidate(e, p, w);
    evs := [];
    OneMore(w0, p, limits, evs, Calls(0, true, 0, w));
    evs := evs + [Calls(0, true, 0, w)];
    assert Result(w0, p, limits, evs) == w0.(calls := [Gated([e])]);
    OneMore(w0, p, limits, evs, Establishes(0, 0));
    evs := evs + [Establishes(0, 0)];
    var w2 := w0.(a := Establish(w0.a, 0), calls := [Linking([e])]);
    assert Result(w0, p, limits, evs) == w2;
    OffersOne(w2.store, p, e, OFFER_OVERHEAD);
    NoneOversize(e, e);
    OneMore(w0, p, limits, evs, Offers(0));
    evs := evs + [Offers(0)];
    a := w2.a.(backoff := 0, nextAttempt := 0, lastOffer := [[1]], phase := RequestSent);
    assert Ids([e]) == [[1]];
  }

  /** The peer wants it. */
  lemma PrunedWanted(p: Peer) returns (evs: seq<Event>, a: LocalPeer)
    ensures Possible(PruneStart(p), p, Limits(None, None), evs)
    ensures Result(PruneStart(p), p, Limits(None, None), evs) == PruneStart(p).(a := a, calls := [Answered([[1]], WantsAll)])
    ensures a.lastOffer == [[1]]
  {
    var limits, w0 := Limits(None, None), PruneStart(p);
    evs, a := PrunedOffered(p);
    var w3 := Result(w0, p, limits, evs);
    assert Lacking(w3.remote, [[1]]) == [[1]] by {
      assert [[1]][..0] == [];
      assert Lacking(w3.remote, []) == [];
    }
    hide Lacking;
    OneMore(w0, p, limits, evs, RemoteReplies(0, 0));
    evs := evs + [RemoteReplies(0, 0)];
  }

  /** Meanwhile it was dropped here: the container goes out without it. */
  lemma PrunedSending(p: Peer) returns (evs: seq<Event>, a: LocalPeer)
    ensures Possible(PruneStart(p), p, Limits(None, None), evs)
    ensures Result(PruneStart(p), p, Limits(None, None), evs)
      == PruneStart(p).(a := a, calls := [Sending([[1]], [[1]], [])], store := Store([], 0, None))
  {
    var limits, w0 := Limits(None, None), PruneStart(p);
    evs, a := PrunedWanted(p);
    var w4 := Result(w0, p, limits, evs);
    FirstAt(w4.store.entries, [1], 0);
    OneMore(w0, p, limits, evs, LocalDrops([1]));
    evs := evs + [LocalDrops([1])];
    var w5 := w4.(store := Store([], 0, None));
    assert Result(w0, p, limits, evs) == w5;
    NothingPacked(w5.store);
    hide Packed, Remove;
    OneMore(w0, p, limits, evs, ReplyArrives(0, 0));
    evs := evs + [ReplyArrives(0, 0)];
    a := a.(phase := ResourceTransferring);
  }

  lemma NothingPacked(s: Store)
    requires s.entries == []
    ensures Packed(s, [[1]]) == []
  {
    assert [[1]][1..] == [];
    assert Packed(s, []) == [];
  }

  /** It is forgotten, and comes back. */
  lemma PrunedBack(p: Peer) returns (evs: seq<Event>, a: LocalPeer)
    ensures Possible(PruneStart(p), p, Limits(None, None), evs)
    ensures Result(PruneStart(p), p, Limits(None, None), evs) == PruneStart(p).(a := a, calls := [Sending([[1]], [[1]], [])])
  {
    var limits, w: Weight := Limits(None, None), e => 0.0;
    var e, w0 := Plain([1], p), PruneStart(p);
    evs, a := PrunedSending(p);
    var w6 := Result(w0, p, limits, evs);
    OneMore(w0, p, limits, evs, LocalForgets({[1]}));
    evs := evs + [LocalForgets({[1]})];
    assert Result(w0, p, limits, evs) == w6.(remembered := {});
    NotThere([], [1]);
    OneMore(w0, p, limits, evs, LocalAdds(e, w));
    evs := evs + [LocalAdds(e, w)];
  }

  /**
   A prune of an id that a call still names lets its message come back before the transfer is over: it is
   then marked handled, although the peer never had it and no transfer carried it.
   */
  lemma PruneMarksUncarried(p: Peer) returns (evs: seq<Event>)
    ensures Possible(PruneStart(p), p, Limits(None, None), evs)
    ensures var after := Result(PruneStart(p), p, Limits(None, None), evs);
      HandledBy(after.store, [1], p) && !Explained(after, [1])
  {
    var limits, w0 := Limits(None, None), PruneStart(p);
    var a;
    evs, a := PrunedBack(p);
    var w8 := Result(w0, p, limits, evs);
    FirstAt(w8.store.entries, [1], 0);
    MarkEachMarks(w8.store, p, [[1]], [1]);
    hide MarkEach, HandledBy;
    OneMore(w0, p, limits, evs, Completes(0));
    evs := evs + [Completes(0)];
  }

  // ---------- the program ----------

  /** The state `sync` keeps across its awaits, and the steps between them. */
  class PeerLink {
    const peer: Peer
    const store: Messages
    var limits: Limits
    var phase: Phase
    var lastOffer: seq<Tid>
    var backoff: int
    var nextAttempt: int
    var offered: nat
    var outgoing: nat

    function State(): LocalPeer
      reads this
    {
      LocalPeer(phase, lastOffer, backoff, nextAttempt, offered, outgoing)
    }

    constructor (peer: Peer, store: Messages, limits: Limits)
      ensures this.peer == peer && this.store == store && this.limits == limits
      ensures State() == LocalPeer(Idle, [], 0, 0, 0, 0)
    {
      this.peer, this.store, this.limits := peer, store, limits;
      phase, lastOffer, backoff, nextAttempt, offered, outgoing := Idle, [], 0, 0, 0, 0;
    }

    /** The gates: nothing changes before the link is being established. */
    method TryBegin(now: int, ready: bool, minCost: int, w: Weight) returns (call: Call)
      ensures call == Begin(store.State(), peer, State(), now, ready, minCost, w)
    {
      if now < nextAttempt {
        return Over;
      }
      if phase != Idle {
        return Over;
      }
      if !ready {
        return Over;
      }
      var unhandled := store.ListUnhandled(peer, minCost, w);
      return if unhandled == [] then Over else Gated(unhandled);
    }

    method StartLink(now: int)
      modifies `phase, `backoff, `nextAttempt
      ensures State() == Establish(old(State()), now)
    {
      phase := LinkEstablishing;
      backoff := backoff + BACKOFF_STEP;
      nextAttempt := now + backoff;
    }

    method SelectOffer(candidates: seq<Entry>) returns (picked: seq<Entry>)
      modifies store
      ensures (store.State(), picked) == BuildOffer(old(store.State()), peer, candidates, limits, OFFER_OVERHEAD)
      ensures State() == old(State()) && limits == old(limits)
    {
      picked := [];
      var cumulative: nat := OFFER_OVERHEAD;
      ghost var all := BuildOffer(store.State(), peer, candidates, limits, OFFER_OVERHEAD);
      assert candidates[0..] == candidates && [] + all.1 == all.1;
      for k := 0 to |candidates|
        invariant Behind(picked, BuildOffer(store.State(), peer, candidates[k..], limits, cumulative)) == all
        invariant State() == old(State()) && limits == old(limits)
      {
        OfferStep(store.State(), peer, candidates, k, limits, cumulative, picked);
        hide BuildOffer, Behind, MarkHandled;
        var size := candidates[k].size + MESSAGE_OVERHEAD;
        if limits.transfer.Some? && size > limits.transfer.value * 1000 {
          var known := store.SetHandled(candidates[k].id, peer);
        } else if !(limits.sync.Some? && cumulative + size >= limits.sync.value * 1000) {
          cumulative := cumulative + size;
          picked := picked + [candidates[k]];
        }
      }
      assert candidates[|candidates|..] == [] && picked + [] == picked;
    }

    method MakeOffer(candidates: seq<Entry>) returns (call: Call)
      modifies this, store
      ensures (store.State(), State(), call) == Offer(old(store.State()), peer, old(State()), candidates, old(limits))
      ensures limits == old(limits)
    {
      hide BuildOffer;
      backoff, nextAttempt := 0, 0;
      var picked := SelectOffer(candidates);
      if picked == [] {
        phase := Idle;
        return Over;
      }
      lastOffer := Ids(picked);
      phase := RequestSent;
      return Awaiting(lastOffer);
    }

    method MarkAll(ids: seq<Tid>)
      modifies store
      ensures store.State() == MarkEach(old(store.State()), peer, ids)
    {
      assert ids[0..] == ids;
      for k := 0 to |ids|
        invariant MarkEach(store.State(), peer, ids[k..]) == MarkEach(old(store.State()), peer, ids)
      {
        assert ids[k..][1..] == ids[k + 1..];
        var known := store.SetHandled(ids[k], peer);
      }
    }

    /** `_interpretOfferResponse` */
    method ReadReply(reply: Reply) returns (wanted: seq<Tid>)
      modifies store
      ensures (store.State(), wanted) == Interpret(old(store.State()), peer, lastOffer, reply)
    {
      match reply {
        case HasAll =>
          MarkAll(lastOffer);
          return [];
        case WantsAll =>
          return lastOffer;
        case WantsSome(ids) =>
          MarkAll(Declined(lastOffer, ids));
          return ids;
        case _ =>
          return [];
      }
    }

    method OnReply(offer: seq<Tid>, reply: Reply, now: int) returns (call: Call)
      modifies this, store
      ensures (store.State(), State(), call) == TakeReply(old(store.State()), peer, old(State()), offer, reply, now)
    {
      hide Interpret, Packed;
      if reply == Throttled {
        nextAttempt := now + THROTTLE_SECS;
        phase := Idle;
        return Over;
      }
      var wanted := ReadReply(reply);
      if wanted == [] {
        offered := offered + |offer|;
        phase := Idle;
        return Over;
      }
      phase := ResourceTransferring;
      return Sending(offer, wanted, Packed(store.State(), wanted));
    }

    method OnComplete(offer: seq<Tid>, wanted: seq<Tid>)
      modifies this, store
      ensures (store.State(), State()) == Conclude(old(store.State()), peer, old(State()), offer, wanted)
    {
      hide MarkEach;
      MarkAll(wanted);
      offered := offered + |offer|;
      outgoing := outgoing + |wanted|;
      phase := Idle;
    }
  }

  ghost function Behind(front: seq<Entry>, r: (Store, seq<Entry>)): (Store, seq<Entry>) {
    (r.0, front + r.1)
  }

  lemma OfferStep(s: Store, p: Peer, candidates: seq<Entry>, k: nat, limits: Limits, cumulative: nat, front: seq<Entry>)
    requires k < |candidates|
    ensures var e := candidates[k];
      if TooLarge(e, limits) then
        BuildOffer(s, p, candidates[k..], limits, cumulative)
        == BuildOffer(MarkHandled(s, e.id, p), p, candidates[k + 1..], limits, cumulative)
      else if OverBudget(e, limits, cumulative) then
        BuildOffer(s, p, candidates[k..], limits, cumulative) == BuildOffer(s, p, candidates[k + 1..], limits, cumulative)
      else
        Behind(front, BuildOffer(s, p, candidates[k..], limits, cumulative))
        == Behind(front + [e], BuildOffer(s, p, candidates[k + 1..], limits, cumulative + e.size + MESSAGE_OVERHEAD))
  {
    hide MarkHandled, TooLarge, OverBudget;
    var e := candidates[k];
    assert candidates[k..][1..] == candidates[k + 1..];
    var rest := BuildOffer(s, p, candidates[k + 1..], limits, cumulative + e.size + MESSAGE_OVERHEAD).1;
    assert front + ([e] + rest) == (front + [e]) + rest;
  }
}
