/** A propagation node's side of a sync: answering offers, and ingesting batches that interleave. */
module PropagationNode {
  import opened Wrappers
  import opened MessageStore
  import P = PeerSync

  // ---------- offers ----------

  class OfferGate {
    var stored: set<Tid>
    var processed: set<Tid>
    var throttled: map<Peer, int>
    var validating: nat
    var inbound: nat
    const staticPeers: set<Peer>
    const sequential: bool
    const maxInbound: nat

    /** The node as one peer meets it; `known` is everything it has ever processed. */
    ghost function View(peer: Peer, accepts: bool, known: set<Tid>): P.Remote
      reads this
    {
      P.Remote(stored, processed, known, accepts, if peer in throttled then Some(throttled[peer]) else None,
               peer in staticPeers, sequential, validating, inbound, maxInbound)
    }

    constructor (staticPeers: set<Peer>, sequential: bool, maxInbound: nat)
      ensures stored == {} && processed == {} && throttled == map[] && validating == 0 && inbound == 0
    {
      this.staticPeers, this.sequential, this.maxInbound := staticPeers, sequential, maxInbound;
      stored, processed, throttled, validating, inbound := {}, {}, map[], 0, 0;
    }

    method Throttle(peer: Peer, now: int, seconds: int)
      modifies `throttled
      ensures throttled == old(throttled)[peer := now + seconds]
    {
      throttled := throttled[peer := now + seconds];
    }

    /** `handleOfferRequest`; `accepts` stands for the identity and peering-key checks. */
    method HandleOffer(peer: Peer, accepts: bool, offered: seq<Tid>, now: int) returns (reply: P.Reply)
      modifies `throttled
      ensures forall known ::
        (View(peer, accepts, known), reply) == P.HandleOffer(old(View(peer, accepts, known)), offered, now)
      ensures forall other :: other != peer ==> (other in throttled <==> other in old(throttled))
      ensures forall other :: other != peer && other in throttled ==> throttled[other] == old(throttled)[other]
    {
      if !accepts {
        return P.Refused;
      }
      if peer in throttled {
        if now < throttled[peer] {
          return P.Throttled;
        }
        throttled := throttled - {peer};
      }
      if peer !in staticPeers {
        if sequential && validating > 0 {
          return P.Throttled;
        }
        if maxInbound > 0 && inbound >= maxInbound {
          return P.Throttled;
        }
      }
      var wanted := Want(offered);
      assert forall known :: wanted == P.Lacking(old(View(peer, accepts, known)), offered);
      return if wanted == [] then P.HasAll else if |wanted| == |offered| then P.WantsAll else P.WantsSome(wanted);
    }

    method Want(offered: seq<Tid>) returns (wanted: seq<Tid>)
      ensures forall r: P.Remote :: r.stored == stored && r.processed == processed ==> wanted == P.Lacking(r, offered)
    {
      wanted := [];
      ghost var some := View([], true, {});
      for i := 0 to |offered|
        invariant wanted == P.Lacking(some, offered[..i])
      {
        assert offered[..i + 1][..i] == offered[..i];
        if offered[i] !in stored && offered[i] !in processed {
          wanted := wanted + [offered[i]];
        }
      }
      assert offered[..|offered|] == offered;
      forall r: P.Remote | r.stored == stored && r.processed == processed ensures wanted == P.Lacking(r, offered) {
        LackingAlike(some, r, offered);
      }
    }
  }

  lemma {:induction false} LackingAlike(a: P.Remote, b: P.Remote, offered: seq<Tid>)
    requires a.stored == b.stored && a.processed == b.processed
    ensures P.Lacking(a, offered) == P.Lacking(b, offered)
    decreases |offered|
  {
    if offered != [] {
      LackingAlike(a, b, offered[..|offered| - 1]);
    }
  }

  // ---------- ingesting ----------

  /** A validated blob: for a local destination that can or cannot read it, or to store, unless filtered. */
  datatype Blob = Blob(id: Tid, local: bool, readable: bool, keep: bool)

  /** One call of `ingestBlobs`: the blobs to go, and the one it has claimed and awaits a verdict on. */
  datatype Batch = Batch(todo: seq<Blob>, claimed: Option<Blob>)

  datatype Taken = Stored(id: Tid) | Delivered(id: Tid)

  datatype Ingest = Ingest(stored: set<Tid>, processed: set<Tid>, batches: seq<Batch>, log: seq<Taken>)

  datatype Event =
    | Arrives(blobs: seq<Blob>)
    | Claims(i: nat)
    | Finishes(i: nat)
    | Evicts(id: Tid)
    | Forgets(ids: set<Tid>)

  predicate Enabled(s: Ingest, e: Event) {
    match e
    case Claims(i) => i < |s.batches| && s.batches[i].claimed.None? && s.batches[i].todo != []
    case Finishes(i) => i < |s.batches| && s.batches[i].claimed.Some?
    case _ => true
  }

  /** The check and the claim are one step: nothing is awaited between them. */
  function Claim(s: Ingest, b: Batch): (set<Tid>, Batch)
    requires b.todo != []
  {
    var blob, rest := b.todo[0], b.todo[1..];
    if blob.id in s.stored || blob.id in s.processed then (s.processed, Batch(rest, None))
    else (s.processed + {blob.id}, Batch(rest, Some(blob)))
  }

  /** What becomes of a claimed blob. */
  function Verdict(blob: Blob): Option<Taken> {
    if blob.local then (if blob.readable then Some(Delivered(blob.id)) else None)
    else if blob.keep then Some(Stored(blob.id))
    else None
  }

  function Step(s: Ingest, e: Event): Ingest
    requires Enabled(s, e)
  {
    match e
    case Arrives(blobs) => s.(batches := s.batches + [Batch(blobs, None)])
    case Claims(i) =>
      var (processed, b) := Claim(s, s.batches[i]);
      s.(processed := processed, batches := s.batches[i := b])
    case Finishes(i) =>
      var v := Verdict(s.batches[i].claimed.value);
      s.(batches := s.batches[i := s.batches[i].(claimed := None)],
         stored := if v.Some? && v.value.Stored? then s.stored + {v.value.id} else s.stored,
         log := if v.Some? then s.log + [v.value] else s.log)
    case Evicts(id) => s.(stored := s.stored - {id})
    case Forgets(ids) => s.(processed := s.processed - ids)
  }

  function TimesTaken(log: seq<Taken>, id: Tid): nat {
    if log == [] then 0 else TimesTaken(log[..|log| - 1], id) + if log[|log| - 1].id == id then 1 else 0
  }

  function HasClaimed(b: Batch, id: Tid): nat {
    if b.claimed.Some? && b.claimed.value.id == id then 1 else 0
  }

  function TimesClaimed(bs: seq<Batch>, id: Tid): nat {
    if bs == [] then 0 else TimesClaimed(bs[..|bs| - 1], id) + HasClaimed(bs[|bs| - 1], id)
  }

  lemma {:induction false} ClaimedAfter(bs: seq<Batch>, i: nat, b: Batch, id: Tid)
    requires i < |bs|
    ensures TimesClaimed(bs[i := b], id) == TimesClaimed(bs, id) - HasClaimed(bs[i], id) + HasClaimed(b, id)
    decreases |bs|
  {
    var n := |bs| - 1;
    if i == n {
      assert bs[i := b][..n] == bs[..n];
    } else {
      assert bs[i := b][..n] == bs[..n][i := b];
      ClaimedAfter(bs[..n], i, b, id);
    }
  }

  /** In the store or in the dedup cache: either one keeps a message out. */
  predicate Known(s: Ingest, id: Tid) {
    id in s.stored || id in s.processed
  }

  /** How often a message was taken or is being decided on. */
  function Times(s: Ingest, id: Tid): nat {
    TimesTaken(s.log, id) + TimesClaimed(s.batches, id)
  }

  /** A message is taken or being decided on at most once, and then it is known. */
  ghost predicate OnceEach(s: Ingest) {
    forall id :: Once(s, id)
  }

  ghost predicate Once(s: Ingest, id: Tid) {
    Times(s, id) <= if Known(s, id) then 1 else 0
  }

  /** The last trace of a taken message goes: forgotten while not stored, or evicted while not remembered. */
  predicate Loses(s: Ingest, e: Event, id: Tid) {
    && Times(s, id) > 0
    && ((e.Forgets? && id in e.ids && id in s.processed && id !in s.stored)
        || (e.Evicts? && e.id == id && id in s.stored && id !in s.processed))
  }

  /** The step claims the message for the first time. */
  predicate Takes(s: Ingest, e: Event, id: Tid)
    requires Enabled(s, e)
  {
    e.Claims? && s.batches[e.i].todo[0].id == id && !Known(s, id)
  }

  lemma ArrivesCounts(s: Ingest, blobs: seq<Blob>, id: Tid)
    ensures Times(Step(s, Arrives(blobs)), id) == Times(s, id)
  {
    assert (s.batches + [Batch(blobs, None)])[..|s.batches|] == s.batches;
  }

  lemma FinishesCounts(s: Ingest, i: nat, id: Tid)
    requires Enabled(s, Finishes(i))
    ensures Times(Step(s, Finishes(i)), id) <= Times(s, id)
  {
    ClaimedAfter(s.batches, i, s.batches[i].(claimed := None), id);
    hide TimesClaimed;
    var v := Verdict(s.batches[i].claimed.value);
    if v.Some? {
      assert (s.log + [v.value])[..|s.log|] == s.log;
    }
  }

  lemma ClaimsCounts(s: Ingest, i: nat, id: Tid)
    requires Enabled(s, Claims(i))
    ensures Times(Step(s, Claims(i)), id) == Times(s, id) + if Takes(s, Claims(i), id) then 1 else 0
  {
    ClaimedAfter(s.batches, i, Claim(s, s.batches[i]).1, id);
    hide TimesClaimed, TimesTaken;
  }

  lemma StepCounts(s: Ingest, e: Event, id: Tid)
    requires Enabled(s, e)
    ensures Times(Step(s, e), id) <= Times(s, id) + if Takes(s, e, id) then 1 else 0
  {
    match e
    case Arrives(blobs) => ArrivesCounts(s, blobs, id);
    case Claims(i) => ClaimsCounts(s, i, id);
    case Finishes(i) => FinishesCounts(s, i, id);
    case Evicts(_) =>
    case Forgets(_) =>
  }

  lemma StepOnce(s: Ingest, e: Event, id: Tid)
    requires Enabled(s, e) && !Loses(s, e, id) && Once(s, id)
    ensures Once(Step(s, e), id)
  {
    StepCounts(s, e, id);
    hide Times;
  }

  /** Within a period between two prunes, what was taken in it is remembered. */
  lemma StepRemembers(s: Ingest, e: Event, id: Tid)
    requires Enabled(s, e) && !e.Forgets? && Times(s, id) <= if id in s.processed then 1 else 0
    ensures Times(Step(s, e), id) <= if id in Step(s, e).processed then 1 else 0
  {
    StepCounts(s, e, id);
    hide Times;
  }

  predicate CanRun(s: Ingest, es: seq<Event>)
    decreases |es|
  {
    es == [] || (Enabled(s, es[0]) && CanRun(Step(s, es[0]), es[1..]))
  }

  function Run(s: Ingest, es: seq<Event>): Ingest
    requires CanRun(s, es)
    decreases |es|
  {
    if es == [] then s else Run(Step(s, es[0]), es[1..])
  }

  predicate NeverLost(s: Ingest, es: seq<Event>, id: Tid)
    requires CanRun(s, es)
    decreases |es|
  {
    es == [] || (!Loses(s, es[0], id) && NeverLost(Step(s, es[0]), es[1..], id))
  }

  /**
   However many batches interleave, whatever the store evicts and the dedup cache forgets: as long as
   one of the two still knows it once it is taken, a message is stored or delivered at most once.
   */
  lemma {:induction false} TakenAtMostOnce(s: Ingest, es: seq<Event>, id: Tid)
    requires CanRun(s, es) && NeverLost(s, es, id) && Once(s, id)
    ensures TimesTaken(Run(s, es).log, id) <= 1
    decreases |es|
  {
    hide Step, Enabled, TimesTaken, TimesClaimed, Loses, Known;
    if es != [] {
      StepOnce(s, es[0], id);
      TakenAtMostOnce(Step(s, es[0]), es[1..], id);
    }
  }

  /**
   Between dedup prunes, from any state in which nothing has been taken or what was taken is remembered:
   every message is stored or delivered at most once, whatever is evicted.
   */
  lemma {:induction false} TakenOnceBetweenPrunes(s: Ingest, es: seq<Event>, id: Tid)
    requires CanRun(s, es) && forall i :: 0 <= i < |es| ==> !es[i].Forgets?
    requires Times(s, id) <= if id in s.processed then 1 else 0
    ensures TimesTaken(Run(s, es).log, id) <= 1
    decreases |es|
  {
    hide Step, Enabled, TimesTaken, TimesClaimed;
    if es != [] {
      StepRemembers(s, es[0], id);
      TakenOnceBetweenPrunes(Step(s, es[0]), es[1..], id);
    }
  }

  /** Once neither knows it, the same message may be taken again. */
  lemma LostIsTakenAgain(s: Ingest, id: Tid) returns (es: seq<Event>)
    requires !Known(s, id)
    ensures CanRun(s, es) && TimesTaken(Run(s, es).log, id) == TimesTaken(s.log, id) + 1
  {
    var blob, n := Blob(id, false, false, true), |s.batches|;
    es := [Arrives([blob]), Claims(n), Finishes(n)];
    var s1 := Step(s, es[0]);
    assert s1.batches[n] == Batch([blob], None);
    var s2 := Step(s1, es[1]);
    assert s2.batches[n] == Batch([], Some(blob));
    var s3 := Step(s2, es[2]);
    assert s3.log == s.log + [Stored(id)] && s3.log[..|s.log|] == s.log;
    assert es[1..] == [Claims(n), Finishes(n)] && es[1..][1..] == [Finishes(n)] && es[1..][1..][1..] == [];
    assert CanRun(s3, []) && Run(s3, []) == s3;
    assert CanRun(s2, [Finishes(n)]) && Run(s2, [Finishes(n)]) == s3;
    assert CanRun(s1, es[1..]) && Run(s1, es[1..]) == s3;
  }

  /** Forgotten while it is still stored, and evicted later: it is taken twice. */
  lemma PrunedIsTakenTwice(id: Tid)
    ensures var blob := Blob(id, false, false, true);
      var s := Ingest({}, {}, [Batch([blob, blob], None)], []);
      var s1 := Step(Step(s, Claims(0)), Finishes(0));
      var s2 := Step(Step(s1, Forgets({id})), Evicts(id));
      var s3 := Step(Step(s2, Claims(0)), Finishes(0));
      TimesTaken(s1.log, id) == 1 && TimesTaken(s3.log, id) == 2
  {
    assert [Stored(id), Stored(id)][..1] == [Stored(id)] && [Stored(id)][..0] == [];
    assert TimesTaken([], id) == 0 && TimesTaken([Stored(id)], id) == 1;
  }

  // ---------- the program ----------

  class Ingestor {
    var stored: set<Tid>
    var processed: set<Tid>
    var batches: seq<Batch>
    ghost var log: seq<Taken>

    ghost function State(): Ingest
      reads this
    {
      Ingest(stored, processed, batches, log)
    }

    constructor ()
      ensures State() == Ingest({}, {}, [], []) && OnceEach(State())
    {
      stored, processed, batches, log := {}, {}, [], [];
    }

    method Arrive(blobs: seq<Blob>)
      modifies this
      ensures State() == Step(old(State()), Arrives(blobs))
    {
      batches := batches + [Batch(blobs, None)];
    }

    /** One turn of the loop of batch `i`, up to its await. */
    method CheckNext(i: nat)
      requires Enabled(State(), Claims(i))
      modifies this
      ensures State() == Step(old(State()), Claims(i))
    {
      var b := batches[i];
      var blob := b.todo[0];
      if blob.id in stored || blob.id in processed {
        batches := batches[i := Batch(b.todo[1..], None)];
        return;
      }
      processed := processed + {blob.id};
      batches := batches[i := Batch(b.todo[1..], Some(blob))];
    }

    /** The rest of that turn, once decryption or the filter has answered. */
    method Settle(i: nat)
      requires Enabled(State(), Finishes(i))
      modifies this
      ensures State() == Step(old(State()), Finishes(i))
    {
      var blob := batches[i].claimed.value;
      batches := batches[i := batches[i].(claimed := None)];
      if blob.local {
        if blob.readable {
          log := log + [Delivered(blob.id)];
        }
        return;
      }
      if !blob.keep {
        return;
      }
      stored := stored + {blob.id};
      log := log + [Stored(blob.id)];
    }
  }
}
