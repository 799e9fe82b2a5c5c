/**
 Segments one after the other: the split assembler, the metadata prefix, and the agreement of sender
 and receiver about the whole payload.
 */
module ResourceAgreement {
  import opened Bytes
  import opened Wrappers
  import opened Resource
  import opened ResourceSender
  import T = ResourceTransfer

  // ---------- the metadata prefix ----------

  const METADATA_MAX_SIZE := 0xff_ffff

  /** Three bytes of size in front of the packed metadata. */
  function MetadataPrefix(packed: Data): (r: Data)
    requires |packed| <= METADATA_MAX_SIZE
    ensures |r| == 3 + |packed|
  {
    [|packed| / 65536, (|packed| / 256) % 256, |packed| % 256] + packed
  }

  /** What is hashed, compressed and cut: the prefix, if any, and the payload. */
  function FullText(payload: Data, packed: Option<Data>): Data
    requires packed.Some? ==> |packed.value| <= METADATA_MAX_SIZE
  {
    if packed.Some? then MetadataPrefix(packed.value) + payload else payload
  }

  lemma SizeRead(packed: Data, d: Data)
    requires |packed| <= METADATA_MAX_SIZE && |d| >= 3 && d[..3] == MetadataPrefix(packed)[..3]
    ensures MetadataSize(d) == |packed|
  {
    var n := |packed|;
    assert d[0] == d[..3][0] && d[1] == d[..3][1] && d[2] == d[..3][2];
    assert n / 65536 == (n / 256) / 256;
    assert n == 256 * (n / 256) + n % 256 && n / 256 == 256 * ((n / 256) / 256) + (n / 256) % 256;
  }

  // ---------- the split assembler ----------

  datatype Assembler = Assembler(total: nat, limit: nat, segments: seq<Data>, metadata: Option<Data>, bytes: nat)

  datatype Added = More | TooBig | Whole(data: Data, metadata: Option<Data>)

  /** `SplitResourceAssembler.add` */
  function Add(a: Assembler, index: nat, data: Data, metadata: Option<Data>): (Assembler, Added) {
    var a1 := a.(segments := a.segments + [data], bytes := a.bytes + |data|,
                 metadata := if index == 1 then metadata else a.metadata);
    (a1,
     if a1.bytes > a.limit then TooBig
     else if index != a.total then More
     else Whole(Concat(a1.segments), a1.metadata))
  }

  class SplitResourceAssembler {
    const total: nat
    const limit: nat
    var segments: seq<Data>
    var metadata: Option<Data>
    var bytes: nat

    function State(): Assembler
      reads this
    {
      Assembler(total, limit, segments, metadata, bytes)
    }

    constructor (total: nat, limit: nat)
      ensures State() == Assembler(total, limit, [], None, 0)
    {
      this.total, this.limit := total, limit;
      segments, metadata, bytes := [], None, 0;
    }

    method AddSegment(index: nat, data: Data, packed: Option<Data>) returns (added: Added)
      modifies this
      ensures (State(), added) == Add(old(State()), index, data, packed)
    {
      if index == 1 {
        metadata := packed;
      }
      segments := segments + [data];
      bytes := bytes + |data|;
      if bytes > limit {
        return TooBig;
      }
      if index != total {
        return More;
      }
      return Whole(Concat(segments), metadata);
    }
  }

  // ---------- the segments of a payload ----------

  /** The first `k` segment texts. */
  function Texts(full: Data, k: nat): (r: seq<Data>)
    ensures |r| == k && forall i :: 0 <= i < k ==> r[i] == SegmentText(full, i + 1)
  {
    if k == 0 then [] else Texts(full, k - 1) + [SegmentText(full, k)]
  }

  lemma TakeMore(full: Data, at: nat, n: nat)
    ensures Take(full, at) + Take(Drop(full, at), n) == Take(full, at + n)
  {
  }

  lemma {:induction false} TextsConcat(full: Data, k: nat)
    ensures Concat(Texts(full, k)) == Take(full, k * MAX_EFFICIENT_SIZE)
    decreases k
  {
    if k > 0 {
      hide Take, Drop, Concat;
      TextsConcat(full, k - 1);
      T.ConcatOne(Texts(full, k - 1), SegmentText(full, k));
      TakeMore(full, (k - 1) * MAX_EFFICIENT_SIZE, MAX_EFFICIENT_SIZE);
    }
  }

  lemma TextsCover(full: Data)
    ensures Concat(Texts(full, SegmentCount(|full|))) == full
    ensures SegmentCount(|full|) >= 1
  {
    var l := SegmentCount(|full|);
    TextsConcat(full, l);
    if |full| > MAX_EFFICIENT_SIZE {
      assert (|full| - 1) == ((|full| - 1) / MAX_EFFICIENT_SIZE) * MAX_EFFICIENT_SIZE + (|full| - 1) % MAX_EFFICIENT_SIZE;
    }
  }

  // ---------- sender and receiver ----------

  /** SHA-256 has no collisions. */
  ghost predicate CollisionFree(c: Crypto) {
    forall x, y :: c.hash(x) == c.hash(y) ==> x == y
  }

  /** One whole transfer: the prepared segments, with the salts already drawn. */
  datatype Plan = Plan(full: Data, hasMetadata: bool, maxLen: nat, limit: nat, segments: seq<Segment>)

  /** No two segments drew the same text and salt, so each has its own hash. */
  ghost predicate WfPlan(c: Crypto, plan: Plan) {
    && |plan.segments| == SegmentCount(|plan.full|) >= 1
    && |plan.full| <= plan.limit
    && (forall i :: 0 <= i < |plan.segments| ==> WfSegment(c, plan.full, plan.segments[i], i + 1))
    && (forall i, j :: 0 <= i < j < |plan.segments| ==> plan.segments[i].h != plan.segments[j].h)
  }

  ghost predicate WfSegment(c: Crypto, full: Data, g: Segment, i: nat)
    requires i >= 1
  {
    g.plaintext == SegmentText(full, i) && g.h == c.hash(g.plaintext + g.r) && g.proof == c.hash(g.plaintext + g.h)
  }

  datatype Peers = Peers(sender: Sender, assembler: Assembler, finished: nat, outcome: Option<Added>, proofs: set<Proof>)

  function Advert(plan: Plan, i: nat): Advertisement
    requires 1 <= i <= |plan.segments|
  {
    AdvertisementOf(plan.segments[i - 1], i, |plan.segments|, plan.hasMetadata, plan.maxLen)
  }

  datatype Step =
    | Assembles(r: Receiver)
    | ProofArrives(p: Proof, at: int)
    | Watches(at: int, rtt: real)

  /**
   The receiver may have taken any parts at all for an advertisement that the sender has sent and
   that it has not finished before; a proof may be lost, late or repeated.
   */
  predicate Enabled(c: Crypto, plan: Plan, s: Peers, step: Step) {
    match step
    case Assembles(r) =>
      && s.finished < s.sender.segmentIndex <= |plan.segments|
      && r.adv == Advert(plan, s.finished + 1) && Assemble(c, r).0.status == Complete
    case ProofArrives(p, _) => p in s.proofs && p.h == s.sender.current.h && s.sender.segmentIndex <= |plan.segments|
    case Watches(_, _) => true
  }

  function After(c: Crypto, plan: Plan, s: Peers, step: Step): Peers
    requires Enabled(c, plan, s, step)
  {
    match step
    case Assembles(r) =>
      var (done, proof) := Assemble(c, r);
      var data := if done.data.Some? then done.data.value else [];
      var (a, added) := Add(s.assembler, r.adv.i, data, done.metadata);
      s.(assembler := a, finished := s.finished + 1, outcome := Some(added),
         proofs := s.proofs + if proof.Some? then {proof.value} else {})
    case ProofArrives(p, at) =>
      var i := s.sender.segmentIndex;
      s.(sender := ValidateProof(s.sender, p, if i < |plan.segments| then plan.segments[i] else s.sender.current, at))
    case Watches(at, rtt) => s.(sender := TickSender(s.sender, at, rtt).0)
  }

  function First(plan: Plan, at: int): Peers
    requires |plan.segments| > 0
  {
    Peers(Sender(plan.full, 1, |plan.segments|, Advertised, plan.segments[0], MAX_RETRIES, false, at, at, {}),
          Assembler(|plan.segments|, plan.limit, [], None, 0), 0, None, {})
  }

  /** The segment data the receiver keeps: the first text without its prefix, the others whole. */
  function Kept(plan: Plan, k: nat): (r: seq<Data>)
    requires k <= |plan.segments|
    ensures |r| == k
  {
    if k == 0 then []
    else Kept(plan, k - 1) + [Strip(Advert(plan, k), SegmentText(plan.full, k)).0]
  }

  function KeptMetadata(plan: Plan): Option<Data>
    requires |plan.segments| > 0
  {
    Strip(Advert(plan, 1), SegmentText(plan.full, 1)).1
  }

  ghost predicate Agreed(c: Crypto, plan: Plan, s: Peers) {
    && |plan.segments| >= 1
    && 1 <= s.sender.segmentIndex <= s.sender.totalSegments == |plan.segments|
    && s.sender.current == plan.segments[s.sender.segmentIndex - 1]
    && s.sender.segmentIndex - 1 <= s.finished <= s.sender.segmentIndex
    && (s.sender.status == Proven ==> s.finished == |plan.segments|)
    && (forall p :: p in s.proofs ==> IsProof(plan, s.finished, p))
    && AssemblerAgrees(plan, s.assembler, s.finished)
    && (s.finished == |plan.segments| ==> s.outcome == Some(Whole(Concat(Kept(plan, s.finished)), KeptMetadata(plan))))
  }

  ghost predicate IsProof(plan: Plan, finished: nat, p: Proof) {
    exists i :: 0 <= i < finished && i < |plan.segments| && p == Proof(plan.segments[i].h, plan.segments[i].proof)
  }

  ghost predicate AssemblerAgrees(plan: Plan, a: Assembler, k: nat)
    requires |plan.segments| > 0
  {
    && k <= |plan.segments| && a.total == |plan.segments| && a.limit == plan.limit
    && a.segments == Kept(plan, k) && a.bytes == |Concat(Kept(plan, k))|
    && (k > 0 ==> a.metadata == KeptMetadata(plan))
  }

  /** Whatever parts arrived: a receiver that completes a segment holds the sender's plaintext. */
  lemma AssembledIsPlaintext(c: Crypto, plan: Plan, i: nat, r: Receiver)
    requires CollisionFree(c) && WfPlan(c, plan) && 1 <= i <= |plan.segments|
    requires r.adv == Advert(plan, i) && Assemble(c, r).0.status == Complete
    ensures var (done, proof) := Assemble(c, r);
      var g := plan.segments[i - 1];
      && done.data == Some(Strip(r.adv, g.plaintext).0) && done.metadata == Strip(r.adv, g.plaintext).1
      && proof == Some(Proof(g.h, g.proof))
      && Opened(c, r.adv, Concat(Filled(r.parts))) == Some(g.plaintext)
  {
    hide Opened, Filled, Strip, SegmentText;
    var g := plan.segments[i - 1];
    assert WfSegment(c, plan.full, g, i);
    var p := Opened(c, r.adv, Concat(Filled(r.parts))).value;
    assert c.hash(p + g.r) == c.hash(g.plaintext + g.r);
    assert p == (p + g.r)[..|p + g.r| - |g.r|] == g.plaintext;
  }

  lemma {:induction false} KeptIsShort(plan: Plan, k: nat)
    requires k <= |plan.segments|
    ensures |Concat(Kept(plan, k))| <= |Concat(Texts(plan.full, k))| <= |plan.full|
    decreases k
  {
    hide Concat, SegmentText, Strip, Advert;
    TextsConcat(plan.full, k);
    if k > 0 {
      KeptIsShort(plan, k - 1);
      StripIsShort(Advert(plan, k), SegmentText(plan.full, k));
      T.ConcatOne(Kept(plan, k - 1), Strip(Advert(plan, k), SegmentText(plan.full, k)).0);
      T.ConcatOne(Texts(plan.full, k - 1), SegmentText(plan.full, k));
    } else {
      NothingKept();
    }
  }

  lemma StripIsShort(adv: Advertisement, p: Data)
    ensures |Strip(adv, p).0| <= |p|
  {
  }

  lemma NothingKept()
    ensures Concat([]) == []
  {
  }

  lemma SegmentAdded(plan: Plan, a: Assembler, k: nat)
    requires |plan.segments| > k && |plan.full| <= plan.limit && AssemblerAgrees(plan, a, k)
    ensures var stripped := Strip(Advert(plan, k + 1), SegmentText(plan.full, k + 1));
      var (a', added) := Add(a, k + 1, stripped.0, stripped.1);
      && AssemblerAgrees(plan, a', k + 1)
      && added == if k + 1 == |plan.segments| then Whole(Concat(Kept(plan, k + 1)), KeptMetadata(plan)) else More
  {
    hide Strip, SegmentText;
    KeptIsShort(plan, k + 1);
    T.ConcatOne(Kept(plan, k), Strip(Advert(plan, k + 1), SegmentText(plan.full, k + 1)).0);
  }

  lemma AssemblesAgreed(c: Crypto, plan: Plan, s: Peers, r: Receiver)
    requires CollisionFree(c) && WfPlan(c, plan) && Agreed(c, plan, s) && Enabled(c, plan, s, Assembles(r))
    ensures Agreed(c, plan, After(c, plan, s, Assembles(r)))
  {
    hide Assemble, Strip, SegmentText, Add, Kept, KeptMetadata, AssemblerAgrees, CollisionFree;
    var k := s.finished;
    AssembledIsPlaintext(c, plan, k + 1, r);
    SegmentAdded(plan, s.assembler, k);
    var s' := After(c, plan, s, Assembles(r));
    assert WfSegment(c, plan.full, plan.segments[k], k + 1);
    assert IsProof(plan, k + 1, Proof(plan.segments[k].h, plan.segments[k].proof));
    forall p | p in s'.proofs ensures IsProof(plan, k + 1, p) {
      if p in s.proofs {
        var i :| 0 <= i < k && p == Proof(plan.segments[i].h, plan.segments[i].proof);
      }
    }
  }

  lemma ProofAgreed(c: Crypto, plan: Plan, s: Peers, p: Proof, at: int)
    requires WfPlan(c, plan) && Agreed(c, plan, s) && Enabled(c, plan, s, ProofArrives(p, at))
    ensures Agreed(c, plan, After(c, plan, s, ProofArrives(p, at)))
    ensures p.full == s.sender.current.proof
  {
    hide Kept, KeptMetadata, AssemblerAgrees, WfSegment;
    var i :| 0 <= i < s.finished && i < |plan.segments| && p == Proof(plan.segments[i].h, plan.segments[i].proof);
    assert i == s.sender.segmentIndex - 1;
  }

  lemma StepAgreed(c: Crypto, plan: Plan, s: Peers, step: Step)
    requires CollisionFree(c) && WfPlan(c, plan) && Agreed(c, plan, s) && Enabled(c, plan, s, step)
    ensures Agreed(c, plan, After(c, plan, s, step))
  {
    hide Agreed, After, Enabled, WfPlan, CollisionFree;
    match step
    case Assembles(r) => AssemblesAgreed(c, plan, s, r);
    case ProofArrives(p, at) => ProofAgreed(c, plan, s, p, at);
    case Watches(at, rtt) => WatchAgreed(c, plan, s, at, rtt);
  }

  lemma WatchAgreed(c: Crypto, plan: Plan, s: Peers, at: int, rtt: real)
    requires Agreed(c, plan, s)
    ensures Agreed(c, plan, After(c, plan, s, Watches(at, rtt)))
  {
    hide Kept, KeptMetadata, AssemblerAgrees, IsProof, Unanswered, DriedUp;
  }

  predicate CanRun(c: Crypto, plan: Plan, s: Peers, steps: seq<Step>)
    decreases |steps|
  {
    steps == [] || (Enabled(c, plan, s, steps[0]) && CanRun(c, plan, After(c, plan, s, steps[0]), steps[1..]))
  }

  function Run(c: Crypto, plan: Plan, s: Peers, steps: seq<Step>): Peers
    requires CanRun(c, plan, s, steps)
    decreases |steps|
  {
    if steps == [] then s else Run(c, plan, After(c, plan, s, steps[0]), steps[1..])
  }

  lemma {:induction false} RunAgreed(c: Crypto, plan: Plan, s: Peers, steps: seq<Step>)
    requires CollisionFree(c) && WfPlan(c, plan) && Agreed(c, plan, s) && CanRun(c, plan, s, steps)
    ensures Agreed(c, plan, Run(c, plan, s, steps))
    decreases |steps|
  {
    hide Agreed, After, Enabled, CollisionFree, WfPlan;
    if steps != [] {
      StepAgreed(c, plan, s, steps[0]);
      RunAgreed(c, plan, After(c, plan, s, steps[0]), steps[1..]);
    }
  }

  // ---------- agreement about the payload ----------

  lemma {:induction false} LaterAreWhole(plan: Plan, k: nat)
    requires 1 <= k <= |plan.segments|
    ensures Kept(plan, k) == [Strip(Advert(plan, 1), SegmentText(plan.full, 1)).0] + Texts(plan.full, k)[1..]
    decreases k
  {
    if k > 1 {
      LaterAreWhole(plan, k - 1);
      assert Texts(plan.full, k)[1..] == Texts(plan.full, k - 1)[1..] + [SegmentText(plan.full, k)];
    } else {
      assert Kept(plan, 0) == [];
    }
  }

  lemma PlainConcat(plan: Plan)
    requires |plan.segments| == SegmentCount(|plan.full|) && !plan.hasMetadata
    ensures |plan.segments| > 0
    ensures Concat(Kept(plan, |plan.segments|)) == plan.full && KeptMetadata(plan) == None
  {
    TextsCover(plan.full);
    LaterAreWhole(plan, |plan.segments|);
    var t := Texts(plan.full, |plan.segments|);
    assert t == [t[0]] + t[1..];
  }

  lemma PrefixStripped(adv: Advertisement, first: Data, rest: Data, payload: Data, packed: Data)
    requires |packed| <= METADATA_MAX_SIZE && adv.hasMetadata && adv.i == 1
    requires first + rest == MetadataPrefix(packed) + payload && 3 + |packed| <= |first|
    ensures Strip(adv, first).0 + rest == payload && Strip(adv, first).1 == Some(packed)
  {
    var prefix, full := MetadataPrefix(packed), first + rest;
    assert full[..3] == first[..3] && full[..3] == prefix[..3];
    SizeRead(packed, first);
    hide MetadataPrefix, MetadataSize;
    assert full[|prefix|..] == payload && full[|prefix|..] == first[|prefix|..] + rest;
    assert full[3..|prefix|] == first[3..|prefix|];
    assert (prefix + payload)[3..|prefix|] == packed by {
      PrefixTail(packed, payload);
    }
  }

  lemma PrefixTail(packed: Data, payload: Data)
    requires |packed| <= METADATA_MAX_SIZE
    ensures (MetadataPrefix(packed) + payload)[3..3 + |packed|] == packed
  {
  }

  lemma PrefixCut(adv: Advertisement, first: Data, rest: Data, payload: Data, packed: Data)
    requires |packed| <= METADATA_MAX_SIZE
    requires first + rest == MetadataPrefix(packed) + payload && 3 <= |first| < 3 + |packed|
    ensures Strip(adv, first) == (first, None)
  {
    assert (first + rest)[..3] == first[..3] && (MetadataPrefix(packed) + payload)[..3] == MetadataPrefix(packed)[..3];
    SizeRead(packed, first);
  }

  /** The texts behind the first one, joined. */
  function RestOf(plan: Plan): Data
    requires |plan.segments| > 0
  {
    Concat(Texts(plan.full, |plan.segments|)[1..])
  }

  lemma TextsInTwo(plan: Plan)
    requires |plan.segments| == SegmentCount(|plan.full|)
    ensures |plan.segments| > 0 && SegmentText(plan.full, 1) + RestOf(plan) == plan.full
  {
    TextsCover(plan.full);
    var t := Texts(plan.full, |plan.segments|);
    hide Texts, SegmentCount, SegmentText;
    assert t == [t[0]] + t[1..];
  }

  lemma KeptInTwo(plan: Plan)
    requires |plan.segments| > 0
    ensures Concat(Kept(plan, |plan.segments|)) == Strip(Advert(plan, 1), SegmentText(plan.full, 1)).0 + RestOf(plan)
  {
    hide Strip, Texts, Kept, SegmentText;
    LaterAreWhole(plan, |plan.segments|);
  }

  lemma FirstText(full: Data)
    ensures |SegmentText(full, 1)| == Min(|full|, MAX_EFFICIENT_SIZE)
  {
  }

  /** The prefix leaves the data, and the metadata comes back, exactly when it fits in segment 1. */
  lemma MetadataConcat(plan: Plan, payload: Data, packed: Data)
    requires |packed| <= METADATA_MAX_SIZE && plan.full == FullText(payload, Some(packed))
    requires |plan.segments| == SegmentCount(|plan.full|) && plan.hasMetadata
    ensures |plan.segments| > 0
    ensures Concat(Kept(plan, |plan.segments|)) == payload <==> 3 + |packed| <= MAX_EFFICIENT_SIZE
    ensures KeptMetadata(plan) == Some(packed) <==> 3 + |packed| <= MAX_EFFICIENT_SIZE
  {
    hide SegmentText, Strip, MetadataPrefix, Kept, Concat, RestOf;
    TextsInTwo(plan);
    KeptInTwo(plan);
    FirstText(plan.full);
    var first, rest := SegmentText(plan.full, 1), RestOf(plan);
    assert |plan.full| != |payload|;
    if 3 + |packed| <= MAX_EFFICIENT_SIZE {
      PrefixStripped(Advert(plan, 1), first, rest, payload, packed);
    } else {
      PrefixCut(Advert(plan, 1), first, rest, payload, packed);
    }
  }

  /**
   End-to-end agreement: when the sender counts the transfer complete, the receiver has assembled
   every segment's plaintext and routed one whole resource. Without metadata that is the payload;
   with metadata it is the payload and the metadata exactly when the prefix fits in the first segment.
   In every state at most one segment is in flight, and no proof that arrives is a mismatch.
   */
  lemma Agreement(c: Crypto, plan: Plan, payload: Data, packed: Option<Data>, at: int, steps: seq<Step>)
    requires packed.Some? ==> |packed.value| <= METADATA_MAX_SIZE
    requires CollisionFree(c) && WfPlan(c, plan)
    requires plan.full == FullText(payload, packed) && plan.hasMetadata == packed.Some?
    requires CanRun(c, plan, First(plan, at), steps)
    ensures var s := Run(c, plan, First(plan, at), steps);
      && s.sender.segmentIndex - 1 <= s.finished <= s.sender.segmentIndex
      && (forall p :: p in s.proofs && p.h == s.sender.current.h ==> p.full == s.sender.current.proof)
      && (s.sender.status == Proven ==>
            && s.finished == |plan.segments|
            && ((packed.None? || 3 + |packed.value| <= MAX_EFFICIENT_SIZE) <==> s.outcome == Some(Whole(payload, packed))))
  {
    hide SegmentText, Strip, Run, CanRun, CollisionFree, WfSegment;
    var s := Run(c, plan, First(plan, at), steps);
    FirstAgreed(c, plan, at);
    RunAgreed(c, plan, First(plan, at), steps);
    if packed.None? {
      PlainConcat(plan);
    } else {
      MetadataConcat(plan, payload, packed.value);
    }
    hide Kept, KeptMetadata;
    forall p | p in s.proofs && p.h == s.sender.current.h ensures p.full == s.sender.current.proof {
      ProofMatches(c, plan, s, p);
    }
  }

  lemma ProofMatches(c: Crypto, plan: Plan, s: Peers, p: Proof)
    requires WfPlan(c, plan) && Agreed(c, plan, s) && p in s.proofs && p.h == s.sender.current.h
    ensures p.full == s.sender.current.proof
  {
    ProofAgreed(c, plan, s, p, 0);
  }

  lemma FirstAgreed(c: Crypto, plan: Plan, at: int)
    requires WfPlan(c, plan)
    ensures Agreed(c, plan, First(plan, at))
  {
    assert Kept(plan, 0) == [] && Concat([]) == [];
  }

  // ---------- advertisements are acceptable ----------

  lemma CountIsCeil(size: nat, sdu: nat)
    requires sdu > 0 && size > 0
    ensures PartCount(size, sdu) == Ceil(size, sdu) <= size
  {
    var q, m := (size - 1) / sdu, (size - 1) % sdu;
    assert size - 1 == q * sdu + m;
    assert size + sdu - 1 == (q + 1) * sdu + m;
    QuotientOf(q + 1, sdu, m);
    MulMonotone(1, sdu, q);
  }

  /** A receiver with the same link parameters accepts a prepared segment exactly when its limits allow it. */
  lemma OwnAdvertisementAccepted(c: Crypto, plaintext: Data, compressed: bool, sdu: nat, a: Attempt,
                                 i: nat, l: nat, hasMetadata: bool, maxLen: nat, limits: Limits)
    requires sdu > 0 && |a.encrypted| > 0 && 1 <= i <= l
    ensures Acceptable(AdvertisementOf(Build(c, plaintext, compressed, sdu, a), i, l, hasMetadata, maxLen), limits, sdu)
       <==> (&& (l > 1 ==> l <= limits.segments)
             && |a.encrypted| <= limits.size && |plaintext| <= limits.size
             && PartCount(|a.encrypted|, sdu) <= limits.parts)
  {
    CountIsCeil(|a.encrypted|, sdu);
  }
}
