/** Interface authentication codes: sealing a packet for an authenticated interface, and opening it. */
module Ifac {
  import opened Wrappers
  import opened Hkdf

  /** The interface's signing identity, key and code size. */
  datatype Config = Config(sign: Octets -> Octets, key: Octets, size: nat, hmac: Hmac)

  const FLAG: Octet := 0x80

  /** Ed25519 signatures have 64 octets, and the code takes 1 to 64 of them. */
  ghost predicate WfConfig(cfg: Config) {
    1 <= cfg.size <= 64 && forall m :: |cfg.sign(m)| == 64
  }

  /** The last `size` octets of the signature. */
  function Code(cfg: Config, m: Octets): Octets {
    var s := cfg.sign(m);
    if cfg.size <= |s| then s[|s| - cfg.size..] else s
  }

  function Mask(cfg: Config, code: Octets, size: nat): (r: Octets)
    ensures |r| == size
  {
    Derive(cfg.hmac, code, cfg.key, [], size)
  }

  /** `hasIfacFlag` */
  predicate HasFlag(raw: Octets) {
    |raw| > 0 && Flagged(raw[0])
  }

  function WithFlag(raw: Octets): Octets {
    if raw == [] then [] else [SetFlag(raw[0])] + raw[1..]
  }

  function Xor(a: Octets, b: Octets): (r: Octets)
    requires |a| == |b|
    ensures |r| == |a| && forall i :: 0 <= i < |r| ==> r[i] == Mix(a[i], b[i])
  {
    seq(|a|, i requires 0 <= i < |a| => Mix(a[i], b[i]))
  }

  function Mix(b: Octet, m: Octet): Octet {
    b ^ m
  }

  /** The first octet sealed: masked, the flag set. */
  function MixSet(b: Octet, m: Octet): Octet {
    (b ^ m) | FLAG
  }

  /** The first octet opened: unmasked, the flag cleared. */
  function MixClear(b: Octet, m: Octet): Octet {
    (b ^ m) & 0x7f
  }

  function SetFlag(b: Octet): Octet {
    b | FLAG
  }

  predicate Flagged(b: Octet) {
    b & FLAG != 0
  }

  /** Two header octets, the code, and the rest; all but the code and the flag under the mask. */
  function Seal(cfg: Config, raw: Octets): Octets
    requires |raw| >= 2
  {
    var code := Code(cfg, raw);
    var mask := Mask(cfg, code, |raw| + |code|);
    [MixSet(raw[0], mask[0]), Mix(raw[1], mask[1])] + code + Xor(raw[2..], mask[2 + |code|..])
  }

  /** The packet an opened one would be, if its code verifies. */
  function Unmasked(cfg: Config, sealed: Octets): Octets
    requires |sealed| > 2 + cfg.size
  {
    var mask := Mask(cfg, sealed[2..2 + cfg.size], |sealed|);
    [MixClear(sealed[0], mask[0]), Mix(sealed[1], mask[1])] + Xor(sealed[2 + cfg.size..], mask[2 + cfg.size..])
  }

  function Open(cfg: Config, sealed: Octets): Option<Octets> {
    if |sealed| <= 2 + cfg.size then None
    else
      var raw := Unmasked(cfg, sealed);
      if sealed[2..2 + cfg.size] == Code(cfg, raw) then Some(raw) else None
  }

  // ---------- sealing is a bijection ----------

  lemma MixTwice(b: Octet, m: Octet)
    ensures Mix(Mix(b, m), m) == b
  {
  }

  lemma ClearAfterSet(b: Octet, m: Octet)
    ensures MixClear(MixSet(b, m), m) == b <==> !Flagged(b)
    ensures Flagged(MixSet(b, m))
  {
  }

  lemma SetAfterClear(b: Octet, m: Octet)
    ensures MixSet(MixClear(b, m), m) == SetFlag(b)
    ensures !Flagged(MixClear(b, m))
  {
  }

  lemma XorTwice(a: Octets, m: Octets)
    requires |a| == |m|
    ensures Xor(Xor(a, m), m) == a
  {
    hide Mix;
    forall i | 0 <= i < |a| ensures Xor(Xor(a, m), m)[i] == a[i] {
      MixTwice(a[i], m[i]);
    }
  }

  lemma SealShape(cfg: Config, raw: Octets, code: Octets, mask: Octets)
    requires |raw| >= 2 && code == Code(cfg, raw) && |mask| == |raw| + |code| && mask == Mask(cfg, code, |mask|)
    ensures Seal(cfg, raw) == [MixSet(raw[0], mask[0]), Mix(raw[1], mask[1])] + code + Xor(raw[2..], mask[2 + |code|..])
  {
    hide Mask, Code, Mix, MixSet, Xor;
  }

  lemma UnmaskShape(cfg: Config, sealed: Octets, mask: Octets)
    requires |sealed| == |mask| > 2 + cfg.size && mask == Mask(cfg, sealed[2..2 + cfg.size], |sealed|)
    ensures Unmasked(cfg, sealed)
         == [MixClear(sealed[0], mask[0]), Mix(sealed[1], mask[1])] + Xor(sealed[2 + cfg.size..], mask[2 + cfg.size..])
  {
    hide Mask, Code, Mix, MixClear, Xor;
  }

  lemma CodeSize(cfg: Config, m: Octets)
    requires WfConfig(cfg)
    ensures |Code(cfg, m)| == cfg.size
  {
  }

  lemma Pieces(a: Octet, b: Octet, code: Octets, tail: Octets)
    ensures var s := [a, b] + code + tail;
      s[0] == a && s[1] == b && s[2..2 + |code|] == code && s[2 + |code|..] == tail
  {
  }

  /** The masks cancel, except on the flag. */
  lemma MasksCancel(raw: Octets, code: Octets, mask: Octets, sealed: Octets)
    requires |raw| > 2 && |mask| == |raw| + |code|
    requires sealed == [MixSet(raw[0], mask[0]), Mix(raw[1], mask[1])] + code + Xor(raw[2..], mask[2 + |code|..])
    ensures |sealed| == |mask| && sealed[2..2 + |code|] == code
    ensures [MixClear(sealed[0], mask[0]), Mix(sealed[1], mask[1])] + Xor(sealed[2 + |code|..], mask[2 + |code|..])
         == [MixClear(MixSet(raw[0], mask[0]), mask[0])] + raw[1..]
  {
    hide Mix, MixSet, MixClear, Xor;
    Pieces(MixSet(raw[0], mask[0]), Mix(raw[1], mask[1]), code, Xor(raw[2..], mask[2 + |code|..]));
    XorTwice(raw[2..], mask[2 + |code|..]);
    MixTwice(raw[1], mask[1]);
    assert raw[1..] == [raw[1]] + raw[2..];
  }

  /** Unmasking what was sealed gives the packet back, the flag cleared. */
  lemma UnmaskSealed(cfg: Config, raw: Octets, code: Octets, mask: Octets)
    requires |raw| > 2 && code == Code(cfg, raw) && |code| == cfg.size
    requires |mask| == |raw| + |code| && mask == Mask(cfg, code, |mask|)
    ensures var sealed := Seal(cfg, raw);
      && |sealed| == |mask| && sealed[2..2 + cfg.size] == code
      && Unmasked(cfg, sealed) == [MixClear(MixSet(raw[0], mask[0]), mask[0])] + raw[1..]
  {
    hide Mix, MixSet, MixClear, Xor, Mask, Code, Seal, Unmasked;
    SealShape(cfg, raw, code, mask);
    MasksCancel(raw, code, mask, Seal(cfg, raw));
    UnmaskShape(cfg, Seal(cfg, raw), mask);
  }

  /** What was sealed opens to itself exactly when it is an unsealed packet with a body. */
  lemma OpenInvertsSeal(cfg: Config, raw: Octets)
    requires WfConfig(cfg) && |raw| >= 2
    ensures HasFlag(Seal(cfg, raw)) && |Seal(cfg, raw)| == |raw| + cfg.size
    ensures Open(cfg, Seal(cfg, raw)) == Some(raw) <==> |raw| > 2 && !HasFlag(raw)
  {
    hide Mix, MixSet, MixClear, Flagged, SetFlag, Xor;
    var sealed, code := Seal(cfg, raw), Code(cfg, raw);
    var mask := Mask(cfg, code, |sealed|);
    ClearAfterSet(raw[0], mask[0]);
    CodeSize(cfg, raw);
    hide Mask, Code, Unmasked;
    if |raw| > 2 {
      UnmaskSealed(cfg, raw, code, mask);
      hide Seal;
      assert raw == [raw[0]] + raw[1..];
      assert Unmasked(cfg, sealed) == raw <==> !Flagged(raw[0]);
    }
  }

  /** A packet opens to `raw` exactly when, flag restored, it is what `raw` seals to. */
  lemma OpensIffSealed(cfg: Config, sealed: Octets, raw: Octets)
    requires WfConfig(cfg) && sealed != []
    ensures Open(cfg, sealed) == Some(raw)
       <==> |raw| > 2 && !HasFlag(raw) && Seal(cfg, raw) == WithFlag(sealed)
  {
    if Open(cfg, sealed) == Some(raw) {
      OpenedIsSealed(cfg, sealed, raw);
    } else if |raw| > 2 && !HasFlag(raw) && Seal(cfg, raw) == WithFlag(sealed) {
      OpenInvertsSeal(cfg, raw);
      FlagIgnored(cfg, sealed);
    }
  }

  /** The flag bit plays no part in opening. */
  lemma FlagIgnored(cfg: Config, sealed: Octets)
    requires sealed != []
    ensures Open(cfg, WithFlag(sealed)) == Open(cfg, sealed)
  {
    if |sealed| > 2 + cfg.size {
      UnmaskFlagged(cfg, sealed);
    }
    hide Unmasked, Code, SetFlag;
  }

  lemma UnmaskFlagged(cfg: Config, sealed: Octets)
    requires |sealed| > 2 + cfg.size
    ensures var flagged := WithFlag(sealed);
      && |flagged| == |sealed| && flagged[2..2 + cfg.size] == sealed[2..2 + cfg.size]
      && Unmasked(cfg, flagged) == Unmasked(cfg, sealed)
  {
    hide Code, Mix, MixClear, SetFlag, Xor;
    var flagged := WithFlag(sealed);
    assert flagged[2..2 + cfg.size] == sealed[2..2 + cfg.size];
    assert flagged[2 + cfg.size..] == sealed[2 + cfg.size..];
    assert flagged[0] == SetFlag(sealed[0]) && flagged[1] == sealed[1];
    SevenBits(sealed[0], Mask(cfg, sealed[2..2 + cfg.size], |sealed|)[0]);
    hide Mask, WithFlag;
  }

  lemma SevenBits(b: Octet, m: Octet)
    ensures MixClear(SetFlag(b), m) == MixClear(b, m)
  {
  }

  lemma SplitAtCode(sealed: Octets, size: nat)
    requires |sealed| > 2 + size
    ensures WithFlag(sealed) == [SetFlag(sealed[0]), sealed[1]] + sealed[2..2 + size] + sealed[2 + size..]
  {
    assert sealed[1..] == [sealed[1]] + sealed[2..2 + size] + sealed[2 + size..];
  }

  /** Masking an unmasked packet again restores it, flag set. */
  lemma MaskedAgain(cfg: Config, sealed: Octets, raw: Octets, mask: Octets)
    requires |sealed| == |mask| > 2 + cfg.size && raw == Unmasked(cfg, sealed)
    requires mask == Mask(cfg, sealed[2..2 + cfg.size], |sealed|)
    ensures |raw| == |sealed| - cfg.size && !HasFlag(raw)
    ensures MixSet(raw[0], mask[0]) == SetFlag(sealed[0]) && Mix(raw[1], mask[1]) == sealed[1]
    ensures Xor(raw[2..], mask[2 + cfg.size..]) == sealed[2 + cfg.size..]
  {
    hide Mask, Mix, MixSet, MixClear, Flagged, SetFlag;
    SetAfterClear(sealed[0], mask[0]);
    MixTwice(sealed[1], mask[1]);
    XorTwice(sealed[2 + cfg.size..], mask[2 + cfg.size..]);
    assert raw[2..] == Xor(sealed[2 + cfg.size..], mask[2 + cfg.size..]);
  }

  lemma OpenedIsSealed(cfg: Config, sealed: Octets, raw: Octets)
    requires WfConfig(cfg) && Open(cfg, sealed) == Some(raw)
    ensures |raw| > 2 && !HasFlag(raw) && Seal(cfg, raw) == WithFlag(sealed)
  {
    hide Mask, Code, Mix, MixSet, Flagged, SetFlag, Xor, Unmasked, Seal;
    var code := sealed[2..2 + cfg.size];
    assert raw == Unmasked(cfg, sealed) && code == Code(cfg, raw);
    hide Open, WithFlag, HasFlag;
    var mask := Mask(cfg, code, |sealed|);
    MaskedAgain(cfg, sealed, raw, mask);
    SealShape(cfg, raw, code, mask);
    SplitAtCode(sealed, cfg.size);
  }

  /** Different packets never seal to the same one. */
  lemma SealIsInjective(cfg: Config, a: Octets, b: Octets)
    requires WfConfig(cfg) && |a| > 2 && |b| > 2 && !HasFlag(a) && !HasFlag(b)
    requires Seal(cfg, a) == Seal(cfg, b)
    ensures a == b
  {
    OpenInvertsSeal(cfg, a);
    OpenInvertsSeal(cfg, b);
  }

  // ---------- the program ----------

  /** The loop of `seal` over the assembled packet. */
  method MaskPacket(raw: Octets, mask: Octets, size: nat) returns (masked: array<Octet>)
    requires |raw| == |mask| >= 2 + size
    ensures fresh(masked)
    ensures masked[..] == [MixSet(raw[0], mask[0]), Mix(raw[1], mask[1])] + raw[2..2 + size] + Xor(raw[2 + size..], mask[2 + size..])
  {
    hide Mix, MixSet;
    masked := new Octet[|raw|](_ => 0);
    for i := 0 to |raw|
      invariant forall k :: 0 <= k < i ==>
        masked[k] == if k == 0 then MixSet(raw[k], mask[k])
                     else if k == 1 || k > size + 1 then Mix(raw[k], mask[k])
                     else raw[k]
    {
      if i == 0 {
        masked[i] := MixSet(raw[i], mask[i]);
      } else if i == 1 || i > size + 1 {
        masked[i] := Mix(raw[i], mask[i]);
      } else {
        masked[i] := raw[i];
      }
    }
  }

  lemma FlagTwice(b: Octet, m: Octet)
    ensures MixSet(SetFlag(b), m) == MixSet(b, m)
  {
  }

  /** The packet with its code inserted and its flag set, taken apart again. */
  lemma Inserted(raw: Octets, code: Octets)
    requires |raw| >= 2
    ensures var x := [SetFlag(raw[0]), raw[1]] + code + raw[2..];
      && |x| == |raw| + |code| && x[0] == SetFlag(raw[0]) && x[1] == raw[1]
      && x[2..2 + |code|] == code && x[2 + |code|..] == raw[2..]
  {
    hide SetFlag;
  }

  method SealPacket(raw: Octets, cfg: Config) returns (masked: array<Octet>)
    requires WfConfig(cfg) && |raw| >= 2
    ensures fresh(masked) && masked[..] == Seal(cfg, raw)
  {
    var signature := cfg.sign(raw);
    var code := signature[|signature| - cfg.size..];
    assert code == Code(cfg, raw);
    hide Code, Mix, MixSet, Xor, SetFlag, Seal, WfConfig;
    var okm := DeriveBits(cfg.hmac, code, cfg.key, [], |raw| + cfg.size);
    var mask := okm[..];
    assert mask == Mask(cfg, code, |raw| + cfg.size);
    hide Mask;
    Inserted(raw, code);
    FlagTwice(raw[0], mask[0]);
    SealShape(cfg, raw, code, mask);
    masked := MaskPacket([SetFlag(raw[0]), raw[1]] + code + raw[2..], mask, cfg.size);
  }

  /** The loop of `open`. */
  method UnmaskPacket(sealed: Octets, mask: Octets, size: nat) returns (unmasked: array<Octet>)
    requires |sealed| == |mask| > 2 + size
    ensures fresh(unmasked) && unmasked.Length == |sealed|
    ensures unmasked[0] == Mix(sealed[0], mask[0]) && unmasked[1] == Mix(sealed[1], mask[1])
    ensures unmasked[2 + size..] == Xor(sealed[2 + size..], mask[2 + size..])
  {
    hide Mix;
    unmasked := new Octet[|sealed|](_ => 0);
    for i := 0 to |sealed|
      invariant forall k :: 0 <= k < i ==>
        unmasked[k] == if k <= 1 || k > size + 1 then Mix(sealed[k], mask[k]) else sealed[k]
    {
      if i <= 1 || i > size + 1 {
        unmasked[i] := Mix(sealed[i], mask[i]);
      } else {
        unmasked[i] := sealed[i];
      }
    }
  }

  /** The candidate packet behind a sealed one. */
  method Candidate(sealed: Octets, cfg: Config) returns (newRaw: Octets)
    requires |sealed| > 2 + cfg.size
    ensures newRaw == Unmasked(cfg, sealed)
  {
    var code := sealed[2..2 + cfg.size];
    var okm := DeriveBits(cfg.hmac, code, cfg.key, [], |sealed|);
    var mask := okm[..];
    assert mask == Mask(cfg, code, |sealed|);
    hide Mask, Xor;
    var unmasked := UnmaskPacket(sealed, mask, cfg.size);
    newRaw := [unmasked[0] & 0x7f, unmasked[1]] + unmasked[2 + cfg.size..];
  }

  method OpenPacket(sealed: Octets, cfg: Config) returns (r: Option<Octets>)
    requires WfConfig(cfg)
    ensures r == Open(cfg, sealed)
  {
    if |sealed| <= 2 + cfg.size {
      return None;
    }
    hide Unmasked;
    var newRaw := Candidate(sealed, cfg);
    var signature := cfg.sign(newRaw);
    if sealed[2..2 + cfg.size] == signature[|signature| - cfg.size..] {
      return Some(newRaw);
    }
    return None;
  }
}
