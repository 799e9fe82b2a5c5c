/**
 Canonical Huffman codes: the code assignment of RFC 1951 section 3.2.2, the decoder tables of
 `makeDecoder`, and the bit-by-bit decoder it returns.
 */
module Huffman {
  import opened Bytes

  const MAXBITS := 15

  ghost predicate ShortLengths(lens: seq<nat>) {
    forall i :: 0 <= i < |lens| ==> lens[i] <= MAXBITS
  }

  /** The symbols below `n` whose code has length `l`, ascending. */
  function OfLength(lens: seq<nat>, n: nat, l: nat): (r: seq<nat>)
    requires n <= |lens|
    ensures |r| <= n
  {
    if n == 0 then []
    else if lens[n - 1] == l then OfLength(lens, n - 1, l) + [n - 1]
    else OfLength(lens, n - 1, l)
  }

  function Count(lens: seq<nat>, l: nat): nat {
    |OfLength(lens, |lens|, l)|
  }

  // ---------- the code assignment of RFC 1951 section 3.2.2 ----------

  /** The smallest code of length `l`. */
  function NextCode(lens: seq<nat>, l: nat): nat {
    if l <= 1 then 0 else 2 * (NextCode(lens, l - 1) + Count(lens, l - 1))
  }

  /** Codes of one length are consecutive, in symbol order. */
  function CodeOf(lens: seq<nat>, s: nat): nat
    requires s < |lens|
  {
    NextCode(lens, lens[s]) + |OfLength(lens, s, lens[s])|
  }

  /** The low `n` bits of `c`, most significant first. */
  function MsbBits(c: nat, n: nat): (bits: seq<Bit>)
    ensures |bits| == n
  {
    if n == 0 then [] else [Shr(c, n - 1) % 2] + MsbBits(c, n - 1)
  }

  predicate Used(lens: seq<nat>, s: nat) {
    s < |lens| && 1 <= lens[s] <= MAXBITS
  }

  /** The bits that stand for symbol `s`. */
  function SymbolBits(lens: seq<nat>, s: nat): (bits: seq<Bit>)
    requires Used(lens, s)
    ensures |bits| == lens[s]
  {
    MsbBits(CodeOf(lens, s), lens[s])
  }

  /** Kraft's sum over the lengths up to `l`, in units of the longest code. */
  function Kraft(lens: seq<nat>, l: nat): nat
    requires l <= MAXBITS
  {
    if l == 0 then 0 else Kraft(lens, l - 1) + Count(lens, l) * Pow2(MAXBITS - l)
  }

  predicate OverSubscribed(lens: seq<nat>) {
    Kraft(lens, MAXBITS) > Pow2(MAXBITS)
  }

  lemma Distribute(a: nat, b: nat, u: nat)
    ensures (2 * a + b) * u == a * (2 * u) + b * u
    ensures a * (2 * u) == 2 * (a * u)
  {
  }

  lemma {:induction false} KraftIsTopCode(lens: seq<nat>, l: nat)
    requires 1 <= l <= MAXBITS
    ensures (NextCode(lens, l) + Count(lens, l)) * Pow2(MAXBITS - l) == Kraft(lens, l)
  {
    if l == 1 {
      assert Kraft(lens, 0) == 0;
    } else {
      KraftIsTopCode(lens, l - 1);
      var below := NextCode(lens, l - 1) + Count(lens, l - 1);
      var unit := Pow2(MAXBITS - l);
      assert Pow2(MAXBITS - (l - 1)) == 2 * unit;
      Distribute(below, Count(lens, l), unit);
    }
  }

  lemma {:induction false} KraftGrows(lens: seq<nat>, l: nat, m: nat)
    requires l <= m <= MAXBITS
    ensures Kraft(lens, l) <= Kraft(lens, m)
  {
    if l < m {
      KraftGrows(lens, l, m - 1);
    }
  }

  /** Without over-subscription every length has room for its codes. */
  lemma CodesFit(lens: seq<nat>, l: nat)
    requires !OverSubscribed(lens) && 1 <= l <= MAXBITS
    ensures NextCode(lens, l) + Count(lens, l) <= Pow2(l)
  {
    hide NextCode, Count, Kraft, Pow2;
    KraftIsTopCode(lens, l);
    KraftGrows(lens, l, MAXBITS);
    Pow2Adds(l, MAXBITS - l);
    MultiplesApart(Pow2(l), NextCode(lens, l) + Count(lens, l), Pow2(MAXBITS - l));
  }

  lemma {:induction false} OfLengthExtends(lens: seq<nat>, n: nat, m: nat, l: nat)
    requires n <= m <= |lens|
    ensures OfLength(lens, n, l) <= OfLength(lens, m, l)
  {
    if n < m {
      OfLengthExtends(lens, n, m - 1, l);
    }
  }

  /** A symbol sits at its own rank among the symbols of its length. */
  lemma RankOf(lens: seq<nat>, s: nat)
    requires s < |lens|
    ensures |OfLength(lens, s, lens[s])| < Count(lens, lens[s])
    ensures OfLength(lens, |lens|, lens[s])[|OfLength(lens, s, lens[s])|] == s
  {
    OfLengthExtends(lens, s + 1, |lens|, lens[s]);
  }

  // ---------- the decoder tables ----------

  /** The number of used codes shorter than `l`. */
  function Index(lens: seq<nat>, l: nat): nat {
    if l <= 1 then 0 else Index(lens, l - 1) + Count(lens, l - 1)
  }

  /** The symbols with codes of length 1 to `l`, by length and then by symbol. */
  function Table(lens: seq<nat>, l: nat): (t: seq<nat>)
    ensures |t| == Index(lens, l + 1)
  {
    if l == 0 then [] else Table(lens, l - 1) + OfLength(lens, |lens|, l)
  }

  datatype Decoder = Decoder(count: seq<nat>, symbol: seq<nat>)

  ghost predicate DecoderFor(d: Decoder, lens: seq<nat>) {
    && |d.count| == MAXBITS + 1
    && (forall l :: 1 <= l <= MAXBITS ==> d.count[l] == Count(lens, l))
    && Table(lens, MAXBITS) <= d.symbol
  }

  lemma {:induction false} IndexOrder(lens: seq<nat>, l: nat, m: nat)
    requires 1 <= l < m
    ensures Index(lens, l) + Count(lens, l) <= Index(lens, m)
    decreases m
  {
    if l < m - 1 {
      IndexOrder(lens, l, m - 1);
    }
  }

  /** The used symbols among the first `n`, of length at most `l`. */
  function UsedBelow(lens: seq<nat>, n: nat, l: nat): nat
    requires n <= |lens|
  {
    if l == 0 then 0 else UsedBelow(lens, n, l - 1) + |OfLength(lens, n, l)|
  }

  lemma {:induction false} UsedBelowStep(lens: seq<nat>, n: nat, l: nat)
    requires 0 < n <= |lens|
    ensures UsedBelow(lens, n, l) == UsedBelow(lens, n - 1, l) + if 1 <= lens[n - 1] <= l then 1 else 0
    decreases l
  {
    if l > 0 {
      UsedBelowStep(lens, n, l - 1);
    }
  }

  lemma {:induction false} UsedBelowBound(lens: seq<nat>, n: nat, l: nat)
    requires n <= |lens|
    ensures UsedBelow(lens, n, l) <= n
    decreases n
  {
    if n > 0 {
      UsedBelowStep(lens, n, l);
      UsedBelowBound(lens, n - 1, l);
    } else {
      NoneUsed(lens, l);
    }
  }

  lemma {:induction false} NoneUsed(lens: seq<nat>, l: nat)
    ensures UsedBelow(lens, 0, l) == 0
  {
    if l > 0 {
      NoneUsed(lens, l - 1);
    }
  }

  lemma {:induction false} IndexIsUsed(lens: seq<nat>, l: nat)
    ensures Index(lens, l + 1) == UsedBelow(lens, |lens|, l)
  {
    if l > 0 {
      IndexIsUsed(lens, l - 1);
    }
  }

  lemma IndexBound(lens: seq<nat>, l: nat)
    requires 1 <= l <= MAXBITS
    ensures Index(lens, l) + Count(lens, l) <= Index(lens, MAXBITS + 1) <= |lens|
  {
    IndexOrder(lens, l, MAXBITS + 1);
    IndexIsUsed(lens, MAXBITS);
    UsedBelowBound(lens, |lens|, MAXBITS);
  }

  ghost predicate Placed(lens: seq<nat>, n: nat, symbol: seq<nat>, l: nat)
    requires n <= |lens|
  {
    && Index(lens, l) + |OfLength(lens, n, l)| <= |symbol|
    && forall j :: 0 <= j < |OfLength(lens, n, l)| ==>
        symbol[Index(lens, l) + j] == OfLength(lens, n, l)[j]
  }

  ghost predicate AllPlaced(lens: seq<nat>, n: nat, symbol: seq<nat>)
    requires n <= |lens|
  {
    forall m :: 1 <= m <= MAXBITS ==> Placed(lens, n, symbol, m)
  }

  lemma {:induction false} PlacedIsTable(lens: seq<nat>, symbol: seq<nat>, l: nat)
    requires forall m :: 1 <= m <= l ==> Placed(lens, |lens|, symbol, m)
    requires Index(lens, l + 1) <= |symbol|
    ensures Table(lens, l) <= symbol
  {
    if l > 0 {
      PlacedIsTable(lens, symbol, l - 1);
      assert Placed(lens, |lens|, symbol, l);
      var t := Table(lens, l - 1);
      forall i | |t| <= i < |Table(lens, l)| ensures Table(lens, l)[i] == symbol[i] {
        assert symbol[Index(lens, l) + (i - |t|)] == OfLength(lens, |lens|, l)[i - |t|];
      }
    }
  }

  lemma NonePlaced(lens: seq<nat>, symbol: seq<nat>)
    requires |symbol| == |lens|
    ensures AllPlaced(lens, 0, symbol)
  {
    forall m | 1 <= m <= MAXBITS ensures Placed(lens, 0, symbol, m) {
      IndexBound(lens, m);
    }
  }

  /** Placing one more symbol at the end of its run keeps every run. */
  lemma PlaceNext(lens: seq<nat>, n: nat, before: seq<nat>, after: seq<nat>)
    requires n < |lens| && ShortLengths(lens) && |before| == |lens|
    requires AllPlaced(lens, n, before)
    requires lens[n] == 0 ==> after == before
    requires lens[n] != 0 ==>
      var at := Index(lens, lens[n]) + |OfLength(lens, n, lens[n])|;
      at < |before| && after == before[at := n]
    ensures AllPlaced(lens, n + 1, after)
  {
    var n1 := n + 1;
    forall m | 1 <= m <= MAXBITS ensures Placed(lens, n1, after, m) {
      assert Placed(lens, n, before, m);
      OnePlaced(lens, n, before, after, m);
    }
  }

  lemma OnePlaced(lens: seq<nat>, n: nat, before: seq<nat>, after: seq<nat>, m: nat)
    requires n < |lens| && ShortLengths(lens) && |before| == |lens| && 1 <= m <= MAXBITS
    requires Placed(lens, n, before, m)
    requires lens[n] == 0 ==> after == before
    requires lens[n] != 0 ==>
      var at := Index(lens, lens[n]) + |OfLength(lens, n, lens[n])|;
      at < |before| && after == before[at := n]
    ensures Placed(lens, n + 1, after, m)
  {
    IndexBound(lens, m);
    OfLengthExtends(lens, n, |lens|, m);
    OfLengthExtends(lens, n + 1, |lens|, m);
    if lens[n] != 0 && lens[n] != m {
      RunsApart(lens, n, m);
    }
    hide Index;
  }

  /** A symbol of another length goes outside the run of length `m`. */
  lemma RunsApart(lens: seq<nat>, n: nat, m: nat)
    requires n < |lens| && 1 <= lens[n] <= MAXBITS && 1 <= m <= MAXBITS && lens[n] != m
    ensures var at := Index(lens, lens[n]) + |OfLength(lens, n, lens[n])|;
      at < Index(lens, m) || at >= Index(lens, m) + Count(lens, m)
  {
    RankOf(lens, n);
    if lens[n] < m {
      IndexOrder(lens, lens[n], m);
    } else {
      IndexOrder(lens, m, lens[n]);
    }
  }

  method CountLengths(lengths: seq<nat>) returns (count: seq<nat>)
    requires ShortLengths(lengths)
    ensures |count| == MAXBITS + 1 && count[0] == 0
    ensures forall l :: 1 <= l <= MAXBITS ==> count[l] == Count(lengths, l)
  {
    var counts := new nat[MAXBITS + 1](_ => 0);
    for i := 0 to |lengths|
      invariant forall l :: 0 <= l <= MAXBITS ==> counts[l] == |OfLength(lengths, i, l)|
    {
      counts[lengths[i]] := counts[lengths[i]] + 1;
    }
    counts[0] := 0;
    count := counts[..];
  }

  method RunStarts(lengths: seq<nat>, count: seq<nat>) returns (offsets: array<nat>)
    requires |count| == MAXBITS + 1 && count[0] == 0
    requires forall l :: 1 <= l <= MAXBITS ==> count[l] == Count(lengths, l)
    ensures fresh(offsets) && offsets.Length == MAXBITS + 2
    ensures forall l :: 1 <= l <= MAXBITS + 1 ==> offsets[l] == Index(lengths, l)
  {
    hide OfLength, Count;
    offsets := new nat[MAXBITS + 2](_ => 0);
    for l := 1 to MAXBITS + 1
      invariant forall m :: 1 <= m <= l ==> offsets[m] == Index(lengths, m)
    {
      offsets[l + 1] := offsets[l] + count[l];
    }
  }

  ghost predicate RunEnds(lens: seq<nat>, n: nat, offsets: seq<nat>)
    requires n <= |lens|
  {
    && |offsets| == MAXBITS + 2
    && forall l :: 1 <= l <= MAXBITS ==> offsets[l] == Index(lens, l) + |OfLength(lens, n, l)|
  }

  /** One step of the counting sort: `symbol[offsets[lengths[sym]]++] = sym`. */
  method PlaceSymbol(lengths: seq<nat>, sym: nat, offsets: array<nat>, symbol: array<nat>)
    requires sym < |lengths| && ShortLengths(lengths) && offsets != symbol && symbol.Length == |lengths|
    requires RunEnds(lengths, sym, offsets[..]) && AllPlaced(lengths, sym, symbol[..])
    modifies offsets, symbol
    ensures RunEnds(lengths, sym + 1, offsets[..]) && AllPlaced(lengths, sym + 1, symbol[..])
  {
    ghost var before := symbol[..];
    var l := lengths[sym];
    assert forall m :: 1 <= m <= MAXBITS ==> offsets[m] == offsets[..][m];
    if l != 0 {
      RankOf(lengths, sym);
      IndexBound(lengths, l);
      symbol[offsets[l]] := sym;
      assert symbol[..] == before[offsets[l] := sym];
      offsets[l] := offsets[l] + 1;
    }
    PlaceNext(lengths, sym, before, symbol[..]);
  }

  /** `makeDecoder`: count the lengths, then sort the used symbols by length. */
  method MakeDecoder(lengths: seq<nat>) returns (d: Decoder)
    requires ShortLengths(lengths)
    ensures DecoderFor(d, lengths)
  {
    var count := CountLengths(lengths);
    var offsets := RunStarts(lengths, count);
    var symbol := new nat[|lengths|](_ => 0);
    NonePlaced(lengths, symbol[..]);
    for sym := 0 to |lengths|
      invariant RunEnds(lengths, sym, offsets[..])
      invariant AllPlaced(lengths, sym, symbol[..])
    {
      PlaceSymbol(lengths, sym, offsets, symbol);
    }
    IndexBound(lengths, MAXBITS);
    PlacedIsTable(lengths, symbol[..], MAXBITS);
    d := Decoder(count, symbol[..]);
  }

  // ---------- decoding one symbol ----------

  /** A table access at a negative index would be `undefined`; `DecodeIsSound` shows that none is made. */
  datatype Symbol = Symbol(index: nat) | Undefined

  datatype Decoded = Decoded(sym: Symbol, next: nat) | BadCode

  function Lookup(table: seq<nat>, k: int): Symbol {
    if 0 <= k < |table| then Symbol(table[k]) else Undefined
  }

  /** The decoding loop from code length `len` on, with the code and the counters so far. */
  function DecodeFrom(lens: seq<nat>, data: seq<Byte>, pos: nat,
                      len: nat, code: nat, first: nat, index: nat): (r: Decoded)
    ensures r.Decoded? && len <= MAXBITS ==> pos < r.next <= pos + MAXBITS + 1 - len
    decreases |lens|, MAXBITS + 1 - len
  {
    if len > MAXBITS then BadCode
    else
      var c := code + BitAt(data, pos);
      var cnt := Count(lens, len);
      if c - first < cnt then Decoded(Lookup(Table(lens, MAXBITS), index + c - first), pos + 1)
      else DecodeFrom(lens, data, pos + 1, len + 1, 2 * c, 2 * (first + cnt), index + cnt)
  }

  function Decode(lens: seq<nat>, data: seq<Byte>, pos: nat): (r: Decoded)
    ensures r.Decoded? ==> pos < r.next <= pos + MAXBITS
  {
    DecodeFrom(lens, data, pos, 1, 0, 0, 0)
  }

  lemma {:induction false} ShortPrefixes(lens: seq<nat>, l: nat, m: nat)
    requires 1 <= l < m
    ensures NextCode(lens, m) >= (NextCode(lens, l) + Count(lens, l)) * Pow2(m - l)
    decreases m
  {
    var top := NextCode(lens, l) + Count(lens, l);
    if l == m - 1 {
      assert Pow2(1) == 2;
    } else {
      ShortPrefixes(lens, l, m - 1);
      Distribute(top, 0, Pow2(m - 1 - l));
    }
  }

  /** Reading the next bit of a code extends its top bits by one. */
  lemma NextCodeBit(data: seq<Byte>, pos: nat, c: nat, k: nat)
    requires k > 0 && Holds(data, pos, MsbBits(c, k))
    ensures 2 * Shr(c, k) + BitAt(data, pos) == Shr(c, k - 1)
    ensures Holds(data, pos + 1, MsbBits(c, k - 1))
  {
    var top: seq<Bit> := [Shr(c, k - 1) % 2];
    HoldsSplit(data, pos, top, MsbBits(c, k - 1));
    ShrStep(c, k - 1);
    assert BitAt(data, pos + 0) == top[0];
  }

  lemma DecodeHit(lens: seq<nat>, data: seq<Byte>, pos: nat, s: nat, l: nat, code: nat)
    requires Used(lens, s) && l == lens[s]
    requires code + BitAt(data, pos) == CodeOf(lens, s)
    ensures DecodeFrom(lens, data, pos, l, code, NextCode(lens, l), Index(lens, l)) == Decoded(Symbol(s), pos + 1)
  {
    RankOf(lens, s);
    TableAt(lens, MAXBITS, s);
  }

  lemma DecodeMiss(lens: seq<nat>, data: seq<Byte>, pos: nat, l: nat, code: nat)
    requires 1 <= l <= MAXBITS
    requires code + BitAt(data, pos) >= NextCode(lens, l) + Count(lens, l)
    ensures DecodeFrom(lens, data, pos, l, code, NextCode(lens, l), Index(lens, l))
         == DecodeFrom(lens, data, pos + 1, l + 1, 2 * (code + BitAt(data, pos)), NextCode(lens, l + 1), Index(lens, l + 1))
  {
  }

  /** The first `l` bits of a longer code lie above every code of length `l`. */
  lemma NoShorterCode(lens: seq<nat>, s: nat, l: nat)
    requires Used(lens, s) && 1 <= l < lens[s]
    ensures Shr(CodeOf(lens, s), lens[s] - l) >= NextCode(lens, l) + Count(lens, l)
  {
    assert CodeOf(lens, s) >= NextCode(lens, lens[s]);
    hide Shr, NextCode, Count, Pow2, OfLength, CodeOf;
    ShortPrefixes(lens, l, lens[s]);
    var top, k := NextCode(lens, l) + Count(lens, l), lens[s] - l;
    var floor := top * Pow2(k);
    assert CodeOf(lens, s) >= floor;
    ShrFloor(CodeOf(lens, s), top, k);
  }

  /** With `k` bits of a symbol's code still to come, the rest of the loop finds that symbol. */
  lemma {:induction false} DecodeRest(lens: seq<nat>, data: seq<Byte>, pos: nat, s: nat, l: nat, k: nat)
    requires Used(lens, s) && k > 0 && l + k == lens[s] + 1 && l > 0
    requires Holds(data, pos, MsbBits(CodeOf(lens, s), k))
    ensures DecodeFrom(lens, data, pos, l, 2 * Shr(CodeOf(lens, s), k), NextCode(lens, l), Index(lens, l))
         == Decoded(Symbol(s), pos + k)
    decreases k
  {
    hide Holds, MsbBits, CodeOf, NextCode, Index, DecodeFrom, BitAt;
    var c := CodeOf(lens, s);
    NextCodeBit(data, pos, c, k);
    if k == 1 {
      DecodeHit(lens, data, pos, s, l, 2 * Shr(c, k));
    } else {
      NoShorterCode(lens, s, l);
      DecodeMiss(lens, data, pos, l, 2 * Shr(c, k));
      DecodeRest(lens, data, pos + 1, s, l + 1, k - 1);
    }
  }

  lemma {:induction false} TableAt(lens: seq<nat>, m: nat, s: nat)
    requires s < |lens| && 1 <= lens[s] <= m
    ensures Index(lens, lens[s]) + |OfLength(lens, s, lens[s])| < |Table(lens, m)|
    ensures Table(lens, m)[Index(lens, lens[s]) + |OfLength(lens, s, lens[s])|] == s
    decreases m
  {
    RankOf(lens, s);
    if lens[s] < m {
      TableAt(lens, m - 1, s);
    }
  }

  /**
   The decoder inverts the canonical code assignment: reading any used symbol's code, from any bit
   position, returns that symbol and consumes exactly its length.
   */
  lemma DecodeInverts(lens: seq<nat>, data: seq<Byte>, pos: nat, s: nat)
    requires !OverSubscribed(lens) && Used(lens, s)
    requires Holds(data, pos, SymbolBits(lens, s))
    ensures Decode(lens, data, pos) == Decoded(Symbol(s), pos + lens[s])
  {
    CodesFit(lens, lens[s]);
    RankOf(lens, s);
    ShrAll(CodeOf(lens, s), lens[s]);
    DecodeRest(lens, data, pos, s, 1, lens[s]);
  }

  // ---------- and only codes are decoded ----------

  /** The value of `n` bits from `pos`, most significant first. */
  function CodeAt(data: seq<Byte>, pos: nat, n: nat): nat {
    if n == 0 then 0 else 2 * CodeAt(data, pos, n - 1) + BitAt(data, pos + n - 1)
  }

  /** The `j`th symbol of a length has `j` symbols of that length in front of it. */
  lemma {:induction false} RankIsPlace(lens: seq<nat>, n: nat, l: nat, j: nat)
    requires n <= |lens| && j < |OfLength(lens, n, l)|
    ensures var s := OfLength(lens, n, l)[j];
      s < n && lens[s] == l && |OfLength(lens, s, l)| == j
    decreases n
  {
    if lens[n - 1] != l || j < |OfLength(lens, n - 1, l)| {
      RankIsPlace(lens, n - 1, l, j);
    }
  }

  lemma {:induction false} TableSlice(lens: seq<nat>, m: nat, l: nat, j: nat)
    requires 1 <= l <= m && j < Count(lens, l)
    ensures Index(lens, l) + j < |Table(lens, m)|
    ensures Table(lens, m)[Index(lens, l) + j] == OfLength(lens, |lens|, l)[j]
    decreases m
  {
    if l < m {
      TableSlice(lens, m - 1, l, j);
    }
  }

  ghost predicate IsCodeOf(lens: seq<nat>, data: seq<Byte>, pos: nat, r: Decoded) {
    r.Decoded? ==>
      && r.sym.Symbol? && Used(lens, r.sym.index)
      && r.next == pos + lens[r.sym.index]
      && CodeAt(data, pos, lens[r.sym.index]) == CodeOf(lens, r.sym.index)
  }

  lemma SoundHit(lens: seq<nat>, data: seq<Byte>, pos: nat, l: nat)
    requires 1 <= l <= MAXBITS && NextCode(lens, l) <= CodeAt(data, pos, l) < NextCode(lens, l) + Count(lens, l)
    ensures IsCodeOf(lens, data, pos,
      Decoded(Lookup(Table(lens, MAXBITS), Index(lens, l) + CodeAt(data, pos, l) - NextCode(lens, l)), pos + l))
  {
    var j := CodeAt(data, pos, l) - NextCode(lens, l);
    TableSlice(lens, MAXBITS, l, j);
    RankIsPlace(lens, |lens|, l, j);
    hide CodeAt, NextCode, Index, Table, OfLength;
  }

  lemma CodesGrow(lens: seq<nat>, data: seq<Byte>, pos: nat, l: nat)
    requires l >= 1
    ensures CodeAt(data, pos, l) == 2 * CodeAt(data, pos, l - 1) + BitAt(data, pos + l - 1)
    ensures NextCode(lens, l + 1) == 2 * (NextCode(lens, l) + Count(lens, l))
  {
  }

  lemma HitLooksUp(lens: seq<nat>, data: seq<Byte>, at: nat, l: nat, code: nat)
    requires 1 <= l <= MAXBITS && code + BitAt(data, at) < NextCode(lens, l) + Count(lens, l)
    ensures DecodeFrom(lens, data, at, l, code, NextCode(lens, l), Index(lens, l))
         == Decoded(Lookup(Table(lens, MAXBITS), Index(lens, l) + (code + BitAt(data, at)) - NextCode(lens, l)), at + 1)
  {
    hide NextCode, Index, Table, Lookup, BitAt;
  }

  lemma NothingLonger(lens: seq<nat>, data: seq<Byte>, pos: nat, at: nat, l: nat, code: nat)
    requires l > MAXBITS
    ensures IsCodeOf(lens, data, pos, DecodeFrom(lens, data, at, l, code, NextCode(lens, l), Index(lens, l)))
  {
  }

  lemma {:induction false} SoundFrom(lens: seq<nat>, data: seq<Byte>, pos: nat, l: nat)
    requires 1 <= l && NextCode(lens, l) <= 2 * CodeAt(data, pos, l - 1)
    ensures IsCodeOf(lens, data, pos,
      DecodeFrom(lens, data, pos + l - 1, l, 2 * CodeAt(data, pos, l - 1), NextCode(lens, l), Index(lens, l)))
    decreases MAXBITS + 1 - l
  {
    hide CodeAt, NextCode, Count, BitAt, Table, Lookup, IsCodeOf, DecodeFrom, Index;
    if l > MAXBITS {
      NothingLonger(lens, data, pos, pos + l - 1, l, 2 * CodeAt(data, pos, l - 1));
    } else {
      CodesGrow(lens, data, pos, l);
      if CodeAt(data, pos, l) < NextCode(lens, l) + Count(lens, l) {
        HitLooksUp(lens, data, pos + l - 1, l, 2 * CodeAt(data, pos, l - 1));
        SoundHit(lens, data, pos, l);
      } else {
        DecodeMiss(lens, data, pos + l - 1, l, 2 * CodeAt(data, pos, l - 1));
        SoundFrom(lens, data, pos, l + 1);
      }
    }
  }

  /**
   Whatever is decoded is a used symbol whose code was read there, for every length vector, even an
   over-subscribed one, and past the end of the buffer too.
   */
  lemma DecodeIsSound(lens: seq<nat>, data: seq<Byte>, pos: nat)
    requires Decode(lens, data, pos).Decoded?
    ensures var r := Decode(lens, data, pos);
      && r.sym.Symbol? && Used(lens, r.sym.index)
      && r.next == pos + lens[r.sym.index]
      && CodeAt(data, pos, lens[r.sym.index]) == CodeOf(lens, r.sym.index)
  {
    SoundFrom(lens, data, pos, 1);
  }
}
