/** Packing of binary features into 8-bit packs (`BinarizeFeatures` and the
    per-feature bit getters `GetBinaryFloatFeatureFunction`,
    `GetBinaryCatFeatureFunction`). */
module Packing {
  import opened QuantizationTypes
  import opened FeaturesInfo

  /** `sizeof(TBinaryFeaturesPack) * CHAR_BIT`: a pack is one byte. */
  const BitsPerPack: nat := 8

  /** An entry of the packing layout (`packedBinaryToSrcIndex`): the feature
      that owns a bit slot, by type and per-type index. */
  datatype PackedRef = FloatRef(f: nat) | CatRef(c: nat)

  /** What a bit getter reads: the raw float column and the feature's single
      border, or the quantized bins of a categorical feature. */
  datatype BitSource = FloatBit(values: seq<Float>, border: int) | CatBit(bins: seq<nat>)

  /** The getter can be called for object `idx` at source row `srcIdx`: the
      float row exists; the categorical bin exists and is below 2 (the debug
      assertion of the source). */
  predicate Callable(src: BitSource, idx: nat, srcIdx: nat)
  {
    match src
    case FloatBit(values, _) => srcIdx < |values|
    case CatBit(bins) => idx < |bins| && bins[idx] < 2
  }

  /** The getter can be called for every object of `subset`. */
  ghost predicate SourceFits(src: BitSource, subset: seq<nat>)
  {
    forall idx :: 0 <= idx < |subset| ==> Callable(src, idx, subset[idx])
  }

  /** The getter's value for object `idx` stored at source row `srcIdx`. */
  function Bit(src: BitSource, idx: nat, srcIdx: nat): (b: bv8)
    requires Callable(src, idx, srcIdx)
    ensures b == 0 || b == 1
    ensures src.FloatBit? ==> (b == 1 <==> AtLeast(src.values[srcIdx], src.border))
    ensures src.CatBit? ==> b as int == src.bins[idx]
  {
    match src
    case FloatBit(values, border) => if AtLeast(values[srcIdx], border) then 1 else 0
    case CatBit(bins) => if bins[idx] == 0 then 0 else 1
  }

  /** Bit `b` of a pack. */
  predicate BitAt(x: bv8, b: nat)
    requires b < BitsPerPack
  {
    (x >> b) & 1 == 1
  }

  lemma ZeroHasNoBits(b: nat)
    requires b < BitsPerPack
    ensures !BitAt(0, b)
  {
  }

  /** `pack | (v << k)` sets bit `k` when `v` is 1 and leaves every other bit. */
  lemma OrShiftedBit(pack: bv8, v: bv8, k: nat, b: nat)
    requires v == 0 || v == 1
    requires k < BitsPerPack && b < BitsPerPack
    ensures BitAt(pack | (v << k), b) == (BitAt(pack, b) || (b == k && v == 1))
  {
    if v == 0 {
      assert pack | (v << k) == pack;
    } else {
      assert v << k == (1 as bv8) << k;
    }
  }

  /** The per-object body of a pack: OR together the getters' bits, each
      shifted to its slot. */
  method ComputeObjectPack(sources: seq<BitSource>, idx: nat, srcIdx: nat) returns (pack: bv8)
    requires |sources| <= BitsPerPack
    requires forall j :: 0 <= j < |sources| ==> Callable(sources[j], idx, srcIdx)
    ensures forall b :: 0 <= b < BitsPerPack ==>
      BitAt(pack, b) == (b < |sources| && Bit(sources[b], idx, srcIdx) == 1)
  {
    pack := 0;
    forall b | 0 <= b < BitsPerPack {
      ZeroHasNoBits(b);
    }
    for bitIdx := 0 to |sources|
      invariant forall b :: 0 <= b < BitsPerPack ==>
        BitAt(pack, b) == (b < bitIdx && Bit(sources[b], idx, srcIdx) == 1)
    {
      var v := Bit(sources[bitIdx], idx, srcIdx);
      var next := pack | (v << bitIdx);
      forall b | 0 <= b < BitsPerPack
        ensures BitAt(next, b) == (b < bitIdx + 1 && Bit(sources[b], idx, srcIdx) == 1)
      {
        OrShiftedBit(pack, v, bitIdx, b);
      }
      pack := next;
    }
  }

  /** One pack for every object of `subset` (`dstPackedFeaturesData`). */
  method ComputePack(subset: seq<nat>, sources: seq<BitSource>) returns (dst: seq<bv8>)
    requires |sources| <= BitsPerPack
    requires forall j, idx :: 0 <= j < |sources| && 0 <= idx < |subset| ==> Callable(sources[j], idx, subset[idx])
    ensures |dst| == |subset|
    ensures forall idx, b :: 0 <= idx < |subset| && 0 <= b < |sources| ==>
      BitAt(dst[idx], b) == (Bit(sources[b], idx, subset[idx]) == 1)
    ensures forall idx, b :: 0 <= idx < |subset| && |sources| <= b < BitsPerPack ==> !BitAt(dst[idx], b)
  {
    var data := new bv8[|subset|];
    for idx := 0 to |subset|
      invariant forall i, b :: 0 <= i < idx && 0 <= b < |sources| ==>
        BitAt(data[i], b) == (Bit(sources[b], i, subset[i]) == 1)
      invariant forall i, b :: 0 <= i < idx && |sources| <= b < BitsPerPack ==> !BitAt(data[i], b)
    {
      var pack := ComputeObjectPack(sources, idx, subset[idx]);
      data[idx] := pack;
    }
    dst := data[..];
  }

  /** `GetBinaryFloatFeatureFunction`: the raw column and the feature's first
      (only) border; an object's bit is 1 exactly when its raw value is at
      least that border. */
  function GetBinaryFloatFeatureFunction(values: seq<Float>, borders: map<nat, seq<int>>, f: nat): (src: BitSource)
    requires f in borders && |borders[f]| > 0
    ensures forall idx: nat, srcIdx: nat :: srcIdx < |values| ==>
      Callable(src, idx, srcIdx) && (Bit(src, idx, srcIdx) == 1 <==> AtLeast(values[srcIdx], borders[f][0]))
  {
    FloatBit(values, borders[f][0])
  }

  /** `GetBinaryCatFeatureFunction`: an object's bit is its bin in the
      quantized categorical holder. */
  function GetBinaryCatFeatureFunction(holder: CatHolder): (src: BitSource)
    requires holder.QuantizedCat?
    ensures forall idx: nat, srcIdx: nat :: idx < |holder.bins| && holder.bins[idx] < 2 ==>
      Callable(src, idx, srcIdx) && Bit(src, idx, srcIdx) as int == holder.bins[idx]
  {
    CatBit(holder.bins)
  }

  /** Number of packs for `n` layout entries. */
  function PackCount(n: nat): nat
  {
    (n + BitsPerPack - 1) / BitsPerPack
  }

  /** No feature owns two slots. */
  ghost predicate RefsDistinct(refs: seq<PackedRef>)
  {
    forall i, j :: 0 <= i < j < |refs| ==> refs[i] != refs[j]
  }

  /** What packing needs of a layout entry: a float feature with its raw
      column (covering the objects) and at least one border, or a categorical
      feature whose intermediate holder is quantized with bins below 2. */
  ghost predicate RefReady(ref: PackedRef, subset: seq<nat>, floatColumns: seq<Option<seq<Float>>>,
                           borders: map<nat, seq<int>>, floatHolders: seq<Option<FloatHolder>>,
                           catHolders: seq<Option<CatHolder>>)
  {
    match ref
    case FloatRef(f) =>
      f < |floatColumns| && f < |floatHolders| && floatColumns[f].Some?
      && Covers(subset, floatColumns[f].value) && f in borders && |borders[f]| > 0
    case CatRef(c) =>
      c < |catHolders| && catHolders[c].Some? && catHolders[c].value.QuantizedCat?
      && SourceFits(CatBit(catHolders[c].value.bins), subset)
  }

  /** The bit getter of a ready layout entry. */
  function RefSource(ref: PackedRef, subset: seq<nat>, floatColumns: seq<Option<seq<Float>>>,
                     borders: map<nat, seq<int>>, floatHolders: seq<Option<FloatHolder>>,
                     catHolders: seq<Option<CatHolder>>): (src: BitSource)
    requires RefReady(ref, subset, floatColumns, borders, floatHolders, catHolders)
    ensures SourceFits(src, subset)
  {
    match ref
    case FloatRef(f) => GetBinaryFloatFeatureFunction(floatColumns[f].value, borders, f)
    case CatRef(c) => GetBinaryCatFeatureFunction(catHolders[c].value)
  }

  /** The float part of the packing layout over features `0..k-1`: the
      available float features with exactly one border, in index order. */
  function FloatLayout(available: seq<bool>, borders: map<nat, seq<int>>, k: nat): (refs: seq<PackedRef>)
    requires k <= |available|
  {
    if k == 0 then []
    else
      var prev := FloatLayout(available, borders, k - 1);
      if available[k - 1] && k - 1 in borders && |borders[k - 1]| == 1 then prev + [FloatRef(k - 1)] else prev
  }

  /** `FloatLayout` lists, in increasing index order, exactly the available
      float features below `k` with one border. */
  lemma {:induction false} FloatLayoutLists(available: seq<bool>, borders: map<nat, seq<int>>, k: nat)
    requires k <= |available|
    ensures var refs := FloatLayout(available, borders, k);
      (forall i :: 0 <= i < |refs| ==> refs[i].FloatRef? && refs[i].f < k)
      && (forall i, j :: 0 <= i < j < |refs| ==> refs[i].f < refs[j].f)
      && forall f :: 0 <= f < k ==> (FloatRef(f) in refs <==> available[f] && f in borders && |borders[f]| == 1)
  {
    if k > 0 {
      FloatLayoutLists(available, borders, k - 1);
    }
  }

  /** The categorical part of the packing layout over features `0..k-1`:
      the available categorical features whose perfect hash has exactly two
      values (`binary`), in index order. */
  function CatLayout(available: seq<bool>, binary: seq<bool>, k: nat): (refs: seq<PackedRef>)
    requires k <= |available| && k <= |binary|
  {
    if k == 0 then []
    else
      var prev := CatLayout(available, binary, k - 1);
      if available[k - 1] && binary[k - 1] then prev + [CatRef(k - 1)] else prev
  }

  /** `CatLayout` lists, in increasing index order, exactly the available
      binary categorical features below `k`. */
  lemma {:induction false} CatLayoutLists(available: seq<bool>, binary: seq<bool>, k: nat)
    requires k <= |available| && k <= |binary|
    ensures var refs := CatLayout(available, binary, k);
      (forall i :: 0 <= i < |refs| ==> refs[i].CatRef? && refs[i].c < k)
      && (forall i, j :: 0 <= i < j < |refs| ==> refs[i].c < refs[j].c)
      && forall c :: 0 <= c < k ==> (CatRef(c) in refs <==> available[c] && binary[c])
  {
    if k > 0 {
      CatLayoutLists(available, binary, k - 1);
    }
  }

  /** The packing layout (`PackedBinaryToSrcIndex`): binary float features,
      then binary categorical features. */
  function BinaryLayout(floatAvailable: seq<bool>, borders: map<nat, seq<int>>,
                        catAvailable: seq<bool>, catBinary: seq<bool>): seq<PackedRef>
    requires |catBinary| == |catAvailable|
  {
    FloatLayout(floatAvailable, borders, |floatAvailable|) + CatLayout(catAvailable, catBinary, |catAvailable|)
  }

  /** No feature owns two slots of `BinaryLayout`, and its indices are in
      range. A float feature is in it iff it is available with exactly one
      border; a categorical feature iff it is available and binary. */
  lemma BinaryLayoutLists(floatAvailable: seq<bool>, borders: map<nat, seq<int>>,
                          catAvailable: seq<bool>, catBinary: seq<bool>)
    requires |catBinary| == |catAvailable|
    ensures var refs := BinaryLayout(floatAvailable, borders, catAvailable, catBinary);
      RefsDistinct(refs)
      && (forall i :: 0 <= i < |refs| && refs[i].FloatRef? ==> refs[i].f < |floatAvailable|)
      && (forall i :: 0 <= i < |refs| && refs[i].CatRef? ==> refs[i].c < |catAvailable|)
      && (forall f :: 0 <= f < |floatAvailable| ==>
            (FloatRef(f) in refs <==> floatAvailable[f] && f in borders && |borders[f]| == 1))
      && forall c :: 0 <= c < |catAvailable| ==> (CatRef(c) in refs <==> catAvailable[c] && catBinary[c])
  {
    var floats := FloatLayout(floatAvailable, borders, |floatAvailable|);
    var cats := CatLayout(catAvailable, catBinary, |catAvailable|);
    FloatLayoutLists(floatAvailable, borders, |floatAvailable|);
    CatLayoutLists(catAvailable, catBinary, |catAvailable|);
    var refs := floats + cats;
    assert forall f :: FloatRef(f) in refs <==> FloatRef(f) in floats;
    assert forall c :: CatRef(c) in refs <==> CatRef(c) in cats;
  }

  /** Whether layout entry `ref`'s bit is set for object `idx` at source row
      `srcIdx`: the float value at that row is at least the feature's single
      border, or the categorical bin of the object is 1. */
  ghost predicate LayoutBit(ref: PackedRef, columns: seq<Option<seq<Float>>>, borders: map<nat, seq<int>>,
                            catBins: seq<seq<nat>>, idx: nat, srcIdx: nat)
  {
    match ref
    case FloatRef(f) =>
      f < |columns| && columns[f].Some? && srcIdx < |columns[f].value| && f in borders && |borders[f]| > 0
      && AtLeast(columns[f].value[srcIdx], borders[f][0])
    case CatRef(c) => c < |catBins| && idx < |catBins[c]| && catBins[c][idx] == 1
  }

  /** The packs of a layout: one per eight entries, one byte per object of
      `subset`; bit `b` of pack `p` is the bit of entry `8p + b`, and 0 past
      the layout's end. */
  ghost predicate PacksHold(packs: seq<seq<bv8>>, refs: seq<PackedRef>, subset: seq<nat>,
                            columns: seq<Option<seq<Float>>>, borders: map<nat, seq<int>>, catBins: seq<seq<nat>>)
  {
    |packs| == PackCount(|refs|)
    && (forall p :: 0 <= p < |packs| ==> |packs[p]| == |subset|)
    && forall p, idx, b :: 0 <= p < |packs| && 0 <= idx < |subset| && 0 <= b < BitsPerPack ==>
         BitAt(packs[p][idx], b) ==
           (p * BitsPerPack + b < |refs| && LayoutBit(refs[p * BitsPerPack + b], columns, borders, catBins, idx, subset[idx]))
  }

  /** Holders and raw float columns after packing: every layout entry's
      holder is its slot `(i / 8, i % 8)`, every other holder is as before,
      and a packed float feature's raw column is destroyed when clearing. */
  ghost predicate SlotsAssigned(refs: seq<PackedRef>, clear: bool,
                                floatHolders: seq<Option<FloatHolder>>, catHolders: seq<Option<CatHolder>>,
                                columns: seq<Option<seq<Float>>>,
                                floatOut: seq<Option<FloatHolder>>, catOut: seq<Option<CatHolder>>,
                                floatColumns: seq<Option<seq<Float>>>)
  {
    |floatOut| == |floatHolders| && |catOut| == |catHolders| && |floatColumns| == |columns|
    && (forall i :: 0 <= i < |refs| && refs[i].FloatRef? && refs[i].f < |floatOut| ==>
          floatOut[refs[i].f] == Some(PackedBinaryFloat(i / BitsPerPack, i % BitsPerPack)))
    && (forall i :: 0 <= i < |refs| && refs[i].CatRef? && refs[i].c < |catOut| ==>
          catOut[refs[i].c] == Some(PackedBinaryCat(i / BitsPerPack, i % BitsPerPack)))
    && (forall f :: 0 <= f < |floatHolders| && FloatRef(f) !in refs ==> floatOut[f] == floatHolders[f])
    && (forall c :: 0 <= c < |catHolders| && CatRef(c) !in refs ==> catOut[c] == catHolders[c])
    && (forall f :: 0 <= f < |columns| ==>
          floatColumns[f] == if clear && FloatRef(f) in refs then None else columns[f])
  }

  /** The getter of a ready entry yields 1 exactly when `LayoutBit` holds,
      given that a categorical entry's holder carries `catBins`' bins. */
  lemma RefBit(ref: PackedRef, subset: seq<nat>, columns: seq<Option<seq<Float>>>, borders: map<nat, seq<int>>,
               floatHolders: seq<Option<FloatHolder>>, catHolders: seq<Option<CatHolder>>,
               catBins: seq<seq<nat>>, idx: nat)
    requires RefReady(ref, subset, columns, borders, floatHolders, catHolders) && idx < |subset|
    requires ref.CatRef? ==> ref.c < |catBins| && catHolders[ref.c] == Some(QuantizedCat(catBins[ref.c]))
    ensures (Bit(RefSource(ref, subset, columns, borders, floatHolders, catHolders), idx, subset[idx]) == 1)
      == LayoutBit(ref, columns, borders, catBins, idx, subset[idx])
  {
    var src := RefSource(ref, subset, columns, borders, floatHolders, catHolders);
    assert Callable(src, idx, subset[idx]);
  }

  /** `BinarizeFeatures`, pack after pack. `refs` is the layout
      (`packedBinaryToSrcIndex`), `subset` the objects' source rows. Bit `b` of
      pack `p` of an object is the bit of layout entry `8p + b`, and 0 past the
      end of the layout; each packed feature's holder becomes its slot; a
      packed float feature's raw column is destroyed when the source objects
      data is cleared. */
  method BinarizeFeatures(subset: seq<nat>, clearSrcObjectsData: bool, refs: seq<PackedRef>,
                          raw: RawDataProvider, borders: map<nat, seq<int>>,
                          floatHolders: seq<Option<FloatHolder>>, catHolders: seq<Option<CatHolder>>)
    returns (packs: seq<seq<bv8>>, floatOut: seq<Option<FloatHolder>>, catOut: seq<Option<CatHolder>>)
    modifies raw
    requires RefsDistinct(refs)
    requires forall i :: 0 <= i < |refs| && refs[i].FloatRef? ==> refs[i].f < |floatHolders|
    requires forall i :: 0 <= i < |refs| && refs[i].CatRef? ==> refs[i].c < |catHolders|
    requires forall i :: 0 <= i < |refs| ==>
      RefReady(refs[i], subset, raw.floatColumns, borders, floatHolders, catHolders)
    ensures |packs| == PackCount(|refs|)
    ensures forall p :: 0 <= p < |packs| ==> |packs[p]| == |subset|
    ensures forall p, idx, b :: 0 <= p < |packs| && 0 <= idx < |subset| && 0 <= b < BitsPerPack ==>
      BitAt(packs[p][idx], b) ==
        (p * BitsPerPack + b < |refs|
         && Bit(RefSource(refs[p * BitsPerPack + b], subset, old(raw.floatColumns), borders, floatHolders, catHolders),
                idx, subset[idx]) == 1)
    ensures |floatOut| == |floatHolders| && |catOut| == |catHolders|
    ensures forall i :: 0 <= i < |refs| && refs[i].FloatRef? ==>
      floatOut[refs[i].f] == Some(PackedBinaryFloat(i / BitsPerPack, i % BitsPerPack))
    ensures forall i :: 0 <= i < |refs| && refs[i].CatRef? ==>
      catOut[refs[i].c] == Some(PackedBinaryCat(i / BitsPerPack, i % BitsPerPack))
    ensures forall f :: 0 <= f < |floatHolders| && FloatRef(f) !in refs ==> floatOut[f] == floatHolders[f]
    ensures forall c :: 0 <= c < |catHolders| && CatRef(c) !in refs ==> catOut[c] == catHolders[c]
    ensures |raw.floatColumns| == old(|raw.floatColumns|)
    ensures forall f :: 0 <= f < |raw.floatColumns| ==>
      raw.floatColumns[f] == if clearSrcObjectsData && FloatRef(f) in refs then None else old(raw.floatColumns[f])
    ensures raw.catColumns == old(raw.catColumns)
  {
    ghost var columns := raw.floatColumns;
    var n := |refs|;
    packs := [];
    floatOut := floatHolders;
    catOut := catHolders;
    for packIdx := 0 to PackCount(n)
      invariant |packs| == packIdx
      invariant PacksCorrect(packs, refs, subset, columns, borders, floatHolders, catHolders)
      invariant PackedUpTo(refs, Done(packIdx, n), clearSrcObjectsData, columns, raw.floatColumns,
                           floatHolders, floatOut, catHolders, catOut)
      invariant raw.catColumns == old(raw.catColumns)
    {
      var startIdx := packIdx * BitsPerPack;
      var endIdx := if startIdx + BitsPerPack < n then startIdx + BitsPerPack else n;
      assert Done(packIdx, n) == startIdx;
      var dst := BuildPack(subset, refs, packIdx, raw.floatColumns, borders, floatOut, catOut,
                           clearSrcObjectsData, columns, floatHolders, catHolders);
      PacksAppend(packs, dst, refs, subset, columns, borders, floatHolders, catHolders);
      packs := packs + [dst];
      floatOut, catOut := AssignSlots(refs, packIdx, endIdx, clearSrcObjectsData, raw, floatOut, catOut,
                                      columns, floatHolders, catHolders);
      assert Done(packIdx + 1, n) == endIdx;
    }
    assert Done(PackCount(n), n) == n;
    AllPacked(refs, clearSrcObjectsData, columns, raw.floatColumns, floatHolders, floatOut, catHolders, catOut);
  }

  /** Pack `packIdx` for every object (`dstPackedFeaturesData`): bit `b` is
      the bit of layout entry `8 * packIdx + b`, and 0 past the layout's end. */
  method BuildPack(subset: seq<nat>, refs: seq<PackedRef>, packIdx: nat,
                   floatColumns: seq<Option<seq<Float>>>, borders: map<nat, seq<int>>,
                   floatOut: seq<Option<FloatHolder>>, catOut: seq<Option<CatHolder>>, ghost clear: bool,
                   ghost columns: seq<Option<seq<Float>>>,
                   ghost floatHolders: seq<Option<FloatHolder>>, ghost catHolders: seq<Option<CatHolder>>)
    returns (dst: seq<bv8>)
    requires RefsDistinct(refs) && packIdx * BitsPerPack < |refs|
    requires forall i :: 0 <= i < |refs| ==> RefReady(refs[i], subset, columns, borders, floatHolders, catHolders)
    requires PackedUpTo(refs, packIdx * BitsPerPack, clear, columns, floatColumns,
                        floatHolders, floatOut, catHolders, catOut)
    ensures |dst| == |subset|
    ensures forall idx, b :: 0 <= idx < |subset| && 0 <= b < BitsPerPack ==>
      BitAt(dst[idx], b) ==
        (packIdx * BitsPerPack + b < |refs|
         && Bit(RefSource(refs[packIdx * BitsPerPack + b], subset, columns, borders, floatHolders, catHolders),
                idx, subset[idx]) == 1)
  {
    var startIdx := packIdx * BitsPerPack;
    var endIdx := if startIdx + BitsPerPack < |refs| then startIdx + BitsPerPack else |refs|;
    var sources := CollectBitFunctions(refs, startIdx, endIdx, subset, floatColumns, borders,
                                       floatOut, catOut, clear, columns, floatHolders, catHolders);
    dst := ComputePack(subset, sources);
    forall idx, b | 0 <= idx < |subset| && 0 <= b < BitsPerPack
      ensures BitAt(dst[idx], b) ==
        (startIdx + b < |refs|
         && Bit(RefSource(refs[startIdx + b], subset, columns, borders, floatHolders, catHolders),
                idx, subset[idx]) == 1)
    {
      if b < |sources| {
        assert startIdx + b < |refs|;
        assert sources[b] == RefSource(refs[startIdx + b], subset, columns, borders, floatHolders, catHolders);
        assert BitAt(dst[idx], b) == (Bit(sources[b], idx, subset[idx]) == 1);
      } else {
        assert startIdx + b >= |refs|;
        assert !BitAt(dst[idx], b);
      }
    }
  }

  /** The getters of layout entries `startIdx .. endIdx-1` (`getBitFunctions`),
      read from the current state: entries not packed yet still see the
      original columns and holders. */
  method CollectBitFunctions(refs: seq<PackedRef>, startIdx: nat, endIdx: nat, subset: seq<nat>,
                             floatColumns: seq<Option<seq<Float>>>, borders: map<nat, seq<int>>,
                             floatOut: seq<Option<FloatHolder>>, catOut: seq<Option<CatHolder>>,
                             ghost clear: bool, ghost columns: seq<Option<seq<Float>>>,
                             ghost floatHolders: seq<Option<FloatHolder>>, ghost catHolders: seq<Option<CatHolder>>)
    returns (sources: seq<BitSource>)
    requires RefsDistinct(refs) && startIdx <= endIdx <= |refs|
    requires forall i :: 0 <= i < |refs| ==> RefReady(refs[i], subset, columns, borders, floatHolders, catHolders)
    requires PackedUpTo(refs, startIdx, clear, columns, floatColumns, floatHolders, floatOut, catHolders, catOut)
    ensures |sources| == endIdx - startIdx
    ensures forall j :: 0 <= j < |sources| ==>
      sources[j] == RefSource(refs[startIdx + j], subset, columns, borders, floatHolders, catHolders)
  {
    sources := [];
    for it := startIdx to endIdx
      invariant |sources| == it - startIdx
      invariant forall j :: 0 <= j < |sources| ==>
        sources[j] == RefSource(refs[startIdx + j], subset, columns, borders, floatHolders, catHolders)
    {
      NotYetPacked(refs, startIdx, it);
      match refs[it]
      case FloatRef(f) =>
        sources := sources + [GetBinaryFloatFeatureFunction(floatColumns[f].value, borders, f)];
      case CatRef(c) =>
        sources := sources + [GetBinaryCatFeatureFunction(catOut[c].value)];
    }
  }

  /** The holders of pack `packIdx`'s features become its slots, and their
      raw float columns are destroyed when clearing (`SetBinaryFeatureColumn`
      and `Destroy` per bit). */
  method AssignSlots(refs: seq<PackedRef>, packIdx: nat, endIdx: nat, clear: bool, raw: RawDataProvider,
                     floatIn: seq<Option<FloatHolder>>, catIn: seq<Option<CatHolder>>,
                     ghost columns: seq<Option<seq<Float>>>,
                     ghost floatHolders: seq<Option<FloatHolder>>, ghost catHolders: seq<Option<CatHolder>>)
    returns (floatOut: seq<Option<FloatHolder>>, catOut: seq<Option<CatHolder>>)
    modifies raw
    requires RefsDistinct(refs)
    requires packIdx * BitsPerPack <= endIdx <= |refs| && endIdx <= packIdx * BitsPerPack + BitsPerPack
    requires forall i :: 0 <= i < |refs| && refs[i].FloatRef? ==> refs[i].f < |floatHolders| && refs[i].f < |columns|
    requires forall i :: 0 <= i < |refs| && refs[i].CatRef? ==> refs[i].c < |catHolders|
    requires PackedUpTo(refs, packIdx * BitsPerPack, clear, columns, raw.floatColumns,
                        floatHolders, floatIn, catHolders, catIn)
    ensures PackedUpTo(refs, endIdx, clear, columns, raw.floatColumns, floatHolders, floatOut, catHolders, catOut)
    ensures raw.catColumns == old(raw.catColumns)
  {
    var startIdx := packIdx * BitsPerPack;
    floatOut, catOut := floatIn, catIn;
    for bitIdx := 0 to endIdx - startIdx
      invariant PackedUpTo(refs, startIdx + bitIdx, clear, columns, raw.floatColumns,
                           floatHolders, floatOut, catHolders, catOut)
      invariant raw.catColumns == old(raw.catColumns)
    {
      var i := startIdx + bitIdx;
      assert |floatOut| == |floatHolders| && |catOut| == |catHolders|;
      assert i / BitsPerPack == packIdx && i % BitsPerPack == bitIdx;
      FloatSlotsStep(refs, i, floatHolders, floatOut);
      CatSlotsStep(refs, i, catHolders, catOut);
      ColumnsStep(refs, i, clear, columns, raw.floatColumns);
      match refs[i]
      case FloatRef(f) =>
        floatOut := floatOut[f := Some(PackedBinaryFloat(packIdx, bitIdx))];
        if clear {
          raw.floatColumns := raw.floatColumns[f := None];
        }
      case CatRef(c) =>
        catOut := catOut[c := Some(PackedBinaryCat(packIdx, bitIdx))];
    }
  }

  /** Layout entries handled by the first `packIdx` packs. */
  function Done(packIdx: nat, n: nat): nat
  {
    if packIdx * BitsPerPack < n then packIdx * BitsPerPack else n
  }

  /** Float holders after the first `done` layout entries have been packed:
      those entries' holders point at their slots, the others are untouched. */
  ghost predicate FloatSlots(refs: seq<PackedRef>, done: nat,
                             floatHolders: seq<Option<FloatHolder>>, floatOut: seq<Option<FloatHolder>>)
  {
    done <= |refs| && |floatOut| == |floatHolders|
    && (forall i :: 0 <= i < done && refs[i].FloatRef? && refs[i].f < |floatOut| ==>
          floatOut[refs[i].f] == Some(PackedBinaryFloat(i / BitsPerPack, i % BitsPerPack)))
    && (forall f :: 0 <= f < |floatHolders| && FloatRef(f) !in refs[..done] ==> floatOut[f] == floatHolders[f])
  }

  /** Categorical holders after the first `done` layout entries have been packed. */
  ghost predicate CatSlots(refs: seq<PackedRef>, done: nat,
                           catHolders: seq<Option<CatHolder>>, catOut: seq<Option<CatHolder>>)
  {
    done <= |refs| && |catOut| == |catHolders|
    && (forall i :: 0 <= i < done && refs[i].CatRef? && refs[i].c < |catOut| ==>
          catOut[refs[i].c] == Some(PackedBinaryCat(i / BitsPerPack, i % BitsPerPack)))
    && (forall c :: 0 <= c < |catHolders| && CatRef(c) !in refs[..done] ==> catOut[c] == catHolders[c])
  }

  /** Raw float columns after the first `done` layout entries have been
      packed: those entries' columns are destroyed when clearing. */
  ghost predicate ColumnsUpTo(refs: seq<PackedRef>, done: nat, clear: bool,
                              columns: seq<Option<seq<Float>>>, floatColumns: seq<Option<seq<Float>>>)
  {
    done <= |refs| && |floatColumns| == |columns|
    && forall f :: 0 <= f < |columns| ==>
         floatColumns[f] == if clear && FloatRef(f) in refs[..done] then None else columns[f]
  }

  ghost predicate PackedUpTo(refs: seq<PackedRef>, done: nat, clear: bool,
                             columns: seq<Option<seq<Float>>>, floatColumns: seq<Option<seq<Float>>>,
                             floatHolders: seq<Option<FloatHolder>>, floatOut: seq<Option<FloatHolder>>,
                             catHolders: seq<Option<CatHolder>>, catOut: seq<Option<CatHolder>>)
  {
    FloatSlots(refs, done, floatHolders, floatOut) && CatSlots(refs, done, catHolders, catOut)
    && ColumnsUpTo(refs, done, clear, columns, floatColumns)
  }

  /** Every pack so far holds, for every object, the bits of its layout
      entries and zeros past the layout's end. */
  ghost predicate PacksCorrect(packs: seq<seq<bv8>>, refs: seq<PackedRef>, subset: seq<nat>,
                               columns: seq<Option<seq<Float>>>, borders: map<nat, seq<int>>,
                               floatHolders: seq<Option<FloatHolder>>, catHolders: seq<Option<CatHolder>>)
  {
    (forall i :: 0 <= i < |refs| ==> RefReady(refs[i], subset, columns, borders, floatHolders, catHolders))
    && (forall p :: 0 <= p < |packs| ==> |packs[p]| == |subset|)
    && forall p, idx, b :: 0 <= p < |packs| && 0 <= idx < |subset| && 0 <= b < BitsPerPack ==>
         BitAt(packs[p][idx], b) ==
           (p * BitsPerPack + b < |refs|
            && Bit(RefSource(refs[p * BitsPerPack + b], subset, columns, borders, floatHolders, catHolders),
                   idx, subset[idx]) == 1)
  }

  lemma PacksAppend(packs: seq<seq<bv8>>, dst: seq<bv8>, refs: seq<PackedRef>, subset: seq<nat>,
                    columns: seq<Option<seq<Float>>>, borders: map<nat, seq<int>>,
                    floatHolders: seq<Option<FloatHolder>>, catHolders: seq<Option<CatHolder>>)
    requires PacksCorrect(packs, refs, subset, columns, borders, floatHolders, catHolders)
    requires |dst| == |subset|
    requires forall idx, b :: 0 <= idx < |subset| && 0 <= b < BitsPerPack ==>
      BitAt(dst[idx], b) ==
        (|packs| * BitsPerPack + b < |refs|
         && Bit(RefSource(refs[|packs| * BitsPerPack + b], subset, columns, borders, floatHolders, catHolders),
                idx, subset[idx]) == 1)
    ensures PacksCorrect(packs + [dst], refs, subset, columns, borders, floatHolders, catHolders)
  {
    var packs' := packs + [dst];
    forall p, idx, b | 0 <= p < |packs'| && 0 <= idx < |subset| && 0 <= b < BitsPerPack
      ensures BitAt(packs'[p][idx], b) ==
        (p * BitsPerPack + b < |refs|
         && Bit(RefSource(refs[p * BitsPerPack + b], subset, columns, borders, floatHolders, catHolders),
                idx, subset[idx]) == 1)
    {
      if p < |packs| {
        assert packs'[p] == packs[p];
      }
    }
  }

  /** Once every layout entry is packed, the state is as `BinarizeFeatures` promises. */
  lemma AllPacked(refs: seq<PackedRef>, clear: bool,
                  columns: seq<Option<seq<Float>>>, floatColumns: seq<Option<seq<Float>>>,
                  floatHolders: seq<Option<FloatHolder>>, floatOut: seq<Option<FloatHolder>>,
                  catHolders: seq<Option<CatHolder>>, catOut: seq<Option<CatHolder>>)
    requires PackedUpTo(refs, |refs|, clear, columns, floatColumns, floatHolders, floatOut, catHolders, catOut)
    ensures |floatOut| == |floatHolders| && |catOut| == |catHolders| && |floatColumns| == |columns|
    ensures forall i :: 0 <= i < |refs| && refs[i].FloatRef? && refs[i].f < |floatOut| ==>
      floatOut[refs[i].f] == Some(PackedBinaryFloat(i / BitsPerPack, i % BitsPerPack))
    ensures forall i :: 0 <= i < |refs| && refs[i].CatRef? && refs[i].c < |catOut| ==>
      catOut[refs[i].c] == Some(PackedBinaryCat(i / BitsPerPack, i % BitsPerPack))
    ensures forall f :: 0 <= f < |floatHolders| && FloatRef(f) !in refs ==> floatOut[f] == floatHolders[f]
    ensures forall c :: 0 <= c < |catHolders| && CatRef(c) !in refs ==> catOut[c] == catHolders[c]
    ensures forall f :: 0 <= f < |columns| ==>
      floatColumns[f] == if clear && FloatRef(f) in refs then None else columns[f]
  {
    assert refs[..|refs|] == refs;
  }

  /** With distinct entries, the entry at `it >= done` is not among the first `done`. */
  lemma NotYetPacked(refs: seq<PackedRef>, done: nat, it: nat)
    requires RefsDistinct(refs) && done <= it < |refs|
    ensures refs[it] !in refs[..done]
  {
  }

  /** Assigning the slot of layout entry `done` extends the float slots by that entry. */
  lemma FloatSlotsStep(refs: seq<PackedRef>, done: nat,
                       floatHolders: seq<Option<FloatHolder>>, floatOut: seq<Option<FloatHolder>>)
    requires RefsDistinct(refs) && done < |refs| && FloatSlots(refs, done, floatHolders, floatOut)
    ensures refs[done].FloatRef? && refs[done].f < |floatOut| ==>
      FloatSlots(refs, done + 1, floatHolders,
                 floatOut[refs[done].f := Some(PackedBinaryFloat(done / BitsPerPack, done % BitsPerPack))])
    ensures refs[done].CatRef? ==> FloatSlots(refs, done + 1, floatHolders, floatOut)
  {
    assert refs[..done + 1] == refs[..done] + [refs[done]];
    NotYetPacked(refs, done, done);
  }

  /** Assigning the slot of layout entry `done` extends the categorical slots by that entry. */
  lemma CatSlotsStep(refs: seq<PackedRef>, done: nat,
                     catHolders: seq<Option<CatHolder>>, catOut: seq<Option<CatHolder>>)
    requires RefsDistinct(refs) && done < |refs| && CatSlots(refs, done, catHolders, catOut)
    ensures refs[done].CatRef? && refs[done].c < |catOut| ==>
      CatSlots(refs, done + 1, catHolders,
               catOut[refs[done].c := Some(PackedBinaryCat(done / BitsPerPack, done % BitsPerPack))])
    ensures refs[done].FloatRef? ==> CatSlots(refs, done + 1, catHolders, catOut)
  {
    assert refs[..done + 1] == refs[..done] + [refs[done]];
    NotYetPacked(refs, done, done);
  }

  /** Destroying the raw column of layout entry `done`, when clearing, extends the destroyed columns by that entry. */
  lemma ColumnsStep(refs: seq<PackedRef>, done: nat, clear: bool,
                    columns: seq<Option<seq<Float>>>, floatColumns: seq<Option<seq<Float>>>)
    requires RefsDistinct(refs) && done < |refs| && ColumnsUpTo(refs, done, clear, columns, floatColumns)
    ensures refs[done].FloatRef? && refs[done].f < |floatColumns| && clear ==>
      ColumnsUpTo(refs, done + 1, clear, columns, floatColumns[refs[done].f := None])
    ensures refs[done].CatRef? || !clear || refs[done].f >= |columns| ==>
      ColumnsUpTo(refs, done + 1, clear, columns, floatColumns)
  {
    assert refs[..done + 1] == refs[..done] + [refs[done]];
  }
}
