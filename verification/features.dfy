/** Per-feature processing: `ProcessFloatFeature` and `ProcessCatFeature`,
    which pick the destination holder and update the shared features info. */
module Features {
  import opened QuantizationTypes
  import opened FeaturesInfo
  import opened Borders

  /** The holder `ProcessFloatFeature` produces for a feature with `borders`
      and `nanMode`. None leaves the slot empty: borders-only mode, no
      borders (the feature is then ignored), or a binary feature whose bit is
      filled in later by packing. */
  function FloatHolderFor(options: QuantizationOptions, clearSrcData: bool, bordersOnly: bool,
                          borders: seq<int>, nanMode: NanMode, allowNansInTestOnly: bool): (r: Option<FloatHolder>)
    ensures r == Some(ExternalFloat) <==>
      !bordersOnly && |borders| > 0 && !options.cpuCompatibleFormat && !clearSrcData
    ensures (r.Some? && r.value.QuantizedFloat?) <==>
      !bordersOnly && |borders| > 0 && (options.cpuCompatibleFormat || clearSrcData)
      && (!options.cpuCompatibleFormat || !options.packBinaryFeaturesForCpu || |borders| > 1)
    ensures r.Some? && r.value.QuantizedFloat? ==>
      r.value.allowNans == (nanMode != Forbidden || allowNansInTestOnly)
    ensures r.Some? ==> !r.value.PackedBinaryFloat?
    ensures r.None? <==>
      bordersOnly || |borders| == 0
      || (options.cpuCompatibleFormat && options.packBinaryFeaturesForCpu && |borders| == 1)
  {
    if bordersOnly || |borders| == 0 then None
    else if !options.cpuCompatibleFormat && !clearSrcData then Some(ExternalFloat)
    else if !options.cpuCompatibleFormat || !options.packBinaryFeaturesForCpu || |borders| > 1 then
      Some(QuantizedFloat(nanMode != Forbidden || allowNansInTestOnly))
    else None
  }

  /** `ProcessFloatFeature` for float feature `f`, whose raw values are
      `column`; `rows` is the subset for building borders. Nan mode and
      borders are reused when both are known, computed when both are unknown,
      and a mismatch is an internal error. Computed values are stored, and a
      feature with no borders is ignored. Values already known are never
      overwritten. */
  method ProcessFloatFeature(f: nat, column: seq<Float>, rows: seq<nat>, options: QuantizationOptions,
                             clearSrcData: bool, bordersOnly: bool, info: QuantizedFeaturesInfo,
                             bestSplit: (seq<Finite>, nat) -> seq<Inner>)
    returns (r: Result<Option<FloatHolder>>)
    modifies info
    requires f < |info.floatAvailable|
    requires Covers(rows, column)
    ensures info.catAvailable == old(info.catAvailable) && info.processed == old(info.processed)
    ensures old((f in info.nanModes) != (f in info.borders)) ==>
      r == Err(NanModeBordersMismatch) && unchanged(info)
    ensures old(f in info.nanModes && f in info.borders) ==>
      r == Ok(FloatHolderFor(options, clearSrcData, bordersOnly, old(info.borders[f]), old(info.nanModes[f]),
                             info.allowNansInTestOnly))
      && unchanged(info)
    ensures old(f !in info.nanModes && f !in info.borders) ==>
      var computed := BordersAndNanMode(Gather(column, rows), info.binarization, bestSplit);
      (computed.Err? ==> r == Err(computed.error) && unchanged(info))
      && (computed.Ok? ==>
            r == Ok(FloatHolderFor(options, clearSrcData, bordersOnly, computed.value.1, computed.value.0,
                                   info.allowNansInTestOnly))
            && info.nanModes == old(info.nanModes)[f := computed.value.0]
            && info.borders == old(info.borders)[f := computed.value.1]
            && info.floatAvailable ==
                 if |computed.value.1| == 0 then old(info.floatAvailable)[f := false] else old(info.floatAvailable))
    ensures forall g :: g in old(info.borders) ==> g in info.borders && info.borders[g] == old(info.borders[g])
    ensures forall g :: g in old(info.nanModes) ==> g in info.nanModes && info.nanModes[g] == old(info.nanModes[g])
    ensures r.Ok? ==> f in info.borders && f in info.nanModes
    ensures r.Err? ==> PerFeatureError(r.error)
  {
    var calculateNanMode := f !in info.nanModes;
    var calculateBorders := f !in info.borders;
    if calculateNanMode != calculateBorders {
      return Err(NanModeBordersMismatch);
    }
    var nanMode: NanMode;
    var borders: seq<int>;
    if calculateNanMode {
      var computed := CalcBordersAndNanMode(column, rows, info.binarization, bestSplit);
      if computed.Err? {
        return Err(computed.error);
      }
      nanMode, borders := computed.value.0, computed.value.1;
    } else {
      nanMode, borders := info.nanModes[f], info.borders[f];
    }
    var holder := FloatHolderFor(options, clearSrcData, bordersOnly, borders, nanMode, info.allowNansInTestOnly);
    if calculateNanMode {
      info.nanModes := info.nanModes[f := nanMode];
      if |borders| == 0 {
        info.floatAvailable := info.floatAvailable[f := false];
      }
      info.borders := info.borders[f := borders];
    }
    return Ok(holder);
  }

  /** `ProcessCatFeature` for categorical feature `c`. The perfect-hash
      update is outside this model: `uniqueOnLearn` is the learn-only count
      of distinct values after it, and `bins` the per-object bins it wrote.
      A feature with more than one value gets an external holder (GPU-only,
      source kept) or its quantized bins; a constant one gets none and is
      ignored. */
  method ProcessCatFeature(c: nat, options: QuantizationOptions, clearSrcData: bool,
                           info: QuantizedFeaturesInfo, uniqueOnLearn: nat, bins: seq<nat>)
    returns (holder: Option<CatHolder>)
    modifies info
    requires c < |info.catAvailable|
    ensures holder.Some? <==> uniqueOnLearn > 1
    ensures holder == Some(ExternalCat) <==> uniqueOnLearn > 1 && !options.cpuCompatibleFormat && !clearSrcData
    ensures uniqueOnLearn > 1 && (options.cpuCompatibleFormat || clearSrcData) ==> holder == Some(QuantizedCat(bins))
    ensures info.catAvailable ==
      if uniqueOnLearn > 1 then old(info.catAvailable) else old(info.catAvailable)[c := false]
    ensures info.floatAvailable == old(info.floatAvailable) && info.processed == old(info.processed)
    ensures info.nanModes == old(info.nanModes) && info.borders == old(info.borders)
  {
    var storeAsExternalValuesHolder := !options.cpuCompatibleFormat && !clearSrcData;
    if uniqueOnLearn > 1 {
      if storeAsExternalValuesHolder {
        holder := Some(ExternalCat);
      } else {
        holder := Some(QuantizedCat(bins));
      }
    } else {
      info.catAvailable := info.catAvailable[c := false];
      holder := None;
    }
  }
}
