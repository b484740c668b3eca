/** `TQuantizationImpl::Do` and the public entry points built on it:
    border computation only, quantization of one data provider, and
    quantization of a learn provider followed by its test providers. */
module Quantization {
  import opened QuantizationTypes
  import opened FeaturesInfo
  import opened BorderSample
  import opened Features
  import opened Packing
  import Borders

  /** What one run takes from outside this model: the value of
      `GetSampleSizeForBorderSelectionType`, the successive
      `rand->Uniform(i, objectCount)` draws, the order `Shuffle` produces,
      the perfect-hash results per categorical feature (learn-only count of
      distinct values, per-object bins, and whether it has exactly two values
      over all data, which makes the feature binary), and whether the source
      objects data may be cleared (its reference counts are at most 1). */
  datatype RunInputs = RunInputs(
    sampleSize: nat,
    draws: seq<nat>,
    fullShuffle: seq<nat>,
    catUniqueOnLearn: seq<nat>,
    catBins: seq<seq<nat>>,
    catBinary: seq<bool>,
    clearSrcObjectsData: bool)

  /** The quantized data provider, as far as this model follows it: the
      source it came from, one holder slot per feature, the binary-features
      layout and its packs (`PackedBinaryFeaturesData`), and whether it is in
      the CPU format. */
  datatype QuantizedData = QuantizedData(
    sourceId: nat,
    floatHolders: seq<Option<FloatHolder>>,
    catHolders: seq<Option<CatHolder>>,
    layout: seq<PackedRef>,
    packs: seq<seq<bv8>>,
    cpuFormat: bool)

  /** The outside inputs of a run fit the provider: draws in range, a
      permutation for the full shuffle, one entry per categorical feature, and
      the bins of a binary categorical feature are 0 or 1 for every object. */
  ghost predicate InputsFit(inputs: RunInputs, objectCount: nat, catCount: nat)
  {
    (inputs.sampleSize < objectCount ==> DrawsInRange(inputs.draws, inputs.sampleSize, objectCount))
    && IsPermutationOfRange(inputs.fullShuffle, objectCount)
    && |inputs.catUniqueOnLearn| == catCount && |inputs.catBins| == catCount && |inputs.catBinary| == catCount
    && forall c :: 0 <= c < catCount && inputs.catBinary[c] ==>
         |inputs.catBins[c]| == objectCount && forall k :: 0 <= k < objectCount ==> inputs.catBins[c][k] < 2
  }

  /** The provider has a column per feature of the layout, and the columns of
      the float features marked available are present and cover its objects. */
  ghost predicate ProviderFits(raw: RawDataProvider, floatAvailable: seq<bool>, catCount: nat)
    reads raw
  {
    |raw.floatColumns| == |floatAvailable| && |raw.catColumns| == catCount
    && forall f :: 0 <= f < |floatAvailable| && floatAvailable[f] ==>
         raw.floatColumns[f].Some? && Covers(raw.subsetIndexing, raw.floatColumns[f].value)
  }

  /** A provider that fits a layout fits it with fewer features available. */
  lemma FitsFewerFeatures(raw: RawDataProvider, wider: seq<bool>, narrower: seq<bool>, catCount: nat)
    requires ProviderFits(raw, wider, catCount)
    requires |narrower| == |wider| && forall f :: 0 <= f < |narrower| && narrower[f] ==> wider[f]
    ensures ProviderFits(raw, narrower, catCount)
  {
  }

  /** The rows whose values build the borders: the subset chosen by
      `GetSubsetForBuildBorders` when there is one, the provider's own
      subset indexing otherwise. `need` is `NeedToCalcBorders`. */
  function BorderRows(srcIndexing: seq<nat>, order: ObjectsOrder, need: bool, options: QuantizationOptions,
                      inputs: RunInputs): (rows: seq<nat>)
    requires inputs.sampleSize < |srcIndexing| ==> DrawsInRange(inputs.draws, inputs.sampleSize, |srcIndexing|)
    requires IsPermutationOfRange(inputs.fullShuffle, |srcIndexing|)
    ensures forall k :: 0 <= k < |rows| ==> rows[k] in srcIndexing
  {
    if need && inputs.sampleSize < |srcIndexing| then
      var positions := SamplePositions(order, options, |srcIndexing|, inputs.sampleSize, inputs.draws,
                                       inputs.fullShuffle);
      var rows := Compose(srcIndexing, positions);
      assert forall k :: 0 <= k < |rows| ==> rows[k] == srcIndexing[positions[k]];
      rows
    else srcIndexing
  }

  /** Rows taken from a provider's subset indexing stay within every column
      that subset indexing fits. */
  lemma RowsFromSourceCover(srcIndexing: seq<nat>, rows: seq<nat>, column: seq<Float>)
    requires forall k :: 0 <= k < |rows| ==> rows[k] in srcIndexing
    requires Covers(srcIndexing, column)
    ensures Covers(rows, column)
  {
    forall k | 0 <= k < |rows| ensures rows[k] < |column| {
      var j :| 0 <= j < |srcIndexing| && srcIndexing[j] == rows[k];
    }
  }

  /** `m[g]` if present. */
  function Lookup<V>(m: map<nat, V>, g: nat): (r: Option<V>)
    ensures r.Some? <==> g in m
    ensures r.Some? ==> r.value == m[g]
  {
    if g in m then Some(m[g]) else None
  }

  /** Whether the raw column of a processed float feature is destroyed:
      when clearing, unless it is a binary feature that packing reads later
      (`IsFloatFeatureToBeBinarized`, stated on the feature's values). */
  predicate DestroysFloatColumn(options: QuantizationOptions, clearSrcObjectsData: bool, bordersOnly: bool,
                                available: bool, borders: seq<int>)
  {
    clearSrcObjectsData
    && (bordersOnly
        || !(options.cpuCompatibleFormat && options.packBinaryFeaturesForCpu && available && |borders| == 1))
  }

  /** `nanMode` and `borders` are what `CalcBordersAndNanMode` computes from
      the values of `column` at `rows`. */
  ghost predicate ComputedFrom(column: Option<seq<Float>>, rows: seq<nat>, binarization: BinarizationOptions,
                               bestSplit: (seq<Finite>, nat) -> seq<Inner>, nanMode: NanMode, borders: seq<int>)
  {
    column.Some? && Covers(rows, column.value)
    && Borders.BordersAndNanMode(Borders.Gather(column.value, rows), binarization, bestSplit) == Ok((nanMode, borders))
  }

  /** The state of float feature `g` after its task ran (`process`) or was
      never added. Before: its borders and nan mode, its availability and its
      raw column. After: availability, borders, nan mode, raw column and
      holder slot. A processed feature keeps the borders and nan mode it had,
      or gets those computed from the border sample when it had none; it gets
      the holder `ProcessFloatFeature` picks, stays available iff it has
      borders (or they were given), and loses its raw column by
      `DestroysFloatColumn`. A feature not processed keeps everything. */
  ghost predicate FloatOutcome(options: QuantizationOptions, clearSrcObjectsData: bool, bordersOnly: bool,
                               allowNansInTestOnly: bool, binarization: BinarizationOptions,
                               bestSplit: (seq<Finite>, nat) -> seq<Inner>, rows: seq<nat>,
                               process: bool, bordersBefore: Option<seq<int>>, nanModeBefore: Option<NanMode>,
                               availableBefore: bool, columnBefore: Option<seq<Float>>,
                               available: bool, borders: Option<seq<int>>, nanMode: Option<NanMode>,
                               column: Option<seq<Float>>, holder: Option<FloatHolder>)
  {
    if process then
      borders.Some? && nanMode.Some?
      && holder == FloatHolderFor(options, clearSrcObjectsData, bordersOnly, borders.value, nanMode.value,
                                  allowNansInTestOnly)
      && available == (|borders.value| > 0 || bordersBefore.Some?)
      && (bordersBefore.Some? ==> borders == bordersBefore && nanMode == nanModeBefore)
      && (bordersBefore.None? ==>
            ComputedFrom(columnBefore, rows, binarization, bestSplit, nanMode.value, borders.value))
      && column == if DestroysFloatColumn(options, clearSrcObjectsData, bordersOnly, available, borders.value) then None
                   else columnBefore
    else
      holder == None && available == availableBefore && column == columnBefore
      && borders == bordersBefore && nanMode == nanModeBefore
  }

  /** The error `ProcessFloatFeature` raises for a feature whose borders and
      nan mode were `bordersBefore` and `nanModeBefore`, None when it
      succeeds: one known without the other is a mismatch; both unknown fails
      exactly when computing them from the values of `column` at `rows`
      fails. */
  ghost function FloatError(column: Option<seq<Float>>, rows: seq<nat>, binarization: BinarizationOptions,
                            bestSplit: (seq<Finite>, nat) -> seq<Inner>,
                            bordersBefore: Option<seq<int>>, nanModeBefore: Option<NanMode>): Option<QuantizationError>
  {
    if bordersBefore.Some? != nanModeBefore.Some? then Some(NanModeBordersMismatch)
    else if bordersBefore.Some? || column.None? || !Covers(rows, column.value) then None
    else
      var computed := Borders.BordersAndNanMode(Borders.Gather(column.value, rows), binarization, bestSplit);
      if computed.Err? then Some(computed.error) else None
  }

  /** The error of the first of the float features `0..k-1` marked in
      `toProcess` whose task fails, judged on the state before any task ran;
      None when none fails. */
  ghost function FirstFloatError(columns: seq<Option<seq<Float>>>, toProcess: seq<bool>, rows: seq<nat>,
                                 binarization: BinarizationOptions, bestSplit: (seq<Finite>, nat) -> seq<Inner>,
                                 borders: map<nat, seq<int>>, nanModes: map<nat, NanMode>, k: nat)
    : Option<QuantizationError>
    requires k <= |toProcess| == |columns|
  {
    if k == 0 then None
    else
      var earlier := FirstFloatError(columns, toProcess, rows, binarization, bestSplit, borders, nanModes, k - 1);
      if earlier.Some? then earlier
      else if toProcess[k - 1] then
        FloatError(columns[k - 1], rows, binarization, bestSplit, Lookup(borders, k - 1), Lookup(nanModes, k - 1))
      else None
  }

  /** `FirstFloatError` is the error of the first failing feature: none fails
      when it is None, and otherwise it is the error of a marked feature that
      fails while every marked feature before it succeeds. */
  lemma {:induction false} FirstFloatErrorIsFirst(columns: seq<Option<seq<Float>>>, toProcess: seq<bool>,
                                                  rows: seq<nat>, binarization: BinarizationOptions,
                                                  bestSplit: (seq<Finite>, nat) -> seq<Inner>,
                                                  borders: map<nat, seq<int>>, nanModes: map<nat, NanMode>, k: nat)
    requires k <= |toProcess| == |columns|
    ensures var e := FirstFloatError(columns, toProcess, rows, binarization, bestSplit, borders, nanModes, k);
      (e.None? <==> forall f :: 0 <= f < k && toProcess[f] ==>
         FloatError(columns[f], rows, binarization, bestSplit, Lookup(borders, f), Lookup(nanModes, f)).None?)
      && (e.Some? ==>
            exists f :: (0 <= f < k && toProcess[f]
              && FloatError(columns[f], rows, binarization, bestSplit, Lookup(borders, f), Lookup(nanModes, f)) == e
              && forall g :: 0 <= g < f && toProcess[g] ==>
                   FloatError(columns[g], rows, binarization, bestSplit, Lookup(borders, g), Lookup(nanModes, g)).None?))
  {
    if k > 0 {
      FirstFloatErrorIsFirst(columns, toProcess, rows, binarization, bestSplit, borders, nanModes, k - 1);
    }
  }

  /** Once a feature has failed, later features do not change the first error. */
  lemma {:induction false} FirstFloatErrorStays(columns: seq<Option<seq<Float>>>, toProcess: seq<bool>,
                                                rows: seq<nat>, binarization: BinarizationOptions,
                                                bestSplit: (seq<Finite>, nat) -> seq<Inner>,
                                                borders: map<nat, seq<int>>, nanModes: map<nat, NanMode>,
                                                k: nat, m: nat)
    requires k <= m <= |toProcess| == |columns|
    requires FirstFloatError(columns, toProcess, rows, binarization, bestSplit, borders, nanModes, k).Some?
    ensures FirstFloatError(columns, toProcess, rows, binarization, bestSplit, borders, nanModes, m)
      == FirstFloatError(columns, toProcess, rows, binarization, bestSplit, borders, nanModes, k)
  {
    if m > k {
      FirstFloatErrorStays(columns, toProcess, rows, binarization, bestSplit, borders, nanModes, k, m - 1);
    }
  }

  /** No task fails when every marked feature already has borders and a nan
      mode, as for a test provider after the learn provider was quantized. */
  lemma NoFloatErrorWhenKnown(columns: seq<Option<seq<Float>>>, toProcess: seq<bool>, rows: seq<nat>,
                              binarization: BinarizationOptions, bestSplit: (seq<Finite>, nat) -> seq<Inner>,
                              borders: map<nat, seq<int>>, nanModes: map<nat, NanMode>)
    requires |toProcess| == |columns|
    requires forall f :: 0 <= f < |toProcess| && toProcess[f] ==> f in borders && f in nanModes
    ensures FirstFloatError(columns, toProcess, rows, binarization, bestSplit, borders, nanModes, |toProcess|).None?
  {
    FirstFloatErrorIsFirst(columns, toProcess, rows, binarization, bestSplit, borders, nanModes, |toProcess|);
  }

  /** A binary feature left for packing gets no holder and keeps its raw
      column, which the packing step reads. */
  lemma BinaryFeatureKeepsColumn(options: QuantizationOptions, clearSrcObjectsData: bool, bordersOnly: bool,
                                 allowNansInTestOnly: bool, binarization: BinarizationOptions,
                                 bestSplit: (seq<Finite>, nat) -> seq<Inner>, rows: seq<nat>,
                                 bordersBefore: Option<seq<int>>, nanModeBefore: Option<NanMode>,
                                 availableBefore: bool, columnBefore: Option<seq<Float>>,
                                 available: bool, borders: Option<seq<int>>, nanMode: Option<NanMode>,
                                 column: Option<seq<Float>>, holder: Option<FloatHolder>)
    requires FloatOutcome(options, clearSrcObjectsData, bordersOnly, allowNansInTestOnly, binarization, bestSplit,
                          rows, true, bordersBefore, nanModeBefore, availableBefore, columnBefore, available, borders,
                          nanMode, column,
                          holder)
    requires !bordersOnly && options.cpuCompatibleFormat && options.packBinaryFeaturesForCpu
    requires available && |borders.value| == 1
    ensures holder == None && column == columnBefore
  {
    assert !DestroysFloatColumn(options, clearSrcObjectsData, bordersOnly, available, borders.value);
  }

  /** A processed float feature ends up ignored exactly when its borders
      were computed here and came out empty; it then has no holder. */
  lemma IgnoredFloatFeature(options: QuantizationOptions, clearSrcObjectsData: bool, bordersOnly: bool,
                            allowNansInTestOnly: bool, binarization: BinarizationOptions,
                            bestSplit: (seq<Finite>, nat) -> seq<Inner>, rows: seq<nat>,
                            bordersBefore: Option<seq<int>>, nanModeBefore: Option<NanMode>,
                            availableBefore: bool, columnBefore: Option<seq<Float>>,
                            available: bool, borders: Option<seq<int>>, nanMode: Option<NanMode>,
                            column: Option<seq<Float>>, holder: Option<FloatHolder>)
    requires FloatOutcome(options, clearSrcObjectsData, bordersOnly, allowNansInTestOnly, binarization, bestSplit,
                          rows, true, bordersBefore, nanModeBefore, availableBefore, columnBefore, available, borders,
                          nanMode, column,
                          holder)
    ensures !available <==> bordersBefore.None? && borders.value == []
    ensures !available ==> holder == None
  {
  }

  /** One float-feature task of `Do`: `ProcessFloatFeature` for feature `f`,
      then its raw column destroyed or kept. Other features are untouched. */
  method FloatTask(f: nat, options: QuantizationOptions, raw: RawDataProvider, info: QuantizedFeaturesInfo,
                   rows: seq<nat>, clearSrcObjectsData: bool, bordersOnly: bool,
                   bestSplit: (seq<Finite>, nat) -> seq<Inner>)
    returns (r: Result<Option<FloatHolder>>)
    modifies raw, info
    requires f < |info.floatAvailable| == |raw.floatColumns|
    requires info.floatAvailable[f] && raw.floatColumns[f].Some?
    requires Covers(rows, raw.floatColumns[f].value)
    ensures |info.floatAvailable| == old(|info.floatAvailable|) && |raw.floatColumns| == old(|raw.floatColumns|)
    ensures info.catAvailable == old(info.catAvailable) && info.processed == old(info.processed)
    ensures raw.catColumns == old(raw.catColumns)
    ensures forall g :: 0 <= g < |info.floatAvailable| && g != f ==>
      info.floatAvailable[g] == old(info.floatAvailable[g]) && raw.floatColumns[g] == old(raw.floatColumns[g])
    ensures forall g :: g != f ==> Lookup(info.borders, g) == Lookup(old(info.borders), g)
    ensures forall g :: g != f ==> Lookup(info.nanModes, g) == Lookup(old(info.nanModes), g)
    ensures forall g :: g in old(info.borders) ==> g in info.borders && info.borders[g] == old(info.borders[g])
    ensures forall g :: g in old(info.nanModes) ==> g in info.nanModes && info.nanModes[g] == old(info.nanModes[g])
    ensures r.Err? ==> PerFeatureError(r.error)
    ensures FloatError(old(raw.floatColumns[f]), rows, info.binarization, bestSplit, Lookup(old(info.borders), f),
                       Lookup(old(info.nanModes), f)) == if r.Err? then Some(r.error) else None
    ensures r.Ok? ==>
      FloatOutcome(options, clearSrcObjectsData, bordersOnly, info.allowNansInTestOnly, info.binarization,
                   bestSplit, rows, true, Lookup(old(info.borders), f), Lookup(old(info.nanModes), f), true, old(raw.floatColumns[f]),
                   info.floatAvailable[f], Lookup(info.borders, f), Lookup(info.nanModes, f),
                   raw.floatColumns[f], r.value)
  {
    var column := raw.floatColumns[f].value;
    r := ProcessFloatFeature(f, column, rows, options, clearSrcObjectsData, bordersOnly, info, bestSplit);
    if r.Ok? {
      var destroy := clearSrcObjectsData && (bordersOnly || !IsFloatFeatureToBeBinarized(options, info, f));
      assert destroy == DestroysFloatColumn(options, clearSrcObjectsData, bordersOnly,
                                            info.floatAvailable[f], info.borders[f]);
      if destroy {
        raw.floatColumns := raw.floatColumns[f := None];
      }
    }
  }

  /** The float features from `f` on are as they were before the tasks
      (availability, raw column, borders and nan mode), every known border
      list and nan mode is kept, and no feature became available. */
  ghost predicate FloatStateKept(f: nat, available0: seq<bool>, borders0: map<nat, seq<int>>,
                                 nanModes0: map<nat, NanMode>, columns0: seq<Option<seq<Float>>>,
                                 available: seq<bool>, borders: map<nat, seq<int>>, nanModes: map<nat, NanMode>,
                                 columns: seq<Option<seq<Float>>>)
  {
    |available| == |available0| == |columns0| == |columns|
    && (forall g :: 0 <= g < |available| && available[g] ==> available0[g])
    && (forall g :: g in borders0 ==> g in borders && borders[g] == borders0[g])
    && (forall g :: g in nanModes0 ==> g in nanModes && nanModes[g] == nanModes0[g])
    && (forall g :: f <= g < |available| ==> available[g] == available0[g] && columns[g] == columns0[g])
    && (forall g :: f <= g ==> Lookup(borders, g) == Lookup(borders0, g) && Lookup(nanModes, g) == Lookup(nanModes0, g))
  }

  /** The float tasks of the first `|holders|` features have run without an
      error: `holders` lists what they produced, each feature's state is its
      `FloatOutcome`, and the later features are untouched. */
  ghost predicate FloatTasksRan(options: QuantizationOptions, clearSrcObjectsData: bool, bordersOnly: bool,
                                allowNansInTestOnly: bool, binarization: BinarizationOptions,
                                bestSplit: (seq<Finite>, nat) -> seq<Inner>, rows: seq<nat>, toProcess: seq<bool>,
                                available0: seq<bool>, borders0: map<nat, seq<int>>, nanModes0: map<nat, NanMode>,
                                columns0: seq<Option<seq<Float>>>, available: seq<bool>,
                                borders: map<nat, seq<int>>, nanModes: map<nat, NanMode>,
                                columns: seq<Option<seq<Float>>>, holders: seq<Option<FloatHolder>>)
  {
    |holders| <= |toProcess| == |available0|
    && FloatStateKept(|holders|, available0, borders0, nanModes0, columns0, available, borders, nanModes, columns)
    && FirstFloatError(columns0, toProcess, rows, binarization, bestSplit, borders0, nanModes0, |holders|) == None
    && forall g :: 0 <= g < |holders| ==>
         FloatOutcome(options, clearSrcObjectsData, bordersOnly, allowNansInTestOnly, binarization, bestSplit, rows,
                      toProcess[g], Lookup(borders0, g), Lookup(nanModes0, g), available0[g], columns0[g],
                      available[g], Lookup(borders, g), Lookup(nanModes, g), columns[g], holders[g])
  }

  /** The float state after a step differs from the one before only at feature
      `f`, and keeps every known border list and nan mode. */
  ghost predicate ChangedOnlyAt(f: nat, availablePre: seq<bool>, bordersPre: map<nat, seq<int>>,
                                nanModesPre: map<nat, NanMode>, columnsPre: seq<Option<seq<Float>>>,
                                available: seq<bool>, borders: map<nat, seq<int>>, nanModes: map<nat, NanMode>,
                                columns: seq<Option<seq<Float>>>)
  {
    |available| == |availablePre| == |columns| == |columnsPre|
    && (forall g :: 0 <= g < |available| && g != f ==> available[g] == availablePre[g] && columns[g] == columnsPre[g])
    && (forall g :: g != f ==> Lookup(borders, g) == Lookup(bordersPre, g) && Lookup(nanModes, g) == Lookup(nanModesPre, g))
    && (forall g :: g in bordersPre ==> g in borders && borders[g] == bordersPre[g])
    && (forall g :: g in nanModesPre ==> g in nanModes && nanModes[g] == nanModesPre[g])
  }

  /** A successful round extends `FloatTasksRan` by the holder it produced. */
  lemma FloatTasksRanNext(options: QuantizationOptions, clearSrcObjectsData: bool, bordersOnly: bool,
                          allowNansInTestOnly: bool, binarization: BinarizationOptions,
                          bestSplit: (seq<Finite>, nat) -> seq<Inner>, rows: seq<nat>, toProcess: seq<bool>,
                          available0: seq<bool>, borders0: map<nat, seq<int>>, nanModes0: map<nat, NanMode>,
                          columns0: seq<Option<seq<Float>>>, availablePre: seq<bool>,
                          bordersPre: map<nat, seq<int>>, nanModesPre: map<nat, NanMode>,
                          columnsPre: seq<Option<seq<Float>>>, available: seq<bool>,
                          borders: map<nat, seq<int>>, nanModes: map<nat, NanMode>,
                          columns: seq<Option<seq<Float>>>, holders: seq<Option<FloatHolder>>,
                          holder: Option<FloatHolder>)
    requires |holders| < |toProcess|
    requires FloatTasksRan(options, clearSrcObjectsData, bordersOnly, allowNansInTestOnly, binarization, bestSplit,
                           rows, toProcess, available0, borders0, nanModes0, columns0, availablePre, bordersPre,
                           nanModesPre, columnsPre, holders)
    requires ChangedOnlyAt(|holders|, availablePre, bordersPre, nanModesPre, columnsPre, available, borders,
                           nanModes, columns)
    requires FloatOutcome(options, clearSrcObjectsData, bordersOnly, allowNansInTestOnly, binarization, bestSplit,
                          rows, toProcess[|holders|], Lookup(bordersPre, |holders|), Lookup(nanModesPre, |holders|),
                          availablePre[|holders|], columnsPre[|holders|], available[|holders|],
                          Lookup(borders, |holders|), Lookup(nanModes, |holders|), columns[|holders|], holder)
    requires toProcess[|holders|] ==> available0[|holders|]
    requires toProcess[|holders|] ==>
      FloatError(columnsPre[|holders|], rows, binarization, bestSplit, Lookup(bordersPre, |holders|),
                 Lookup(nanModesPre, |holders|)).None?
    ensures FloatTasksRan(options, clearSrcObjectsData, bordersOnly, allowNansInTestOnly, binarization, bestSplit,
                          rows, toProcess, available0, borders0, nanModes0, columns0, available, borders, nanModes,
                          columns, holders + [holder])
  {
    var f := |holders|;
    var holders' := holders + [holder];
    assert availablePre[f] == available0[f] && columnsPre[f] == columns0[f];
    assert Lookup(bordersPre, f) == Lookup(borders0, f) && Lookup(nanModesPre, f) == Lookup(nanModes0, f);
    assert FirstFloatError(columns0, toProcess, rows, binarization, bestSplit, borders0, nanModes0, f + 1) == None;
    forall g | 0 <= g < |holders'|
      ensures FloatOutcome(options, clearSrcObjectsData, bordersOnly, allowNansInTestOnly, binarization, bestSplit,
                           rows, toProcess[g], Lookup(borders0, g), Lookup(nanModes0, g), available0[g], columns0[g],
                           available[g], Lookup(borders, g), Lookup(nanModes, g), columns[g], holders'[g])
    {
      if g < f {
        assert holders'[g] == holders[g];
      } else {
        assert holders'[g] == holder;
      }
    }
  }

  /** A failed round: its error is the first one, and the features after it
      are untouched. */
  lemma FloatTaskFailed(toProcess: seq<bool>, rows: seq<nat>, binarization: BinarizationOptions,
                        bestSplit: (seq<Finite>, nat) -> seq<Inner>, f: nat,
                        available0: seq<bool>, borders0: map<nat, seq<int>>, nanModes0: map<nat, NanMode>,
                        columns0: seq<Option<seq<Float>>>, availablePre: seq<bool>,
                        bordersPre: map<nat, seq<int>>, nanModesPre: map<nat, NanMode>,
                        columnsPre: seq<Option<seq<Float>>>, available: seq<bool>,
                        borders: map<nat, seq<int>>, nanModes: map<nat, NanMode>,
                        columns: seq<Option<seq<Float>>>, error: QuantizationError)
    requires f < |toProcess| == |available0|
    requires FloatStateKept(f, available0, borders0, nanModes0, columns0, availablePre, bordersPre, nanModesPre,
                            columnsPre)
    requires FirstFloatError(columns0, toProcess, rows, binarization, bestSplit, borders0, nanModes0, f) == None
    requires ChangedOnlyAt(f, availablePre, bordersPre, nanModesPre, columnsPre, available, borders, nanModes, columns)
    requires toProcess[f] && available0[f]
    requires FloatError(columnsPre[f], rows, binarization, bestSplit, Lookup(bordersPre, f), Lookup(nanModesPre, f))
      == Some(error)
    ensures FirstFloatError(columns0, toProcess, rows, binarization, bestSplit, borders0, nanModes0, f + 1)
      == Some(error)
    ensures FloatStateKept(f + 1, available0, borders0, nanModes0, columns0, available, borders, nanModes, columns)
  {
  }

  /** One round of `ProcessFloatFeatures`: the task of the next feature when
      it is marked, nothing otherwise. On an error, that error is the first
      one and the later features are untouched. */
  method RunFloatTask(options: QuantizationOptions, raw: RawDataProvider, info: QuantizedFeaturesInfo,
                      toProcess: seq<bool>, rows: seq<nat>, clearSrcObjectsData: bool, bordersOnly: bool,
                      bestSplit: (seq<Finite>, nat) -> seq<Inner>, ghost available0: seq<bool>,
                      ghost borders0: map<nat, seq<int>>, ghost nanModes0: map<nat, NanMode>,
                      ghost columns0: seq<Option<seq<Float>>>, holders: seq<Option<FloatHolder>>)
    returns (processed: Result<Option<FloatHolder>>)
    modifies raw, info
    requires |holders| < |toProcess|
    requires FloatTasksRan(options, clearSrcObjectsData, bordersOnly, info.allowNansInTestOnly, info.binarization,
                           bestSplit, rows, toProcess, available0, borders0, nanModes0, columns0, info.floatAvailable,
                           info.borders, info.nanModes, raw.floatColumns, holders)
    requires forall g :: 0 <= g < |toProcess| && toProcess[g] ==>
      available0[g] && columns0[g].Some? && Covers(rows, columns0[g].value)
    ensures info.catAvailable == old(info.catAvailable) && info.processed == old(info.processed)
    ensures raw.catColumns == old(raw.catColumns)
    ensures processed.Err? ==>
      PerFeatureError(processed.error)
      && FirstFloatError(columns0, toProcess, rows, info.binarization, bestSplit, borders0, nanModes0,
                         |holders| + 1) == Some(processed.error)
      && FloatStateKept(|holders| + 1, available0, borders0, nanModes0, columns0, info.floatAvailable,
                        info.borders, info.nanModes, raw.floatColumns)
    ensures processed.Ok? ==>
      FloatTasksRan(options, clearSrcObjectsData, bordersOnly, info.allowNansInTestOnly, info.binarization,
                    bestSplit, rows, toProcess, available0, borders0, nanModes0, columns0, info.floatAvailable,
                    info.borders, info.nanModes, raw.floatColumns, holders + [processed.value])
  {
    var f := |holders|;
    ghost var availablePre, bordersPre, nanModesPre, columnsPre :=
      info.floatAvailable, info.borders, info.nanModes, raw.floatColumns;
    if toProcess[f] {
      processed := FloatTask(f, options, raw, info, rows, clearSrcObjectsData, bordersOnly, bestSplit);
    } else {
      processed := Ok(None);
    }
    if processed.Ok? {
      FloatTasksRanNext(options, clearSrcObjectsData, bordersOnly, info.allowNansInTestOnly, info.binarization,
                        bestSplit, rows, toProcess, available0, borders0, nanModes0, columns0, availablePre,
                        bordersPre, nanModesPre, columnsPre, info.floatAvailable, info.borders, info.nanModes,
                        raw.floatColumns, holders, processed.value);
    } else {
      FloatTaskFailed(toProcess, rows, info.binarization, bestSplit, f, available0, borders0, nanModes0, columns0,
                      availablePre, bordersPre, nanModesPre, columnsPre, info.floatAvailable, info.borders,
                      info.nanModes, raw.floatColumns, processed.error);
    }
  }

  /** The float-feature tasks of `Do`, run one after another: every feature
      marked in `toProcess` (the features available when the tasks were
      added) goes through `FloatTask`. The first error ends the run. */
  method ProcessFloatFeatures(options: QuantizationOptions, raw: RawDataProvider, info: QuantizedFeaturesInfo,
                              toProcess: seq<bool>, rows: seq<nat>, clearSrcObjectsData: bool,
                              bordersOnly: bool, bestSplit: (seq<Finite>, nat) -> seq<Inner>)
    returns (r: Result<seq<Option<FloatHolder>>>)
    modifies raw, info
    requires |toProcess| == |info.floatAvailable| == |raw.floatColumns|
    requires forall f :: 0 <= f < |toProcess| && toProcess[f] ==>
      info.floatAvailable[f] && raw.floatColumns[f].Some? && Covers(rows, raw.floatColumns[f].value)
    ensures |info.floatAvailable| == |toProcess| && |raw.floatColumns| == |toProcess|
    ensures info.catAvailable == old(info.catAvailable) && info.processed == old(info.processed)
    ensures raw.catColumns == old(raw.catColumns)
    ensures forall g :: 0 <= g < |toProcess| && info.floatAvailable[g] ==> old(info.floatAvailable[g])
    ensures forall g :: g in old(info.borders) ==> g in info.borders && info.borders[g] == old(info.borders[g])
    ensures forall g :: g in old(info.nanModes) ==> g in info.nanModes && info.nanModes[g] == old(info.nanModes[g])
    ensures r.Err? ==> PerFeatureError(r.error)
    ensures FirstFloatError(old(raw.floatColumns), toProcess, rows, info.binarization, bestSplit, old(info.borders),
                            old(info.nanModes), |toProcess|) == if r.Err? then Some(r.error) else None
    ensures forall g :: g >= |toProcess| ==>
      Lookup(info.borders, g) == Lookup(old(info.borders), g) && Lookup(info.nanModes, g) == Lookup(old(info.nanModes), g)
    ensures r.Ok? ==> |r.value| == |toProcess|
    ensures r.Ok? ==> forall g :: 0 <= g < |toProcess| ==>
      FloatOutcome(options, clearSrcObjectsData, bordersOnly, info.allowNansInTestOnly, info.binarization,
                   bestSplit, rows, toProcess[g], Lookup(old(info.borders), g), Lookup(old(info.nanModes), g), old(info.floatAvailable[g]),
                   old(raw.floatColumns[g]), info.floatAvailable[g], Lookup(info.borders, g),
                   Lookup(info.nanModes, g), raw.floatColumns[g], r.value[g])
  {
    var n := |toProcess|;
    ghost var available0, borders0, nanModes0, columns0 :=
      info.floatAvailable, info.borders, info.nanModes, raw.floatColumns;
    var holders: seq<Option<FloatHolder>> := [];
    for f := 0 to n
      invariant |holders| == f
      invariant info.catAvailable == old(info.catAvailable) && info.processed == old(info.processed)
      invariant raw.catColumns == old(raw.catColumns)
      invariant FloatTasksRan(options, clearSrcObjectsData, bordersOnly, info.allowNansInTestOnly, info.binarization,
                              bestSplit, rows, toProcess, available0, borders0, nanModes0, columns0,
                              info.floatAvailable, info.borders, info.nanModes, raw.floatColumns, holders)
    {
      var processed := RunFloatTask(options, raw, info, toProcess, rows, clearSrcObjectsData, bordersOnly, bestSplit,
                                    available0, borders0, nanModes0, columns0, holders);
      if processed.Err? {
        FirstFloatErrorStays(columns0, toProcess, rows, info.binarization, bestSplit, borders0, nanModes0, f + 1, n);
        return Err(processed.error);
      }
      holders := holders + [processed.value];
    }
    return Ok(holders);
  }

  /** The categorical-feature tasks of `Do`: every feature marked in
      `toProcess` goes through `ProcessCatFeature`, then its raw column is
      destroyed when clearing (its quantized bins are kept by the holder). */
  method ProcessCatFeatures(options: QuantizationOptions, raw: RawDataProvider, info: QuantizedFeaturesInfo,
                            toProcess: seq<bool>, clearSrcObjectsData: bool,
                            catUniqueOnLearn: seq<nat>, catBins: seq<seq<nat>>)
    returns (holders: seq<Option<CatHolder>>)
    modifies raw, info
    requires |toProcess| == |info.catAvailable| == |raw.catColumns| == |catUniqueOnLearn| == |catBins|
    ensures |holders| == |toProcess| && |info.catAvailable| == |toProcess| && |raw.catColumns| == |toProcess|
    ensures info.floatAvailable == old(info.floatAvailable) && info.processed == old(info.processed)
    ensures info.nanModes == old(info.nanModes) && info.borders == old(info.borders)
    ensures raw.floatColumns == old(raw.floatColumns)
    ensures forall c :: 0 <= c < |toProcess| ==>
      holders[c] ==
        if toProcess[c] && catUniqueOnLearn[c] > 1 then
          (if !options.cpuCompatibleFormat && !clearSrcObjectsData then Some(ExternalCat)
           else Some(QuantizedCat(catBins[c])))
        else None
    ensures forall c :: 0 <= c < |toProcess| ==>
      info.catAvailable[c] == (old(info.catAvailable[c]) && !(toProcess[c] && catUniqueOnLearn[c] <= 1))
    ensures forall c :: 0 <= c < |toProcess| ==>
      raw.catColumns[c] == if toProcess[c] && clearSrcObjectsData then None else old(raw.catColumns[c])
  {
    var n := |toProcess|;
    holders := [];
    for c := 0 to n
      invariant |holders| == c && |info.catAvailable| == n && |raw.catColumns| == n
      invariant info.floatAvailable == old(info.floatAvailable) && info.processed == old(info.processed)
      invariant info.nanModes == old(info.nanModes) && info.borders == old(info.borders)
      invariant raw.floatColumns == old(raw.floatColumns)
      invariant forall d :: c <= d < n ==>
        info.catAvailable[d] == old(info.catAvailable[d]) && raw.catColumns[d] == old(raw.catColumns[d])
      invariant forall d :: 0 <= d < c ==>
        holders[d] ==
          if toProcess[d] && catUniqueOnLearn[d] > 1 then
            (if !options.cpuCompatibleFormat && !clearSrcObjectsData then Some(ExternalCat)
             else Some(QuantizedCat(catBins[d])))
          else None
      invariant forall d :: 0 <= d < c ==>
        info.catAvailable[d] == (old(info.catAvailable[d]) && !(toProcess[d] && catUniqueOnLearn[d] <= 1))
      invariant forall d :: 0 <= d < c ==>
        raw.catColumns[d] == if toProcess[d] && clearSrcObjectsData then None else old(raw.catColumns[d])
    {
      if toProcess[c] {
        var holder := ProcessCatFeature(c, options, clearSrcObjectsData, info, catUniqueOnLearn[c], catBins[c]);
        holders := holders + [holder];
        if clearSrcObjectsData {
          raw.catColumns := raw.catColumns[c := None];
        }
      } else {
        holders := holders + [None];
      }
    }
  }

  /** The tasks `Do` hands to its executor, run one after another: the float
      tasks, then (unless only borders are wanted) the categorical ones. */
  method RunTasks(options: QuantizationOptions, raw: RawDataProvider, info: QuantizedFeaturesInfo,
                  rows: seq<nat>, bordersOnly: bool, inputs: RunInputs,
                  bestSplit: (seq<Finite>, nat) -> seq<Inner>)
    returns (r: Result<(seq<Option<FloatHolder>>, seq<Option<CatHolder>>)>)
    modifies raw, info
    requires |info.floatAvailable| == |raw.floatColumns|
    requires |info.catAvailable| == |raw.catColumns| == |inputs.catUniqueOnLearn| == |inputs.catBins|
    requires forall f :: 0 <= f < |info.floatAvailable| && info.floatAvailable[f] ==>
      raw.floatColumns[f].Some? && Covers(rows, raw.floatColumns[f].value)
    ensures |info.floatAvailable| == old(|info.floatAvailable|) && |info.catAvailable| == old(|info.catAvailable|)
    ensures |raw.floatColumns| == old(|raw.floatColumns|) && |raw.catColumns| == old(|raw.catColumns|)
    ensures info.processed == old(info.processed)
    ensures forall f :: 0 <= f < |info.floatAvailable| && info.floatAvailable[f] ==> old(info.floatAvailable[f])
    ensures forall c :: 0 <= c < |info.catAvailable| && info.catAvailable[c] ==> old(info.catAvailable[c])
    ensures forall g :: g in old(info.borders) ==> g in info.borders && info.borders[g] == old(info.borders[g])
    ensures forall g :: g in old(info.nanModes) ==> g in info.nanModes && info.nanModes[g] == old(info.nanModes[g])
    ensures r.Err? ==> PerFeatureError(r.error)
    ensures FirstFloatError(old(raw.floatColumns), old(info.floatAvailable), rows, info.binarization, bestSplit,
                            old(info.borders), old(info.nanModes), old(|info.floatAvailable|))
      == if r.Err? then Some(r.error) else None
    ensures forall g :: g >= |info.floatAvailable| ==>
      Lookup(info.borders, g) == Lookup(old(info.borders), g) && Lookup(info.nanModes, g) == Lookup(old(info.nanModes), g)
    ensures r.Ok? ==> |r.value.0| == |info.floatAvailable|
    ensures r.Ok? ==> forall f :: 0 <= f < |info.floatAvailable| ==>
      FloatOutcome(options, inputs.clearSrcObjectsData, bordersOnly, info.allowNansInTestOnly, info.binarization,
                   bestSplit, rows, old(info.floatAvailable[f]), Lookup(old(info.borders), f), Lookup(old(info.nanModes), f), old(info.floatAvailable[f]),
                   old(raw.floatColumns[f]), info.floatAvailable[f], Lookup(info.borders, f),
                   Lookup(info.nanModes, f), raw.floatColumns[f], r.value.0[f])
    ensures r.Ok? && bordersOnly ==> info.catAvailable == old(info.catAvailable) && raw.catColumns == old(raw.catColumns)
    ensures r.Ok? && !bordersOnly ==> |r.value.1| == |info.catAvailable|
    ensures r.Ok? && !bordersOnly ==> forall c :: 0 <= c < |info.catAvailable| ==>
      info.catAvailable[c] == (old(info.catAvailable[c]) && inputs.catUniqueOnLearn[c] > 1)
      && raw.catColumns[c] == (if old(info.catAvailable[c]) && inputs.clearSrcObjectsData then None
                               else old(raw.catColumns[c]))
      && r.value.1[c] ==
           if old(info.catAvailable[c]) && inputs.catUniqueOnLearn[c] > 1 then
             (if !options.cpuCompatibleFormat && !inputs.clearSrcObjectsData then Some(ExternalCat)
              else Some(QuantizedCat(inputs.catBins[c])))
           else None
  {
    var floatResult := ProcessFloatFeatures(options, raw, info, info.floatAvailable, rows,
                                            inputs.clearSrcObjectsData, bordersOnly, bestSplit);
    if floatResult.Err? {
      return Err(floatResult.error);
    }
    var catHolders: seq<Option<CatHolder>> := [];
    if !bordersOnly {
      catHolders := ProcessCatFeatures(options, raw, info, info.catAvailable, inputs.clearSrcObjectsData,
                                       inputs.catUniqueOnLearn, inputs.catBins);
    }
    return Ok((floatResult.value, catHolders));
  }

  /** The float features the packing layout lists are exactly those whose
      raw columns the float tasks kept for packing. */
  lemma LayoutListsBinarizedFeatures(options: QuantizationOptions, info: QuantizedFeaturesInfo, catBinary: seq<bool>)
    requires options.cpuCompatibleFormat && options.packBinaryFeaturesForCpu
    requires |catBinary| == |info.catAvailable|
    requires forall f :: 0 <= f < |info.floatAvailable| && info.floatAvailable[f] ==> f in info.borders
    ensures forall f :: 0 <= f < |info.floatAvailable| ==>
      (FloatRef(f) in BinaryLayout(info.floatAvailable, info.borders, info.catAvailable, catBinary)
       <==> IsFloatFeatureToBeBinarized(options, info, f))
  {
    BinaryLayoutLists(info.floatAvailable, info.borders, info.catAvailable, catBinary);
  }

  /** The packing step of `Do` in the CPU format with packing on:
      `BinarizeFeatures` over the layout of binary features. The packs are
      computed from the raw columns as the tasks left them. */
  method PackBinaryFeatures(raw: RawDataProvider, info: QuantizedFeaturesInfo, inputs: RunInputs,
                            floatHolders: seq<Option<FloatHolder>>, catHolders: seq<Option<CatHolder>>)
    returns (layout: seq<PackedRef>, packs: seq<seq<bv8>>,
             floatOut: seq<Option<FloatHolder>>, catOut: seq<Option<CatHolder>>)
    modifies raw
    requires |floatHolders| == |info.floatAvailable| == |raw.floatColumns|
    requires |catHolders| == |info.catAvailable| == |inputs.catBins| == |inputs.catBinary|
    requires forall f :: 0 <= f < |info.floatAvailable| && info.floatAvailable[f] && f in info.borders
                         && |info.borders[f]| == 1 ==>
      raw.floatColumns[f].Some? && Covers(raw.subsetIndexing, raw.floatColumns[f].value)
    requires forall c :: 0 <= c < |info.catAvailable| && info.catAvailable[c] && inputs.catBinary[c] ==>
      catHolders[c] == Some(QuantizedCat(inputs.catBins[c]))
      && |inputs.catBins[c]| == |raw.subsetIndexing|
      && forall k :: 0 <= k < |raw.subsetIndexing| ==> inputs.catBins[c][k] < 2
    ensures layout == BinaryLayout(info.floatAvailable, info.borders, info.catAvailable, inputs.catBinary)
    ensures PacksHold(packs, layout, raw.subsetIndexing, old(raw.floatColumns), info.borders, inputs.catBins)
    ensures SlotsAssigned(layout, inputs.clearSrcObjectsData, floatHolders, catHolders, old(raw.floatColumns),
                          floatOut, catOut, raw.floatColumns)
    ensures raw.catColumns == old(raw.catColumns)
  {
    layout := BinaryLayout(info.floatAvailable, info.borders, info.catAvailable, inputs.catBinary);
    BinaryLayoutLists(info.floatAvailable, info.borders, info.catAvailable, inputs.catBinary);
    ghost var columns := raw.floatColumns;
    forall i | 0 <= i < |layout|
      ensures RefReady(layout[i], raw.subsetIndexing, columns, info.borders, floatHolders, catHolders)
      ensures layout[i].CatRef? ==> catHolders[layout[i].c] == Some(QuantizedCat(inputs.catBins[layout[i].c]))
    {
      assert layout[i] in layout;
    }
    packs, floatOut, catOut := BinarizeFeatures(raw.subsetIndexing, inputs.clearSrcObjectsData, layout, raw,
                                                info.borders, floatHolders, catHolders);
    forall p, idx, b | 0 <= p < |packs| && 0 <= idx < |raw.subsetIndexing| && 0 <= b < BitsPerPack
      ensures BitAt(packs[p][idx], b) ==
        (p * BitsPerPack + b < |layout|
         && LayoutBit(layout[p * BitsPerPack + b], columns, info.borders, inputs.catBins, idx, raw.subsetIndexing[idx]))
    {
      if p * BitsPerPack + b < |layout| {
        RefBit(layout[p * BitsPerPack + b], raw.subsetIndexing, columns, info.borders, floatHolders, catHolders,
               inputs.catBins, idx);
      }
    }
  }

  /** The rows `Do` passes to each float task for building borders: the
      subset from `GetSubsetForBuildBorders` if it chose one, else the
      provider's subset indexing. */
  method ChooseBorderRows(options: QuantizationOptions, raw: RawDataProvider, info: QuantizedFeaturesInfo,
                          inputs: RunInputs)
    returns (rows: seq<nat>)
    requires ProviderFits(raw, info.floatAvailable, |info.catAvailable|)
    requires InputsFit(inputs, |raw.subsetIndexing|, |info.catAvailable|)
    ensures rows == BorderRows(raw.subsetIndexing, raw.order, NeedToCalcBorders(info), options, inputs)
    ensures forall f :: 0 <= f < |info.floatAvailable| && info.floatAvailable[f] ==>
      raw.floatColumns[f].Some? && Covers(rows, raw.floatColumns[f].value)
  {
    var subset := GetSubsetForBuildBorders(raw.subsetIndexing, info, raw.order, options, inputs.sampleSize,
                                           inputs.draws, inputs.fullShuffle);
    rows := if subset.Some? then subset.value else raw.subsetIndexing;
    forall f | 0 <= f < |info.floatAvailable| && info.floatAvailable[f]
      ensures Covers(rows, raw.floatColumns[f].value)
    {
      RowsFromSourceCover(raw.subsetIndexing, rows, raw.floatColumns[f].value);
    }
  }

  /** The end of `Do` once the tasks succeeded in quantizing mode: the
      check that some feature is left, then packing of binary features in the
      CPU format with packing on, then the quantized provider. */
  method FinishQuantization(options: QuantizationOptions, raw: RawDataProvider, info: QuantizedFeaturesInfo,
                            inputs: RunInputs, floatHolders: seq<Option<FloatHolder>>,
                            catHolders: seq<Option<CatHolder>>)
    returns (r: Result<QuantizedData>)
    modifies raw, info
    requires |floatHolders| == |info.floatAvailable| == |raw.floatColumns|
    requires |catHolders| == |info.catAvailable| == |inputs.catBins| == |inputs.catBinary|
    requires options.cpuCompatibleFormat && options.packBinaryFeaturesForCpu ==>
      forall f :: 0 <= f < |info.floatAvailable| && info.floatAvailable[f] && f in info.borders
                  && |info.borders[f]| == 1 ==>
        raw.floatColumns[f].Some? && Covers(raw.subsetIndexing, raw.floatColumns[f].value)
    requires options.cpuCompatibleFormat && options.packBinaryFeaturesForCpu ==>
      forall c :: 0 <= c < |info.catAvailable| && info.catAvailable[c] && inputs.catBinary[c] ==>
        catHolders[c] == Some(QuantizedCat(inputs.catBins[c]))
        && |inputs.catBins[c]| == |raw.subsetIndexing|
        && forall k :: 0 <= k < |raw.subsetIndexing| ==> inputs.catBins[c][k] < 2
    ensures info.floatAvailable == old(info.floatAvailable) && info.catAvailable == old(info.catAvailable)
    ensures info.borders == old(info.borders) && info.nanModes == old(info.nanModes)
    ensures raw.catColumns == old(raw.catColumns)
    ensures r.Err? <==> !info.HasAvailableAndNotIgnoredFeatures()
    ensures r.Err? ==>
      r.error == AllFeaturesIgnored && info.processed == old(info.processed) && raw.floatColumns == old(raw.floatColumns)
    ensures r.Ok? ==>
      info.processed == old(info.processed) + [raw.id]
      && r.value.sourceId == raw.id && r.value.cpuFormat == options.cpuCompatibleFormat
      && r.value.layout == (if options.cpuCompatibleFormat && options.packBinaryFeaturesForCpu
                            then BinaryLayout(info.floatAvailable, info.borders, info.catAvailable, inputs.catBinary)
                            else [])
      && PacksHold(r.value.packs, r.value.layout, raw.subsetIndexing, old(raw.floatColumns), info.borders,
                   inputs.catBins)
      && SlotsAssigned(r.value.layout, inputs.clearSrcObjectsData, floatHolders, catHolders, old(raw.floatColumns),
                       r.value.floatHolders, r.value.catHolders, raw.floatColumns)
  {
    if !info.HasAvailableAndNotIgnoredFeatures() {
      return Err(AllFeaturesIgnored);
    }
    info.processed := info.processed + [raw.id];
    var layout: seq<PackedRef> := [];
    var packs: seq<seq<bv8>> := [];
    var floatOut, catOut := floatHolders, catHolders;
    if options.cpuCompatibleFormat && options.packBinaryFeaturesForCpu {
      layout, packs, floatOut, catOut := PackBinaryFeatures(raw, info, inputs, floatHolders, catHolders);
    }
    return Ok(QuantizedData(raw.id, floatOut, catOut, layout, packs, options.cpuCompatibleFormat));
  }

  /** `TQuantizationImpl::Do`. Either only computes nan modes and borders
      (`bordersOnly`, the result is then `None`) or also quantizes the
      provider. Float tasks run first, then categorical ones (skipped in
      borders-only mode); the first failing task ends the run. Quantizing
      fails when every feature is constant or ignored. In the CPU format with
      packing on, binary features are then packed. The ghost results are the
      raw float columns and the holders as the tasks left them, before
      packing. */
  method Do(options: QuantizationOptions, raw: RawDataProvider, info: QuantizedFeaturesInfo, bordersOnly: bool,
            inputs: RunInputs, bestSplit: (seq<Finite>, nat) -> seq<Inner>)
    returns (r: Result<Option<QuantizedData>>, ghost columns: seq<Option<seq<Float>>>,
             ghost floatHolders: seq<Option<FloatHolder>>, ghost catHolders: seq<Option<CatHolder>>)
    modifies raw, info
    requires ProviderFits(raw, info.floatAvailable, |info.catAvailable|)
    requires InputsFit(inputs, |raw.subsetIndexing|, |info.catAvailable|)
    ensures !options.cpuCompatibleFormat && !options.gpuCompatibleFormat ==>
      r == Err(NoFormatSelected) && unchanged(raw, info)
    ensures |info.floatAvailable| == old(|info.floatAvailable|) && |info.catAvailable| == old(|info.catAvailable|)
    ensures |raw.floatColumns| == old(|raw.floatColumns|) && |raw.catColumns| == old(|raw.catColumns|)
    ensures forall f :: 0 <= f < |info.floatAvailable| && info.floatAvailable[f] ==> old(info.floatAvailable[f])
    ensures forall c :: 0 <= c < |info.catAvailable| && info.catAvailable[c] ==> old(info.catAvailable[c])
    ensures forall g :: g in old(info.borders) ==> g in info.borders && info.borders[g] == old(info.borders[g])
    ensures forall g :: g in old(info.nanModes) ==> g in info.nanModes && info.nanModes[g] == old(info.nanModes[g])
    ensures r.Ok? ==> info.processed == old(info.processed) + [raw.id]
    ensures r.Err? ==> info.processed == old(info.processed)
    ensures r.Ok? ==> (r.value.None? <==> bordersOnly)
    ensures r.Ok? ==> !NeedToCalcBorders(info)
    ensures r.Err? ==> r.error == NoFormatSelected || r.error == AllFeaturesIgnored || PerFeatureError(r.error)
    ensures r == Err(NoFormatSelected) <==> !options.cpuCompatibleFormat && !options.gpuCompatibleFormat
    ensures options.cpuCompatibleFormat || options.gpuCompatibleFormat ==>
      var e := FirstFloatError(old(raw.floatColumns), old(info.floatAvailable),
                               old(BorderRows(raw.subsetIndexing, raw.order, NeedToCalcBorders(info), options, inputs)),
                               info.binarization, bestSplit, old(info.borders), old(info.nanModes),
                               old(|info.floatAvailable|));
      (e.Some? ==> r == Err(e.value))
      && (e.None? && (bordersOnly || info.HasAvailableAndNotIgnoredFeatures()) ==> r.Ok?)
      && (e.None? && !bordersOnly && !info.HasAvailableAndNotIgnoredFeatures() ==> r == Err(AllFeaturesIgnored))
    ensures forall g :: g >= |info.floatAvailable| ==>
      Lookup(info.borders, g) == Lookup(old(info.borders), g) && Lookup(info.nanModes, g) == Lookup(old(info.nanModes), g)
    ensures r.Err? && r.error == AllFeaturesIgnored ==> !bordersOnly && !info.HasAvailableAndNotIgnoredFeatures()
    ensures !bordersOnly && !info.HasAvailableAndNotIgnoredFeatures() ==>
      r.Err? && (r.error == AllFeaturesIgnored || r.error == NoFormatSelected || PerFeatureError(r.error))
    ensures r.Ok? || r == Err(AllFeaturesIgnored) ==>
      |columns| == |info.floatAvailable| && |floatHolders| == |info.floatAvailable|
    ensures r.Ok? || r == Err(AllFeaturesIgnored) ==> forall f {:trigger Lookup(info.nanModes, f)} :: 0 <= f < |info.floatAvailable| ==>
      FloatOutcome(options, inputs.clearSrcObjectsData, bordersOnly, info.allowNansInTestOnly, info.binarization,
                   bestSplit, old(BorderRows(raw.subsetIndexing, raw.order, NeedToCalcBorders(info), options, inputs)),
                   old(info.floatAvailable[f]), Lookup(old(info.borders), f), Lookup(old(info.nanModes), f), old(info.floatAvailable[f]),
                   old(raw.floatColumns[f]), info.floatAvailable[f], Lookup(info.borders, f),
                   Lookup(info.nanModes, f), columns[f], floatHolders[f])
    ensures r.Ok? && bordersOnly ==>
      raw.floatColumns == columns
      && info.catAvailable == old(info.catAvailable) && raw.catColumns == old(raw.catColumns)
    ensures (r.Ok? || r == Err(AllFeaturesIgnored)) && !bordersOnly ==> |catHolders| == |info.catAvailable|
    ensures (r.Ok? || r == Err(AllFeaturesIgnored)) && !bordersOnly ==> forall c {:trigger catHolders[c]} :: 0 <= c < |info.catAvailable| ==>
      info.catAvailable[c] == (old(info.catAvailable[c]) && inputs.catUniqueOnLearn[c] > 1)
      && raw.catColumns[c] == (if old(info.catAvailable[c]) && inputs.clearSrcObjectsData then None
                               else old(raw.catColumns[c]))
      && catHolders[c] ==
           if old(info.catAvailable[c]) && inputs.catUniqueOnLearn[c] > 1 then
             (if !options.cpuCompatibleFormat && !inputs.clearSrcObjectsData then Some(ExternalCat)
              else Some(QuantizedCat(inputs.catBins[c])))
           else None
    ensures r.Ok? && r.value.Some? ==>
      var data := r.value.value;
      data.sourceId == raw.id && data.cpuFormat == options.cpuCompatibleFormat
      && data.layout == (if options.cpuCompatibleFormat && options.packBinaryFeaturesForCpu
                         then BinaryLayout(info.floatAvailable, info.borders, info.catAvailable, inputs.catBinary)
                         else [])
      && PacksHold(data.packs, data.layout, raw.subsetIndexing, columns, info.borders, inputs.catBins)
      && SlotsAssigned(data.layout, inputs.clearSrcObjectsData, floatHolders, catHolders, columns,
                       data.floatHolders, data.catHolders, raw.floatColumns)
  {
    columns, floatHolders, catHolders := raw.floatColumns, [], [];
    if !options.cpuCompatibleFormat && !options.gpuCompatibleFormat {
      r := Err(NoFormatSelected);
      return;
    }
    var rows := ChooseBorderRows(options, raw, info, inputs);
    var tasks := RunTasks(options, raw, info, rows, bordersOnly, inputs, bestSplit);
    if tasks.Err? {
      r := Err(tasks.error);
      return;
    }
    forall f | 0 <= f < |info.floatAvailable| && info.floatAvailable[f] ensures f in info.borders {
      assert Lookup(info.borders, f).Some?;
    }
    columns, floatHolders, catHolders := raw.floatColumns, tasks.value.0, tasks.value.1;
    if bordersOnly {
      info.processed := info.processed + [raw.id];
      r := Ok(None);
      return;
    }
    var packRequired := options.cpuCompatibleFormat && options.packBinaryFeaturesForCpu;
    if packRequired {
      forall f | 0 <= f < |info.floatAvailable| && info.floatAvailable[f] && f in info.borders
                 && |info.borders[f]| == 1
        ensures raw.floatColumns[f].Some? && Covers(raw.subsetIndexing, raw.floatColumns[f].value)
      {
        assert Lookup(info.nanModes, f).Some?;
      }
    }
    var data := FinishQuantization(options, raw, info, inputs, tasks.value.0, tasks.value.1);
    r := if data.Err? then Err(data.error) else Ok(Some(data.value));
  }

  /** `CalcBordersAndNanMode`: `Do` in borders-only mode. */
  method CalcBordersAndNanMode(options: QuantizationOptions, raw: RawDataProvider, info: QuantizedFeaturesInfo,
                               inputs: RunInputs, bestSplit: (seq<Finite>, nat) -> seq<Inner>)
    returns (r: Result<()>)
    modifies raw, info
    requires ProviderFits(raw, info.floatAvailable, |info.catAvailable|)
    requires InputsFit(inputs, |raw.subsetIndexing|, |info.catAvailable|)
    ensures r == Err(NoFormatSelected) <==> !options.cpuCompatibleFormat && !options.gpuCompatibleFormat
    ensures options.cpuCompatibleFormat || options.gpuCompatibleFormat ==>
      var e := FirstFloatError(old(raw.floatColumns), old(info.floatAvailable),
                               old(BorderRows(raw.subsetIndexing, raw.order, NeedToCalcBorders(info), options, inputs)),
                               info.binarization, bestSplit, old(info.borders), old(info.nanModes),
                               old(|info.floatAvailable|));
      r == if e.Some? then Err(e.value) else Ok(())
    ensures |info.floatAvailable| == old(|info.floatAvailable|) && |raw.floatColumns| == old(|raw.floatColumns|)
    ensures forall g :: g >= |info.floatAvailable| ==>
      Lookup(info.borders, g) == Lookup(old(info.borders), g) && Lookup(info.nanModes, g) == Lookup(old(info.nanModes), g)
    ensures forall g :: g in old(info.borders) ==> g in info.borders && info.borders[g] == old(info.borders[g])
    ensures forall g :: g in old(info.nanModes) ==> g in info.nanModes && info.nanModes[g] == old(info.nanModes[g])
    ensures r.Ok? ==> info.processed == old(info.processed) + [raw.id]
    ensures r.Ok? ==> !NeedToCalcBorders(info)
    ensures r.Ok? ==> info.catAvailable == old(info.catAvailable) && raw.catColumns == old(raw.catColumns)
    ensures r.Ok? ==> forall f {:trigger Lookup(info.nanModes, f)} :: 0 <= f < |info.floatAvailable| ==>
      FloatOutcome(options, inputs.clearSrcObjectsData, true, info.allowNansInTestOnly, info.binarization,
                   bestSplit, old(BorderRows(raw.subsetIndexing, raw.order, NeedToCalcBorders(info), options, inputs)),
                   old(info.floatAvailable[f]), Lookup(old(info.borders), f), Lookup(old(info.nanModes), f), old(info.floatAvailable[f]),
                   old(raw.floatColumns[f]), info.floatAvailable[f], Lookup(info.borders, f),
                   Lookup(info.nanModes, f), raw.floatColumns[f], None)
  {
    var done;
    ghost var columns, floatHolders, catHolders;
    done, columns, floatHolders, catHolders := Do(options, raw, info, true, inputs, bestSplit);
    if done.Err? {
      return Err(done.error);
    }
    forall f | 0 <= f < |info.floatAvailable| ensures floatHolders[f] == None {
      assert Lookup(info.nanModes, f) == Lookup(info.nanModes, f);
    }
    return Ok(());
  }

  /** `Quantize` of one data provider: `Do` with quantization; on success
      there is always a quantized provider. The ghost results are as for `Do`. */
  method Quantize(options: QuantizationOptions, raw: RawDataProvider, info: QuantizedFeaturesInfo,
                  inputs: RunInputs, bestSplit: (seq<Finite>, nat) -> seq<Inner>)
    returns (r: Result<QuantizedData>, ghost columns: seq<Option<seq<Float>>>,
             ghost floatHolders: seq<Option<FloatHolder>>, ghost catHolders: seq<Option<CatHolder>>)
    modifies raw, info
    requires ProviderFits(raw, info.floatAvailable, |info.catAvailable|)
    requires InputsFit(inputs, |raw.subsetIndexing|, |info.catAvailable|)
    ensures r == Err(NoFormatSelected) <==> !options.cpuCompatibleFormat && !options.gpuCompatibleFormat
    ensures !options.cpuCompatibleFormat && !options.gpuCompatibleFormat ==> unchanged(raw, info)
    ensures options.cpuCompatibleFormat || options.gpuCompatibleFormat ==>
      var e := FirstFloatError(old(raw.floatColumns), old(info.floatAvailable),
                               old(BorderRows(raw.subsetIndexing, raw.order, NeedToCalcBorders(info), options, inputs)),
                               info.binarization, bestSplit, old(info.borders), old(info.nanModes),
                               old(|info.floatAvailable|));
      (e.Some? ==> r == Err(e.value))
      && (e.None? ==> (r.Ok? <==> info.HasAvailableAndNotIgnoredFeatures()))
      && (e.None? && !info.HasAvailableAndNotIgnoredFeatures() ==> r == Err(AllFeaturesIgnored))
    ensures |info.floatAvailable| == old(|info.floatAvailable|) && |info.catAvailable| == old(|info.catAvailable|)
    ensures |raw.floatColumns| == old(|raw.floatColumns|) && |raw.catColumns| == old(|raw.catColumns|)
    ensures forall g :: g >= |info.floatAvailable| ==>
      Lookup(info.borders, g) == Lookup(old(info.borders), g) && Lookup(info.nanModes, g) == Lookup(old(info.nanModes), g)
    ensures forall f :: 0 <= f < |info.floatAvailable| && info.floatAvailable[f] ==> old(info.floatAvailable[f])
    ensures forall g :: g in old(info.borders) ==> g in info.borders && info.borders[g] == old(info.borders[g])
    ensures forall g :: g in old(info.nanModes) ==> g in info.nanModes && info.nanModes[g] == old(info.nanModes[g])
    ensures r.Ok? ==> info.processed == old(info.processed) + [raw.id]
    ensures r.Ok? ==> info.HasAvailableAndNotIgnoredFeatures()
    ensures r.Ok? || r == Err(AllFeaturesIgnored) ==>
      |columns| == |info.floatAvailable| && |floatHolders| == |info.floatAvailable|
    ensures r.Ok? || r == Err(AllFeaturesIgnored) ==> forall f {:trigger Lookup(info.nanModes, f)} :: 0 <= f < |info.floatAvailable| ==>
      FloatOutcome(options, inputs.clearSrcObjectsData, false, info.allowNansInTestOnly, info.binarization,
                   bestSplit, old(BorderRows(raw.subsetIndexing, raw.order, NeedToCalcBorders(info), options, inputs)),
                   old(info.floatAvailable[f]), Lookup(old(info.borders), f), Lookup(old(info.nanModes), f), old(info.floatAvailable[f]),
                   old(raw.floatColumns[f]), info.floatAvailable[f], Lookup(info.borders, f),
                   Lookup(info.nanModes, f), columns[f], floatHolders[f])
    ensures r.Ok? || r == Err(AllFeaturesIgnored) ==> |catHolders| == |info.catAvailable|
    ensures r.Ok? || r == Err(AllFeaturesIgnored) ==> forall c {:trigger catHolders[c]} :: 0 <= c < |info.catAvailable| ==>
      info.catAvailable[c] == (old(info.catAvailable[c]) && inputs.catUniqueOnLearn[c] > 1)
      && raw.catColumns[c] == (if old(info.catAvailable[c]) && inputs.clearSrcObjectsData then None
                               else old(raw.catColumns[c]))
      && catHolders[c] ==
           if old(info.catAvailable[c]) && inputs.catUniqueOnLearn[c] > 1 then
             (if !options.cpuCompatibleFormat && !inputs.clearSrcObjectsData then Some(ExternalCat)
              else Some(QuantizedCat(inputs.catBins[c])))
           else None
    ensures r.Ok? ==>
      r.value.sourceId == raw.id && r.value.cpuFormat == options.cpuCompatibleFormat
      && r.value.layout == (if options.cpuCompatibleFormat && options.packBinaryFeaturesForCpu
                            then BinaryLayout(info.floatAvailable, info.borders, info.catAvailable, inputs.catBinary)
                            else [])
      && PacksHold(r.value.packs, r.value.layout, raw.subsetIndexing, columns, info.borders, inputs.catBins)
      && SlotsAssigned(r.value.layout, inputs.clearSrcObjectsData, floatHolders, catHolders, columns,
                       r.value.floatHolders, r.value.catHolders, raw.floatColumns)
    ensures r.Ok? ==>
      QuantizedResult(options, inputs, raw.id, raw.subsetIndexing, old(info.floatAvailable), info.floatAvailable,
                      old(info.catAvailable), info.catAvailable, info.borders, info.nanModes,
                      info.allowNansInTestOnly, old(raw.Columns()), raw.Columns(), r.value)
  {
    var done;
    done, columns, floatHolders, catHolders := Do(options, raw, info, false, inputs, bestSplit);
    r := if done.Err? then Err(done.error) else Ok(done.value.value);
    if done.Err? {
      if done.error == AllFeaturesIgnored {
        forall c | 0 <= c < |info.catAvailable|
          ensures info.catAvailable[c] == (old(info.catAvailable[c]) && inputs.catUniqueOnLearn[c] > 1)
          ensures raw.catColumns[c] == (if old(info.catAvailable[c]) && inputs.clearSrcObjectsData then None
                                        else old(raw.catColumns[c]))
        {
          assert catHolders[c] == catHolders[c];
        }
      }
      return;
    }
    forall c | 0 <= c < |info.catAvailable|
      ensures info.catAvailable[c] == (old(info.catAvailable[c]) && inputs.catUniqueOnLearn[c] > 1)
      ensures raw.catColumns[c] == (if old(info.catAvailable[c]) && inputs.clearSrcObjectsData then None
                                    else old(raw.catColumns[c]))
      ensures catHolders[c] == TaskCatHolders(options, inputs.clearSrcObjectsData, old(info.catAvailable),
                                              inputs.catUniqueOnLearn, inputs.catBins)[c]
    {
      assert catHolders[c] == catHolders[c];
    }
    assert raw.catColumns == TaskCatColumns(inputs.clearSrcObjectsData, old(info.catAvailable), old(raw.catColumns));
    ghost var rows := old(BorderRows(raw.subsetIndexing, raw.order, NeedToCalcBorders(info), options, inputs));
    forall f | 0 <= f < |info.floatAvailable|
      ensures FloatOutcome(options, inputs.clearSrcObjectsData, false, info.allowNansInTestOnly, info.binarization,
                           bestSplit, rows, old(info.floatAvailable)[f], Lookup(old(info.borders), f),
                           Lookup(old(info.nanModes), f), old(info.floatAvailable)[f], old(raw.floatColumns)[f],
                           info.floatAvailable[f], Lookup(info.borders, f), Lookup(info.nanModes, f), columns[f],
                           floatHolders[f])
    {
      assert Lookup(info.nanModes, f) == Lookup(info.nanModes, f);
    }
    FloatOutcomesDetermine(options, inputs.clearSrcObjectsData, false, info.allowNansInTestOnly, info.binarization,
                           bestSplit, rows, old(info.floatAvailable), old(info.borders), old(info.nanModes),
                           old(raw.floatColumns), info.floatAvailable, info.borders, info.nanModes, columns,
                           floatHolders);
  }

  /** The raw float columns as the float tasks leave them: a processed
      feature with borders loses its column by `DestroysFloatColumn`. */
  function TaskColumns(options: QuantizationOptions, clearSrcObjectsData: bool, bordersOnly: bool,
                       availableBefore: seq<bool>, available: seq<bool>, borders: map<nat, seq<int>>,
                       columnsBefore: seq<Option<seq<Float>>>): seq<Option<seq<Float>>>
    requires |availableBefore| == |available| == |columnsBefore|
  {
    seq(|columnsBefore|, f requires 0 <= f < |columnsBefore| =>
      if availableBefore[f] && f in borders
         && DestroysFloatColumn(options, clearSrcObjectsData, bordersOnly, available[f], borders[f])
      then None
      else columnsBefore[f])
  }

  /** The raw categorical columns as the categorical tasks leave them: a
      processed feature loses its column when clearing. */
  function TaskCatColumns(clearSrcObjectsData: bool, catAvailableBefore: seq<bool>,
                          columnsBefore: seq<Option<seq<nat>>>): seq<Option<seq<nat>>>
    requires |catAvailableBefore| == |columnsBefore|
  {
    seq(|columnsBefore|, c requires 0 <= c < |columnsBefore| =>
      if catAvailableBefore[c] && clearSrcObjectsData then None else columnsBefore[c])
  }

  /** The float holders the float tasks produce: `FloatHolderFor` for every
      processed feature, none for the others. */
  function TaskFloatHolders(options: QuantizationOptions, clearSrcObjectsData: bool, bordersOnly: bool,
                            allowNansInTestOnly: bool, availableBefore: seq<bool>, borders: map<nat, seq<int>>,
                            nanModes: map<nat, NanMode>): seq<Option<FloatHolder>>
  {
    seq(|availableBefore|, f requires 0 <= f < |availableBefore| =>
      if availableBefore[f] && f in borders && f in nanModes
      then FloatHolderFor(options, clearSrcObjectsData, bordersOnly, borders[f], nanModes[f], allowNansInTestOnly)
      else None)
  }

  /** The categorical holders the categorical tasks produce: for a processed
      feature with more than one learn-only value, an external holder in the
      GPU-only format with the source kept, else its quantized bins; none for
      the others. */
  function TaskCatHolders(options: QuantizationOptions, clearSrcObjectsData: bool, catAvailableBefore: seq<bool>,
                          catUniqueOnLearn: seq<nat>, catBins: seq<seq<nat>>): seq<Option<CatHolder>>
    requires |catUniqueOnLearn| == |catBins| == |catAvailableBefore|
  {
    seq(|catAvailableBefore|, c requires 0 <= c < |catAvailableBefore| =>
      if catAvailableBefore[c] && catUniqueOnLearn[c] > 1 then
        (if !options.cpuCompatibleFormat && !clearSrcObjectsData then Some(ExternalCat)
         else Some(QuantizedCat(catBins[c])))
      else None)
  }

  /** Per-feature outcomes of the float tasks pin down the raw columns and
      the holders the tasks leave. */
  lemma FloatOutcomesDetermine(options: QuantizationOptions, clearSrcObjectsData: bool, bordersOnly: bool,
                               allowNansInTestOnly: bool, binarization: BinarizationOptions,
                               bestSplit: (seq<Finite>, nat) -> seq<Inner>, rows: seq<nat>,
                               availableBefore: seq<bool>, bordersBefore: map<nat, seq<int>>,
                               nanModesBefore: map<nat, NanMode>, columnsBefore: seq<Option<seq<Float>>>,
                               available: seq<bool>, borders: map<nat, seq<int>>, nanModes: map<nat, NanMode>,
                               columns: seq<Option<seq<Float>>>, holders: seq<Option<FloatHolder>>)
    requires |availableBefore| == |columnsBefore| == |available| == |columns| == |holders|
    requires forall f :: 0 <= f < |availableBefore| ==>
      FloatOutcome(options, clearSrcObjectsData, bordersOnly, allowNansInTestOnly, binarization, bestSplit, rows,
                   availableBefore[f], Lookup(bordersBefore, f), Lookup(nanModesBefore, f), availableBefore[f],
                   columnsBefore[f], available[f], Lookup(borders, f), Lookup(nanModes, f), columns[f], holders[f])
    ensures columns == TaskColumns(options, clearSrcObjectsData, bordersOnly, availableBefore, available, borders,
                                   columnsBefore)
    ensures holders == TaskFloatHolders(options, clearSrcObjectsData, bordersOnly, allowNansInTestOnly,
                                        availableBefore, borders, nanModes)
  {
    var taskColumns := TaskColumns(options, clearSrcObjectsData, bordersOnly, availableBefore, available, borders,
                                   columnsBefore);
    var taskHolders := TaskFloatHolders(options, clearSrcObjectsData, bordersOnly, allowNansInTestOnly,
                                        availableBefore, borders, nanModes);
    forall f | 0 <= f < |columns| ensures columns[f] == taskColumns[f] && holders[f] == taskHolders[f] {
      assert FloatOutcome(options, clearSrcObjectsData, bordersOnly, allowNansInTestOnly, binarization, bestSplit,
                          rows, availableBefore[f], Lookup(bordersBefore, f), Lookup(nanModesBefore, f),
                          availableBefore[f], columnsBefore[f], available[f], Lookup(borders, f),
                          Lookup(nanModes, f), columns[f], holders[f]);
    }
  }

  /** A run over features whose borders and nan modes are all known keeps
      them, and keeps every feature's availability: such a run computes no
      borders. */
  lemma KnownFeaturesKept(options: QuantizationOptions, clearSrcObjectsData: bool, allowNansInTestOnly: bool,
                          binarization: BinarizationOptions, bestSplit: (seq<Finite>, nat) -> seq<Inner>,
                          rows: seq<nat>, availableBefore: seq<bool>, bordersBefore: map<nat, seq<int>>,
                          nanModesBefore: map<nat, NanMode>, columnsBefore: seq<Option<seq<Float>>>,
                          available: seq<bool>, borders: map<nat, seq<int>>, nanModes: map<nat, NanMode>,
                          columns: seq<Option<seq<Float>>>, holders: seq<Option<FloatHolder>>)
    requires |availableBefore| == |columnsBefore| == |available| == |columns| == |holders|
    requires forall f :: 0 <= f < |availableBefore| && availableBefore[f] ==> f in bordersBefore && f in nanModesBefore
    requires forall f :: 0 <= f < |availableBefore| ==>
      FloatOutcome(options, clearSrcObjectsData, false, allowNansInTestOnly, binarization, bestSplit, rows,
                   availableBefore[f], Lookup(bordersBefore, f), Lookup(nanModesBefore, f), availableBefore[f],
                   columnsBefore[f], available[f], Lookup(borders, f), Lookup(nanModes, f), columns[f], holders[f])
    requires forall g :: g >= |availableBefore| ==>
      Lookup(borders, g) == Lookup(bordersBefore, g) && Lookup(nanModes, g) == Lookup(nanModesBefore, g)
    ensures available == availableBefore && borders == bordersBefore && nanModes == nanModesBefore
  {
    forall g: nat ensures Lookup(borders, g) == Lookup(bordersBefore, g) && Lookup(nanModes, g) == Lookup(nanModesBefore, g)
      && (g < |available| ==> available[g] == availableBefore[g])
    {
      if g < |availableBefore| {
        assert FloatOutcome(options, clearSrcObjectsData, false, allowNansInTestOnly, binarization, bestSplit, rows,
                            availableBefore[g], Lookup(bordersBefore, g), Lookup(nanModesBefore, g),
                            availableBefore[g], columnsBefore[g], available[g], Lookup(borders, g),
                            Lookup(nanModes, g), columns[g], holders[g]);
      }
    }
    assert forall g :: g in borders <==> g in bordersBefore by {
      forall g: nat ensures g in borders <==> g in bordersBefore {
        assert Lookup(borders, g) == Lookup(bordersBefore, g);
      }
    }
    assert forall g :: g in nanModes <==> g in nanModesBefore by {
      forall g: nat ensures g in nanModes <==> g in nanModesBefore {
        assert Lookup(nanModes, g) == Lookup(nanModesBefore, g);
      }
    }
    forall g | g in borders ensures borders[g] == bordersBefore[g] {
      assert Lookup(borders, g) == Lookup(bordersBefore, g);
    }
    forall g | g in nanModes ensures nanModes[g] == nanModesBefore[g] {
      assert Lookup(nanModes, g) == Lookup(nanModesBefore, g);
    }
  }

  /** What quantizing one provider produced, stated on the state before the
      run (availability, raw columns) and after it (availability, borders,
      nan modes, raw columns): the provider's id and format; the layout of
      binary features in the CPU format with packing on, else none; packs
      holding the layout's bits computed from the columns the tasks left;
      the tasks' holders with every packed feature moved to its (pack, bit)
      slot; and the raw columns the tasks and packing destroyed, float and
      categorical (a processed categorical feature loses its column when
      clearing). */
  ghost predicate QuantizedResult(options: QuantizationOptions, inputs: RunInputs, id: nat, subsetIndexing: seq<nat>,
                                  floatAvailableBefore: seq<bool>, floatAvailable: seq<bool>,
                                  catAvailableBefore: seq<bool>, catAvailable: seq<bool>,
                                  borders: map<nat, seq<int>>, nanModes: map<nat, NanMode>, allowNansInTestOnly: bool,
                                  before: RawColumns, after: RawColumns, data: QuantizedData)
  {
    match data
    case QuantizedData(sourceId, floatHolders, catHolders, layout, packs, cpuFormat) =>
      var columnsBefore := before.floats;
      |floatAvailable| == |floatAvailableBefore| == |columnsBefore|
      && |catAvailable| == |catAvailableBefore| == |inputs.catUniqueOnLearn| == |inputs.catBins|
         == |inputs.catBinary| == |before.cats| == |after.cats|
      && after.cats == TaskCatColumns(inputs.clearSrcObjectsData, catAvailableBefore, before.cats)
      && var clear := inputs.clearSrcObjectsData;
         var taskColumns := TaskColumns(options, clear, false, floatAvailableBefore, floatAvailable, borders,
                                        columnsBefore);
         sourceId == id && cpuFormat == options.cpuCompatibleFormat
         && layout == (if options.cpuCompatibleFormat && options.packBinaryFeaturesForCpu
                       then BinaryLayout(floatAvailable, borders, catAvailable, inputs.catBinary)
                       else [])
         && PacksHold(packs, layout, subsetIndexing, taskColumns, borders, inputs.catBins)
         && SlotsAssigned(layout, clear,
                          TaskFloatHolders(options, clear, false, allowNansInTestOnly, floatAvailableBefore, borders,
                                           nanModes),
                          TaskCatHolders(options, clear, catAvailableBefore, inputs.catUniqueOnLearn, inputs.catBins),
                          taskColumns, floatHolders, catHolders, after.floats)
  }

  /** The ids of `providers`, in order. */
  function Ids(providers: seq<RawDataProvider>): (ids: seq<nat>)
    ensures |ids| == |providers| && forall i :: 0 <= i < |ids| ==> ids[i] == providers[i].id
  {
    if providers == [] then [] else Ids(providers[..|providers| - 1]) + [providers[|providers| - 1].id]
  }

  /** `Quantize` of one test provider against a features info that already
      knows the borders and nan mode of every available float feature, and
      whose available categorical features all have more than one
      learn-only value: no borders are computed, nothing is ignored, and
      the run fails only for want of a format or of available features. */
  method QuantizeTest(options: QuantizationOptions, info: QuantizedFeaturesInfo, test: RawDataProvider,
                      inputs: RunInputs, bestSplit: (seq<Finite>, nat) -> seq<Inner>)
    returns (r: Result<QuantizedData>)
    modifies info, test
    requires ProviderFits(test, info.floatAvailable, |info.catAvailable|)
    requires InputsFit(inputs, |test.subsetIndexing|, |info.catAvailable|)
    requires forall f :: 0 <= f < |info.floatAvailable| && info.floatAvailable[f] ==>
      f in info.borders && f in info.nanModes
    requires forall c :: 0 <= c < |info.catAvailable| && info.catAvailable[c] ==> inputs.catUniqueOnLearn[c] > 1
    ensures info.floatAvailable == old(info.floatAvailable) && info.catAvailable == old(info.catAvailable)
    ensures info.borders == old(info.borders) && info.nanModes == old(info.nanModes)
    ensures r.Ok? <==> (options.cpuCompatibleFormat || options.gpuCompatibleFormat)
                       && info.HasAvailableAndNotIgnoredFeatures()
    ensures r.Err? ==>
      r.error == if !options.cpuCompatibleFormat && !options.gpuCompatibleFormat then NoFormatSelected
                 else AllFeaturesIgnored
    ensures r.Ok? ==> info.processed == old(info.processed) + [test.id]
    ensures r.Ok? ==>
      QuantizedResult(options, inputs, test.id, test.subsetIndexing, info.floatAvailable, info.floatAvailable,
                      info.catAvailable, info.catAvailable, info.borders, info.nanModes, info.allowNansInTestOnly,
                      old(test.Columns()), test.Columns(), r.value)
  {
    ghost var available, catAvailable, borders, nanModes, columns0 :=
      info.floatAvailable, info.catAvailable, info.borders, info.nanModes, test.floatColumns;
    ghost var rows := BorderRows(test.subsetIndexing, test.order, NeedToCalcBorders(info), options, inputs);
    NoFloatErrorWhenKnown(columns0, available, rows, info.binarization, bestSplit, borders, nanModes);
    ghost var columns, floatHolders, catHolders;
    r, columns, floatHolders, catHolders := Quantize(options, test, info, inputs, bestSplit);
    if r.Ok? || r == Err(AllFeaturesIgnored) {
      forall f | 0 <= f < |available|
        ensures FloatOutcome(options, inputs.clearSrcObjectsData, false, info.allowNansInTestOnly, info.binarization,
                             bestSplit, rows, available[f], Lookup(borders, f), Lookup(nanModes, f), available[f],
                             columns0[f], info.floatAvailable[f], Lookup(info.borders, f), Lookup(info.nanModes, f),
                             columns[f], floatHolders[f])
      {
        assert Lookup(info.nanModes, f) == Lookup(info.nanModes, f);
      }
      KnownFeaturesKept(options, inputs.clearSrcObjectsData, info.allowNansInTestOnly, info.binarization, bestSplit,
                        rows, available, borders, nanModes, columns0, info.floatAvailable, info.borders,
                        info.nanModes, columns, floatHolders);
      forall c | 0 <= c < |catAvailable| ensures info.catAvailable[c] == catAvailable[c] {
        assert catHolders[c] == catHolders[c];
      }
    }
  }

  /** The raw columns of `providers`, in order. */
  ghost function ColumnsOf(providers: seq<RawDataProvider>): (columns: seq<RawColumns>)
    reads set j | 0 <= j < |providers| :: providers[j]
    ensures |columns| == |providers| && forall j :: 0 <= j < |columns| ==> columns[j] == providers[j].Columns()
  {
    if providers == [] then []
    else ColumnsOf(providers[..|providers| - 1]) + [providers[|providers| - 1].Columns()]
  }

  /** The parts of a features info that quantizing a test provider reads
      and leaves as they are. */
  datatype InfoSnapshot = InfoSnapshot(floatAvailable: seq<bool>, catAvailable: seq<bool>,
                                       borders: map<nat, seq<int>>, nanModes: map<nat, NanMode>)

  ghost function Snapshot(info: QuantizedFeaturesInfo): InfoSnapshot
    reads info
  {
    InfoSnapshot(info.floatAvailable, info.catAvailable, info.borders, info.nanModes)
  }

  /** The test providers `QuantizeTests` has quantized so far against the
      features info `known`: position by position, `results` is what
      quantizing the provider there produced, `done` its id, and `before`
      and `after` its raw float columns before and after. */
  ghost predicate TestsQuantized(options: QuantizationOptions, known: InfoSnapshot, allowNansInTestOnly: bool,
                                 tests: seq<RawDataProvider>, testInputs: seq<RunInputs>,
                                 before: seq<RawColumns>, after: seq<RawColumns>,
                                 done: seq<nat>, results: seq<QuantizedData>)
  {
    match known
    case InfoSnapshot(available, catAvailable, borders, nanModes) =>
      |done| == |results| <= |tests| == |testInputs| == |before| == |after|
      && (forall j :: 0 <= j < |results| ==> done[j] == tests[j].id)
      && forall j {:trigger QuantizedResult(options, testInputs[j], tests[j].id, tests[j].subsetIndexing, available,
                                            available, catAvailable, catAvailable, borders, nanModes,
                                            allowNansInTestOnly, before[j], after[j], results[j])} ::
           0 <= j < |results| ==>
           QuantizedResult(options, testInputs[j], tests[j].id, tests[j].subsetIndexing, available, available,
                           catAvailable, catAvailable, borders, nanModes, allowNansInTestOnly, before[j],
                           after[j], results[j])
  }

  /** Extending the record of quantized test providers by the next one. */
  lemma TestsQuantizedNext(options: QuantizationOptions, known: InfoSnapshot, allowNansInTestOnly: bool,
                           tests: seq<RawDataProvider>, testInputs: seq<RunInputs>,
                           before: seq<RawColumns>, after: seq<RawColumns>,
                           done: seq<nat>, results: seq<QuantizedData>, columns: RawColumns,
                           result: QuantizedData)
    requires TestsQuantized(options, known, allowNansInTestOnly, tests, testInputs, before, after, done, results)
    requires |results| < |tests|
    requires QuantizedResult(options, testInputs[|results|], tests[|results|].id, tests[|results|].subsetIndexing,
                             known.floatAvailable, known.floatAvailable, known.catAvailable, known.catAvailable,
                             known.borders, known.nanModes, allowNansInTestOnly, before[|results|], columns, result)
    ensures TestsQuantized(options, known, allowNansInTestOnly, tests, testInputs, before,
                           after[|results| := columns], done + [tests[|results|].id], results + [result])
  {
    var i := |results|;
    var after', done', results' := after[i := columns], done + [tests[i].id], results + [result];
    forall j | 0 <= j < |results'|
      ensures done'[j] == tests[j].id
      ensures QuantizedResult(options, testInputs[j], tests[j].id, tests[j].subsetIndexing, known.floatAvailable,
                              known.floatAvailable, known.catAvailable, known.catAvailable, known.borders,
                              known.nanModes, allowNansInTestOnly, before[j], after'[j], results'[j])
    {
      if j < i {
        assert done'[j] == done[j] && after'[j] == after[j] && results'[j] == results[j];
      } else {
        assert done'[j] == tests[i].id && after'[j] == columns && results'[j] == result;
      }
    }
  }

  /** What one test run asks of its inputs: they fit the provider, and every
      available categorical feature has more than one learn-only value. */
  ghost predicate TestInputsFit(inputs: RunInputs, objectCount: nat, catAvailable: seq<bool>)
  {
    InputsFit(inputs, objectCount, |catAvailable|)
    && forall c :: 0 <= c < |catAvailable| && catAvailable[c] ==> inputs.catUniqueOnLearn[c] > 1
  }

  /** One round of `QuantizeTests`: the test provider at position
      `|results|` quantized by `QuantizeTest`, and the record of the
      providers quantized so far extended by it. */
  method QuantizeNextTest(options: QuantizationOptions, info: QuantizedFeaturesInfo, tests: seq<RawDataProvider>,
                          testInputs: seq<RunInputs>, bestSplit: (seq<Finite>, nat) -> seq<Inner>,
                          ghost known: InfoSnapshot, ghost before: seq<RawColumns>,
                          ghost after: seq<RawColumns>, ghost done: seq<nat>,
                          results: seq<QuantizedData>)
    returns (tested: Result<QuantizedData>, ghost after': seq<RawColumns>)
    modifies info, tests[|results|]
    requires |results| < |tests| && Snapshot(info) == known
    requires forall i, j :: 0 <= i < j < |tests| ==> tests[i] != tests[j]
    requires forall f :: 0 <= f < |known.floatAvailable| && known.floatAvailable[f] ==>
      f in known.borders && f in known.nanModes
    requires TestsQuantized(options, known, info.allowNansInTestOnly, tests, testInputs, before, after, done, results)
    requires TestInputsFit(testInputs[|results|], |tests[|results|].subsetIndexing|, known.catAvailable)
    requires forall j :: 0 <= j < |tests| ==> tests[j].Columns() == after[j]
    requires forall j :: |results| <= j < |tests| ==>
      ProviderFits(tests[j], known.floatAvailable, |known.catAvailable|) && after[j] == before[j]
    ensures Snapshot(info) == known
    ensures |after'| == |tests|
    ensures forall j :: 0 <= j < |tests| ==> tests[j].Columns() == after'[j]
    ensures forall j :: |results| < j < |tests| ==>
      ProviderFits(tests[j], known.floatAvailable, |known.catAvailable|) && after'[j] == before[j]
    ensures tested.Ok? <==> (options.cpuCompatibleFormat || options.gpuCompatibleFormat)
                            && info.HasAvailableAndNotIgnoredFeatures()
    ensures tested.Err? ==>
      tested.error == if !options.cpuCompatibleFormat && !options.gpuCompatibleFormat then NoFormatSelected
                      else AllFeaturesIgnored
    ensures tested.Ok? ==> info.processed == old(info.processed) + [tests[|results|].id]
    ensures tested.Ok? ==>
      TestsQuantized(options, known, info.allowNansInTestOnly, tests, testInputs, before, after',
                     done + [tests[|results|].id], results + [tested.value])
  {
    var i := |results|;
    tested := QuantizeTest(options, info, tests[i], testInputs[i], bestSplit);
    after' := after[i := tests[i].Columns()];
    if tested.Ok? {
      TestsQuantizedNext(options, known, info.allowNansInTestOnly, tests, testInputs, before, after, done, results,
                         tests[i].Columns(), tested.value);
    }
  }

  /** The test part of the multi-provider `Quantize`: each test provider in
      order against the features info the learn provider left, the first
      failure ending the run. The features info does not change: test
      providers compute no borders and ignore no feature. `before` and
      `after` are the test providers' raw float columns before and after. */
  method QuantizeTests(options: QuantizationOptions, info: QuantizedFeaturesInfo,
                       tests: seq<RawDataProvider>, testInputs: seq<RunInputs>,
                       bestSplit: (seq<Finite>, nat) -> seq<Inner>)
    returns (r: Result<seq<QuantizedData>>, ghost before: seq<RawColumns>,
             ghost after: seq<RawColumns>)
    modifies info, tests
    requires forall i, j :: 0 <= i < j < |tests| ==> tests[i] != tests[j]
    requires |testInputs| == |tests|
    requires forall i :: 0 <= i < |tests| ==>
      ProviderFits(tests[i], info.floatAvailable, |info.catAvailable|)
    requires forall i :: 0 <= i < |tests| ==>
      TestInputsFit(testInputs[i], |tests[i].subsetIndexing|, info.catAvailable)
    requires forall f :: 0 <= f < |info.floatAvailable| && info.floatAvailable[f] ==>
      f in info.borders && f in info.nanModes
    ensures Snapshot(info) == old(Snapshot(info))
    ensures r.Ok? <==> tests == [] || ((options.cpuCompatibleFormat || options.gpuCompatibleFormat)
                                       && info.HasAvailableAndNotIgnoredFeatures())
    ensures r.Err? ==>
      r.error == if !options.cpuCompatibleFormat && !options.gpuCompatibleFormat then NoFormatSelected
                 else AllFeaturesIgnored
    ensures r.Ok? ==> info.processed == old(info.processed) + Ids(tests)
    ensures |before| == |after| == |tests|
    ensures forall i :: 0 <= i < |tests| ==>
      before[i] == old(tests[i].Columns()) && after[i] == tests[i].Columns()
    ensures r.Ok? ==> |r.value| == |tests|
    ensures r.Ok? ==>
      TestsQuantized(options, Snapshot(info), info.allowNansInTestOnly, tests, testInputs, before, after,
                     Ids(tests), r.value)
  {
    ghost var known := Snapshot(info);
    before := ColumnsOf(tests);
    after := before;
    ghost var done: seq<nat> := [];
    var results: seq<QuantizedData> := [];
    r := Ok([]);
    for i := 0 to |tests|
      invariant r.Ok?
      invariant Snapshot(info) == known
      invariant i > 0 ==> (options.cpuCompatibleFormat || options.gpuCompatibleFormat)
                          && info.HasAvailableAndNotIgnoredFeatures()
      invariant |results| == i
      invariant TestsQuantized(options, known, info.allowNansInTestOnly, tests, testInputs, before, after, done,
                               results)
      invariant info.processed == old(info.processed) + done
      invariant forall j :: 0 <= j < |tests| ==> tests[j].Columns() == after[j]
      invariant forall j :: i <= j < |tests| ==>
        ProviderFits(tests[j], known.floatAvailable, |known.catAvailable|) && after[j] == before[j]
    {
      var tested;
      tested, after := QuantizeNextTest(options, info, tests, testInputs, bestSplit, known, before, after, done,
                                        results);
      if tested.Err? {
        r := Err(tested.error);
        break;
      }
      done, results := done + [tests[i].id], results + [tested.value];
    }
    if r.Ok? {
      assert done == Ids(tests);
      r := Ok(results);
    }
  }

  /** The learn part of the multi-provider `Quantize`: the learn provider
      quantized against a features info with no borders or nan modes yet, so
      that every available float feature's nan mode and borders are computed
      from the learn provider's border sample. */
  method QuantizeLearn(options: QuantizationOptions, info: QuantizedFeaturesInfo, learn: RawDataProvider,
                       learnInputs: RunInputs, bestSplit: (seq<Finite>, nat) -> seq<Inner>)
    returns (r: Result<QuantizedData>)
    modifies info, learn
    requires info.borders == map[] && info.nanModes == map[]
    requires ProviderFits(learn, info.floatAvailable, |info.catAvailable|)
    requires InputsFit(learnInputs, |learn.subsetIndexing|, |info.catAvailable|)
    ensures r == Err(NoFormatSelected) <==> !options.cpuCompatibleFormat && !options.gpuCompatibleFormat
    ensures options.cpuCompatibleFormat || options.gpuCompatibleFormat ==>
      var e := FirstFloatError(old(learn.floatColumns), old(info.floatAvailable),
                               BorderRows(learn.subsetIndexing, learn.order, old(true in info.floatAvailable),
                                          options, learnInputs),
                               info.binarization, bestSplit, map[], map[], old(|info.floatAvailable|));
      (e.Some? ==> r == Err(e.value))
      && (e.None? ==> (r.Ok? <==> info.HasAvailableAndNotIgnoredFeatures()))
      && (e.None? && !info.HasAvailableAndNotIgnoredFeatures() ==> r == Err(AllFeaturesIgnored))
    ensures |info.floatAvailable| == old(|info.floatAvailable|) && |info.catAvailable| == old(|info.catAvailable|)
    ensures forall f :: 0 <= f < |info.floatAvailable| && info.floatAvailable[f] ==> old(info.floatAvailable[f])
    ensures forall g :: g >= |info.floatAvailable| ==> g !in info.borders && g !in info.nanModes
    ensures r.Ok? ==> r.value.sourceId == learn.id && info.processed == old(info.processed) + [learn.id]
    ensures r.Ok? || r == Err(AllFeaturesIgnored) ==>
      (forall f :: 0 <= f < |info.floatAvailable| ==>
         (old(info.floatAvailable[f]) <==> f in info.borders && f in info.nanModes)
         && info.floatAvailable[f] == (old(info.floatAvailable[f]) && |info.borders[f]| > 0))
      && forall c :: 0 <= c < |info.catAvailable| ==>
           info.catAvailable[c] == (old(info.catAvailable[c]) && learnInputs.catUniqueOnLearn[c] > 1)
    ensures r.Ok? || r == Err(AllFeaturesIgnored) ==>
      forall f :: 0 <= f < |info.floatAvailable| && old(info.floatAvailable[f]) ==>
        f in info.borders && f in info.nanModes
        && ComputedFrom(old(learn.floatColumns[f]),
                        BorderRows(learn.subsetIndexing, learn.order, old(true in info.floatAvailable), options,
                                   learnInputs),
                        info.binarization, bestSplit, info.nanModes[f], info.borders[f])
    ensures r.Ok? ==>
      QuantizedResult(options, learnInputs, learn.id, learn.subsetIndexing, old(info.floatAvailable),
                      info.floatAvailable, old(info.catAvailable), info.catAvailable, info.borders, info.nanModes,
                      info.allowNansInTestOnly, old(learn.Columns()), learn.Columns(), r.value)
  {
    assert NeedToCalcBorders(info) == (true in info.floatAvailable);
    ghost var available := info.floatAvailable;
    ghost var columns, floatHolders, catHolders;
    r, columns, floatHolders, catHolders := Quantize(options, learn, info, learnInputs, bestSplit);
    forall g | g >= |info.floatAvailable| ensures g !in info.borders && g !in info.nanModes {
      assert Lookup(info.borders, g).None? && Lookup(info.nanModes, g).None?;
    }
    if r.Ok? || r == Err(AllFeaturesIgnored) {
      forall f | 0 <= f < |info.floatAvailable|
        ensures old(info.floatAvailable[f]) <==> f in info.borders && f in info.nanModes
        ensures info.floatAvailable[f] == (old(info.floatAvailable[f]) && |info.borders[f]| > 0)
        ensures old(info.floatAvailable[f]) ==>
          ComputedFrom(old(learn.floatColumns[f]),
                       BorderRows(learn.subsetIndexing, learn.order, old(true in info.floatAvailable), options,
                                  learnInputs),
                       info.binarization, bestSplit, info.nanModes[f], info.borders[f])
      {
        assert Lookup(info.nanModes, f).Some? == (f in info.nanModes);
        assert Lookup(info.borders, f).Some? == (f in info.borders);
      }
      forall c | 0 <= c < |info.catAvailable|
        ensures info.catAvailable[c] == (old(info.catAvailable[c]) && learnInputs.catUniqueOnLearn[c] > 1)
      {
        assert catHolders[c] == catHolders[c];
      }
    }
  }

  /** `Quantize` of a learn provider and its test providers: one fresh
      features info (from the layout's availability after ignoring features),
      the learn provider first, then each test provider in order, the first
      failure ending the run. Every available float feature's nan mode and
      borders come from the learn provider's border sample; test providers
      share the learn provider's categorical value counts and only reuse
      what the learn run left, so once the learn run succeeds they do too. */
  method QuantizeAll(options: QuantizationOptions, binarization: BinarizationOptions, allowNansInTestOnly: bool,
                     floatAvailable: seq<bool>, catAvailable: seq<bool>,
                     learn: RawDataProvider, learnInputs: RunInputs,
                     tests: seq<RawDataProvider>, testInputs: seq<RunInputs>,
                     bestSplit: (seq<Finite>, nat) -> seq<Inner>)
    returns (r: Result<(QuantizedData, seq<QuantizedData>)>, info: QuantizedFeaturesInfo,
             ghost testsBefore: seq<RawColumns>, ghost testsAfter: seq<RawColumns>)
    modifies learn, tests
    requires learn !in tests && forall i, j :: 0 <= i < j < |tests| ==> tests[i] != tests[j]
    requires ProviderFits(learn, floatAvailable, |catAvailable|)
    requires InputsFit(learnInputs, |learn.subsetIndexing|, |catAvailable|)
    requires |testInputs| == |tests|
    requires forall i :: 0 <= i < |tests| ==>
      ProviderFits(tests[i], floatAvailable, |catAvailable|)
      && InputsFit(testInputs[i], |tests[i].subsetIndexing|, |catAvailable|)
      && testInputs[i].catUniqueOnLearn == learnInputs.catUniqueOnLearn
    ensures fresh(info)
    ensures info.binarization == binarization && info.allowNansInTestOnly == allowNansInTestOnly
    ensures |info.floatAvailable| == |floatAvailable| && |info.catAvailable| == |catAvailable|
    ensures forall f :: 0 <= f < |floatAvailable| && info.floatAvailable[f] ==> floatAvailable[f]
    ensures r == Err(NoFormatSelected) <==> !options.cpuCompatibleFormat && !options.gpuCompatibleFormat
    ensures options.cpuCompatibleFormat || options.gpuCompatibleFormat ==>
      var e := FirstFloatError(old(learn.floatColumns), floatAvailable,
                               BorderRows(learn.subsetIndexing, learn.order, true in floatAvailable, options,
                                          learnInputs),
                               binarization, bestSplit, map[], map[], |floatAvailable|);
      (e.Some? ==> r == Err(e.value))
      && (e.None? ==> (r.Ok? <==> info.HasAvailableAndNotIgnoredFeatures()))
      && (e.None? && !info.HasAvailableAndNotIgnoredFeatures() ==> r == Err(AllFeaturesIgnored))
      && (e.None? ==>
            (forall f :: 0 <= f < |floatAvailable| ==>
               (floatAvailable[f] <==> f in info.borders && f in info.nanModes)
               && info.floatAvailable[f] == (floatAvailable[f] && |info.borders[f]| > 0))
            && forall c :: 0 <= c < |catAvailable| ==>
                 info.catAvailable[c] == (catAvailable[c] && learnInputs.catUniqueOnLearn[c] > 1))
    ensures r.Ok? ==>
      r.value.0.sourceId == learn.id && |r.value.1| == |tests|
      && forall i :: 0 <= i < |tests| ==> r.value.1[i].sourceId == tests[i].id
    ensures r.Ok? ==> info.processed == [learn.id] + Ids(tests)
    ensures r.Ok? ==> forall f :: 0 <= f < |floatAvailable| && floatAvailable[f] ==>
      f in info.borders && f in info.nanModes
      && ComputedFrom(old(learn.floatColumns[f]),
                      BorderRows(learn.subsetIndexing, learn.order, true in floatAvailable, options, learnInputs),
                      binarization, bestSplit, info.nanModes[f], info.borders[f])
    ensures r.Ok? ==>
      QuantizedResult(options, learnInputs, learn.id, learn.subsetIndexing, floatAvailable, info.floatAvailable,
                      catAvailable, info.catAvailable, info.borders, info.nanModes, allowNansInTestOnly,
                      old(learn.Columns()), learn.Columns(), r.value.0)
    ensures |testsBefore| == |testsAfter| == |tests|
    ensures forall i :: 0 <= i < |tests| ==> testsBefore[i] == old(tests[i].Columns())
    ensures forall i :: 0 <= i < |tests| ==> testsAfter[i] == tests[i].Columns()
    ensures r.Ok? ==>
      TestsQuantized(options, Snapshot(info), allowNansInTestOnly, tests, testInputs, testsBefore, testsAfter,
                     Ids(tests), r.value.1)
  {
    testsBefore := ColumnsOf(tests);
    testsAfter := testsBefore;
    info := new QuantizedFeaturesInfo(floatAvailable, catAvailable, binarization, allowNansInTestOnly);
    var learnResult := QuantizeLearn(options, info, learn, learnInputs, bestSplit);
    if learnResult.Err? {
      r := Err(learnResult.error);
    } else {
      assert info.processed == [learn.id];
      forall i | 0 <= i < |tests|
        ensures ProviderFits(tests[i], info.floatAvailable, |info.catAvailable|)
        ensures TestInputsFit(testInputs[i], |tests[i].subsetIndexing|, info.catAvailable)
      {
        FitsFewerFeatures(tests[i], floatAvailable, info.floatAvailable, |catAvailable|);
      }
      var testResults;
      testResults, testsBefore, testsAfter := QuantizeTests(options, info, tests, testInputs, bestSplit);
      match testResults
      case Err(e) =>
        r := Err(e);
      case Ok(results) =>
        forall i | 0 <= i < |tests| ensures results[i].sourceId == tests[i].id {
          assert QuantizedResult(options, testInputs[i], tests[i].id, tests[i].subsetIndexing, info.floatAvailable,
                                 info.floatAvailable, info.catAvailable, info.catAvailable, info.borders,
                                 info.nanModes, allowNansInTestOnly, testsBefore[i], testsAfter[i], results[i]);
        }
        r := Ok((learnResult.value, results));
    }
  }
}
