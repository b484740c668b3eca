/** The shared quantization state (`TQuantizedFeaturesInfo` together with its
    features layout) and the raw data provider the quantizer reads and clears. */
module FeaturesInfo {
  import opened QuantizationTypes

  /** Per-feature nan modes and borders, and the availability flags of the
      features layout. Float and categorical features are addressed by their
      per-type index. Quantizing the learn set fills in nan modes and borders;
      quantizing test sets afterwards reuses them. */
  class QuantizedFeaturesInfo {
    /** `IsAvailable` of each float feature in the layout (false once ignored).
        The source ignores a feature by its external id; the layout maps that
        id one-to-one to the per-type index used here. */
    var floatAvailable: seq<bool>
    /** `IsAvailable` of each categorical feature in the layout. */
    var catAvailable: seq<bool>
    var nanModes: map<nat, NanMode>
    var borders: map<nat, seq<int>>
    const binarization: BinarizationOptions
    const allowNansInTestOnly: bool
    /** Ids of the data providers quantized against this object, in order. */
    ghost var processed: seq<nat>

    constructor (floatAvailable: seq<bool>, catAvailable: seq<bool>,
                 binarization: BinarizationOptions, allowNansInTestOnly: bool)
      ensures this.floatAvailable == floatAvailable && this.catAvailable == catAvailable
      ensures nanModes == map[] && borders == map[] && processed == []
      ensures this.binarization == binarization && this.allowNansInTestOnly == allowNansInTestOnly
    {
      this.floatAvailable := floatAvailable;
      this.catAvailable := catAvailable;
      this.binarization := binarization;
      this.allowNansInTestOnly := allowNansInTestOnly;
      nanModes := map[];
      borders := map[];
      processed := [];
    }

    /** The layout's `HasAvailableAndNotIgnoredFeatures`: ignoring a feature
        clears its availability flag, so this is "some flag is set". */
    predicate HasAvailableAndNotIgnoredFeatures()
      reads this
    {
      true in floatAvailable || true in catAvailable
    }
  }

  /** The loop of `NeedToCalcBorders` over the first `k` float features:
      whether one of them is available and has no borders yet. */
  function AnyAvailableWithoutBorders(available: seq<bool>, borders: map<nat, seq<int>>, k: nat): (r: bool)
    requires k <= |available|
    ensures r <==> exists f :: 0 <= f < k && available[f] && f !in borders
  {
    if k == 0 then false
    else AnyAvailableWithoutBorders(available, borders, k - 1) || (available[k - 1] && k - 1 !in borders)
  }

  /** Borders have to be computed exactly when some available float feature lacks them. */
  predicate NeedToCalcBorders(info: QuantizedFeaturesInfo)
    reads info
    ensures NeedToCalcBorders(info) <==>
      exists f :: 0 <= f < |info.floatAvailable| && info.floatAvailable[f] && f !in info.borders
  {
    AnyAvailableWithoutBorders(info.floatAvailable, info.borders, |info.floatAvailable|)
  }

  /** Whether float feature `f` is left for the binary-features packing step.
      The borders are looked up only for an available feature, as in the source. */
  predicate IsFloatFeatureToBeBinarized(options: QuantizationOptions, info: QuantizedFeaturesInfo, f: nat)
    reads info
    requires f < |info.floatAvailable|
    requires options.cpuCompatibleFormat && options.packBinaryFeaturesForCpu && info.floatAvailable[f]
      ==> f in info.borders
    ensures IsFloatFeatureToBeBinarized(options, info, f) ==> f in info.borders && |info.borders[f]| == 1
    ensures IsFloatFeatureToBeBinarized(options, info, f) <==>
      options.cpuCompatibleFormat && options.packBinaryFeaturesForCpu
      && info.floatAvailable[f] && |info.borders[f]| == 1
  {
    if !options.cpuCompatibleFormat || !options.packBinaryFeaturesForCpu then false
    else info.floatAvailable[f] && |info.borders[f]| == 1
  }

  /** The raw columns of a provider, float and categorical. */
  datatype RawColumns = RawColumns(floats: seq<Option<seq<Float>>>, cats: seq<Option<seq<nat>>>)

  /** A raw data provider: the columns of its objects and how objects map to
      rows of those columns. A destroyed column is `None`. */
  class RawDataProvider {
    const id: nat
    /** Object index -> row of the source columns (`SubsetIndexing`). */
    const subsetIndexing: seq<nat>
    const order: ObjectsOrder
    var floatColumns: seq<Option<seq<Float>>>
    /** Hashed categorical values; only their presence matters to this model. */
    var catColumns: seq<Option<seq<nat>>>

    constructor (id: nat, subsetIndexing: seq<nat>, order: ObjectsOrder,
                 floatColumns: seq<Option<seq<Float>>>, catColumns: seq<Option<seq<nat>>>)
      ensures this.id == id && this.subsetIndexing == subsetIndexing && this.order == order
      ensures this.floatColumns == floatColumns && this.catColumns == catColumns
    {
      this.id := id;
      this.subsetIndexing := subsetIndexing;
      this.order := order;
      this.floatColumns := floatColumns;
      this.catColumns := catColumns;
    }

    /** The provider's raw float and categorical columns. */
    ghost function Columns(): RawColumns
      reads this
    {
      RawColumns(floatColumns, catColumns)
    }
  }

  /** Every row that `rows` names exists in `column`. */
  ghost predicate Covers(rows: seq<nat>, column: seq<Float>)
  {
    forall k :: 0 <= k < |rows| ==> rows[k] < |column|
  }
}
