/** Per-feature memory estimates that the resource-constrained scheduler uses
    (`EstimateMaxMemUsageForFloatFeature`, `EstimateMaxMemUsageForCatFeature`).
    Unsigned arithmetic is written out: a `ui32` product wraps modulo 2^32,
    a `ui64` sum modulo 2^64. */
module MemEstimate {
  import opened QuantizationTypes
  import opened FeaturesInfo

  const TwoTo32: nat := 0x1_0000_0000
  const TwoTo64: nat := 0x1_0000_0000_0000_0000

  type UInt32 = x: nat | x < 0x1_0000_0000
  type UInt64 = x: nat | x < 0x1_0000_0000_0000_0000

  /** `sizeof(float) * sampleSize + CalcMemoryForFindBestSplit(...)` when borders
      have to be built, in `ui64`. `bestSplitMemory` stands for the value of
      `CalcMemoryForFindBestSplit`. */
  function BorderBuildingMemory(needToCalcBorders: bool, sampleSize: UInt32, bestSplitMemory: UInt64): UInt64
  {
    if needToCalcBorders then (4 * sampleSize + bestSplitMemory) % TwoTo64 else 0
  }

  /** `sizeof(ui8) * objectCount` for the quantized column, when one is stored. */
  function FloatStorageMemory(objectCount: UInt32, options: QuantizationOptions,
                              doQuantization: bool, clearSrcData: bool): UInt32
  {
    if doQuantization && (options.cpuCompatibleFormat || clearSrcData) then objectCount else 0
  }

  /** `EstimateMaxMemUsageForFloatFeature`. `sampleSize` is the value of
      `GetSampleSizeForBorderSelectionType` for `objectCount`. */
  function EstimateMaxMemUsageForFloatFeature(objectCount: UInt32, info: QuantizedFeaturesInfo,
                                              options: QuantizationOptions, doQuantization: bool,
                                              clearSrcData: bool, sampleSize: UInt32,
                                              bestSplitMemory: UInt64): (r: UInt64)
    reads info
    ensures !NeedToCalcBorders(info) ==>
      r == (if doQuantization && (options.cpuCompatibleFormat || clearSrcData) then objectCount else 0)
    ensures !doQuantization ==> r == BorderBuildingMemory(NeedToCalcBorders(info), sampleSize, bestSplitMemory)
    ensures bestSplitMemory < TwoTo64 - 0x8_0000_0000 && NeedToCalcBorders(info) ==>
      r >= 4 * sampleSize + bestSplitMemory
  {
    var need := NeedToCalcBorders(info);
    (BorderBuildingMemory(need, sampleSize, bestSplitMemory)
      + FloatStorageMemory(objectCount, options, doQuantization, clearSrcData)) % TwoTo64
  }

  /** Quantizing (as opposed to only computing borders) adds exactly one byte
      per object to the float estimate when the quantized column is stored,
      and nothing otherwise; no sum wraps while `CalcMemoryForFindBestSplit`
      stays below 2^64 - 2^35. */
  lemma FloatEstimateQuantizationTerm(objectCount: UInt32, info: QuantizedFeaturesInfo,
                                      options: QuantizationOptions, clearSrcData: bool,
                                      sampleSize: UInt32, bestSplitMemory: UInt64)
    requires bestSplitMemory < TwoTo64 - 0x8_0000_0000
    ensures EstimateMaxMemUsageForFloatFeature(objectCount, info, options, true, clearSrcData, sampleSize, bestSplitMemory)
      == EstimateMaxMemUsageForFloatFeature(objectCount, info, options, false, clearSrcData, sampleSize, bestSplitMemory)
         + (if options.cpuCompatibleFormat || clearSrcData then objectCount else 0)
  {
    var need := NeedToCalcBorders(info);
    assert BorderBuildingMemory(need, sampleSize, bestSplitMemory) <= 4 * sampleSize + bestSplitMemory;
  }

  /** `32 * objectCount` as the source computes it: the constant is a `ui32`
      and so is `objectCount`, so the product is taken modulo 2^32 before it
      is added to the `ui64` result. */
  function HashMapNodesMemoryAsWritten(objectCount: UInt32): UInt32
  {
    (32 * objectCount) % TwoTo32
  }

  /** `sizeof(ui32) * objectCount` (a `size_t` product, so it never wraps)
      when a quantized column is stored. */
  function CatStorageMemory(objectCount: UInt32, options: QuantizationOptions, clearSrcData: bool): nat
  {
    if options.cpuCompatibleFormat || clearSrcData then 4 * objectCount else 0
  }

  /** `EstimateMaxMemUsageForCatFeature` as written, with the wrapping
      `ui32` product. */
  function EstimateMaxMemUsageForCatFeatureAsWritten(objectCount: UInt32, options: QuantizationOptions,
                                                     clearSrcData: bool): (r: UInt64)
    ensures r < 0x5_0000_0000
  {
    HashMapNodesMemoryAsWritten(objectCount) + CatStorageMemory(objectCount, options, clearSrcData)
  }

  /** `EstimateMaxMemUsageForCatFeature` as intended: a 32-byte hash-map node
      for every object (all values new in the worst case), plus four bytes per
      object for the quantized column when it is stored. */
  function EstimateMaxMemUsageForCatFeature(objectCount: UInt32, options: QuantizationOptions,
                                            clearSrcData: bool): (r: UInt64)
    ensures r == objectCount * (if options.cpuCompatibleFormat || clearSrcData then 36 else 32)
  {
    32 * objectCount + CatStorageMemory(objectCount, options, clearSrcData)
  }

  /** The intended estimate grows with the number of objects. */
  lemma CatEstimateMonotone(n: UInt32, m: UInt32, options: QuantizationOptions, clearSrcData: bool)
    requires n <= m
    ensures EstimateMaxMemUsageForCatFeature(n, options, clearSrcData)
      <= EstimateMaxMemUsageForCatFeature(m, options, clearSrcData)
  {
    var k := if options.cpuCompatibleFormat || clearSrcData then 36 else 32;
    assert n * k <= m * k;
  }

  /** The estimate as written agrees with the intended one exactly when the
      `ui32` product `32 * objectCount` does not wrap, i.e. below 2^27 objects;
      from there on it under-estimates. */
  lemma CatEstimateWrapsFrom2To27(objectCount: UInt32, options: QuantizationOptions, clearSrcData: bool)
    ensures EstimateMaxMemUsageForCatFeatureAsWritten(objectCount, options, clearSrcData)
      == EstimateMaxMemUsageForCatFeature(objectCount, options, clearSrcData)
      <==> objectCount < 0x800_0000
    ensures objectCount >= 0x800_0000 ==>
      EstimateMaxMemUsageForCatFeatureAsWritten(objectCount, options, clearSrcData)
      < EstimateMaxMemUsageForCatFeature(objectCount, options, clearSrcData)
  {
    var product := 32 * objectCount;
    if objectCount < 0x800_0000 {
      assert product < TwoTo32;
      assert product % TwoTo32 == product;
    } else {
      assert product >= TwoTo32;
      assert product % TwoTo32 < TwoTo32 <= product;
    }
  }

  /** 2^27 objects in the CPU format: the estimate as written is 2^29 bytes
      (only the storage term survives), the intended one 2^32 + 2^29. */
  lemma CatEstimateCounterexample()
    ensures var options := QuantizationOptions(true, false, false, false);
      EstimateMaxMemUsageForCatFeatureAsWritten(0x800_0000, options, false) == 0x2000_0000
      && EstimateMaxMemUsageForCatFeature(0x800_0000, options, false) == 0x1_2000_0000
  {
    assert (32 * 0x800_0000) % TwoTo32 == 0;
  }
}
