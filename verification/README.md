# Quantization of raw data providers (CatBoost `data_new/quantization.cpp`)

This project models how CatBoost turns a raw data provider into a quantized one. The model covers:

- choosing the subset of objects used to build borders (`GetSubsetForBuildBorders`);
- computing the nan mode and borders of each float feature from that subset (`CalcBordersAndNanMode`);
- choosing the holder each float and categorical feature gets (`ProcessFloatFeature`, `ProcessCatFeature`);
- destroying raw columns once they are no longer needed;
- packing binary features eight to a byte (`BinarizeFeatures`);
- the per-feature memory estimates used by the resource-constrained scheduler;
- the driver `TQuantizationImpl::Do`, with its three public entry points:
  - borders only;
  - quantizing one provider;
  - quantizing a learn provider followed by its test providers, all against one shared `TQuantizedFeaturesInfo`.

The shared features info is a class, `FeaturesInfo.QuantizedFeaturesInfo`. It holds:

- the availability flags of the features layout;
- the nan-mode and border maps;
- the binarization options;
- a ghost log of the providers quantized against it.

A raw provider is a class, `FeaturesInfo.RawDataProvider`. Its columns are `Option`s, and a destroyed column is `None`.

Library routines the core only calls are parameters: `BestSplit`, `CalcMemoryForFindBestSplit`, `Shuffle`, the random draws, the perfect hash and `GetSampleSizeForBorderSelectionType`.

Modules:

- `QuantizationTypes`: options, nan modes, holders, errors, `Result`/`Option`.
- `FeaturesInfo`: the features info class, the raw provider class, `NeedToCalcBorders` and `IsFloatFeatureToBeBinarized`.
- `BorderSample`: the subset for building borders, including the partial Fisher–Yates shuffle.
- `Borders`: nan mode and borders of one feature.
- `MemEstimate`: the scheduler's memory estimates, with the `ui32`/`ui64` arithmetic written out.
- `Packing`: bit getters and `BinarizeFeatures`.
- `Features`: `ProcessFloatFeature` and `ProcessCatFeature`.
- `Quantization`: `Do`, `CalcBordersAndNanMode`, `Quantize` and the learn-and-tests `Quantize`.

## Model

| member | source | states |
|---|---|---|
| FeaturesInfo.AnyAvailableWithoutBorders | catboost/libs/data_new/quantization.cpp:34-45 | the feature loop returns true iff some float feature among the first `k` is available and has no borders |
| FeaturesInfo.NeedToCalcBorders | catboost/libs/data_new/quantization.cpp:34-45 | borders must be computed iff some available float feature has no borders yet |
| FeaturesInfo.IsFloatFeatureToBeBinarized | catboost/libs/data_new/quantization.cpp:571-593 | a float feature is left for packing iff the format is CPU, packing is on, the feature is available and it has exactly one border; borders are looked up only in that case |
| BorderSample.Iota | catboost/libs/data_new/quantization.cpp:71-73 | the index vector the shuffle starts from is a permutation of `0..n-1` |
| BorderSample.Compose | catboost/libs/data_new/quantization.cpp:66-69 | every row picked through the sample positions is a row of the provider's subset indexing, and distinct positions into distinct rows pick distinct rows |
| BorderSample.ShuffleSteps | catboost/libs/data_new/quantization.cpp:77-79 | applying the first `k` swap steps keeps the length |
| BorderSample.SwapKeepsPermutation | catboost/libs/data_new/quantization.cpp:78 | one `swap(indices[i], indices[rand->Uniform(i, n)])` step keeps a permutation of `0..n-1` a permutation |
| BorderSample.ShuffleStepsPermutes | catboost/libs/data_new/quantization.cpp:77-79 | any number of swap steps applied to the identity gives a permutation of `0..n-1` |
| BorderSample.PermutationPrefix | catboost/libs/data_new/quantization.cpp:81 | a prefix of a permutation has distinct elements, all below `n` |
| BorderSample.PartialShuffle | catboost/libs/data_new/quantization.cpp:71-81 | the loop's result is the first `sampleSize` entries of the swap steps applied to the identity; they are distinct and below `n` |
| BorderSample.SamplePositions | catboost/libs/data_new/quantization.cpp:62-83 | the sample positions for both object orders are `sampleSize` distinct positions below `n` |
| BorderSample.GetSubsetForBuildBorders | catboost/libs/data_new/quantization.cpp:48-87 | there is a subset iff borders are needed and the sample size is below the object count. It has exactly `sampleSize` rows and equals the composition with the sample positions. Every row is one of the provider's rows, and no row is picked twice when the provider's rows are distinct. For randomly shuffled objects it is the first `sampleSize` rows of the provider's indexing |
| Borders.NonNan | catboost/libs/data_new/quantization.cpp:146-160 | the non-NaN values of the sample, never more than the sample |
| Borders.Insert | catboost/libs/data_new/quantization.cpp:192-193 | inserting into a strictly increasing border list keeps it strictly increasing and adds exactly the new value |
| Borders.PrependIncreasing | catboost/libs/data_new/quantization.cpp:192-193 | a value below every element of an increasing list can be put in front |
| Borders.SortedBorders | catboost/libs/data_new/quantization.cpp:192-193 | the border set copied into a vector and sorted is strictly increasing and holds exactly the set's values |
| Borders.Split | catboost/libs/data_new/quantization.cpp:169-193 | the split holds exactly the borders `BestSplit` chose over the non-NaN values with the non-NaN budget (one less when NaNs are present), each once, in strictly increasing order and strictly between the two sentinels; a non-positive budget gives none |
| Borders.SplitWithSentinel | catboost/libs/data_new/quantization.cpp:195-199 | the borders are the split's plus exactly one sentinel for a NaN-carrying sample: the lowest value, first, for `Min`; the highest value, last, for `Max`; none for `Forbidden`. They stay strictly increasing, which fixes their order |
| Borders.BordersAndNanMode | catboost/libs/data_new/quantization.cpp:128-202 | errors exactly for a zero border count, NaNs under `Forbidden`, or 256 or more borders (NaNs under `Forbidden` are `NanValuesForbidden`). On success the nan mode is `Forbidden` iff there is no NaN, and is the configured one otherwise; the borders are `SplitWithSentinel` of the sample: exactly `BestSplit`'s borders over the non-NaN values with the NaN-reduced budget, plus the `Min`/`Max` sentinel first/last, strictly increasing and fewer than 256. Every error is a per-feature error |
| Borders.CollectValues | catboost/libs/data_new/quantization.cpp:147-160 | the collecting loop yields exactly the non-NaN values of the sample and whether it had a NaN |
| Borders.CalcBordersAndNanMode | catboost/libs/data_new/quantization.cpp:128-202 | the computation equals `BordersAndNanMode` of the values at the subset's rows |
| Borders.BorderCountBound | catboost/libs/data_new/quantization.cpp:177-201 | when `BestSplit` returns at most the requested number of borders, the sentinel never pushes the total over the configured border count; so a border count below 256 never fails the 256 check |
| MemEstimate.EstimateMaxMemUsageForFloatFeature | catboost/libs/data_new/quantization.cpp:90-125 | without border building, the estimate is one byte per object when the quantized column is stored, and 0 otherwise. Borders only gives exactly the border-building term. The estimate is at least `4 * sampleSize + CalcMemoryForFindBestSplit` when borders are built and no sum wraps |
| MemEstimate.FloatEstimateQuantizationTerm | catboost/libs/data_new/quantization.cpp:118-122 | quantizing adds exactly `objectCount` bytes over borders-only when the quantized column is stored, and nothing otherwise |
| MemEstimate.EstimateMaxMemUsageForCatFeatureAsWritten | catboost/libs/data_new/quantization.cpp:478-497 | the estimate with the wrapping `ui32` product stays below `5 * 2^32` |
| MemEstimate.EstimateMaxMemUsageForCatFeature | catboost/libs/data_new/quantization.cpp:478-497 | the intended estimate is 36 bytes per object when the quantized column is stored and 32 otherwise |
| MemEstimate.CatEstimateMonotone | catboost/libs/data_new/quantization.cpp:478-497 | the intended estimate never decreases with the object count |
| MemEstimate.CatEstimateWrapsFrom2To27 | catboost/libs/data_new/quantization.cpp:485-488 | the estimate as written equals the intended one iff `objectCount < 2^27`, and is smaller from there on |
| MemEstimate.CatEstimateCounterexample | catboost/libs/data_new/quantization.cpp:485-488 | for `2^27` objects in CPU format the estimate as written is `2^29` against the intended `2^32 + 2^29` |
| Packing.Bit | catboost/libs/data_new/quantization.cpp:222-257 | a getter yields 0 or 1. A float getter yields 1 iff the value is at least the single border; a categorical getter yields its bin |
| Packing.ZeroHasNoBits | catboost/libs/data_new/quantization.cpp:309 | an empty pack has no bit set |
| Packing.OrShiftedBit | catboost/libs/data_new/quantization.cpp:310-312 | `pack \| (v << k)` sets bit `k` when `v` is 1 and keeps every other bit |
| Packing.ComputeObjectPack | catboost/libs/data_new/quantization.cpp:308-314 | bit `b` of an object's pack is the `b`-th getter's value, and 0 past the last getter |
| Packing.ComputePack | catboost/libs/data_new/quantization.cpp:307-316 | one pack per object of the subset, each with the bits of the getters and zero elsewhere |
| Packing.GetBinaryFloatFeatureFunction | catboost/libs/data_new/quantization.cpp:229-242 | the float getter can be called on every row of the raw column, and its bit for a row is 1 exactly when the raw value there is at least the feature's first (only) border |
| Packing.GetBinaryCatFeatureFunction | catboost/libs/data_new/quantization.cpp:244-257 | the categorical getter can be called on every object whose bin is 0 or 1, and its bit for the object is that bin of the feature's quantized holder |
| Packing.RefSource | catboost/libs/data_new/quantization.cpp:292-304 | the getter of a ready layout entry can be called for every object of the subset |
| Packing.CollectBitFunctions | catboost/libs/data_new/quantization.cpp:285-305 | the getters of one pack's layout entries, in layout order |
| Packing.BuildPack | catboost/libs/data_new/quantization.cpp:281-321 | bit `b` of pack `p` for each object is the bit of layout entry `8p + b`, and 0 past the layout |
| Packing.AssignSlots | catboost/libs/data_new/quantization.cpp:323-346 | each layout entry of the pack gets its packed holder `(pack, bit)`; a float entry's raw column is destroyed when clearing; nothing else changes |
| Packing.PacksAppend | catboost/libs/data_new/quantization.cpp:318-321 | appending a correct pack keeps the list of packs correct |
| Packing.AllPacked | catboost/libs/data_new/quantization.cpp:280-352 | after the last pack every layout entry has its slot and the other holders are untouched |
| Packing.FloatLayoutLists | catboost/libs/data_new/quantization.cpp:270-274 | the float part of the layout lists, in increasing index order, exactly the available float features with one border |
| Packing.CatLayoutLists | catboost/libs/data_new/quantization.cpp:270-274 | the categorical part of the layout lists, in increasing index order, exactly the available categorical features whose perfect hash has two values |
| Packing.BinaryLayoutLists | catboost/libs/data_new/quantization.cpp:270-274 | the layout (`PackedBinaryToSrcIndex`) has no repeated feature, and all its indices are in range. A float feature is in it iff it is available with exactly one border; a categorical feature iff it is available and binary |
| Packing.RefBit | catboost/libs/data_new/quantization.cpp:229-257 | a ready layout entry's getter yields 1 iff its float value is at least its single border, or its categorical bin is 1 |
| Packing.BinarizeFeatures | catboost/libs/data_new/quantization.cpp:260-352 | `ceil(n / 8)` for a layout of `n` entries packs, each with one byte per object. Bit `b` of pack `p` is the bit of layout entry `8p + b` computed on the original columns, and 0 past the layout. Every packed feature's holder is `(i / 8, i % 8)` and the other holders are unchanged. The raw columns of packed float features are destroyed when clearing, and no other column changes |
| Features.FloatHolderFor | catboost/libs/data_new/quantization.cpp:407-457 | borders-only, no borders, or a single border under CPU packing gives no holder. An external holder needs the GPU-only format without clearing; otherwise the holder is quantized, allowing NaNs iff the nan mode is not `Forbidden` or NaNs are allowed in test only |
| Features.ProcessFloatFeature | catboost/libs/data_new/quantization.cpp:355-475 | one of nan mode and borders known without the other is `NanModeBordersMismatch`, leaving the info untouched. Both known: they are reused and the info is unchanged. Both unknown: they are computed from the subset (errors passed on) and stored; an empty border list clears availability. Known values are never overwritten. Every error is a per-feature error |
| Features.ProcessCatFeature | catboost/libs/data_new/quantization.cpp:500-568 | a feature with more than one learn value gets an external holder (GPU only, no clearing) or its quantized bins; a constant one gets no holder and loses availability; borders and nan modes are untouched |
| Quantization.FitsFewerFeatures | catboost/libs/data_new/quantization.cpp:619-623 | a provider compatible with a layout stays compatible when features are ignored |
| Quantization.BorderRows | catboost/libs/data_new/quantization.cpp:631-637 | the border rows are drawn from the provider's own subset indexing |
| Quantization.RowsFromSourceCover | catboost/libs/data_new/quantization.cpp:690-694 | rows drawn from the subset indexing stay inside every column that indexing fits |
| Quantization.BinaryFeatureKeepsColumn | catboost/libs/data_new/quantization.cpp:704-713 | under CPU packing, a processed available feature with one border gets no holder and keeps its raw column for packing |
| Quantization.IgnoredFloatFeature | catboost/libs/data_new/quantization.cpp:459-473 | a processed float feature becomes unavailable iff its borders were computed in this run and came out empty; it then has no holder |
| Quantization.FloatTask | catboost/libs/data_new/quantization.cpp:683-717 | one float task fails exactly when `FloatError` of the feature (its column at the border rows, under the borders and nan mode known before) is an error, and with that error: a nan mode known without borders or the reverse, or the border computation's error. On success the feature ends in `FloatOutcome`. Every other feature keeps its availability, raw column, borders and nan mode, and known borders and nan modes are kept |
| Quantization.FirstFloatErrorIsFirst | catboost/libs/data_new/quantization.cpp:683-717 | `FirstFloatError` is none iff no marked feature fails; otherwise it is the error of a marked failing feature whose marked predecessors all succeed |
| Quantization.FirstFloatErrorStays | catboost/libs/data_new/quantization.cpp:683-717 | once a feature has failed, taking in more features does not change the first error |
| Quantization.NoFloatErrorWhenKnown | catboost/libs/data_new/quantization.cpp:375-392 | no float task fails when every marked feature already has borders and a nan mode |
| Quantization.ProcessFloatFeatures | catboost/libs/data_new/quantization.cpp:683-717 | the tasks of the marked features run in index order. The run fails with the error of the first marked feature whose task fails (`FirstFloatError`, judged on the state before the run) and succeeds iff none fails. On success every marked feature ends in `FloatOutcome`, every other one keeps availability, raw column, borders and nan mode, and no feature beyond the layout gains borders or a nan mode |
| Quantization.RunFloatTask | catboost/libs/data_new/quantization.cpp:683-717 | one round of the float-task loop: on success the record of tasks run (`FloatTasksRan`) grows by the feature's holder; on an error that error is the first error over the features so far, and every later feature is as before the run |
| Quantization.FloatTasksRanNext | catboost/libs/data_new/quantization.cpp:683-717 | a successful or skipped task extends the record of tasks run: the feature's `FloatOutcome` holds against the state before the whole run, the features after it are untouched and there is still no first error |
| Quantization.FloatTaskFailed | catboost/libs/data_new/quantization.cpp:683-717 | a failing marked feature's error becomes the first error, and the features after it keep the state they had before the run |
| Quantization.ProcessCatFeatures | catboost/libs/data_new/quantization.cpp:719-760 | each available categorical feature gets the holder `ProcessCatFeature` picks, loses availability iff it has at most one learn value, and loses its raw column when clearing |
| Quantization.RunTasks | catboost/libs/data_new/quantization.cpp:678-763 | float tasks first, then, unless borders only, categorical tasks. The run fails exactly with the first failing float feature's error and succeeds otherwise. On success each float feature ends in `FloatOutcome` (features not processed keep everything, borders and nan mode included) and each categorical feature gets the holder, availability and raw column `ProcessCatFeature` gives it; borders only leaves the categorical state unchanged |
| Quantization.LayoutListsBinarizedFeatures | catboost/libs/data_new/quantization.cpp:571-593 | under CPU packing, the float features the layout lists are exactly those `IsFloatFeatureToBeBinarized` kept the raw columns of |
| Quantization.PackBinaryFeatures | catboost/libs/data_new/quantization.cpp:777-786 | the layout is `BinaryLayout` of the features info. Bit `b` of pack `p` for an object is the layout bit of entry `8p + b` (float value at least the single border, or categorical bin 1) on the raw columns before packing, and 0 past the layout. Layout features get their slots; packed float columns are destroyed when clearing |
| Quantization.FinishQuantization | catboost/libs/data_new/quantization.cpp:770-819 | `AllFeaturesIgnored` iff no feature is available, with nothing logged or destroyed. Otherwise the provider is logged, and packing runs iff the format is CPU with packing on (else the layout is empty). The result carries the source id, the format, the layout, the packs and the holders after packing |
| Quantization.ChooseBorderRows | catboost/libs/data_new/quantization.cpp:631-637 | the rows passed to the float tasks are the border rows, and every available raw column covers them |
| Quantization.Do | catboost/libs/data_new/quantization.cpp:600-820 | see the list after this table |
| Quantization.CalcBordersAndNanMode | catboost/libs/data_new/quantization.cpp:824-839 | `NoFormatSelected` iff no format is selected. Otherwise the result is the first failing float feature's error, or success when none fails. On success no available feature lacks borders, every float feature ends in its borders-only `FloatOutcome` with no holder, the categorical state is unchanged, known borders and nan modes are kept and the provider is logged |
| Quantization.Quantize | catboost/libs/data_new/quantization.cpp:875-890 | `NoFormatSelected` iff no format is selected. Otherwise: the first failing float feature's error if there is one; else success iff some feature is left available, and `AllFeaturesIgnored` if none is. On success the provider is logged and its data is `QuantizedResult`: the id and format, `BinaryLayout` under CPU packing, packs holding the layout bits, the tasks' holders with packed features moved to their slots, the raw float columns the tasks and packing destroyed, and the raw categorical column of every processed categorical feature destroyed when clearing. Each float feature ends in `FloatOutcome`, and each categorical feature gets its `ProcessCatFeature` holder, availability and raw column |
| Quantization.FloatOutcomesDetermine | catboost/libs/data_new/quantization.cpp:683-717 | the per-feature outcomes of the float tasks determine the raw columns (`TaskColumns`) and the holders (`TaskFloatHolders`) they leave |
| Quantization.KnownFeaturesKept | catboost/libs/data_new/quantization.cpp:375-392 | a quantizing run over features whose borders and nan modes are all known keeps every border list, nan mode and availability flag |
| Quantization.Ids | catboost/libs/data_new/quantization.cpp:917-923 | the providers' ids, in order |
| Quantization.QuantizeTests | catboost/libs/data_new/quantization.cpp:917-923 | the features info's availability, borders and nan modes do not change: test providers compute no borders and ignore no feature. The run succeeds iff there are no tests, or a format is selected and some feature is available; otherwise it fails with `NoFormatSelected` or `AllFeaturesIgnored`. On success the test ids are logged in order, and each test's data is `QuantizedResult` under the borders and nan modes the learn run left, stated on that test's own raw float and categorical columns before and after, so a test's processed categorical columns are destroyed when clearing |
| Quantization.QuantizeTest | catboost/libs/data_new/quantization.cpp:919-923 | one test provider against the info the learn run left: the info's availability, borders and nan modes are unchanged; it succeeds iff a format is selected and some feature is available, else fails with `NoFormatSelected` or `AllFeaturesIgnored`; on success its data is `QuantizedResult` under the learn-derived borders, stated on its raw float and categorical columns before and after the run |
| Quantization.QuantizeNextTest | catboost/libs/data_new/quantization.cpp:919-923 | one round of the test loop: the info is unchanged, success and error are as for `QuantizeTest`, on success the record of quantized tests (`TestsQuantized`) grows by this provider, and the providers after it are untouched |
| Quantization.TestsQuantizedNext | catboost/libs/data_new/quantization.cpp:919-923 | adding the next test provider's `QuantizedResult` keeps the record of quantized tests, position by position |
| Quantization.QuantizeLearn | catboost/libs/data_new/quantization.cpp:910-916 | with no borders known yet: `NoFormatSelected` iff no format is selected; otherwise the first failing float feature's error on the learn border rows, else success iff some feature is left available, else `AllFeaturesIgnored`. When the tasks succeed, every initially available float feature has a nan mode and borders `ComputedFrom` the learn border rows and stays available iff its borders are not empty, and a categorical feature stays available iff it has more than one learn-only value. On success the learn data is `QuantizedResult` on the learn provider's raw float and categorical columns before and after, including the categorical columns destroyed when clearing |
| Quantization.QuantizeAll | catboost/libs/data_new/quantization.cpp:892-926 | a fresh features info. `NoFormatSelected` iff no format is selected; otherwise the first failing float feature's learn error, else success iff the learn run leaves some feature available, else `AllFeaturesIgnored` (test providers then never fail). Every initially available float feature gets borders `ComputedFrom` the learn border rows. On success the learn data is `QuantizedResult`, the learn id and then the test ids are logged, and every test's data is `QuantizedResult` under those same learn-derived borders; each result is stated on its provider's raw float and categorical columns before and after, and the processed categorical columns are destroyed when clearing |

`Quantization.Do` states:

- Neither format selected is `NoFormatSelected`, with nothing changed.
- Availability only shrinks, known borders and nan modes are kept, and no feature beyond the layout gains borders or a nan mode.
- The result is `None` iff borders only; on success no borders are missing any more.
- `NoFormatSelected` is returned iff no format is selected. Otherwise the call fails with the error of the first failing float feature (`FirstFloatError`, judged on the state before the call) when there is one. When there is none, it succeeds in borders-only mode or when some feature is left, and fails with `AllFeaturesIgnored` when quantizing leaves no feature.
- Every error is `NoFormatSelected`, a per-feature border error, or `AllFeaturesIgnored`. `AllFeaturesIgnored` arises only when quantizing and no feature is left. Conversely, when quantizing leaves no feature, the call fails, and the error is `AllFeaturesIgnored` unless the format or a per-feature step failed first.
- Each float feature ends in `FloatOutcome`, stated on the raw columns and holders as the tasks left them; these are ghost results.
- Each categorical feature gets its `ProcessCatFeature` holder.
- In the CPU format with packing on, the layout is `BinaryLayout`; otherwise it is empty.
- The packs hold the layout bits of every object.
- Packed features get their slots, and the raw columns of packed float features are destroyed when clearing.
- The provider is logged on success.

## Left out

- Parallel execution is not modelled. The resource-constrained executor, the RSS warning and the local executor are out, and tasks run one after another, floats first. The first failing task ends the run; in the source, a task error stops the executor at the same point or later.
- Library calls are parameters, because their code is not part of this model:
  - `BestSplit`, which is taken to return only values strictly between the two sentinels (the `Inner` type); the borders stay strictly increasing once a sentinel is added only because of this;
  - `Shuffle`;
  - `rand->Uniform`;
  - `GetSampleSizeForBorderSelectionType`;
  - `CalcMemoryForFindBestSplit`;
  - the categorical perfect hash (`UpdateCatFeaturesPerfectHashFromArray`) with its bins.
- The per-value `Quantize` of a float column into its holder is not modelled, and neither is its NaN error. The holder records only its kind and `allowNans`; the compressed arrays and index helpers are not built.
- Float values are an abstract `Float` datatype with finite values as integers. `-0.0` normalisation and floating-point comparison are not modelled. The `numeric_limits<float>` sentinels are represented by `Lowest`/`Highest`.
- The `TPackedBinaryFeaturesData` constructor is not part of this model. `Packing.BinaryLayout` takes the layout to be the following, and `Packing.PackCount` takes the number of packs to be `ceil(n / 8)` for a layout of `n` entries:
  - the available float features with exactly one border, in index order;
  - then the available categorical features whose perfect hash has exactly two values over all data.
  Which categorical features are binary is an input (`catBinary`), because the perfect hash is outside this model.
- The per-feature `FloatFeatureToPackedBinaryIndex`/`CatFeatureToPackedBinaryIndex` maps are not modelled; the holders' `(pack, bit)` slots carry the same information.
- The reference counts that decide `clearSrcData` and `clearSrcObjectsData` are an input. Moving meta info, target data and common objects data into the result is not modelled.
- Borders.BordersAndNanMode, Borders.CalcBordersAndNanMode: the source checks a positive border count (quantization.cpp:137) and fewer than 256 borders (quantization.cpp:201) with `Y_VERIFY`, which aborts the process. Here those failures are the error values `BorderCountNotPositive` and `TooManyBorders`, and `Do` and its callers pass them on like the `CB_ENSURE` errors.
- Features are addressed by their per-type index. The source ignores a feature by its external id (`IgnoreExternalFeature`, quantization.cpp:469 and :565); the layout maps that id one-to-one to the per-type index, so the model clears the per-type availability flag.
- `CheckCompatibleForApply` is a precondition (`ProviderFits`), not an error path.
- Ignoring features (`ignoredFeatures` and the `TQuantizedFeaturesInfo` constructor) is represented by the initial availability flags passed to `QuantizeAll`.
- The objects-only `Quantize` overload (quantization.cpp:841-872) only wraps a raw objects provider with dummy targets before calling `Quantize`, and is not modelled separately.
- `Do` does not compute the memory estimates; they only size the scheduler's tasks. They are modelled on their own in `MemEstimate`.
- Quantization.QuantizeTests, Quantization.QuantizeAll: the learn and test providers are required to be distinct objects. The source also accepts the same provider twice; there only the reference-count-derived `clearSrcData` differs.
- The learn-only categorical value counts come from the perfect hash that the learn run fills and the test runs share. The hash is not modelled, so `QuantizeAll` requires every test run's counts to equal the learn run's.
- `datasets.py` downloads and reads datasets, which is I/O outside the core.

## Findings

| source | as written | input that shows it | evidently intended | confidence | as-written member | corrected member |
|---|---|---|---|---|---|---|
| catboost/libs/data_new/quantization.cpp:485-488 | `ui32(32) * objectCount` is computed in 32-bit unsigned arithmetic before being added to the `ui64` estimate, so it wraps | `objectCount = 2^27` in CPU format: the estimate is `2^29` bytes | `32 * objectCount` in 64-bit arithmetic: `2^32 + 2^29` bytes | not executed | MemEstimate.CatEstimateCounterexample | MemEstimate.EstimateMaxMemUsageForCatFeature |
