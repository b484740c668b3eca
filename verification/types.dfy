/** Value types shared by the quantization model: feature values, nan modes,
    options, results and errors. */
module QuantizationTypes {

  /** Range of the ordered value type that stands for `float`. `Lowest` and
      `Highest` play the parts of `numeric_limits<float>::lowest()` and `max()`. */
  const Lowest: int := -0x1_0000_0000
  const Highest: int := 0x1_0000_0000

  /** A non-NaN feature value. */
  type Finite = x: int | Lowest <= x <= Highest

  /** A value strictly between the two sentinels: what border selection returns. */
  type Inner = x: int | Lowest < x < Highest

  /** A raw float feature value: either NaN or an ordered value. */
  datatype Float = NaN | Num(x: Finite)

  /** `value >= border` on floats: false whenever the value is NaN. */
  predicate AtLeast(v: Float, border: int)
  {
    v.Num? && v.x >= border
  }

  datatype NanMode = Forbidden | Min | Max

  datatype ObjectsOrder = RandomShuffled | Ordered | Undefined

  /** The float-feature binarization settings that this model reads
      (the border selection type only feeds library calls, which are parameters here). */
  datatype BinarizationOptions = BinarizationOptions(borderCount: nat, nanMode: NanMode)

  datatype QuantizationOptions = QuantizationOptions(
    cpuCompatibleFormat: bool,
    gpuCompatibleFormat: bool,
    packBinaryFeaturesForCpu: bool,
    cpuCompatibilityShuffleOverFullData: bool)

  datatype QuantizationError =
    | NoFormatSelected          // neither the CPU nor the GPU format was requested
    | NanModeBordersMismatch    // a feature has a nan mode but no borders, or the reverse
    | BorderCountNotPositive    // the border budget of the options is 0
    | NanValuesForbidden        // NaNs met in the border sample with NanMode Forbidden
    | TooManyBorders            // 256 borders or more
    | AllFeaturesIgnored        // no available feature is left after processing

  datatype Result<T> = Ok(value: T) | Err(error: QuantizationError)

  /** The errors one feature's border computation can raise. */
  predicate PerFeatureError(e: QuantizationError)
  {
    e.NanModeBordersMismatch? || e.BorderCountNotPositive? || e.NanValuesForbidden? || e.TooManyBorders?
  }

  datatype Option<T> = None | Some(value: T)

  /** Where a quantized float feature's data lives. */
  datatype FloatHolder =
    | ExternalFloat                          // GPU-only: raw values, quantized on access
    | QuantizedFloat(allowNans: bool)        // 8-bit bins computed now
    | PackedBinaryFloat(pack: nat, bit: nat) // one bit of a binary-features pack

  /** Where a quantized categorical feature's data lives. */
  datatype CatHolder =
    | ExternalCat                            // GPU-only: hashed values, mapped on access
    | QuantizedCat(bins: seq<nat>)           // perfect-hash bins per object
    | PackedBinaryCat(pack: nat, bit: nat)   // one bit of a binary-features pack

  /** A sequence with no repeated element. */
  ghost predicate Distinct(s: seq<nat>)
  {
    forall i, j :: 0 <= i < j < |s| ==> s[i] != s[j]
  }

  /** `s` holds each of 0..n-1 exactly once. */
  ghost predicate IsPermutationOfRange(s: seq<nat>, n: nat)
  {
    |s| == n && Distinct(s) && forall i :: 0 <= i < |s| ==> s[i] < n
  }
}
