/** Choice of the objects whose values are used to build float borders
    (`GetSubsetForBuildBorders`), including the partial Fisher-Yates shuffle. */
module BorderSample {
  import opened QuantizationTypes
  import opened FeaturesInfo

  /** `0, 1, ..., n-1` (what `std::iota` writes): the permutation the
      shuffle starts from. */
  function Iota(n: nat): (r: seq<nat>)
    ensures IsPermutationOfRange(r, n)
  {
    seq(n, i => i)
  }

  /** The rows picked by a subset of positions: `Compose(src, positions)`.
      Every picked row is a row of `src`, and distinct positions into
      distinct rows pick distinct rows. */
  function Compose(src: seq<nat>, positions: seq<nat>): (r: seq<nat>)
    requires forall k :: 0 <= k < |positions| ==> positions[k] < |src|
    ensures |r| == |positions|
    ensures forall k :: 0 <= k < |r| ==> r[k] in src
    ensures Distinct(src) && Distinct(positions) ==> Distinct(r)
  {
    seq(|positions|, k requires 0 <= k < |positions| => src[positions[k]])
  }

  function Swap(s: seq<nat>, i: nat, j: nat): seq<nat>
    requires i < |s| && j < |s|
  {
    s[i := s[j]][j := s[i]]
  }

  /** The draws of `rand->Uniform(i, n)` for the first `k` steps lie in `[i, n)`. */
  ghost predicate DrawsInRange(draws: seq<nat>, k: nat, n: nat)
  {
    k <= |draws| && forall i :: 0 <= i < k ==> i <= draws[i] < n
  }

  /** The array after the first `k` swap steps of the partial shuffle: step `i`
      exchanges the entries at `i` and `draws[i]`. */
  function ShuffleSteps(s: seq<nat>, draws: seq<nat>, k: nat): (r: seq<nat>)
    requires DrawsInRange(draws, k, |s|)
    ensures |r| == |s|
  {
    if k == 0 then s else Swap(ShuffleSteps(s, draws, k - 1), k - 1, draws[k - 1])
  }

  lemma SwapKeepsPermutation(s: seq<nat>, n: nat, i: nat, j: nat)
    requires IsPermutationOfRange(s, n) && i < n && j < n
    ensures IsPermutationOfRange(Swap(s, i, j), n)
  {
    var t := Swap(s, i, j);
    forall a, b | 0 <= a < b < n ensures t[a] != t[b] {
      var a' := if a == i then j else if a == j then i else a;
      var b' := if b == i then j else if b == j then i else b;
      assert t[a] == s[a'] && t[b] == s[b'] && a' != b';
    }
  }

  /** Every swap step keeps the array a permutation of `0..n-1`. */
  lemma {:induction false} ShuffleStepsPermutes(n: nat, draws: seq<nat>, k: nat)
    requires DrawsInRange(draws, k, n)
    ensures IsPermutationOfRange(ShuffleSteps(Iota(n), draws, k), n)
  {
    if k > 0 {
      ShuffleStepsPermutes(n, draws, k - 1);
      SwapKeepsPermutation(ShuffleSteps(Iota(n), draws, k - 1), n, k - 1, draws[k - 1]);
    }
  }

  /** A prefix of a permutation of `0..n-1` holds distinct indices below `n`. */
  lemma PermutationPrefix(s: seq<nat>, n: nat, m: nat)
    requires IsPermutationOfRange(s, n) && m <= n
    ensures |s[..m]| == m && Distinct(s[..m]) && forall k :: 0 <= k < m ==> s[..m][k] < n
  {
  }

  /** The partial Fisher-Yates shuffle: start from `0..n-1`, swap entry `i`
      with entry `draws[i]` for each `i < sampleSize`, keep the first
      `sampleSize` entries. */
  method PartialShuffle(n: nat, sampleSize: nat, draws: seq<nat>) returns (sample: seq<nat>)
    requires sampleSize <= n && DrawsInRange(draws, sampleSize, n)
    ensures sample == ShuffleSteps(Iota(n), draws, sampleSize)[..sampleSize]
    ensures |sample| == sampleSize && Distinct(sample)
    ensures forall k :: 0 <= k < |sample| ==> sample[k] < n
  {
    var randomShuffle := new nat[n](i => i);
    assert randomShuffle[..] == Iota(n);
    for i := 0 to sampleSize
      invariant randomShuffle[..] == ShuffleSteps(Iota(n), draws, i)
    {
      var j := draws[i];
      randomShuffle[i], randomShuffle[j] := randomShuffle[j], randomShuffle[i];
    }
    sample := randomShuffle[..sampleSize];
    ShuffleStepsPermutes(n, draws, sampleSize);
    PermutationPrefix(randomShuffle[..], n, sampleSize);
  }

  /** Positions (into the source indexing) that make up the border sample:
      whatever the branch, `sampleSize` distinct positions below `n`. */
  function SamplePositions(order: ObjectsOrder, options: QuantizationOptions, n: nat, sampleSize: nat,
                           draws: seq<nat>, fullShuffle: seq<nat>): (pos: seq<nat>)
    requires sampleSize < n && DrawsInRange(draws, sampleSize, n) && IsPermutationOfRange(fullShuffle, n)
    ensures |pos| == sampleSize && Distinct(pos) && forall k :: 0 <= k < |pos| ==> pos[k] < n
  {
    if order == RandomShuffled then Iota(sampleSize)
    else if options.cpuCompatibilityShuffleOverFullData then
      PermutationPrefix(fullShuffle, n, sampleSize);
      fullShuffle[..sampleSize]
    else
      ShuffleStepsPermutes(n, draws, sampleSize);
      PermutationPrefix(ShuffleSteps(Iota(n), draws, sampleSize), n, sampleSize);
      ShuffleSteps(Iota(n), draws, sampleSize)[..sampleSize]
  }

  /** `GetSubsetForBuildBorders`: no subset unless borders are needed and the
      sample is smaller than the data; otherwise the rows at the sample
      positions. `sampleSize` is what `GetSampleSizeForBorderSelectionType`
      returned, `draws` the successive `rand->Uniform(i, n)` results and
      `fullShuffle` the order `Shuffle` produces over all rows. */
  method GetSubsetForBuildBorders(srcIndexing: seq<nat>, info: QuantizedFeaturesInfo, order: ObjectsOrder,
                                  options: QuantizationOptions, sampleSize: nat,
                                  draws: seq<nat>, fullShuffle: seq<nat>)
    returns (r: Option<seq<nat>>)
    requires sampleSize < |srcIndexing| ==> DrawsInRange(draws, sampleSize, |srcIndexing|)
    requires IsPermutationOfRange(fullShuffle, |srcIndexing|)
    ensures r.Some? <==> NeedToCalcBorders(info) && sampleSize < |srcIndexing|
    ensures r.Some? ==> r.value == Compose(srcIndexing,
      SamplePositions(order, options, |srcIndexing|, sampleSize, draws, fullShuffle))
    ensures r.Some? ==> |r.value| == sampleSize
    ensures r.Some? ==> forall k :: 0 <= k < |r.value| ==> r.value[k] in srcIndexing
    ensures r.Some? && Distinct(srcIndexing) ==> Distinct(r.value)
    ensures r.Some? && order == RandomShuffled ==> r.value == srcIndexing[..sampleSize]
  {
    if NeedToCalcBorders(info) {
      var objectCount := |srcIndexing|;
      if sampleSize < objectCount {
        if order == RandomShuffled {
          return Some(Compose(srcIndexing, Iota(sampleSize)));
        } else {
          var positions: seq<nat>;
          if options.cpuCompatibilityShuffleOverFullData {
            positions := fullShuffle[..sampleSize];
          } else {
            positions := PartialShuffle(objectCount, sampleSize, draws);
          }
          return Some(Compose(srcIndexing, positions));
        }
      }
    }
    return None;
  }
}
