/** Border and nan-mode computation for one float feature (`CalcBordersAndNanMode`). */
module Borders {
  import opened QuantizationTypes

  /** The values of `sample` in order with the NaNs dropped. */
  function NonNan(sample: seq<Float>): (r: seq<Finite>)
    ensures |r| <= |sample|
  {
    if sample == [] then []
    else
      var last := sample[|sample| - 1];
      NonNan(sample[..|sample| - 1]) + (if last.NaN? then [] else [last.x])
  }

  predicate HasNan(sample: seq<Float>)
  {
    NaN in sample
  }

  ghost predicate StrictlyIncreasing(s: seq<int>)
  {
    forall i, j :: 0 <= i < j < |s| ==> s[i] < s[j]
  }

  /** `x` put into its place in the strictly increasing `sorted`; a value
      already present is not added again. */
  function Insert(x: int, sorted: seq<int>): (r: seq<int>)
    requires StrictlyIncreasing(sorted)
    ensures StrictlyIncreasing(r)
    ensures forall y :: y in r <==> y == x || y in sorted
    ensures |r| <= |sorted| + 1
  {
    if sorted == [] then [x]
    else if x < sorted[0] then [x] + sorted
    else if x == sorted[0] then sorted
    else
      var rest := Insert(x, sorted[1..]);
      PrependIncreasing(sorted[0], rest);
      assert sorted == [sorted[0]] + sorted[1..];
      [sorted[0]] + rest
  }

  /** A value below every element of an increasing list extends it at the front. */
  lemma PrependIncreasing(h: int, rest: seq<int>)
    requires StrictlyIncreasing(rest) && forall y :: y in rest ==> h < y
    ensures StrictlyIncreasing([h] + rest)
    ensures forall y :: y in [h] + rest <==> y == h || y in rest
  {
    var r := [h] + rest;
    forall i, j | 0 <= i < j < |r| ensures r[i] < r[j] {
      assert r[j] == rest[j - 1] && rest[j - 1] in rest;
      if i > 0 { assert r[i] == rest[i - 1]; }
    }
  }

  /** The border set listed in increasing order (`assign` from the set, then
      `Sort`); the set is given by its iteration order `enumeration`. */
  function SortedBorders(enumeration: seq<int>): (r: seq<int>)
    ensures StrictlyIncreasing(r)
    ensures forall y :: y in r <==> y in enumeration
    ensures |r| <= |enumeration|
  {
    if enumeration == [] then []
    else Insert(enumeration[|enumeration| - 1], SortedBorders(enumeration[..|enumeration| - 1]))
  }

  /** What `CalcBordersAndNanMode` computes from the border sample (the
      feature's values at the rows of the subset for building borders).
      `bestSplit(values, count)` stands for `BestSplit` and lists the border
      set it returns in iteration order. */
  function BordersAndNanMode(sample: seq<Float>, options: BinarizationOptions,
                             bestSplit: (seq<Finite>, nat) -> seq<Inner>): (r: Result<(NanMode, seq<int>)>)
    ensures r.Err? <==>
      options.borderCount == 0
      || (options.nanMode == Forbidden && HasNan(sample))
      || |SplitWithSentinel(sample, options, bestSplit)| >= 256
    ensures r.Err? && options.borderCount > 0 && HasNan(sample) && options.nanMode == Forbidden
      ==> r.error == NanValuesForbidden
    ensures r.Ok? ==> (r.value.0 == Forbidden <==> !HasNan(sample))
    ensures r.Ok? ==> HasNan(sample) ==> r.value.0 == options.nanMode
    ensures r.Err? ==> PerFeatureError(r.error)
    ensures r.Ok? ==> r.value.1 == SplitWithSentinel(sample, options, bestSplit)
    ensures r.Ok? ==> forall y :: y in r.value.1 <==>
      (NonNanBorderCount(sample, options) > 0 && y in bestSplit(NonNan(sample), NonNanBorderCount(sample, options)))
      || (r.value.0 == Min && y == Lowest) || (r.value.0 == Max && y == Highest)
    ensures r.Ok? ==> StrictlyIncreasing(r.value.1) && |r.value.1| < 256
    ensures r.Ok? && r.value.0 == Min ==> |r.value.1| > 0 && r.value.1[0] == Lowest
    ensures r.Ok? && r.value.0 == Max ==> |r.value.1| > 0 && r.value.1[|r.value.1| - 1] == Highest
  {
    if options.borderCount == 0 then Err(BorderCountNotPositive)
    else if options.nanMode == Forbidden && HasNan(sample) then Err(NanValuesForbidden)
    else
      var borders := SplitWithSentinel(sample, options, bestSplit);
      if |borders| >= 256 then Err(TooManyBorders)
      else Ok((ResultNanMode(sample, options), borders))
  }

  /** `Forbidden` when the sample has no NaN, the configured mode otherwise. */
  function ResultNanMode(sample: seq<Float>, options: BinarizationOptions): NanMode
  {
    if HasNan(sample) then options.nanMode else Forbidden
  }

  /** The border budget for non-NaN values: one less when NaNs are present. */
  function NonNanBorderCount(sample: seq<Float>, options: BinarizationOptions): int
  {
    if HasNan(sample) then options.borderCount - 1 else options.borderCount
  }

  /** The sorted borders of the non-NaN values, empty when the budget is not
      positive: exactly the values `BestSplit` chose, each once, increasing. */
  function Split(sample: seq<Float>, options: BinarizationOptions,
                 bestSplit: (seq<Finite>, nat) -> seq<Inner>): (split: seq<int>)
    ensures StrictlyIncreasing(split)
    ensures forall k :: 0 <= k < |split| ==> Lowest < split[k] < Highest
    ensures var count := NonNanBorderCount(sample, options);
      if count > 0 then
        |split| <= |bestSplit(NonNan(sample), count)|
        && forall y :: y in split <==> y in bestSplit(NonNan(sample), count)
      else split == []
  {
    var count := NonNanBorderCount(sample, options);
    if count > 0 then
      var enumeration := bestSplit(NonNan(sample), count);
      var split := SortedBorders(enumeration);
      assert forall k :: 0 <= k < |split| ==> split[k] in enumeration;
      split
    else []
  }

  /** The split with the sentinel of the nan mode: lowest value first for
      `Min`, highest value last for `Max`. Being increasing, the result is
      determined by its elements: the split's, plus the one sentinel. */
  function SplitWithSentinel(sample: seq<Float>, options: BinarizationOptions,
                             bestSplit: (seq<Finite>, nat) -> seq<Inner>): (b: seq<int>)
    ensures StrictlyIncreasing(b)
    ensures var mode := ResultNanMode(sample, options);
      forall y :: y in b <==>
        y in Split(sample, options, bestSplit) || (mode == Min && y == Lowest) || (mode == Max && y == Highest)
    ensures |b| == |Split(sample, options, bestSplit)| + (if ResultNanMode(sample, options) == Forbidden then 0 else 1)
    ensures ResultNanMode(sample, options) == Min ==> b[0] == Lowest
    ensures ResultNanMode(sample, options) == Max ==> b[|b| - 1] == Highest
  {
    var split := Split(sample, options, bestSplit);
    match ResultNanMode(sample, options)
    case Min => [Lowest] + split
    case Max => split + [Highest]
    case Forbidden => split
  }

  /** The values of `column` at rows `rows`. */
  function Gather(column: seq<Float>, rows: seq<nat>): seq<Float>
    requires forall k :: 0 <= k < |rows| ==> rows[k] < |column|
  {
    seq(|rows|, k requires 0 <= k < |rows| => column[rows[k]])
  }

  /** The pass over the border sample: the non-NaN values in order, and
      whether a NaN was seen. */
  method CollectValues(column: seq<Float>, rows: seq<nat>) returns (values: seq<Finite>, hasNans: bool)
    requires forall k :: 0 <= k < |rows| ==> rows[k] < |column|
    ensures values == NonNan(Gather(column, rows))
    ensures hasNans == HasNan(Gather(column, rows))
  {
    ghost var sample := Gather(column, rows);
    values := [];
    hasNans := false;
    for k := 0 to |rows|
      invariant values == NonNan(sample[..k])
      invariant hasNans == HasNan(sample[..k])
    {
      assert sample[..k + 1] == sample[..k] + [sample[k]];
      var value := column[rows[k]];
      if value.NaN? {
        hasNans := true;
      } else {
        values := values + [value.x];
      }
    }
    assert sample[..|rows|] == sample;
  }

  /** `CalcBordersAndNanMode`: collect the non-NaN values of the border
      sample, then the nan-mode rule, the border budget, sorting and the
      sentinel. */
  method CalcBordersAndNanMode(column: seq<Float>, rows: seq<nat>, options: BinarizationOptions,
                               bestSplit: (seq<Finite>, nat) -> seq<Inner>)
    returns (r: Result<(NanMode, seq<int>)>)
    requires forall k :: 0 <= k < |rows| ==> rows[k] < |column|
    ensures r == BordersAndNanMode(Gather(column, rows), options, bestSplit)
  {
    if options.borderCount == 0 {
      return Err(BorderCountNotPositive);
    }
    ghost var sample := Gather(column, rows);
    var values, hasNans := CollectValues(column, rows);
    if options.nanMode == Forbidden && hasNans {
      return Err(NanValuesForbidden);
    }
    var nanMode: NanMode;
    var nonNanValuesBorderCount: int := options.borderCount;
    if hasNans {
      nanMode := options.nanMode;
      nonNanValuesBorderCount := nonNanValuesBorderCount - 1;
    } else {
      nanMode := Forbidden;
    }
    assert nanMode == ResultNanMode(sample, options);
    assert nonNanValuesBorderCount == NonNanBorderCount(sample, options);
    var borderSet: seq<Inner> := [];
    if nonNanValuesBorderCount > 0 {
      borderSet := bestSplit(values, nonNanValuesBorderCount);
    }
    var split := SortedBorders(borderSet);
    assert split == Split(sample, options, bestSplit);
    var borders: seq<int> := split;
    if nanMode == Min {
      borders := [Lowest] + borders;
    } else if nanMode == Max {
      borders := borders + [Highest];
    }
    assert borders == SplitWithSentinel(sample, options, bestSplit);
    if |borders| >= 256 {
      return Err(TooManyBorders);
    }
    return Ok((nanMode, borders));
  }

  /** The number of borders: at most the configured count when `BestSplit`
      keeps to the count it is given, so a border count below 256 never
      trips the final size check. */
  lemma BorderCountBound(sample: seq<Float>, options: BinarizationOptions,
                         bestSplit: (seq<Finite>, nat) -> seq<Inner>)
    requires forall values, count :: |bestSplit(values, count)| <= count
    requires options.borderCount > 0
    requires options.nanMode != Forbidden || !HasNan(sample)
    ensures |SplitWithSentinel(sample, options, bestSplit)| <= options.borderCount
    ensures options.borderCount < 256 ==> BordersAndNanMode(sample, options, bestSplit).Ok?
  {
    var count := NonNanBorderCount(sample, options);
    var split := Split(sample, options, bestSplit);
    if count > 0 {
      assert |bestSplit(NonNan(sample), count)| <= count;
      assert |split| <= count;
    } else {
      assert split == [];
    }
    if HasNan(sample) {
      assert ResultNanMode(sample, options) != Forbidden;
    } else {
      assert SplitWithSentinel(sample, options, bestSplit) == split;
    }
  }
}
