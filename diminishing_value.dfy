/** `DiminishingValueTransformer`: values beyond a cutoff are pulled towards it by a
    multiplier, so that a few extreme games weigh less. The cutoff of each feature
    is either fixed or a quantile of the fitted column; `reverse` mirrors the rule
    to the low end around `1 - cutoff`. */
module DiminishingValue {
  import opened Common
  import opened Tables

  /** `.clip(lower=0)` */
  function ClipLower0(x: real): real {
    if x < 0.0 then 0.0 else x
  }

  /** The part of a value beyond the cutoff that is kept: `excess * multiplier`. */
  function Shrink(excess: real, multiplier: real): real {
    excess * multiplier
  }

  /** The rule applied to one cell. A missing cell or a missing cutoff compares false and
      leaves the cell as it is. */
  function Diminish(x: Value, cutoff: Value, multiplier: real, reverse: bool): (y: Value)
    ensures x.None? || cutoff.None? ==> y == x
    ensures y.None? <==> x.None?
  {
    if x.None? || cutoff.None? then x
    else if reverse then
      var c := 1.0 - cutoff.value;
      if x.value <= c then Some(-Shrink(c - x.value, multiplier) + c) else x
    else if x.value >= cutoff.value then Some(Shrink(ClipLower0(x.value - cutoff.value), multiplier) + cutoff.value)
    else x
  }

  /** Forward rule: a value below the cutoff is kept; one at or above it becomes
      cutoff + (x - cutoff) * multiplier, which for a multiplier in [0, 1] lies between the
      cutoff and the value. */
  lemma ForwardRule(x: real, cutoff: real, multiplier: real)
    ensures x < cutoff ==> Diminish(Some(x), Some(cutoff), multiplier, false) == Some(x)
    ensures x >= cutoff ==> Diminish(Some(x), Some(cutoff), multiplier, false) == Some(cutoff + Shrink(x - cutoff, multiplier))
    ensures x >= cutoff && 0.0 <= multiplier <= 1.0 ==>
      cutoff <= Diminish(Some(x), Some(cutoff), multiplier, false).value <= x
  {
    if x >= cutoff {
      assert ClipLower0(x - cutoff) == x - cutoff;
      if 0.0 <= multiplier <= 1.0 {
        ShrinkBetween(x - cutoff, multiplier);
      }
    }
  }

  /** Reverse rule: with c = 1 - cutoff, a value above c is kept; one at or below it becomes
      c - (c - x) * multiplier, which for a multiplier in [0, 1] lies between the value and c. */
  lemma ReverseRule(x: real, cutoff: real, multiplier: real)
    ensures x > 1.0 - cutoff ==> Diminish(Some(x), Some(cutoff), multiplier, true) == Some(x)
    ensures x <= 1.0 - cutoff ==>
      Diminish(Some(x), Some(cutoff), multiplier, true) == Some((1.0 - cutoff) - Shrink((1.0 - cutoff) - x, multiplier))
    ensures x <= 1.0 - cutoff && 0.0 <= multiplier <= 1.0 ==>
      x <= Diminish(Some(x), Some(cutoff), multiplier, true).value <= 1.0 - cutoff
  {
    if x <= 1.0 - cutoff && 0.0 <= multiplier <= 1.0 {
      ShrinkBetween((1.0 - cutoff) - x, multiplier);
    }
  }

  /** A multiplier in [0, 1] keeps a non-negative excess between 0 and itself. */
  lemma ShrinkBetween(d: real, m: real)
    requires d >= 0.0 && 0.0 <= m <= 1.0
    ensures 0.0 <= Shrink(d, m) <= d
  {
    assert d * (1.0 - m) >= 0.0;
    assert d * m == d - d * (1.0 - m);
  }

  lemma ShrinkMonotone(a: real, b: real, m: real)
    requires a <= b && m >= 0.0
    ensures Shrink(a, m) <= Shrink(b, m)
  {
    assert (b - a) * m >= 0.0;
    assert b * m - a * m == (b - a) * m;
  }

  /** With a multiplier in [0, 1] the rule never reverses the order of two values. */
  lemma DiminishMonotone(x: real, x': real, cutoff: real, multiplier: real, reverse: bool)
    requires x <= x' && 0.0 <= multiplier <= 1.0
    ensures Diminish(Some(x), Some(cutoff), multiplier, reverse).value <= Diminish(Some(x'), Some(cutoff), multiplier, reverse).value
  {
    if reverse {
      ReverseRule(x, cutoff, multiplier);
      ReverseRule(x', cutoff, multiplier);
      var c := 1.0 - cutoff;
      if x' <= c {
        ShrinkMonotone(c - x', c - x, multiplier);
      }
    } else {
      ForwardRule(x, cutoff, multiplier);
      ForwardRule(x', cutoff, multiplier);
      if x >= cutoff {
        ShrinkMonotone(x - cutoff, x' - cutoff, multiplier);
      }
    }
  }

  /** The rule over a whole column. */
  function DiminishColumn(column: seq<Value>, cutoff: Value, multiplier: real, reverse: bool): (out: seq<Value>)
    ensures |out| == |column|
    ensures forall i :: 0 <= i < |out| ==> out[i] == Diminish(column[i], cutoff, multiplier, reverse)
  {
    seq(|column|, i requires 0 <= i < |column| => Diminish(column[i], cutoff, multiplier, reverse))
  }

  /** The cutoffs after fitting `features`, and the error that stopped the fit, if any. */
  datatype Fit = Fit(cutoffs: map<string, Value>, error: Option<PyError>)

  /** `fit_transform`'s first loop: a fixed cutoff for every feature, or the column's quantile,
      which needs the column to exist. */
  function FitCutoffs(start: map<string, Value>, df: Frame, features: seq<string>, cutoffValue: Option<real>,
                      quantileCutoff: real, quantile: QuantileFn): (fit: Fit)
    ensures fit.error.None? ==> forall f :: f in features ==> f in fit.cutoffs
    ensures fit.error.None? && cutoffValue.Some? ==> forall f :: f in features ==> fit.cutoffs[f] == Some(cutoffValue.value)
    ensures fit.error.None? && cutoffValue.None? ==> forall f :: f in features ==> fit.cutoffs[f] == quantile(Column(df, f), quantileCutoff)
    ensures fit.error.Some? <==> cutoffValue.None? && exists f :: f in features && f !in df.columns
    ensures fit.error.Some? ==> fit.error.value.KeyError? && fit.error.value.key in features && fit.error.value.key !in df.columns
    decreases |features|
  {
    if features == [] then Fit(start, None)
    else
      var init := features[..|features| - 1];
      var f := features[|features| - 1];
      assert forall g :: g in features <==> g in init || g == f by {
        assert features == init + [f];
      }
      var prev := FitCutoffs(start, df, init, cutoffValue, quantileCutoff, quantile);
      if prev.error.Some? then prev
      else if cutoffValue.Some? then Fit(prev.cutoffs[f := Some(cutoffValue.value)], None)
      else if f !in df.columns then Fit(prev.cutoffs, Some(KeyError(f)))
      else Fit(prev.cutoffs[f := quantile(Column(df, f), quantileCutoff)], None)
  }

  /** `transform`: feature by feature, KeyError for a feature that was never fitted or is not a
      column; otherwise the column is replaced by the rule applied to it. */
  function TransformFeatures(cutoffs: map<string, Value>, df: Frame, features: seq<string>,
                             multiplier: real, reverse: bool): (r: Result<Frame>)
    ensures r.Ok? ==> |r.value.rows| == |df.rows| && r.value.columns == df.columns
    ensures r.Err? ==> r.error.KeyError? && r.error.key in features
    decreases |features|
  {
    if features == [] then Ok(df)
    else
      var f := features[|features| - 1];
      match TransformFeatures(cutoffs, df, features[..|features| - 1], multiplier, reverse)
      case Err(e) => Err(e)
      case Ok(d) =>
        if f !in cutoffs || f !in d.columns then Err(KeyError(f))
        else Ok(Assign(d, f, DiminishColumn(Column(d, f), cutoffs[f], multiplier, reverse)))
  }

  /** Every feature column of `out` is the rule applied to the same column of `df`; every other
      cell is the one `df` had. */
  ghost predicate DiminishedFeatures(cutoffs: map<string, Value>, df: Frame, out: Frame, features: seq<string>,
                                     multiplier: real, reverse: bool)
    requires forall c :: c in features ==> c in cutoffs
  {
    && |out.rows| == |df.rows|
    && forall i, c :: 0 <= i < |df.rows| ==>
      Get(out.rows[i], c) == if c in features then Diminish(Get(df.rows[i], c), cutoffs[c], multiplier, reverse)
                             else Get(df.rows[i], c)
  }

  /** With distinct features, a successful transform applies the rule once to each feature column
      and leaves every other cell alone. */
  lemma {:induction false} TransformFeaturesEffect(cutoffs: map<string, Value>, df: Frame, features: seq<string>,
                                                   multiplier: real, reverse: bool)
    requires Distinct(features)
    requires TransformFeatures(cutoffs, df, features, multiplier, reverse).Ok?
    ensures forall f :: f in features ==> f in cutoffs && f in df.columns
    ensures DiminishedFeatures(cutoffs, df, TransformFeatures(cutoffs, df, features, multiplier, reverse).value,
                               features, multiplier, reverse)
    decreases |features|
  {
    if features != [] {
      var init := features[..|features| - 1];
      var f := features[|features| - 1];
      assert forall g :: g in features <==> g in init || g == f by {
        assert features == init + [f];
      }
      assert Distinct(init);
      assert f !in init by {
        forall k | 0 <= k < |init| ensures init[k] != f {
          assert features[k] == init[k];
        }
      }
      TransformFeaturesEffect(cutoffs, df, init, multiplier, reverse);
      var d := TransformFeatures(cutoffs, df, init, multiplier, reverse).value;
      TransformStep(cutoffs, df, init, features, d, f, multiplier, reverse);
    }
  }

  /** One more feature, not transformed before, applies the rule to its column alone. */
  lemma TransformStep(cutoffs: map<string, Value>, df: Frame, init: seq<string>, features: seq<string>, d: Frame,
                      f: string, multiplier: real, reverse: bool)
    requires forall c :: c in features <==> c in init || c == f
    requires f !in init && f in cutoffs && f in d.columns
    requires forall c :: c in init ==> c in cutoffs
    requires DiminishedFeatures(cutoffs, df, d, init, multiplier, reverse)
    ensures DiminishedFeatures(cutoffs, df, Assign(d, f, DiminishColumn(Column(d, f), cutoffs[f], multiplier, reverse)),
                               features, multiplier, reverse)
  {
  }

  /** A transformer that was never fitted fails on its first feature; the shipped tests call
      `transform` on such a transformer. */
  lemma TransformUnfitted(df: Frame, features: seq<string>, multiplier: real, reverse: bool)
    requires features != []
    ensures TransformFeatures(map[], df, features, multiplier, reverse) == Err(KeyError(features[0]))
  {
    TransformUnfittedPrefix(df, features, multiplier, reverse, |features|);
    assert features[..|features|] == features;
  }

  lemma {:induction false} TransformUnfittedPrefix(df: Frame, features: seq<string>, multiplier: real, reverse: bool, k: nat)
    requires 0 < k <= |features|
    ensures TransformFeatures(map[], df, features[..k], multiplier, reverse) == Err(KeyError(features[0]))
  {
    if k > 1 {
      TransformUnfittedPrefix(df, features, multiplier, reverse, k - 1);
      assert features[..k][..k - 1] == features[..k - 1];
    }
  }

  lemma {:induction false} FitErrorPersists(start: map<string, Value>, df: Frame, fs: seq<string>, cutoffValue: Option<real>,
                                            quantileCutoff: real, quantile: QuantileFn, k: nat)
    requires 0 < k <= |fs|
    requires FitCutoffs(start, df, fs[..k], cutoffValue, quantileCutoff, quantile).error.Some?
    ensures FitCutoffs(start, df, fs, cutoffValue, quantileCutoff, quantile) == FitCutoffs(start, df, fs[..k], cutoffValue, quantileCutoff, quantile)
    decreases |fs| - k
  {
    if k < |fs| {
      assert fs[..k + 1][..k] == fs[..k];
      FitErrorPersists(start, df, fs, cutoffValue, quantileCutoff, quantile, k + 1);
    } else {
      assert fs[..k] == fs;
    }
  }

  lemma {:induction false} TransformErrorPersists(cutoffs: map<string, Value>, df: Frame, features: seq<string>,
                                                  multiplier: real, reverse: bool, k: nat)
    requires 0 < k <= |features|
    requires TransformFeatures(cutoffs, df, features[..k], multiplier, reverse).Err?
    ensures TransformFeatures(cutoffs, df, features, multiplier, reverse) == TransformFeatures(cutoffs, df, features[..k], multiplier, reverse)
    decreases |features| - k
  {
    if k < |features| {
      assert features[..k + 1][..k] == features[..k];
      TransformErrorPersists(cutoffs, df, features, multiplier, reverse, k + 1);
    } else {
      assert features[..k] == features;
    }
  }

  class DiminishingValueTransformer {
    const features: seq<string>
    const cutoffValue: Option<real>
    const quantileCutoff: real
    const excessiveMultiplier: real
    const reverse: bool
    var featureCutoffValue: map<string, Value>

    constructor (features: seq<string>, cutoffValue: Option<real> := None, quantileCutoff: real := 0.93,
                 excessiveMultiplier: real := 0.8, reverse: bool := false)
      ensures this.features == features && this.cutoffValue == cutoffValue
      ensures this.quantileCutoff == quantileCutoff && this.excessiveMultiplier == excessiveMultiplier
      ensures this.reverse == reverse && featureCutoffValue == map[]
    {
      this.features := features;
      this.cutoffValue := cutoffValue;
      this.quantileCutoff := quantileCutoff;
      this.excessiveMultiplier := excessiveMultiplier;
      this.reverse := reverse;
      featureCutoffValue := map[];
    }

    /** `fit_transform`: record every cutoff, then `transform`. */
    method FitTransform(df: Frame, quantile: QuantileFn) returns (r: Result<Frame>)
      modifies this
      ensures var fit := FitCutoffs(old(featureCutoffValue), df, features, cutoffValue, quantileCutoff, quantile);
        && featureCutoffValue == fit.cutoffs
        && r == if fit.error.Some? then Err(fit.error.value)
                else TransformFeatures(featureCutoffValue, df, features, excessiveMultiplier, reverse)
    {
      ghost var start := featureCutoffValue;
      var k := 0;
      while k < |features|
        invariant 0 <= k <= |features|
        invariant FitCutoffs(start, df, features[..k], cutoffValue, quantileCutoff, quantile) == Fit(featureCutoffValue, None)
      {
        var f := features[k];
        assert features[..k + 1][..k] == features[..k];
        if cutoffValue.None? {
          if f !in df.columns {
            FitErrorPersists(start, df, features, cutoffValue, quantileCutoff, quantile, k + 1);
            return Err(KeyError(f));
          }
          featureCutoffValue := featureCutoffValue[f := quantile(Column(df, f), quantileCutoff)];
        } else {
          featureCutoffValue := featureCutoffValue[f := Some(cutoffValue.value)];
        }
        k := k + 1;
      }
      assert features[..k] == features;
      r := Transform(df);
    }

    /** `transform`, feature by feature; the table passed in is not changed. */
    method Transform(df: Frame) returns (r: Result<Frame>)
      ensures r == TransformFeatures(featureCutoffValue, df, features, excessiveMultiplier, reverse)
    {
      var out := df;
      var k := 0;
      while k < |features|
        invariant 0 <= k <= |features|
        invariant TransformFeatures(featureCutoffValue, df, features[..k], excessiveMultiplier, reverse) == Ok(out)
      {
        var f := features[k];
        assert features[..k + 1][..k] == features[..k];
        if f !in featureCutoffValue || f !in out.columns {
          TransformErrorPersists(featureCutoffValue, df, features, excessiveMultiplier, reverse, k + 1);
          return Err(KeyError(f));
        }
        var cutoff := featureCutoffValue[f];
        out := Assign(out, f, DiminishColumn(Column(out, f), cutoff, excessiveMultiplier, reverse));
        k := k + 1;
      }
      assert features[..k] == features;
      r := Ok(out);
    }
  }
}
