/** `MinMaxTransformer`: scales each feature into [0, 1] between two quantiles of the
    fitted column and then, when `allowed_mean_diff` is set, nudges the scaled column
    by a constant factor until its mean lies within `allowed_mean_diff` of 0.5.
    `transform` repeats the same number of nudges on new data. */
module MinMax {
  import opened Common
  import opened Tables

  function Abs(x: real): real {
    if x < 0.0 then -x else x
  }

  /** `clip(0, 1)` */
  function Clip01(v: real): (c: real)
    ensures 0.0 <= c <= 1.0
    ensures 0.0 <= v <= 1.0 ==> c == v
    ensures v <= 0.0 ==> c == 0.0
    ensures v >= 1.0 ==> c == 1.0
  {
    if v < 0.0 then 0.0 else if v > 1.0 then 1.0 else v
  }

  /** Every present value lies in [0, 1]. */
  ghost predicate InUnit(col: seq<Value>) {
    forall i :: 0 <= i < |col| && col[i].Some? ==> 0.0 <= col[i].value <= 1.0
  }

  /** `((x - lo) / (hi - lo)).clip(0, 1)` in floating point: a missing operand gives a missing
      value; when `hi == lo` the division yields +inf, -inf or NaN (0/0), which the clip turns
      into 1, 0 or leaves missing. */
  function Scale(x: Value, lo: Value, hi: Value): (s: Value)
    ensures s.Some? ==> 0.0 <= s.value <= 1.0
    ensures s.None? <==> x.None? || lo.None? || hi.None? || (hi == lo && x == lo)
  {
    if x.None? || lo.None? || hi.None? then None
    else if hi.value == lo.value then
      (if x.value > lo.value then Some(1.0) else if x.value < lo.value then Some(0.0) else None)
    else Some(Clip01((x.value - lo.value) / (hi.value - lo.value)))
  }

  function ScaleColumn(col: seq<Value>, lo: Value, hi: Value): (scaled: seq<Value>)
    ensures |scaled| == |col| && InUnit(scaled)
    ensures forall i :: 0 <= i < |col| ==> scaled[i] == Scale(col[i], lo, hi)
  {
    seq(|col|, i requires 0 <= i < |col| => Scale(col[i], lo, hi))
  }

  /** Whether the nudge goes down: the mean is above 0.5 (a missing mean compares false). */
  function Down(mean: Value): bool {
    mean.Some? && mean.value > 0.5
  }

  /** The TypeError of a nudge when `allowed_mean_diff` is `None`: `1 - None` going down,
      `1 + None` going up. */
  function NoneNudgeError(down: bool): (e: PyError)
    ensures e.TypeError?
  {
    TypeError("unsupported operand type(s) for " + (if down then "-" else "+") + ": 'int' and 'NoneType'")
  }

  /** The factor of one nudge. */
  function Factor(down: bool, d: real): real {
    if down then 1.0 - d else 1.0 + d
  }

  /** One nudge of one cell: multiply, then clip. */
  function NudgeCell(x: Value, down: bool, d: real): (y: Value)
    ensures y.Some? <==> x.Some?
    ensures y.Some? ==> 0.0 <= y.value <= 1.0
  {
    if x.None? then None else Some(Clip01(x.value * Factor(down, d)))
  }

  /** One nudge of the whole column. */
  function Nudge(col: seq<Value>, down: bool, d: real): (out: seq<Value>)
    ensures |out| == |col| && InUnit(out)
    ensures forall i :: 0 <= i < |col| ==> out[i] == NudgeCell(col[i], down, d)
  {
    seq(|col|, i requires 0 <= i < |col| => NudgeCell(col[i], down, d))
  }

  /** The alignment loop's condition: `abs(0.5 - mean) > allowed_mean_diff`; a missing mean
      compares false and ends the loop. */
  function Far(mean: Value, d: real): bool {
    mean.Some? && Abs(0.5 - mean.value) > d
  }

  /** Where the alignment loop ends: the final column, the shared iteration counter, and whether
      the counter went past 100, where the warning's f-string names the undefined `reps`. */
  datatype Aligned = Aligned(column: seq<Value>, iterations: nat, failed: bool)

  /** The alignment loop, from the column, its current mean and the counter. */
  function Align(col: seq<Value>, mean: Value, d: real, count: nat): (a: Aligned)
    ensures |a.column| == |col|
    ensures InUnit(col) ==> InUnit(a.column)
    ensures a.iterations >= count
    ensures a.failed <==> a.iterations > 100 && a.iterations != count
    ensures !a.failed && a.iterations == count ==> a.column == col && !Far(mean, d)
    ensures !a.failed && a.iterations > count ==> !Far(MeanSkipNa(a.column), d)
    decreases if count <= 100 then 100 - count else 0
  {
    if !Far(mean, d) then Aligned(col, count, false)
    else
      var nudged := Nudge(col, Down(mean), d);
      if count + 1 > 100 then Aligned(nudged, count + 1, true)
      else Align(nudged, MeanSkipNa(nudged), d, count + 1)
  }

  /** `transform`'s replay: `n` nudges in one fixed direction. */
  function Replay(col: seq<Value>, down: bool, d: real, n: nat): (out: seq<Value>)
    ensures |out| == |col|
    ensures InUnit(col) ==> InUnit(out)
  {
    if n == 0 then col else Nudge(Replay(col, down, d, n - 1), down, d)
  }

  /** `if self.allowed_mean_diff:` is false for `None` and for zero. */
  function Truthy(d: Option<real>): bool {
    d.Some? && d.value != 0.0
  }

  /** Everything `fit_transform` updates: the working copy of the table and the fitted
      attributes. */
  datatype FitState = FitState(df: Frame, minValues: map<string, Value>, maxValues: map<string, Value>,
                               originalMeanValues: map<string, Value>, iterations: nat, created: seq<string>)

  /** The state reached, and the exception raised if any. */
  datatype Fitted = Fitted(state: FitState, error: Option<PyError>)

  /** `fit_transform`'s loop body for one feature. */
  function FitFeature(s: FitState, f: string, quantile: real, d: Option<real>, prefix: string, qf: QuantileFn): (r: Fitted)
    ensures r.state.iterations >= s.iterations
    ensures r.error.None? ==> f in s.df.columns && f in r.state.minValues && f in r.state.maxValues
    ensures r.error.None? ==> |r.state.df.rows| == |s.df.rows| && InUnit(Column(r.state.df, prefix + f))
    ensures r.error.None? ==> r.state.created == s.created + [prefix + f]
    ensures r.error.Some? ==> r.error.value == KeyError(f) || r.error.value == NameError("reps")
  {
    if f !in s.df.columns then Fitted(s, Some(KeyError(f)))
    else
      var col := Column(s.df, f);
      var lo := qf(col, quantile);
      var hi := qf(col, 1.0 - quantile);
      var scaled := ScaleColumn(col, lo, hi);
      var name := prefix + f;
      var s1 := s.(df := Assign(s.df, name, scaled), minValues := s.minValues[f := lo],
                   maxValues := s.maxValues[f := hi], created := s.created + [name]);
      if !Truthy(d) then Fitted(s1, None)
      else
        var mean := MeanSkipNa(scaled);
        var a := Align(scaled, mean, d.value, s.iterations);
        var s2 := s1.(df := Assign(s1.df, name, a.column), originalMeanValues := s.originalMeanValues[f := mean],
                      iterations := a.iterations);
        Fitted(s2, if a.failed then Some(NameError("reps")) else None)
  }

  /** `fit_transform`'s loop over the features, stopping at the first exception. */
  function FitAll(s: FitState, features: seq<string>, quantile: real, d: Option<real>, prefix: string, qf: QuantileFn): (r: Fitted)
    ensures r.state.iterations >= s.iterations
    decreases |features|
  {
    if features == [] then Fitted(s, None)
    else
      var prev := FitAll(s, features[..|features| - 1], quantile, d, prefix, qf);
      if prev.error.Some? then prev
      else FitFeature(prev.state, features[|features| - 1], quantile, d, prefix, qf)
  }

  /** One more feature continues a run that has not failed. */
  lemma FitAllStep(start: FitState, features: seq<string>, k: nat, quantile: real, d: Option<real>, prefix: string,
                   qf: QuantileFn, s: FitState)
    requires k < |features|
    requires FitAll(start, features[..k], quantile, d, prefix, qf) == Fitted(s, None)
    ensures FitAll(start, features[..k + 1], quantile, d, prefix, qf) == FitFeature(s, features[k], quantile, d, prefix, qf)
  {
    assert features[..k + 1][..k] == features[..k];
  }

  /** `transform` for one feature: KeyError when the table or the fitted bounds lack it; the
      scaled column, nudged as many times as the counter says, in the direction of the mean
      recorded when fitting. */
  function TransformFeature(df: Frame, f: string, minValues: map<string, Value>, maxValues: map<string, Value>,
                            originalMeanValues: map<string, Value>, iterations: nat, d: Option<real>, prefix: string)
    : (r: Result<Frame>)
    ensures r.Ok? ==> f in df.columns && f in minValues && f in maxValues
    ensures r.Ok? ==> |r.value.rows| == |df.rows| && InUnit(Column(r.value, prefix + f))
  {
    if f !in df.columns || f !in minValues || f !in maxValues then Err(KeyError(f))
    else
      var scaled := ScaleColumn(Column(df, f), minValues[f], maxValues[f]);
      if iterations == 0 then Ok(Assign(df, prefix + f, scaled))
      else if f !in originalMeanValues then Err(KeyError(f))
      else if d.None? then Err(NoneNudgeError(Down(originalMeanValues[f])))
      else Ok(Assign(df, prefix + f, Replay(scaled, Down(originalMeanValues[f]), d.value, iterations)))
  }

  /** `transform`'s loop over the features. */
  function TransformAll(df: Frame, features: seq<string>, minValues: map<string, Value>, maxValues: map<string, Value>,
                        originalMeanValues: map<string, Value>, iterations: nat, d: Option<real>, prefix: string)
    : (r: Result<Frame>)
    ensures r.Ok? ==> |r.value.rows| == |df.rows|
    decreases |features|
  {
    if features == [] then Ok(df)
    else
      match TransformAll(df, features[..|features| - 1], minValues, maxValues, originalMeanValues, iterations, d, prefix)
      case Err(e) => Err(e)
      case Ok(out) =>
        TransformFeature(out, features[|features| - 1], minValues, maxValues, originalMeanValues, iterations, d, prefix)
  }

  lemma {:induction false} FitAllKeepsError(s: FitState, fs: seq<string>, quantile: real, d: Option<real>, prefix: string,
                                            qf: QuantileFn, k: nat)
    requires k <= |fs|
    requires FitAll(s, fs[..k], quantile, d, prefix, qf).error.Some?
    ensures FitAll(s, fs, quantile, d, prefix, qf) == FitAll(s, fs[..k], quantile, d, prefix, qf)
    decreases |fs| - k
  {
    if k < |fs| {
      assert fs[..k + 1][..k] == fs[..k];
      FitAllKeepsError(s, fs, quantile, d, prefix, qf, k + 1);
    } else {
      assert fs[..k] == fs;
    }
  }

  lemma {:induction false} TransformAllKeepsError(df: Frame, fs: seq<string>, minValues: map<string, Value>,
                                                  maxValues: map<string, Value>, originalMeanValues: map<string, Value>,
                                                  iterations: nat, d: Option<real>, prefix: string, k: nat)
    requires k <= |fs|
    requires TransformAll(df, fs[..k], minValues, maxValues, originalMeanValues, iterations, d, prefix).Err?
    ensures TransformAll(df, fs, minValues, maxValues, originalMeanValues, iterations, d, prefix)
      == TransformAll(df, fs[..k], minValues, maxValues, originalMeanValues, iterations, d, prefix)
    decreases |fs| - k
  {
    if k < |fs| {
      assert fs[..k + 1][..k] == fs[..k];
      TransformAllKeepsError(df, fs, minValues, maxValues, originalMeanValues, iterations, d, prefix, k + 1);
    } else {
      assert fs[..k] == fs;
    }
  }

  /** The alignment loop of `fit_transform`. */
  method AlignColumn(col: seq<Value>, mean: Value, d: real, count: nat) returns (a: Aligned)
    ensures a == Align(col, mean, d, count)
  {
    var c := col;
    var m := mean;
    var n := count;
    while Far(m, d)
      invariant n >= count
      invariant Align(c, m, d, n) == Align(col, mean, d, count)
      decreases if n <= 100 then 100 - n else 0
    {
      c := Nudge(c, Down(m), d);
      m := MeanSkipNa(c);
      n := n + 1;
      if n > 100 {
        return Aligned(c, n, true);
      }
    }
    a := Aligned(c, n, false);
  }

  /** `transform`'s `for _ in range(iterations)` loop. */
  method ReplayColumn(col: seq<Value>, down: bool, d: real, iterations: nat) returns (out: seq<Value>)
    ensures out == Replay(col, down, d, iterations)
  {
    out := col;
    var k := 0;
    while k < iterations
      invariant k <= iterations
      invariant out == Replay(col, down, d, k)
    {
      out := Nudge(out, down, d);
      k := k + 1;
    }
  }

  /** `fit_transform`'s loop body, on the state it updates. */
  method FitOne(s: FitState, f: string, quantile: real, d: Option<real>, prefix: string, qf: QuantileFn) returns (r: Fitted)
    ensures r == FitFeature(s, f, quantile, d, prefix, qf)
  {
    if f !in s.df.columns {
      return Fitted(s, Some(KeyError(f)));
    }
    var col := Column(s.df, f);
    var lo := qf(col, quantile);
    var hi := qf(col, 1.0 - quantile);
    var scaled := ScaleColumn(col, lo, hi);
    var name := prefix + f;
    var s1 := s.(df := Assign(s.df, name, scaled), minValues := s.minValues[f := lo],
                 maxValues := s.maxValues[f := hi], created := s.created + [name]);
    if !Truthy(d) {
      return Fitted(s1, None);
    }
    var mean := MeanSkipNa(scaled);
    var a := AlignColumn(scaled, mean, d.value, s.iterations);
    var s2 := s1.(df := Assign(s1.df, name, a.column), originalMeanValues := s.originalMeanValues[f := mean],
                  iterations := a.iterations);
    r := Fitted(s2, if a.failed then Some(NameError("reps")) else None);
  }

  class MinMaxTransformer {
    const features: seq<string>
    const quantile: real
    const allowedMeanDiff: Option<real>
    const prefix: string
    var originalMeanValues: map<string, Value>
    var meanAligningIterations: nat
    var minValues: map<string, Value>
    var maxValues: map<string, Value>
    var featureNamesCreated: seq<string>

    constructor (features: seq<string>, quantile: real, allowedMeanDiff: Option<real>, prefix: string)
      requires 0.0 <= quantile <= 1.0
      ensures this.features == features && this.quantile == quantile
      ensures this.allowedMeanDiff == allowedMeanDiff && this.prefix == prefix
      ensures originalMeanValues == map[] && meanAligningIterations == 0
      ensures minValues == map[] && maxValues == map[] && featureNamesCreated == []
    {
      this.features := features;
      this.quantile := quantile;
      this.allowedMeanDiff := allowedMeanDiff;
      this.prefix := prefix;
      originalMeanValues := map[];
      meanAligningIterations := 0;
      minValues := map[];
      maxValues := map[];
      featureNamesCreated := [];
    }

    /** `__init__`: ValueError unless the quantile lies in [0, 1]. */
    static method Create(features: seq<string>, quantile: real := 0.99, allowedMeanDiff: Option<real> := Some(0.01),
                         prefix: string := "") returns (r: Result<MinMaxTransformer>)
      ensures r.Err? <==> quantile < 0.0 || quantile > 1.0
      ensures r.Err? ==> r.error == ValueError("quantile must be between 0 and 1")
      ensures r.Ok? ==> (fresh(r.value) && r.value.features == features && r.value.quantile == quantile
        && r.value.allowedMeanDiff == allowedMeanDiff && r.value.prefix == prefix
        && r.value.meanAligningIterations == 0 && r.value.minValues == map[] && r.value.maxValues == map[]
        && r.value.originalMeanValues == map[] && r.value.featureNamesCreated == [])
    {
      if quantile < 0.0 || quantile > 1.0 {
        return Err(ValueError("quantile must be between 0 and 1"));
      }
      var t := new MinMaxTransformer(features, quantile, allowedMeanDiff, prefix);
      r := Ok(t);
    }

    function State(df: Frame): FitState
      reads this
    {
      FitState(df, minValues, maxValues, originalMeanValues, meanAligningIterations, featureNamesCreated)
    }

    /** `fit_transform`: every attribute ends as the feature loop leaves it, also when it stops
        at an exception; the result is the working copy of the table. */
    method FitTransform(df: Frame, qf: QuantileFn) returns (r: Result<Frame>)
      modifies this
      ensures var fit := FitAll(old(State(df)), features, quantile, allowedMeanDiff, prefix, qf);
        && State(fit.state.df) == fit.state
        && r == if fit.error.Some? then Err(fit.error.value) else Ok(fit.state.df)
    {
      ghost var start := State(df);
      var s := State(df);
      var k := 0;
      while k < |features|
        invariant 0 <= k <= |features|
        invariant s == State(s.df)
        invariant FitAll(start, features[..k], quantile, allowedMeanDiff, prefix, qf) == Fitted(s, None)
      {
        FitAllStep(start, features, k, quantile, allowedMeanDiff, prefix, qf, s);
        var next := FitOne(s, features[k], quantile, allowedMeanDiff, prefix, qf);
        s := next.state;
        Store(s);
        if next.error.Some? {
          FitAllKeepsError(start, features, quantile, allowedMeanDiff, prefix, qf, k + 1);
          return Err(next.error.value);
        }
        k := k + 1;
      }
      assert features[..k] == features;
      r := Ok(s.df);
    }

    /** Write the fitted attributes of `s` back to the object. */
    method Store(s: FitState)
      modifies this
      ensures State(s.df) == s
    {
      minValues := s.minValues;
      maxValues := s.maxValues;
      originalMeanValues := s.originalMeanValues;
      meanAligningIterations := s.iterations;
      featureNamesCreated := s.created;
    }

    /** `transform`, feature by feature, from the fitted attributes. */
    method Transform(df: Frame) returns (r: Result<Frame>)
      ensures r == TransformAll(df, features, minValues, maxValues, originalMeanValues, meanAligningIterations, allowedMeanDiff, prefix)
    {
      var out := df;
      var k := 0;
      while k < |features|
        invariant 0 <= k <= |features|
        invariant TransformAll(df, features[..k], minValues, maxValues, originalMeanValues, meanAligningIterations, allowedMeanDiff, prefix) == Ok(out)
      {
        var f := features[k];
        assert features[..k + 1][..k] == features[..k];
        var step := TransformOne(out, f);
        if step.Err? {
          TransformAllKeepsError(df, features, minValues, maxValues, originalMeanValues, meanAligningIterations, allowedMeanDiff, prefix, k + 1);
          return step;
        }
        out := step.value;
        k := k + 1;
      }
      assert features[..k] == features;
      r := Ok(out);
    }

    method TransformOne(df: Frame, f: string) returns (r: Result<Frame>)
      ensures r == TransformFeature(df, f, minValues, maxValues, originalMeanValues, meanAligningIterations, allowedMeanDiff, prefix)
    {
      if f !in df.columns || f !in minValues || f !in maxValues {
        return Err(KeyError(f));
      }
      var scaled := ScaleColumn(Column(df, f), minValues[f], maxValues[f]);
      if meanAligningIterations == 0 {
        return Ok(Assign(df, prefix + f, scaled));
      }
      if f !in originalMeanValues {
        return Err(KeyError(f));
      }
      if allowedMeanDiff.None? {
        return Err(NoneNudgeError(Down(originalMeanValues[f])));
      }
      var nudged := ReplayColumn(scaled, Down(originalMeanValues[f]), allowedMeanDiff.value, meanAligningIterations);
      r := Ok(Assign(df, prefix + f, nudged));
    }
  }

  // ---------------------------------------------------------------------------
  // Properties of the scale.

  /** With `lo < hi` the scale keeps the order of the values, maps `lo` to 0 and `hi` to 1. */
  lemma ScaleMonotone(x: real, y: real, lo: real, hi: real)
    requires lo < hi && x <= y
    ensures Scale(Some(x), Some(lo), Some(hi)).value <= Scale(Some(y), Some(lo), Some(hi)).value
    ensures Scale(Some(lo), Some(lo), Some(hi)) == Some(0.0)
    ensures Scale(Some(hi), Some(lo), Some(hi)) == Some(1.0)
  {
    var w := hi - lo;
    assert (x - lo) / w <= (y - lo) / w by {
      DivMonotone(x - lo, y - lo, w);
    }
  }

  /** With `lo > hi` the scale reverses the order of the values: the largest values map to 0. */
  lemma ScaleAntitone(x: real, y: real, lo: real, hi: real)
    requires hi < lo && x <= y
    ensures Scale(Some(x), Some(lo), Some(hi)).value >= Scale(Some(y), Some(lo), Some(hi)).value
    ensures Scale(Some(lo), Some(lo), Some(hi)) == Some(0.0)
    ensures Scale(Some(hi), Some(lo), Some(hi)) == Some(1.0)
  {
    var w := lo - hi;
    assert (x - lo) / (hi - lo) == (lo - x) / w;
    assert (y - lo) / (hi - lo) == (lo - y) / w;
    assert (lo - y) / w <= (lo - x) / w by {
      DivMonotone(lo - y, lo - x, w);
    }
  }

  lemma DivMonotone(a: real, b: real, w: real)
    requires a <= b && w > 0.0
    ensures a / w <= b / w
  {
    assert b / w - a / w == (b - a) / w;
  }

  /** With a quantile above 0.5 (the default is 0.99) the lower bound `quantile(q)` is at least
      the upper bound `quantile(1 - q)`, so the scale runs backwards (`ScaleAntitone`). */
  lemma HighQuantileInverts(qf: QuantileFn, col: seq<Value>, quantile: real)
    requires IsQuantile(qf)
    requires 0.5 < quantile <= 1.0
    requires qf(col, quantile).Some? && qf(col, 1.0 - quantile).Some?
    ensures qf(col, 1.0 - quantile).value <= qf(col, quantile).value
  {
  }

  // ---------------------------------------------------------------------------
  // Properties of the alignment.

  /** A column whose values are all zero keeps a mean of zero under every nudge, so the loop
      runs until the counter passes 100 and fitting fails on the undefined `reps`. */
  lemma {:induction false} ZeroColumnNeverAligns(col: seq<Value>, d: real, count: nat)
    requires |col| > 0 && forall i :: 0 <= i < |col| ==> col[i] == Some(0.0)
    requires d < 0.5
    ensures Align(col, MeanSkipNa(col), d, count) == Aligned(col, if count < 100 then 101 else count + 1, true)
    decreases if count <= 100 then 100 - count else 0
  {
    ZeroMean(col);
    assert Far(MeanSkipNa(col), d);
    var nudged := Nudge(col, Down(MeanSkipNa(col)), d);
    assert nudged == col;
    if count + 1 <= 100 {
      ZeroColumnNeverAligns(col, d, count + 1);
    }
  }

  lemma ZeroMean(col: seq<Value>)
    requires |col| > 0 && forall i :: 0 <= i < |col| ==> col[i] == Some(0.0)
    ensures MeanSkipNa(col) == Some(0.0)
  {
    var p := Present(col);
    forall i | 0 <= i < |p| ensures p[i] == 0.0 {
      assert p[i] in p;
    }
    assert col[0].Some?;
    SumConstant(p, 0.0);
  }

  /** Once the loop has run at all and stopped on its own, the mean is within the allowed
      difference of 0.5 (or missing). */
  lemma AlignReachesTarget(col: seq<Value>, d: real)
    requires Far(MeanSkipNa(col), d)
    ensures var a := Align(col, MeanSkipNa(col), d, 0);
      !a.failed ==> 0 < a.iterations <= 100 && !Far(MeanSkipNa(a.column), d)
  {
  }

  // ---------------------------------------------------------------------------
  // Fitting and transforming.

  /** Fitting a fresh transformer on one feature without any alignment, then transforming the
      same table, writes the same scaled column that fitting wrote. */
  lemma TransformRepeatsFit(s: FitState, df: Frame, f: string, quantile: real, d: Option<real>, prefix: string, qf: QuantileFn)
    requires s.df == df && s.iterations == 0
    requires FitAll(s, [f], quantile, d, prefix, qf) == Fitted(FitAll(s, [f], quantile, d, prefix, qf).state, None)
    requires FitAll(s, [f], quantile, d, prefix, qf).state.iterations == 0
    ensures var t := FitAll(s, [f], quantile, d, prefix, qf).state;
      var out := TransformAll(df, [f], t.minValues, t.maxValues, t.originalMeanValues, t.iterations, d, prefix);
      out.Ok? && Column(out.value, prefix + f) == Column(t.df, prefix + f)
  {
    assert [f][..0] == [];
  }
}
