/** `ColumnsWeighter`: a pre-transformer that writes the weighted sum of several
    stat columns into one new column. It keeps no fitted state, so `transform` is
    `fit_transform`. */
module ColumnsWeighterTransform {
  import opened Common
  import opened Tables
  import opened ColumnWeighting

  datatype ColumnsWeighter = ColumnsWeighter(weightedColumnName: string, columnWeights: seq<ColumnWeight>)

  /** `features_created`: the one weighted column. */
  function FeaturesCreated(w: ColumnsWeighter): seq<string> {
    [w.weightedColumnName]
  }

  /** `fit_transform` (and `transform`): KeyError for the first weighted column the table lacks;
      otherwise every row has its missing weighted cells filled with 0 and gains the weighted
      column. The helper columns (`__<name>`, `sum_cols_weights`, `weight__<column>`) are not
      modelled: the input's own columns are all kept. */
  function FitTransform(w: ColumnsWeighter, df: Frame): (r: Result<Frame>)
    ensures r.Ok? <==> forall n :: n in Names(w.columnWeights) ==> n in df.columns
    ensures r.Err? ==> r.error.KeyError? && r.error.key in Names(w.columnWeights) && r.error.key !in df.columns
    ensures r.Ok? ==> r.value.columns == (if w.weightedColumnName in df.columns then df.columns else df.columns + [w.weightedColumnName])
    ensures r.Ok? ==> |r.value.rows| == |df.rows|
  {
    match FirstMissing(df.columns, Names(w.columnWeights))
    case Some(n) => Err(KeyError(n))
    case None =>
      var rows := seq(|df.rows|, i requires 0 <= i < |df.rows| =>
        Prepare(df.rows[i], w.columnWeights).values[w.weightedColumnName := RowPerformance(df.rows[i], w.columnWeights, None)]);
      Ok(Frame(if w.weightedColumnName in df.columns then df.columns else df.columns + [w.weightedColumnName], rows))
  }

  /** With distinct column names, each output row holds the weighted sum of its present stat
      values, every weighted cell is present (0 where it was missing), and every other cell is
      the input's. */
  lemma FitTransformCells(w: ColumnsWeighter, df: Frame, i: nat)
    requires FitTransform(w, df).Ok?
    requires Distinct(Names(w.columnWeights))
    requires i < |df.rows|
    ensures var out := FitTransform(w, df).value.rows[i];
      && Get(out, w.weightedColumnName) == Some(WeightedSum(df.rows[i], w.columnWeights))
      && (forall cw :: cw in w.columnWeights && cw.name != w.weightedColumnName ==>
            Get(out, cw.name) == (if Get(df.rows[i], cw.name).None? then Some(0.0) else Get(df.rows[i], cw.name)))
      && (forall n :: n !in Names(w.columnWeights) && n != w.weightedColumnName ==> Get(out, n) == Get(df.rows[i], n))
  {
    PrepareDistinct(df.rows[i], w.columnWeights);
    DistinctNamesPerformance(df.rows[i], w.columnWeights);
  }

  /** The weighted column is exactly the performance column the performances generator
      computes from the same weights without a column mapping, and it fails on the same tables. */
  lemma AgreesWithGenerator(w: ColumnsWeighter, df: Frame)
    ensures FitTransform(w, df).Ok? <==> WeightedColumn(df, w.columnWeights, None).Ok?
    ensures FitTransform(w, df).Ok? ==>
      Column(FitTransform(w, df).value, w.weightedColumnName) == WeightedColumn(df, w.columnWeights, None).value
  {
    assert forall n :: n in FeatureNames(w.columnWeights, None) ==> n in Names(w.columnWeights);
    if FitTransform(w, df).Ok? {
      var out := FitTransform(w, df).value;
      assert Column(out, w.weightedColumnName) == WeightedColumn(df, w.columnWeights, None).value;
    }
  }
}
