/** Turning several stat columns into one performance column: the weighted sum
    that `PerformancesGenerator._weight_columns` and `ColumnsWeighter.fit_transform`
    both compute. The code works column by column; the model computes one row at
    a time, which is what the element-wise pandas arithmetic amounts to. */
module ColumnWeighting {
  import opened Common
  import opened Tables

  /** One stat column, its weight, and whether a lower value is the better one. */
  datatype ColumnWeight = ColumnWeight(name: string, weight: real, lowerIsBetter: bool := false)

  /** The dataclass constructor with its `__post_init__` check: the weight must lie in [0, 1]. */
  function NewColumnWeight(name: string, weight: real, lowerIsBetter: bool := false): (r: Result<ColumnWeight>)
    ensures r.Ok? <==> 0.0 <= weight <= 1.0
    ensures r.Ok? ==> r.value == ColumnWeight(name, weight, lowerIsBetter)
    ensures weight < 0.0 ==> r == Err(ValueError("Weight must be positive"))
    ensures weight > 1.0 ==> r == Err(ValueError("Weight must be less than 1"))
  {
    if weight < 0.0 then Err(ValueError("Weight must be positive"))
    else if weight > 1.0 then Err(ValueError("Weight must be less than 1"))
    else Ok(ColumnWeight(name, weight, lowerIsBetter))
  }

  function Names(cws: seq<ColumnWeight>): (names: seq<string>)
    ensures |names| == |cws| && forall i :: 0 <= i < |cws| ==> names[i] == cws[i].name
  {
    seq(|cws|, i requires 0 <= i < |cws| => cws[i].name)
  }

  /** A row after the first loop: the (copied) row with each missing weighted cell set to 0,
      and the temporary `weight__<name>` column, keyed by column name. */
  datatype Prepared = Prepared(values: Row, weightOf: map<string, real>)

  /** The first loop over the weights. A later weight for the same name overwrites the earlier one. */
  function Prepare(row: Row, cws: seq<ColumnWeight>): (p: Prepared)
    ensures forall cw :: cw in cws ==> cw.name in p.weightOf
    decreases |cws|
  {
    if cws == [] then Prepared(row, map[])
    else
      var p := Prepare(row, cws[..|cws| - 1]);
      var cw := cws[|cws| - 1];
      if Get(p.values, cw.name).None?
      then Prepared(p.values[cw.name := Some(0.0)], p.weightOf[cw.name := 0.0])
      else Prepared(p.values, p.weightOf[cw.name := cw.weight])
  }

  /** The column a weight reads its value from: the mapped name when a non-empty mapping is given. */
  function FeatureName(cw: ColumnWeight, mapping: Option<map<string, string>>): string {
    if mapping.Some? && mapping.value != map[] && cw.name in mapping.value then mapping.value[cw.name] else cw.name
  }

  /** One weight's contribution; a missing value makes the whole sum missing, as NaN does. */
  function Term(weight: real, lowerIsBetter: bool, v: Value): Value {
    if v.None? then None else Some(Contribution(weight, lowerIsBetter, v.value))
  }

  /** `weight * (1 - value)` when lower is better, `weight * value` otherwise. */
  function Contribution(weight: real, lowerIsBetter: bool, value: real): real {
    weight * (if lowerIsBetter then 1.0 - value else value)
  }

  function AddValues(a: Value, b: Value): Value {
    if a.None? || b.None? then None else Some(a.value + b.value)
  }

  /** The third loop: `__performance += weight__<name> * (1 - value)` or `* value`.
      (The second loop divides each weight by the weight sum and throws the quotient away.) */
  function Accumulate(p: Prepared, cws: seq<ColumnWeight>, mapping: Option<map<string, string>>): Value
    requires forall cw :: cw in cws ==> cw.name in p.weightOf
    decreases |cws|
  {
    if cws == [] then Some(0.0)
    else
      var cw := cws[|cws| - 1];
      AddValues(Accumulate(p, cws[..|cws| - 1], mapping),
        Term(p.weightOf[cw.name], cw.lowerIsBetter, Get(p.values, FeatureName(cw, mapping))))
  }

  /** The performance of one row. */
  function RowPerformance(row: Row, cws: seq<ColumnWeight>, mapping: Option<map<string, string>>): Value {
    Accumulate(Prepare(row, cws), cws, mapping)
  }

  /** The first loop for one row: fill missing weighted cells with 0 and record the weights. */
  method PrepareRow(row: Row, cws: seq<ColumnWeight>) returns (values: Row, weightOf: map<string, real>)
    ensures Prepared(values, weightOf) == Prepare(row, cws)
  {
    values := row;
    weightOf := map[];
    var i := 0;
    while i < |cws|
      invariant 0 <= i <= |cws|
      invariant Prepared(values, weightOf) == Prepare(row, cws[..i])
    {
      var cw := cws[i];
      assert cws[..i + 1][..i] == cws[..i];
      if Get(values, cw.name).None? {
        values := values[cw.name := Some(0.0)];
        weightOf := weightOf[cw.name := 0.0];
      } else {
        weightOf := weightOf[cw.name := cw.weight];
      }
      i := i + 1;
    }
    assert cws[..|cws|] == cws;
  }

  /** Both loops of the weighting for one row; returns the zero-filled row and the weighted sum. */
  method WeightRow(row: Row, cws: seq<ColumnWeight>, mapping: Option<map<string, string>>)
    returns (filled: Row, performance: Value)
    ensures filled == Prepare(row, cws).values
    ensures performance == RowPerformance(row, cws, mapping)
  {
    var values, weightOf := PrepareRow(row, cws);
    ghost var p := Prepared(values, weightOf);
    var acc: Value := Some(0.0);
    var i := 0;
    while i < |cws|
      invariant 0 <= i <= |cws|
      invariant acc == Accumulate(p, cws[..i], mapping)
    {
      var cw := cws[i];
      assert cws[..i + 1][..i] == cws[..i];
      assert cw in cws;
      var v := Get(values, FeatureName(cw, mapping));
      acc := AddValues(acc, Term(weightOf[cw.name], cw.lowerIsBetter, v));
      i := i + 1;
    }
    assert cws[..|cws|] == cws;
    filled, performance := values, acc;
  }

  /** The names the third loop reads values from, in order. */
  function FeatureNames(cws: seq<ColumnWeight>, mapping: Option<map<string, string>>): (names: seq<string>)
    ensures |names| == |cws| && forall i :: 0 <= i < |cws| ==> names[i] == FeatureName(cws[i], mapping)
  {
    seq(|cws|, i requires 0 <= i < |cws| => FeatureName(cws[i], mapping))
  }

  /** `_weight_columns`: KeyError for the first weighted column the table lacks, then for the
      first mapped column it lacks; otherwise one performance value per row. */
  function WeightedColumn(df: Frame, cws: seq<ColumnWeight>, mapping: Option<map<string, string>>): (r: Result<seq<Value>>)
    ensures r.Ok? <==> (forall n :: n in Names(cws) ==> n in df.columns) && (forall n :: n in FeatureNames(cws, mapping) ==> n in df.columns)
    ensures r.Ok? ==> |r.value| == |df.rows|
    ensures r.Err? ==> r.error.KeyError? && r.error.key !in df.columns
  {
    match FirstMissing(df.columns, Names(cws))
    case Some(n) => Err(KeyError(n))
    case None =>
      match FirstMissing(df.columns, FeatureNames(cws, mapping))
      case Some(n) => Err(KeyError(n))
      case None => Ok(seq(|df.rows|, i requires 0 <= i < |df.rows| => RowPerformance(df.rows[i], cws, mapping)))
  }

  /** `_weight_columns` computed row by row. */
  method WeightColumns(df: Frame, cws: seq<ColumnWeight>, mapping: Option<map<string, string>>)
    returns (r: Result<seq<Value>>)
    ensures r == WeightedColumn(df, cws, mapping)
  {
    var missing := FirstMissing(df.columns, Names(cws));
    if missing.Some? {
      return Err(KeyError(missing.value));
    }
    missing := FirstMissing(df.columns, FeatureNames(cws, mapping));
    if missing.Some? {
      return Err(KeyError(missing.value));
    }
    var column: seq<Value> := [];
    var i := 0;
    while i < |df.rows|
      invariant 0 <= i <= |df.rows|
      invariant |column| == i
      invariant forall k :: 0 <= k < i ==> column[k] == RowPerformance(df.rows[k], cws, mapping)
    {
      var _, v := WeightRow(df.rows[i], cws, mapping);
      column := column + [v];
      i := i + 1;
    }
    assert column == seq(|df.rows|, k requires 0 <= k < |df.rows| => RowPerformance(df.rows[k], cws, mapping));
    r := Ok(column);
  }

  // ---------------------------------------------------------------------------
  // What the weighting means when every column is weighted once.

  /** The intended formula: the sum of weight * value (or weight * (1 - value) when lower is better),
      where a missing value contributes nothing. There is no division by the weight sum. */
  function WeightedSum(row: Row, cws: seq<ColumnWeight>): real
    decreases |cws|
  {
    if cws == [] then 0.0
    else WeightedSum(row, cws[..|cws| - 1]) + CellContribution(row, cws[|cws| - 1])
  }

  /** What one weighted column adds to the sum: nothing when its cell is missing. */
  function CellContribution(row: Row, cw: ColumnWeight): real {
    var v := Get(row, cw.name);
    if v.None? then 0.0 else Contribution(cw.weight, cw.lowerIsBetter, v.value)
  }

  /** With distinct names the first loop leaves each weighted column's weight, or 0 when the cell
      was missing, and replaces a missing cell by 0; other cells keep their value. */
  lemma {:induction false} PrepareDistinct(row: Row, cws: seq<ColumnWeight>)
    requires Distinct(Names(cws))
    ensures forall cw :: cw in cws ==>
      Prepare(row, cws).weightOf[cw.name] == (if Get(row, cw.name).None? then 0.0 else cw.weight)
    ensures forall cw :: cw in cws ==>
      Get(Prepare(row, cws).values, cw.name) == (if Get(row, cw.name).None? then Some(0.0) else Get(row, cw.name))
    ensures forall n :: n !in Names(cws) ==> Get(Prepare(row, cws).values, n) == Get(row, n)
    decreases |cws|
  {
    if cws != [] {
      var init := cws[..|cws| - 1];
      var last := cws[|cws| - 1];
      assert Names(init) == Names(cws)[..|cws| - 1];
      PrepareDistinct(row, init);
      forall k | 0 <= k < |init| ensures Names(init)[k] != last.name {
        assert Names(cws)[k] == Names(init)[k];
      }
      forall cw | cw in init ensures cw.name != last.name {
        var k :| 0 <= k < |init| && init[k] == cw;
        assert Names(cws)[k] == cw.name;
      }
    }
  }

  /** The accumulation with the prepared row of the whole list, over a prefix. */
  lemma {:induction false} AccumulateDistinct(row: Row, cws: seq<ColumnWeight>, k: nat)
    requires Distinct(Names(cws))
    requires k <= |cws|
    ensures Accumulate(Prepare(row, cws), cws[..k], None) == Some(WeightedSum(row, cws[..k]))
  {
    if k > 0 {
      AccumulateDistinct(row, cws, k - 1);
      assert cws[..k][..k - 1] == cws[..k - 1];
      assert cws[..k][k - 1] == cws[k - 1];
      PreparedTerm(row, cws, cws[k - 1]);
    }
  }

  /** With distinct names, the prepared row gives each weighted column its contribution. */
  lemma PreparedTerm(row: Row, cws: seq<ColumnWeight>, cw: ColumnWeight)
    requires Distinct(Names(cws))
    requires cw in cws
    ensures var p := Prepare(row, cws);
      Term(p.weightOf[cw.name], cw.lowerIsBetter, Get(p.values, FeatureName(cw, None))) == Some(CellContribution(row, cw))
  {
    var p := Prepare(row, cws);
    PrepareDistinct(row, cws);
    TermOfPrepared(cw, Get(row, cw.name), p.weightOf[cw.name], Get(p.values, cw.name));
  }

  lemma TermOfPrepared(cw: ColumnWeight, v: Value, weight: real, filled: Value)
    requires weight == (if v.None? then 0.0 else cw.weight)
    requires filled == (if v.None? then Some(0.0) else v)
    ensures Term(weight, cw.lowerIsBetter, filled)
      == Some(if v.None? then 0.0 else Contribution(cw.weight, cw.lowerIsBetter, v.value))
  {
  }

  /** With each column weighted once and no name mapping, the performance is exactly the weighted
      sum; in particular it is never missing, whatever cells are missing. */
  lemma DistinctNamesPerformance(row: Row, cws: seq<ColumnWeight>)
    requires Distinct(Names(cws))
    ensures RowPerformance(row, cws, None) == Some(WeightedSum(row, cws))
  {
    AccumulateDistinct(row, cws, |cws|);
    assert cws[..|cws|] == cws;
  }

  /** A missing cell contributes nothing: the sum is what it would be without that weight. */
  lemma {:induction false} MissingContributesNothing(row: Row, cws: seq<ColumnWeight>, j: nat)
    requires j < |cws|
    requires Get(row, cws[j].name).None?
    ensures WeightedSum(row, cws) == WeightedSum(row, cws[..j] + cws[j + 1..])
    decreases |cws|
  {
    var rest := cws[..j] + cws[j + 1..];
    if j == |cws| - 1 {
      assert rest == cws[..|cws| - 1];
    } else {
      var init, last := cws[..|cws| - 1], cws[|cws| - 1];
      MissingContributesNothing(row, init, j);
      assert init[..j] + init[j + 1..] == rest[..|rest| - 1];
      assert rest[|rest| - 1] == last;
      assert WeightedSum(row, rest) == WeightedSum(row, init[..j] + init[j + 1..]) + CellContribution(row, last);
    }
  }

  /** The sum with a name mapping: weights stay keyed by the original column (0 when its cell is
      missing) while values come, unfilled, from the mapped column. */
  function MappedSum(row: Row, cws: seq<ColumnWeight>, mapping: map<string, string>): Value
    decreases |cws|
  {
    if cws == [] then Some(0.0)
    else
      var cw := cws[|cws| - 1];
      var weight := if Get(row, cw.name).None? then 0.0 else cw.weight;
      AddValues(MappedSum(row, cws[..|cws| - 1], mapping),
        Term(weight, cw.lowerIsBetter, Get(row, FeatureName(cw, Some(mapping)))))
  }

  lemma {:induction false} AccumulateMapped(row: Row, cws: seq<ColumnWeight>, mapping: map<string, string>, k: nat)
    requires Distinct(Names(cws))
    requires forall cw :: cw in cws ==> FeatureName(cw, Some(mapping)) !in Names(cws)
    requires k <= |cws|
    ensures Accumulate(Prepare(row, cws), cws[..k], Some(mapping)) == MappedSum(row, cws[..k], mapping)
  {
    PrepareDistinct(row, cws);
    if k > 0 {
      AccumulateMapped(row, cws, mapping, k - 1);
      assert cws[..k][..k - 1] == cws[..k - 1];
      assert cws[k - 1] in cws;
    }
  }

  /** When the mapped columns are not themselves weighted columns, the value of each term comes
      from the mapped column while its weight follows the original column. */
  lemma MappedPerformance(row: Row, cws: seq<ColumnWeight>, mapping: map<string, string>)
    requires Distinct(Names(cws))
    requires forall cw :: cw in cws ==> FeatureName(cw, Some(mapping)) !in Names(cws)
    ensures RowPerformance(row, cws, Some(mapping)) == MappedSum(row, cws, mapping)
  {
    AccumulateMapped(row, cws, mapping, |cws|);
    assert cws[..|cws|] == cws;
  }
}
