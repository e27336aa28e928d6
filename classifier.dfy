/** The game-team classifier wrapper (`SkLearnGameTeamPredictor`) and the plain classifier
    wrapper (`SKLearnClassifierWrapper`). The first aggregates player rows to one row per
    (game, team) pair, as a weighted mean of every feature, and merges the model's
    predictions back onto the rows; the second adds the model's prediction to every row.
    The fitted model is a function from a row's feature cells to the probability of the
    positive class. */
module Classifier {
  import opened Common
  import opened Tables
  import opened GroupBy

  const CastMessage: string := "Cannot convert non-finite values (NA or inf) to integer"

  /** `a * b` on cells: a missing factor gives a missing product. */
  function Mul(a: Value, b: Value): (r: Value)
    ensures r.Some? <==> a.Some? && b.Some?
  {
    if a.Some? && b.Some? then Some(a.value * b.value) else None
  }

  /** `a / b` on cells: missing when an operand is missing or the divisor is zero, where
      pandas produces an infinity or NaN. */
  function Div(a: Value, b: Value): (r: Value)
    ensures r.Some? <==> a.Some? && b.Some? && b.value != 0.0
  {
    if a.Some? && b.Some? && b.value != 0.0 then Some(a.value / b.value) else None
  }

  /** pandas' `Series.sum()`: missing cells are skipped and an empty sum is zero. */
  function SumSkipNa(values: seq<Value>): real {
    Sum(Present(values))
  }

  /** `astype('int')` on a finite number: truncation toward zero. */
  function Trunc(x: real): (n: int)
    ensures x >= 0.0 ==> n as real <= x < n as real + 1.0
    ensures x < 0.0 ==> n as real - 1.0 < x <= n as real
  {
    if x >= 0.0 then x.Floor else -((-x).Floor)
  }

  /** `df[weight] * df[feature]`, row by row. */
  function Products(d: Frame, weight: string, feature: string): (p: seq<Value>)
    ensures |p| == |d.rows|
    ensures forall i :: 0 <= i < |p| ==> p[i] == Mul(Get(d.rows[i], weight), Get(d.rows[i], feature))
  {
    seq(|d.rows|, i requires 0 <= i < |d.rows| => Mul(Get(d.rows[i], weight), Get(d.rows[i], feature)))
  }

  /** The weighting loop of `_create_grouped`: every feature in turn replaced by the weight
      times itself; a missing weight or feature column is a `KeyError`. */
  function WeightedFrom(df: Frame, weight: string, features: seq<string>): Result<Frame>
    decreases |features|
  {
    if features == [] then Ok(df)
    else
      match WeightedFrom(df, weight, features[..|features| - 1])
      case Err(e) => Err(e)
      case Ok(d) =>
        var f := features[|features| - 1];
        if weight !in d.columns then Err(KeyError(weight))
        else if f !in d.columns then Err(KeyError(f))
        else Ok(Assign(d, f, Products(d, weight, f)))
  }

  /** `out` is `df` with each of `features` multiplied by the weight and nothing else changed. */
  ghost predicate WeightedRows(df: Frame, out: Frame, weight: string, features: seq<string>) {
    && out.columns == df.columns
    && |out.rows| == |df.rows|
    && forall i, c :: 0 <= i < |df.rows| ==>
         Get(out.rows[i], c) == if c in features then Mul(Get(df.rows[i], weight), Get(df.rows[i], c)) else Get(df.rows[i], c)
  }

  /** With distinct features that do not include the weight, a successful weighting loop multiplies each feature cell by its row's weight exactly once. */
  lemma {:induction false} WeightedFromEffect(df: Frame, weight: string, features: seq<string>)
    requires Distinct(features) && weight !in features
    requires WeightedFrom(df, weight, features).Ok?
    ensures WeightedRows(df, WeightedFrom(df, weight, features).value, weight, features)
    decreases |features|
  {
    if features != [] {
      var n := |features| - 1;
      var init := features[..n];
      var f := features[n];
      assert features == init + [f];
      assert Distinct(init) && f !in init && weight != f by {
        assert forall a :: 0 <= a < n ==> init[a] == features[a];
      }
      var prev := WeightedFromLast(df, weight, features);
      WeightedFromEffect(df, weight, init);
      WeightedStep(df, prev, weight, init, f);
    }
  }

  /** A successful weighting of several features is a successful weighting of all but the
      last, followed by the last feature's products. */
  lemma WeightedFromLast(df: Frame, weight: string, features: seq<string>) returns (prev: Frame)
    requires features != [] && WeightedFrom(df, weight, features).Ok?
    ensures WeightedFrom(df, weight, features[..|features| - 1]) == Ok(prev)
    ensures features[|features| - 1] in prev.columns
    ensures WeightedFrom(df, weight, features).value ==
      Assign(prev, features[|features| - 1], Products(prev, weight, features[|features| - 1]))
  {
    prev := WeightedFrom(df, weight, features[..|features| - 1]).value;
  }

  /** Multiplying one more feature, distinct from the weight and the earlier ones, by the weight. */
  lemma WeightedStep(df: Frame, prev: Frame, weight: string, init: seq<string>, f: string)
    requires WeightedRows(df, prev, weight, init)
    requires weight !in init && weight != f && f !in init && f in prev.columns
    ensures WeightedRows(df, Assign(prev, f, Products(prev, weight, f)), weight, init + [f])
  {
    var out := Assign(prev, f, Products(prev, weight, f));
    forall i, c | 0 <= i < |df.rows|
      ensures Get(out.rows[i], c) == if c in init + [f] then Mul(Get(df.rows[i], weight), Get(df.rows[i], c)) else Get(df.rows[i], c)
    {
      assert Get(prev.rows[i], weight) == Get(df.rows[i], weight);
      assert Get(prev.rows[i], f) == Get(df.rows[i], f);
    }
  }

  /** Once a prefix of the features fails, the whole loop fails with the same error. */
  lemma {:induction false} WeightedPrefixErr(df: Frame, weight: string, features: seq<string>, k: nat)
    requires k <= |features|
    requires WeightedFrom(df, weight, features[..k]).Err?
    ensures WeightedFrom(df, weight, features) == WeightedFrom(df, weight, features[..k])
    decreases |features| - k
  {
    if k < |features| {
      assert features[..k + 1][..k] == features[..k];
      WeightedPrefixErr(df, weight, features, k + 1);
    } else {
      assert features[..k] == features;
    }
  }

  /** The weighting loop as it runs. */
  method WeightFeatures(df: Frame, weight: string, features: seq<string>) returns (r: Result<Frame>)
    ensures r == WeightedFrom(df, weight, features)
  {
    var d := df;
    var j := 0;
    while j < |features|
      invariant j <= |features|
      invariant WeightedFrom(df, weight, features[..j]) == Ok(d)
    {
      assert features[..j + 1][..j] == features[..j];
      if weight !in d.columns || features[j] !in d.columns {
        WeightedPrefixErr(df, weight, features, j + 1);
        return WeightedFrom(df, weight, features[..j + 1]);
      }
      d := Assign(d, features[j], Products(d, weight, features[j]));
      j := j + 1;
    }
    assert features[..j] == features;
    r := Ok(d);
  }

  /** The table `_create_grouped` aggregates: weighted when there is a (non-empty) weight
      column name, the input otherwise. */
  function Weighted(df: Frame, features: seq<string>, weight: Option<string>): Result<Frame> {
    if weight.Some? && weight.value != "" then WeightedFrom(df, weight.value, features) else Ok(df)
  }

  /** The aggregate the dict `{feature: 'sum', target: 'mean', weight: 'sum'}` gives column `c`
      of group `key`; a later key of the dict replaces an earlier one. */
  function AggregateCell(rows: seq<Row>, granularity: seq<string>, key: Key, c: string, target: string, weight: string): Value {
    var vs := GroupColumn(rows, granularity, key, c);
    if c == target && c != weight then MeanSkipNa(vs) else Some(SumSkipNa(vs))
  }

  /** The aggregated columns of one group. */
  function AggregatedRow(rows: seq<Row>, granularity: seq<string>, key: Key, features: seq<string>,
                         target: string, weight: string): (row: Row)
    ensures forall c :: c in features || c == target || c == weight ==>
      Get(row, c) == AggregateCell(rows, granularity, key, c, target, weight)
  {
    map c | c in features + [target, weight] :: AggregateCell(rows, granularity, key, c, target, weight)
  }

  /** The loop dividing each feature by the weight sum, in feature order. */
  function DivideFrom(row: Row, features: seq<string>, weight: string): Row
    decreases |features|
  {
    if features == [] then row
    else
      var d := DivideFrom(row, features[..|features| - 1], weight);
      var f := features[|features| - 1];
      d[f := Div(Get(d, f), Get(d, weight))]
  }

  /** With distinct features that do not include the weight, each feature is divided once by
      the weight sum and every other cell is left alone. */
  lemma {:induction false} DivideEffect(row: Row, features: seq<string>, weight: string, c: string)
    requires Distinct(features) && weight !in features
    ensures Get(DivideFrom(row, features, weight), c) ==
      if c in features then Div(Get(row, c), Get(row, weight)) else Get(row, c)
    decreases |features|
  {
    if features != [] {
      var n := |features| - 1;
      var init := features[..n];
      var f := features[n];
      assert forall x :: x in features <==> x in init || x == f by {
        assert features == init + [f];
      }
      assert Distinct(init) && f !in init by {
        assert forall a, b :: 0 <= a < b < n ==> init[a] == features[a] && init[b] == features[b];
      }
      DivideEffect(row, init, weight, c);
      DivideEffect(row, init, weight, f);
      DivideEffect(row, init, weight, weight);
    }
  }

  /** `reset_index`: the key cells back in the grouping columns. */
  function WithKey(row: Row, game: string, team: string, key: Key): (r: Row)
    ensures forall c :: c != game && c != team ==> Get(r, c) == Get(row, c)
  {
    if |key| == 2 then row[game := Some(key[0])][team := Some(key[1])] else row
  }

  /** One grouped row before the target cast: the aggregates, the key columns that
      `reset_index` restores, each feature divided by the weight sum, the weight dropped. */
  function GroupRowOf(rows: seq<Row>, game: string, team: string, key: Key, features: seq<string>,
                      target: string, weight: string): (row: Row)
    ensures weight !in row
    ensures forall c :: c != weight ==>
      (Get(row, c) == Get(DivideFrom(WithKey(AggregatedRow(rows, [game, team], key, features, target, weight), game, team, key), features, weight), c))
  {
    DivideFrom(WithKey(AggregatedRow(rows, [game, team], key, features, target, weight), game, team, key), features, weight) - {weight}
  }

  /** `_create_grouped`: one row per (game, team) pair of the (weighted) table. Reading the
      target's dtype raises `KeyError` for a missing target before anything else; the
      weighting loop's `KeyError`s come next, then a missing grouping column, then a column
      the aggregation names but the table lacks (the weight name `None` is never a column);
      the dropped weight column cannot be the target, and a group whose mean target is
      missing cannot be cast to an integer. */
  function CreateGrouped(df: Frame, game: string, team: string, features: seq<string>,
                         weight: Option<string>, target: string): (r: Result<map<Key, Row>>)
    ensures target !in df.columns ==> r == Err(KeyError(target))
    ensures r.Ok? ==> weight.Some?
    ensures weight.None? ==> r.Err? && r.error.KeyError?
    ensures r.Ok? ==> Weighted(df, features, weight).Ok?
    ensures r.Ok? ==> r.value.Keys == Keys(Weighted(df, features, weight).value.rows, [game, team])
    ensures r.Ok? ==> forall k :: k in r.value ==> weight.value !in r.value[k]
    ensures r.Ok? ==> forall k :: k in r.value ==>
      (Get(r.value[k], target).Some? && Get(r.value[k], target).value == Get(r.value[k], target).value.Floor as real)
  {
    if target !in df.columns then Err(KeyError(target))
    else
      match Weighted(df, features, weight)
      case Err(e) => Err(e)
      case Ok(d) =>
        match FirstMissing(d.columns, [game, team])
        case Some(g) => Err(KeyError(g))
        case None =>
          if weight.None? then Err(KeyError("None"))
          else
            var w := weight.value;
            match FirstMissing(d.columns, features + [target, w])
            case Some(c) => Err(KeyError(c))
            case None =>
              if target == w then Err(KeyError(target))
              else CastTarget(GroupRows(d.rows, game, team, features, target, w), target)
  }

  /** `astype('int')` on the grouped target: a missing target in any group cannot be cast. */
  function CastTarget(groups: map<Key, Row>, target: string): (r: Result<map<Key, Row>>)
    ensures r.Err? <==> exists k :: k in groups && Get(groups[k], target).None?
    ensures r.Err? ==> r.error == ValueError(CastMessage)
    ensures r.Ok? ==> (forall k :: k in groups ==> Get(groups[k], target).Some?) && r.value == Truncated(groups, target)
  {
    if exists k :: k in groups && Get(groups[k], target).None? then Err(ValueError(CastMessage))
    else Ok(Truncated(groups, target))
  }

  /** `groupby([game, team]).agg(...)` followed by the division: one row per pair. */
  function GroupRows(rows: seq<Row>, game: string, team: string, features: seq<string>, target: string, weight: string)
    : (groups: map<Key, Row>)
    ensures groups.Keys == Keys(rows, [game, team])
    ensures forall k :: k in groups ==> groups[k] == GroupRowOf(rows, game, team, k, features, target, weight)
  {
    map k | k in Keys(rows, [game, team]) :: GroupRowOf(rows, game, team, k, features, target, weight)
  }

  /** `astype('int')` on the target: every group's target cell truncated toward zero. */
  function Truncated(groups: map<Key, Row>, target: string): (r: map<Key, Row>)
    requires forall k :: k in groups ==> Get(groups[k], target).Some?
    ensures r.Keys == groups.Keys
    ensures forall k :: k in groups ==> r[k] == groups[k][target := Some(Trunc(Get(groups[k], target).value) as real)]
  {
    map k | k in groups :: groups[k][target := Some(Trunc(Get(groups[k], target).value) as real)]
  }

  /** The weight cells times the feature cells of the rows of group `key`, in row order. */
  function WeightedGroupColumn(rows: seq<Row>, granularity: seq<string>, key: Key, feature: string, weight: string): seq<Value>
    decreases |rows|
  {
    if rows == [] then []
    else
      var last := rows[|rows| - 1];
      WeightedGroupColumn(rows[..|rows| - 1], granularity, key, feature, weight)
        + (if KeyOf(last, granularity) == Some(key) then [Mul(Get(last, weight), Get(last, feature))] else [])
  }

  /** Grouping the weighted rows collects the products weight times feature of the original rows. */
  lemma {:induction false} GroupColumnWeighted(rows: seq<Row>, orig: seq<Row>, granularity: seq<string>, key: Key,
                                               feature: string, weight: string)
    requires |rows| == |orig|
    requires forall i :: 0 <= i < |rows| ==> KeyOf(rows[i], granularity) == KeyOf(orig[i], granularity)
    requires forall i :: 0 <= i < |rows| ==> Get(rows[i], feature) == Mul(Get(orig[i], weight), Get(orig[i], feature))
    ensures GroupColumn(rows, granularity, key, feature) == WeightedGroupColumn(orig, granularity, key, feature, weight)
    decreases |rows|
  {
    if rows != [] {
      var n := |rows| - 1;
      GroupColumnWeighted(rows[..n], orig[..n], granularity, key, feature, weight);
    }
  }

  /** The names of `_create_grouped` do not collide: features are distinct, and none of them
      is the weight, the target or a grouping column. */
  ghost predicate SeparateNames(game: string, team: string, features: seq<string>, target: string, weight: string) {
    && Distinct(features)
    && weight !in features && target !in features && game !in features && team !in features
    && target != weight && target != game && target != team && weight != game && weight != team
  }

  /** A feature's cell in a grouped row before the cast: the feature's sum over the weight's sum. */
  lemma GroupRowFeature(rows: seq<Row>, game: string, team: string, key: Key, features: seq<string>,
                        target: string, weight: string, f: string)
    requires SeparateNames(game, team, features, target, weight) && f in features
    ensures Get(GroupRowOf(rows, game, team, key, features, target, weight), f) ==
      Div(Some(SumSkipNa(GroupColumn(rows, [game, team], key, f))), Some(SumSkipNa(GroupColumn(rows, [game, team], key, weight))))
  {
    var aggregated := AggregatedRow(rows, [game, team], key, features, target, weight);
    var keyed := WithKey(aggregated, game, team, key);
    DivideEffect(keyed, features, weight, f);
    assert Get(keyed, f) == AggregateCell(rows, [game, team], key, f, target, weight);
    assert Get(keyed, weight) == AggregateCell(rows, [game, team], key, weight, target, weight);
  }

  /** The target's cell in a grouped row before the cast: the group's mean target. */
  lemma GroupRowTarget(rows: seq<Row>, game: string, team: string, key: Key, features: seq<string>,
                       target: string, weight: string)
    requires SeparateNames(game, team, features, target, weight)
    ensures Get(GroupRowOf(rows, game, team, key, features, target, weight), target) ==
      MeanSkipNa(GroupColumn(rows, [game, team], key, target))
  {
    var aggregated := AggregatedRow(rows, [game, team], key, features, target, weight);
    var keyed := WithKey(aggregated, game, team, key);
    DivideEffect(keyed, features, weight, target);
    assert Get(keyed, target) == AggregateCell(rows, [game, team], key, target, target, weight);
  }

  /** A successful `_create_grouped` with a weight column: the grouped rows of the weighted
      table, each with its target truncated. */
  lemma CreateGroupedRows(df: Frame, game: string, team: string, features: seq<string>,
                          weight: string, target: string, groups: map<Key, Row>)
    requires weight != ""
    requires CreateGrouped(df, game, team, features, Some(weight), target) == Ok(groups)
    ensures WeightedFrom(df, weight, features).Ok?
    ensures var pre := GroupRows(WeightedFrom(df, weight, features).value.rows, game, team, features, target, weight);
      (forall k :: k in pre ==> Get(pre[k], target).Some?) && groups == Truncated(pre, target)
  {
    var d := Weighted(df, features, Some(weight)).value;
    assert FirstMissing(d.columns, [game, team]).None?;
    assert FirstMissing(d.columns, features + [target, weight]).None?;
    assert target != weight;
  }

  /** Weighting never touches the grouping columns, so every row keeps its pair. */
  lemma WeightedKeys(df: Frame, game: string, team: string, features: seq<string>, weight: string, target: string)
    requires SeparateNames(game, team, features, target, weight)
    requires WeightedFrom(df, weight, features).Ok?
    ensures |WeightedFrom(df, weight, features).value.rows| == |df.rows|
    ensures forall i :: 0 <= i < |df.rows| ==>
      KeyOf(WeightedFrom(df, weight, features).value.rows[i], [game, team]) == KeyOf(df.rows[i], [game, team])
    ensures Keys(WeightedFrom(df, weight, features).value.rows, [game, team]) == Keys(df.rows, [game, team])
  {
    WeightedFromEffect(df, weight, features);
    var d := WeightedFrom(df, weight, features).value;
    forall i | 0 <= i < |df.rows| ensures KeyOf(d.rows[i], [game, team]) == KeyOf(df.rows[i], [game, team]) {
      KeyOfAgree(d.rows[i], df.rows[i], [game, team]);
    }
  }

  /** On the weighted table, a group's row before the cast holds the group's sum of weight
      times feature over its sum of weights, and its mean target. */
  lemma WeightedGroupCells(df: Frame, d: Frame, game: string, team: string, features: seq<string>,
                           weight: string, target: string, key: Key)
    requires SeparateNames(game, team, features, target, weight)
    requires WeightedFrom(df, weight, features) == Ok(d)
    ensures forall f :: f in features ==>
      Get(GroupRowOf(d.rows, game, team, key, features, target, weight), f) ==
      Div(Some(SumSkipNa(WeightedGroupColumn(df.rows, [game, team], key, f, weight))),
          Some(SumSkipNa(GroupColumn(df.rows, [game, team], key, weight))))
    ensures Get(GroupRowOf(d.rows, game, team, key, features, target, weight), target) ==
      MeanSkipNa(GroupColumn(df.rows, [game, team], key, target))
  {
    var gran := [game, team];
    WeightedKeys(df, game, team, features, weight, target);
    WeightedFromEffect(df, weight, features);
    GroupColumnAgree(d.rows, df.rows, gran, key, weight);
    GroupColumnAgree(d.rows, df.rows, gran, key, target);
    forall f | f in features
      ensures Get(GroupRowOf(d.rows, game, team, key, features, target, weight), f) ==
        Div(Some(SumSkipNa(WeightedGroupColumn(df.rows, gran, key, f, weight))),
            Some(SumSkipNa(GroupColumn(df.rows, gran, key, weight))))
    {
      GroupColumnWeighted(d.rows, df.rows, gran, key, f, weight);
      GroupRowFeature(d.rows, game, team, key, features, target, weight, f);
    }
    GroupRowTarget(d.rows, game, team, key, features, target, weight);
  }

  /** The cells of a truncated group of the weighted table, in terms of the original rows. */
  lemma TruncatedGroupCells(df: Frame, d: Frame, game: string, team: string, features: seq<string>,
                            weight: string, target: string, key: Key)
    requires SeparateNames(game, team, features, target, weight)
    requires WeightedFrom(df, weight, features) == Ok(d)
    requires var pre := GroupRows(d.rows, game, team, features, target, weight);
      key in pre && forall k :: k in pre ==> Get(pre[k], target).Some?
    ensures forall f :: f in features ==>
      Get(Truncated(GroupRows(d.rows, game, team, features, target, weight), target)[key], f) ==
      Div(Some(SumSkipNa(WeightedGroupColumn(df.rows, [game, team], key, f, weight))),
          Some(SumSkipNa(GroupColumn(df.rows, [game, team], key, weight))))
    ensures MeanSkipNa(GroupColumn(df.rows, [game, team], key, target)).Some?
    ensures Get(Truncated(GroupRows(d.rows, game, team, features, target, weight), target)[key], target) ==
      Some(Trunc(MeanSkipNa(GroupColumn(df.rows, [game, team], key, target)).value) as real)
  {
    var pre := GroupRows(d.rows, game, team, features, target, weight);
    TruncatedCells(pre, target, features, key);
    WeightedGroupCells(df, d, game, team, features, weight, target, key);
  }

  /** Truncating the target leaves every other cell of a group as it was. */
  lemma TruncatedCells(groups: map<Key, Row>, target: string, features: seq<string>, key: Key)
    requires key in groups && forall k :: k in groups ==> Get(groups[k], target).Some?
    requires target !in features
    ensures forall f :: f in features ==> Get(Truncated(groups, target)[key], f) == Get(groups[key], f)
    ensures Get(Truncated(groups, target)[key], target) == Some(Trunc(Get(groups[key], target).value) as real)
  {
    var row := Truncated(groups, target)[key];
    assert row == groups[key][target := Some(Trunc(Get(groups[key], target).value) as real)];
  }

  /** A grouped feature is the group's sum of weight times feature over its sum of weights,
      and the grouped target is the group's mean target truncated toward zero. */
  lemma GroupedWeightedMean(df: Frame, game: string, team: string, features: seq<string>,
                            weight: string, target: string, groups: map<Key, Row>, key: Key)
    requires weight != "" && SeparateNames(game, team, features, target, weight)
    requires CreateGrouped(df, game, team, features, Some(weight), target) == Ok(groups)
    requires key in groups
    ensures forall f :: f in features ==>
      Get(groups[key], f) ==
      Div(Some(SumSkipNa(WeightedGroupColumn(df.rows, [game, team], key, f, weight))),
          Some(SumSkipNa(GroupColumn(df.rows, [game, team], key, weight))))
    ensures MeanSkipNa(GroupColumn(df.rows, [game, team], key, target)).Some?
    ensures Get(groups[key], target) ==
      Some(Trunc(MeanSkipNa(GroupColumn(df.rows, [game, team], key, target)).value) as real)
  {
    CreateGroupedRows(df, game, team, features, weight, target, groups);
    TruncatedGroupCells(df, WeightedFrom(df, weight, features).value, game, team, features, weight, target, key);
  }

  /** There is a grouped row for exactly the (game, team) pairs of the input. */
  lemma GroupedKeys(df: Frame, game: string, team: string, features: seq<string>, weight: string, target: string,
                    groups: map<Key, Row>)
    requires weight != "" && SeparateNames(game, team, features, target, weight)
    requires CreateGrouped(df, game, team, features, Some(weight), target) == Ok(groups)
    ensures groups.Keys == Keys(df.rows, [game, team])
  {
    CreateGroupedRows(df, game, team, features, weight, target, groups);
    WeightedKeys(df, game, team, features, weight, target);
  }

  /** The default `weight_column=None` names no column, so `_create_grouped` always raises. */
  lemma NoWeightColumnFails(df: Frame, game: string, team: string, features: seq<string>, target: string)
    ensures CreateGrouped(df, game, team, features, None, target).Err?
  {
  }

  /** A row's feature cells, what the model sees. */
  function FeatureCells(row: Row, features: seq<string>): Row {
    map c | c in features && c in row :: row[c]
  }

  /** `df.merge(grouped[[game, team, pred]], on=[game, team])`: an inner merge keeps, in order,
      the rows whose pair has a prediction, each extended by its group's prediction. */
  function Merged(rows: seq<Row>, granularity: seq<string>, preds: map<Key, real>, predColumn: string): (out: seq<Row>)
    ensures |out| <= |rows|
    ensures (forall i :: 0 <= i < |rows| ==> KeyOf(rows[i], granularity).Some? && KeyOf(rows[i], granularity).value in preds) ==>
      |out| == |rows| &&
      forall i :: 0 <= i < |rows| ==> out[i] == rows[i][predColumn := Some(preds[KeyOf(rows[i], granularity).value])]
    decreases |rows|
  {
    if rows == [] then []
    else
      var last := rows[|rows| - 1];
      var k := KeyOf(last, granularity);
      Merged(rows[..|rows| - 1], granularity, preds, predColumn)
        + (if k.Some? && k.value in preds then [last[predColumn := Some(preds[k.value])]] else [])
  }

  /** `SkLearnGameTeamPredictor.add_prediction`: the model predicts every grouped row; an
      existing prediction column is dropped; the predictions are merged back on (game, team).
      Selecting the dropped weight column as a feature or a key is a `KeyError`. */
  function GameTeamAddPrediction(df: Frame, game: string, team: string, features: seq<string>,
                                 weight: Option<string>, target: string, predColumn: string, model: Row -> real)
    : (r: Result<Frame>)
    ensures CreateGrouped(df, game, team, features, weight, target).Err? ==>
      r == Err(CreateGrouped(df, game, team, features, weight, target).error)
    ensures r.Ok? ==> |r.value.columns| > 0 && r.value.columns[|r.value.columns| - 1] == predColumn
    ensures r.Ok? ==> predColumn !in r.value.columns[..|r.value.columns| - 1]
    ensures r.Ok? ==> forall c :: c in r.value.columns <==> c in df.columns || c == predColumn
    ensures r.Ok? ==> |r.value.rows| <= |df.rows|
  {
    match CreateGrouped(df, game, team, features, weight, target)
    case Err(e) => Err(e)
    case Ok(groups) =>
      var w := weight.value;
      if w in features || w == game || w == team then Err(KeyError(w))
      else
        var base := WithoutColumn(df, predColumn);
        Ok(Frame(base.columns + [predColumn], Merged(base.rows, [game, team], Predictions(groups, features, model), predColumn)))
  }

  /** The model's prediction for every group. */
  function Predictions(groups: map<Key, Row>, features: seq<string>, model: Row -> real): (preds: map<Key, real>)
    ensures preds.Keys == groups.Keys
    ensures forall k :: k in groups ==> preds[k] == model(FeatureCells(groups[k], features))
  {
    map k | k in groups :: model(FeatureCells(groups[k], features))
  }

  /** `df.drop(columns=[pred])` when the prediction column is present, the table otherwise. */
  function WithoutColumn(df: Frame, name: string): (r: Frame)
    ensures |r.rows| == |df.rows|
    ensures forall c :: c in r.columns <==> c in df.columns && c != name
    ensures forall i :: 0 <= i < |df.rows| ==> r.rows[i] == df.rows[i] || r.rows[i] == df.rows[i] - {name}
  {
    if name in df.columns then Drop(df, [name]).value else df
  }

  /** An inner merge where every row's pair has a prediction keeps every row, in order. */
  lemma MergedEveryRow(rows: seq<Row>, base: seq<Row>, granularity: seq<string>, preds: map<Key, real>, predColumn: string)
    requires |base| == |rows|
    requires forall i :: 0 <= i < |rows| ==> base[i] == rows[i] || base[i] == rows[i] - {predColumn}
    requires forall i :: 0 <= i < |rows| ==> KeyOf(base[i], granularity) == KeyOf(rows[i], granularity)
    requires forall i :: 0 <= i < |rows| ==> KeyOf(rows[i], granularity).Some? && KeyOf(rows[i], granularity).value in preds
    ensures |Merged(base, granularity, preds, predColumn)| == |rows|
    ensures forall i :: 0 <= i < |rows| ==>
      (Merged(base, granularity, preds, predColumn)[i] ==
       (rows[i] - {predColumn})[predColumn := Some(preds[KeyOf(rows[i], granularity).value])])
  {
    var out := Merged(base, granularity, preds, predColumn);
    forall i | 0 <= i < |rows|
      ensures out[i] == (rows[i] - {predColumn})[predColumn := Some(preds[KeyOf(rows[i], granularity).value])]
    {
      var v := Some(preds[KeyOf(rows[i], granularity).value]);
      assert out[i] == base[i][predColumn := v];
      assert base[i][predColumn := v] == (rows[i] - {predColumn})[predColumn := v];
    }
  }

  /** Dropping a column that is not a key and merging predictions for every pair back on
      replaces each row's prediction cell, in order. */
  lemma ReplacedPredictions(df: Frame, granularity: seq<string>, preds: map<Key, real>, predColumn: string)
    requires predColumn !in granularity
    requires forall i :: 0 <= i < |df.rows| ==> KeyOf(df.rows[i], granularity).Some? && KeyOf(df.rows[i], granularity).value in preds
    ensures |Merged(WithoutColumn(df, predColumn).rows, granularity, preds, predColumn)| == |df.rows|
    ensures forall i :: 0 <= i < |df.rows| ==>
      (Merged(WithoutColumn(df, predColumn).rows, granularity, preds, predColumn)[i] ==
       (df.rows[i] - {predColumn})[predColumn := Some(preds[KeyOf(df.rows[i], granularity).value])])
  {
    var base := WithoutColumn(df, predColumn);
    forall i | 0 <= i < |df.rows| ensures KeyOf(base.rows[i], granularity) == KeyOf(df.rows[i], granularity) {
      KeyOfAgree(base.rows[i], df.rows[i], granularity);
    }
    MergedEveryRow(df.rows, base.rows, granularity, preds, predColumn);
  }

  /** The rows of a successful prediction, in terms of the grouped table. */
  lemma GameTeamRows(df: Frame, game: string, team: string, features: seq<string>, weight: string, target: string,
                     predColumn: string, model: Row -> real, groups: map<Key, Row>, out: Frame)
    requires CreateGrouped(df, game, team, features, Some(weight), target) == Ok(groups)
    requires GameTeamAddPrediction(df, game, team, features, Some(weight), target, predColumn, model) == Ok(out)
    ensures out.rows == Merged(WithoutColumn(df, predColumn).rows, [game, team], Predictions(groups, features, model), predColumn)
  {
  }

  /** When the names do not collide and every row has both its game and its team, every input
      row comes back, in order, with its old prediction replaced by its group's prediction. */
  lemma EveryRowGetsGroupPrediction(df: Frame, game: string, team: string, features: seq<string>,
                                    weight: string, target: string, predColumn: string, model: Row -> real,
                                    groups: map<Key, Row>, out: Frame)
    requires weight != "" && SeparateNames(game, team, features, target, weight)
    requires predColumn != game && predColumn != team
    requires forall i :: 0 <= i < |df.rows| ==> KeyOf(df.rows[i], [game, team]).Some?
    requires CreateGrouped(df, game, team, features, Some(weight), target) == Ok(groups)
    requires GameTeamAddPrediction(df, game, team, features, Some(weight), target, predColumn, model) == Ok(out)
    ensures |out.rows| == |df.rows|
    ensures forall i :: 0 <= i < |df.rows| ==>
      (KeyOf(df.rows[i], [game, team]).value in groups &&
       out.rows[i] == (df.rows[i] - {predColumn})[predColumn :=
         Some(model(FeatureCells(groups[KeyOf(df.rows[i], [game, team]).value], features)))])
  {
    GroupedKeys(df, game, team, features, weight, target, groups);
    GameTeamRows(df, game, team, features, weight, target, predColumn, model, groups, out);
    ReplacedPredictions(df, [game, team], Predictions(groups, features, model), predColumn);
  }

  /** `SKLearnClassifierWrapper.add_prediction`: a copy of the table with the model's
      prediction for every row in the prediction column and every other cell unchanged; a
      missing feature column is a `KeyError`. */
  function ClassifierAddPrediction(df: Frame, features: seq<string>, predColumn: string, model: Row -> real): (r: Result<Frame>)
    ensures r.Err? <==> exists f :: f in features && f !in df.columns
    ensures r.Ok? ==> r.value.columns == if predColumn in df.columns then df.columns else df.columns + [predColumn]
    ensures r.Ok? ==> |r.value.rows| == |df.rows|
    ensures r.Ok? ==> forall i, c :: 0 <= i < |df.rows| && c != predColumn ==> Get(r.value.rows[i], c) == Get(df.rows[i], c)
    ensures r.Ok? ==> forall i :: 0 <= i < |df.rows| ==>
      Get(r.value.rows[i], predColumn) == Some(model(FeatureCells(df.rows[i], features)))
  {
    match Select(df, features)
    case Err(e) => Err(e)
    case Ok(x) =>
      assert forall i :: 0 <= i < |df.rows| ==> x.rows[i] == FeatureCells(df.rows[i], features);
      Ok(Assign(df, predColumn, seq(|df.rows|, i requires 0 <= i < |df.rows| => Some(model(x.rows[i])))))
  }
}
