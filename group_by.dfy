/** `GroupByTransformer` and `NetOverPredictedTransformer`: every row receives the
    aggregate (the mean by default) of its group, where a group is the set of rows
    that agree on the granularity columns; "net over predicted" then replaces each
    feature by its distance from that group value. */
module GroupBy {
  import opened Common
  import opened Tables

  /** A group key: the granularity values of a row, in granularity order. */
  type Key = seq<real>

  /** `agg_func`, applied to the cells of one feature in one group. */
  type Aggregate = seq<Value> -> Value

  /** The key of a row; missing when one of its granularity cells is missing, since
      pandas' groupby drops such rows. */
  function KeyOf(row: Row, granularity: seq<string>): (k: Option<Key>)
    ensures k.Some? <==> forall j :: 0 <= j < |granularity| ==> Get(row, granularity[j]).Some?
    ensures k.Some? ==> |k.value| == |granularity|
    ensures k.Some? ==> forall j :: 0 <= j < |granularity| ==> Get(row, granularity[j]) == Some(k.value[j])
    decreases |granularity|
  {
    if granularity == [] then Some([])
    else
      var init := granularity[..|granularity| - 1];
      var last := Get(row, granularity[|granularity| - 1]);
      match KeyOf(row, init)
      case None => None
      case Some(k) => if last.None? then None else Some(k + [last.value])
  }

  /** The cells of `feature` in the rows of group `key`, in row order. */
  function GroupColumn(rows: seq<Row>, granularity: seq<string>, key: Key, feature: string): (vs: seq<Value>)
    ensures |vs| <= |rows|
    decreases |rows|
  {
    if rows == [] then []
    else
      var last := rows[|rows| - 1];
      GroupColumn(rows[..|rows| - 1], granularity, key, feature)
        + (if KeyOf(last, granularity) == Some(key) then [Get(last, feature)] else [])
  }

  /** The keys that occur in the table. */
  function Keys(rows: seq<Row>, granularity: seq<string>): (ks: set<Key>)
    ensures forall i :: 0 <= i < |rows| && KeyOf(rows[i], granularity).Some? ==> KeyOf(rows[i], granularity).value in ks
  {
    set i | 0 <= i < |rows| && KeyOf(rows[i], granularity).Some? :: KeyOf(rows[i], granularity).value
  }

  /** The names `prefix + feature`, in feature order. */
  function Created(prefix: string, features: seq<string>): (names: seq<string>)
    ensures |names| == |features|
    ensures forall j :: 0 <= j < |features| ==> names[j] == prefix + features[j]
  {
    seq(|features|, j requires 0 <= j < |features| => prefix + features[j])
  }

  /** One row of `_grouped`: the aggregate of each feature over the group, under its new name. */
  function GroupRow(rows: seq<Row>, granularity: seq<string>, key: Key, features: seq<string>,
                    prefix: string, agg: Aggregate): (g: Row)
    ensures g.Keys == set f | f in features :: prefix + f
    ensures forall f :: f in features ==> g[prefix + f] == agg(GroupColumn(rows, granularity, key, f))
    decreases |features|
  {
    if features == [] then map[]
    else
      var init := features[..|features| - 1];
      var f := features[|features| - 1];
      assert forall x :: x in features <==> x in init || x == f by {
        assert features == init + [f];
      }
      var g := GroupRow(rows, granularity, key, init, prefix, agg);
      forall x | x in init && prefix + x == prefix + f ensures x == f {
        assert x == (prefix + x)[|prefix|..];
        assert f == (prefix + f)[|prefix|..];
      }
      g[prefix + f := agg(GroupColumn(rows, granularity, key, f))]
  }

  const NoGroupKeysMessage := "No group keys passed!"

  /** `df.groupby(granularity)[features].agg(agg_func).reset_index()` with the features renamed:
      ValueError for an empty granularity on a table with rows, KeyError for a missing
      granularity column, then for a missing feature; otherwise one entry per key occurring
      in the table. */
  function Grouped(df: Frame, features: seq<string>, granularity: seq<string>, prefix: string, agg: Aggregate)
    : (r: Result<map<Key, Row>>)
    ensures r.Ok? <==> (granularity != [] || |df.rows| == 0)
                       && (forall g :: g in granularity ==> g in df.columns) && (forall f :: f in features ==> f in df.columns)
    ensures granularity == [] && |df.rows| > 0 ==> r == Err(ValueError(NoGroupKeysMessage))
    ensures r.Err? && !r.error.ValueError? ==> r.error.KeyError?
    ensures r.Ok? ==> r.value.Keys == Keys(df.rows, granularity)
  {
    if granularity == [] && |df.rows| > 0 then Err(ValueError(NoGroupKeysMessage))
    else
      match FirstMissing(df.columns, granularity)
      case Some(g) => Err(KeyError(g))
      case None =>
        match FirstMissing(df.columns, features)
        case Some(f) => Err(KeyError(f))
        case None =>
          Ok(map k | k in Keys(df.rows, granularity) :: GroupRow(df.rows, granularity, k, features, prefix, agg))
  }

  /** The cells a row receives from `_grouped` under a left merge: its group's row, or a missing
      value for every created name when its key is missing or unseen. */
  function Matched(row: Row, granularity: seq<string>, grouped: map<Key, Row>, created: seq<string>): Row {
    var k := KeyOf(row, granularity);
    if k.Some? && k.value in grouped then grouped[k.value]
    else map name | name in created :: None
  }

  /** `df.merge(_grouped, on=granularity, how='left')`: KeyError for a missing granularity column,
      otherwise the rows in order, each extended by what it matched. */
  function MergeLeft(df: Frame, granularity: seq<string>, grouped: map<Key, Row>, created: seq<string>): (r: Result<Frame>)
    ensures r.Ok? <==> forall g :: g in granularity ==> g in df.columns
    ensures r.Ok? ==> |r.value.rows| == |df.rows|
    ensures r.Ok? ==> forall i :: 0 <= i < |df.rows| ==> r.value.rows[i] == df.rows[i] + Matched(df.rows[i], granularity, grouped, created)
  {
    match FirstMissing(df.columns, granularity)
    case Some(g) => Err(KeyError(g))
    case None =>
      Ok(Frame(df.columns + Without(created, df.columns),
        seq(|df.rows|, i requires 0 <= i < |df.rows| => df.rows[i] + Matched(df.rows[i], granularity, grouped, created))))
  }

  class GroupByTransformer {
    const features: seq<string>
    const granularity: seq<string>
    const agg: Aggregate
    const prefix: string
    const featureNamesCreated: seq<string>
    var grouped: Option<map<Key, Row>>

    /** The constructor names `prefix + feature` for every feature; nothing is fitted yet. */
    constructor (features: seq<string>, granularity: seq<string>, agg: Aggregate := MeanSkipNa, prefix: string := "mean_")
      ensures this.features == features && this.granularity == granularity
      ensures this.agg == agg && this.prefix == prefix
      ensures featureNamesCreated == Created(prefix, features)
      ensures grouped.None?
    {
      this.features := features;
      this.granularity := granularity;
      this.agg := agg;
      this.prefix := prefix;
      var names: seq<string> := [];
      var j := 0;
      while j < |features|
        invariant 0 <= j <= |features|
        invariant names == Created(prefix, features[..j])
      {
        names := names + [prefix + features[j]];
        j := j + 1;
      }
      assert features[..j] == features;
      featureNamesCreated := names;
      grouped := None;
    }

    /** `fit_transform`: compute `_grouped`, then `transform`. */
    method FitTransform(df: Frame) returns (r: Result<Frame>)
      modifies this
      ensures var g := Grouped(df, features, granularity, prefix, agg);
        && (g.Err? ==> grouped == old(grouped) && r == Err(g.error))
        && (g.Ok? ==> grouped == Some(g.value) && r == MergeLeft(df, granularity, g.value, featureNamesCreated))
    {
      var g := Grouped(df, features, granularity, prefix, agg);
      if g.Err? {
        return Err(g.error);
      }
      grouped := Some(g.value);
      r := Transform(df);
    }

    /** `transform`: the left merge; merging with `None` before any fit raises TypeError. */
    method Transform(df: Frame) returns (r: Result<Frame>)
      ensures grouped.None? ==> r.Err? && r.error.TypeError?
      ensures grouped.Some? ==> r == MergeLeft(df, granularity, grouped.value, featureNamesCreated)
    {
      if grouped.None? {
        return Err(TypeError("Can only merge Series or DataFrame objects"));
      }
      r := MergeLeft(df, granularity, grouped.value, featureNamesCreated);
    }
  }

  /** After fitting on a table, every row of that table whose key is complete receives, for each
      feature, the aggregate of that feature over all rows sharing its key. */
  lemma FitTransformValues(df: Frame, features: seq<string>, granularity: seq<string>, prefix: string, agg: Aggregate,
                           i: nat, f: string)
    requires Grouped(df, features, granularity, prefix, agg).Ok?
    requires i < |df.rows| && f in features
    requires KeyOf(df.rows[i], granularity).Some?
    ensures var out := MergeLeft(df, granularity, Grouped(df, features, granularity, prefix, agg).value, Created(prefix, features));
      && out.Ok?
      && Get(out.value.rows[i], prefix + f) == agg(GroupColumn(df.rows, granularity, KeyOf(df.rows[i], granularity).value, f))
  {
  }

  /** A row whose key is missing or was not seen in fitting receives a missing value. */
  lemma UnseenKeyIsMissing(df: Frame, granularity: seq<string>, grouped: map<Key, Row>, created: seq<string>,
                           i: nat, name: string)
    requires MergeLeft(df, granularity, grouped, created).Ok?
    requires i < |df.rows| && name in created
    requires KeyOf(df.rows[i], granularity).None? || KeyOf(df.rows[i], granularity).value !in grouped
    ensures Get(MergeLeft(df, granularity, grouped, created).value.rows[i], name).None?
  {
  }

  // ---------------------------------------------------------------------------
  // Net over predicted.

  /** `a - b` on cells; missing when either is. */
  function Sub(a: Value, b: Value): Value {
    if a.None? || b.None? then None else Some(a.value - b.value)
  }

  /** `_add_net_over_predicted` on one row: for each pair, the new name receives the feature minus
      the predicted value, then the predicted column is dropped. */
  function AddNet(row: Row, features: seq<string>, predicted: seq<string>, created: seq<string>): Row
    requires |created| == |predicted| <= |features|
    decreases |predicted|
  {
    if predicted == [] then row
    else
      var n := |predicted| - 1;
      PassRow(AddNet(row, features, predicted[..n], created[..n]), features[n], predicted[n], created[n])
  }

  /** One pass of the net loop on one row: `created` receives `feature` minus `predicted`, then
      `predicted` is dropped. */
  function PassRow(row: Row, feature: string, predicted: string, created: string): Row {
    row[created := Sub(Get(row, feature), Get(row, predicted))] - {predicted}
  }

  const IdColumn := "__id"

  class NetOverPredictedTransformer {
    const features: seq<string>
    const granularity: seq<string>
    const prefix: string
    const predictTransformer: GroupByTransformer
    const featureNamesCreated: seq<string>

    /** The default predictor: a mean `GroupByTransformer` over the same features and
        granularity; the created names are `prefix + feature`. */
    constructor (features: seq<string>, granularity: seq<string>, prefix: string := "")
      ensures this.features == features && this.granularity == granularity && this.prefix == prefix
      ensures fresh(predictTransformer)
      ensures predictTransformer.features == features && predictTransformer.granularity == granularity
      ensures predictTransformer.agg == MeanSkipNa && predictTransformer.prefix == "mean_"
      ensures predictTransformer.grouped.None?
      ensures featureNamesCreated == Created(prefix, features)
      ensures Valid()
    {
      this.features := features;
      this.granularity := granularity;
      this.prefix := prefix;
      var p := new GroupByTransformer(features, granularity, MeanSkipNa, "mean_");
      predictTransformer := p;
      var names: seq<string> := [];
      var j := 0;
      while j < |p.featureNamesCreated|
        invariant 0 <= j <= |features|
        invariant names == Created(prefix, features[..j])
      {
        names := names + [prefix + features[j]];
        j := j + 1;
      }
      assert features[..j] == features;
      featureNamesCreated := names;
    }

    /** The predictor is the mean transformer over this transformer's features and granularity. */
    ghost predicate Valid()
      reads this, predictTransformer
    {
      && predictTransformer.features == features
      && predictTransformer.granularity == granularity
      && predictTransformer.prefix == "mean_"
      && predictTransformer.featureNamesCreated == Created("mean_", features)
      && featureNamesCreated == Created(prefix, features)
    }

    /** `fit_transform`: number the rows, fit the group means, then `transform`. */
    method FitTransform(df: Frame) returns (r: Result<Frame>)
      requires Valid()
      modifies predictTransformer
      ensures var g := Grouped(WithIds(df), features, granularity, "mean_", predictTransformer.agg);
        && (g.Err? ==> r == Err(g.error) && predictTransformer.grouped == old(predictTransformer.grouped))
        && (g.Ok? ==>
              && predictTransformer.grouped == Some(g.value)
              && r == NetFrame(df, granularity, g.value, features, predictTransformer.featureNamesCreated, featureNamesCreated))
    {
      var numbered := WithIds(df);
      var fitted := predictTransformer.FitTransform(numbered);
      if fitted.Err? {
        return fitted;
      }
      r := Transform(numbered);
    }

    /** `transform`: the predictor's `transform` (which raises before any fit and for a missing
        granularity column), then the inner merge on `__id` and the net columns. */
    method Transform(df: Frame) returns (r: Result<Frame>)
      requires Valid()
      ensures predictTransformer.grouped.None? ==> r.Err? && r.error.TypeError?
      ensures predictTransformer.grouped.Some? ==>
        var predicted := MergeLeft(df, granularity, predictTransformer.grouped.value, predictTransformer.featureNamesCreated);
        r == if predicted.Err? then Err(predicted.error)
             else NetTransform(df, granularity, predictTransformer.grouped.value, features,
                               predictTransformer.featureNamesCreated, featureNamesCreated)
    {
      var predicted := predictTransformer.Transform(df);
      if predicted.Err? {
        return predicted;
      }
      if IdColumn !in df.columns {
        return Err(KeyError(IdColumn));
      }
      var merged := MergeOnId(df.rows, df.rows, granularity, predictTransformer.grouped.value, predictTransformer.featureNamesCreated);
      var columns := Without(df.columns + Without(predictTransformer.featureNamesCreated, df.columns), [IdColumn]);
      r := AddNetOverPredicted(columns, merged, features, predictTransformer.featureNamesCreated, featureNamesCreated);
    }
  }

  /** `_add_net_over_predicted` on the merged table, pass by pass. */
  method AddNetOverPredicted(columns: seq<string>, rows: seq<Row>, features: seq<string>,
                             predicted: seq<string>, created: seq<string>) returns (r: Result<Frame>)
    requires |created| == |predicted| <= |features|
    ensures r == NetFrom(columns, rows, features, predicted, created)
  {
    var cols := columns;
    var d := rows;
    var k := 0;
    while k < |predicted|
      invariant k <= |predicted|
      invariant NetColumns(columns, features, predicted[..k], created[..k]) == Ok(cols)
      invariant d == NetRows(rows, features, predicted[..k], created[..k])
    {
      if features[k] !in cols || predicted[k] !in cols {
        NetLoopMissing(columns, features, predicted, created, k, cols);
        return Err(KeyError(if features[k] !in cols then features[k] else predicted[k]));
      }
      NetLoopStep(columns, rows, features, predicted, created, k, cols, d);
      cols, d := Without(if created[k] in cols then cols else cols + [created[k]], [predicted[k]]),
                 PassRows(d, features[k], predicted[k], created[k]);
      k := k + 1;
    }
    assert predicted[..k] == predicted && created[..k] == created;
    r := Ok(Frame(cols, d));
  }

  /** One pass of the net loop on every row. */
  function PassRows(rows: seq<Row>, feature: string, predicted: string, created: string): (r: seq<Row>)
    ensures |r| == |rows|
    ensures forall i :: 0 <= i < |rows| ==> r[i] == PassRow(rows[i], feature, predicted, created)
  {
    seq(|rows|, i requires 0 <= i < |rows| => PassRow(rows[i], feature, predicted, created))
  }

  /** Pass `k` of the net loop, when its feature and predicted column are present, keeps the
      loop's invariant. */
  lemma NetLoopStep(columns: seq<string>, rows: seq<Row>, features: seq<string>, predicted: seq<string>,
                    created: seq<string>, k: nat, cols: seq<string>, d: seq<Row>)
    requires |created| == |predicted| <= |features| && k < |predicted|
    requires NetColumns(columns, features, predicted[..k], created[..k]) == Ok(cols)
    requires features[k] in cols && predicted[k] in cols
    requires d == NetRows(rows, features, predicted[..k], created[..k])
    ensures NetColumns(columns, features, predicted[..k + 1], created[..k + 1])
      == Ok(Without(if created[k] in cols then cols else cols + [created[k]], [predicted[k]]))
    ensures PassRows(d, features[k], predicted[k], created[k]) == NetRows(rows, features, predicted[..k + 1], created[..k + 1])
  {
    NetColumnsPass(columns, features, predicted, created, k);
    var d' := PassRows(d, features[k], predicted[k], created[k]);
    var next := NetRows(rows, features, predicted[..k + 1], created[..k + 1]);
    forall i | 0 <= i < |rows|
      ensures d'[i] == next[i]
    {
      AddNetPass(rows[i], features, predicted, created, k);
    }
  }

  /** Pass `k` of the net loop, when its feature or predicted column is missing, makes the loop
      fail with a KeyError naming the first one missing. */
  lemma NetLoopMissing(columns: seq<string>, features: seq<string>, predicted: seq<string>,
                       created: seq<string>, k: nat, cols: seq<string>)
    requires |created| == |predicted| <= |features| && k < |predicted|
    requires NetColumns(columns, features, predicted[..k], created[..k]) == Ok(cols)
    requires features[k] !in cols || predicted[k] !in cols
    ensures NetColumns(columns, features, predicted, created)
      == Err(KeyError(if features[k] !in cols then features[k] else predicted[k]))
  {
    NetColumnsPass(columns, features, predicted, created, k);
    NetColumnsErrStays(columns, features, predicted, created, k + 1, |predicted|);
    assert predicted[..|predicted|] == predicted && created[..|created|] == created;
  }

  /** Pass `k` of the net loop on the column list. */
  lemma NetColumnsPass(columns: seq<string>, features: seq<string>, predicted: seq<string>,
                       created: seq<string>, k: nat)
    requires |created| == |predicted| <= |features| && k < |predicted|
    ensures var prev := NetColumns(columns, features, predicted[..k], created[..k]);
      NetColumns(columns, features, predicted[..k + 1], created[..k + 1])
        == if prev.Err? then prev
           else if features[k] !in prev.value then Err(KeyError(features[k]))
           else if predicted[k] !in prev.value then Err(KeyError(predicted[k]))
           else Ok(Without(if created[k] in prev.value then prev.value else prev.value + [created[k]], [predicted[k]]))
  {
    assert predicted[..k + 1][..k] == predicted[..k] && created[..k + 1][..k] == created[..k];
  }

  /** Pass `k` of the net loop on one row. */
  lemma AddNetPass(row: Row, features: seq<string>, predicted: seq<string>, created: seq<string>, k: nat)
    requires |created| == |predicted| <= |features| && k < |predicted|
    ensures AddNet(row, features, predicted[..k + 1], created[..k + 1])
      == PassRow(AddNet(row, features, predicted[..k], created[..k]), features[k], predicted[k], created[k])
  {
    assert predicted[..k + 1][..k] == predicted[..k] && created[..k + 1][..k] == created[..k];
  }

  /** Once a pass of the net loop fails, the loop's result is that error. */
  lemma {:induction false} NetColumnsErrStays(columns: seq<string>, features: seq<string>, predicted: seq<string>,
                                              created: seq<string>, m: nat, n: nat)
    requires |created| == |predicted| <= |features|
    requires m <= n <= |predicted|
    requires NetColumns(columns, features, predicted[..m], created[..m]).Err?
    ensures NetColumns(columns, features, predicted[..n], created[..n]) == NetColumns(columns, features, predicted[..m], created[..m])
    decreases n
  {
    if m < n {
      NetColumnsErrStays(columns, features, predicted, created, m, n - 1);
      assert predicted[..n][..n - 1] == predicted[..n - 1] && created[..n][..n - 1] == created[..n - 1];
    }
  }

  /** `df.assign(__id=range(1, len(df) + 1))` */
  function WithIds(df: Frame): (out: Frame)
    ensures |out.rows| == |df.rows| && IdColumn in out.columns
    ensures forall i :: 0 <= i < |df.rows| ==> out.rows[i] == df.rows[i][IdColumn := Some((i + 1) as real)]
  {
    Frame(if IdColumn in df.columns then df.columns else df.columns + [IdColumn], seq(|df.rows|, i requires 0 <= i < |df.rows| => df.rows[i][IdColumn := Some((i + 1) as real)]))
  }

  /** One row of the merge on `__id`: `left` with the group values `right` matched, the id dropped. */
  function Joined(left: Row, right: Row, granularity: seq<string>, grouped: map<Key, Row>, predicted: seq<string>): Row {
    (left + Matched(right, granularity, grouped, predicted)) - {IdColumn}
  }

  /** The rows of `right` whose `__id` equals that of `left`, in order, each merged into
      `left` with the id dropped; pandas matches a missing id with a missing id. */
  function IdPartners(left: Row, right: seq<Row>, granularity: seq<string>, grouped: map<Key, Row>,
                      predicted: seq<string>): (out: seq<Row>)
    ensures |out| <= |right|
    decreases |right|
  {
    if right == [] then []
    else
      var n := |right| - 1;
      IdPartners(left, right[..n], granularity, grouped, predicted)
        + if Get(right[n], IdColumn) == Get(left, IdColumn)
          then [Joined(left, right[n], granularity, grouped, predicted)]
          else []
  }

  /** `df.merge(predicted_df[predicted + ['__id']], on="__id").drop(columns=["__id"])`, where
      row `j` of `predicted_df` is row `j` of `df` with its group values: an inner merge, so
      every left row appears once per right row that shares its id, in left order. */
  function MergeOnId(left: seq<Row>, right: seq<Row>, granularity: seq<string>, grouped: map<Key, Row>,
                     predicted: seq<string>): seq<Row>
    decreases |left|
  {
    if left == [] then []
    else
      var n := |left| - 1;
      MergeOnId(left[..n], right, granularity, grouped, predicted) + IdPartners(left[n], right, granularity, grouped, predicted)
  }

  /** The columns through `_add_net_over_predicted`: each pass reads the feature, then the
      predicted column (KeyError for the first one missing), assigns the created name and
      drops the predicted column. */
  function NetColumns(columns: seq<string>, features: seq<string>, predicted: seq<string>, created: seq<string>)
    : (r: Result<seq<string>>)
    requires |created| == |predicted| <= |features|
    ensures r.Err? ==> r.error.KeyError?
    decreases |predicted|
  {
    if predicted == [] then Ok(columns)
    else
      var n := |predicted| - 1;
      match NetColumns(columns, features, predicted[..n], created[..n])
      case Err(e) => Err(e)
      case Ok(c) =>
        if features[n] !in c then Err(KeyError(features[n]))
        else if predicted[n] !in c then Err(KeyError(predicted[n]))
        else Ok(Without(if created[n] in c then c else c + [created[n]], [predicted[n]]))
  }

  /** `_add_net_over_predicted` on a table with the given columns and rows. */
  function NetFrom(columns: seq<string>, rows: seq<Row>, features: seq<string>, predicted: seq<string>,
                   created: seq<string>): (r: Result<Frame>)
    requires |created| == |predicted| <= |features|
    ensures r.Ok? ==> |r.value.rows| == |rows|
  {
    match NetColumns(columns, features, predicted, created)
    case Err(e) => Err(e)
    case Ok(cols) => Ok(Frame(cols, NetRows(rows, features, predicted, created)))
  }

  /** `_add_net_over_predicted` on every row. */
  function NetRows(rows: seq<Row>, features: seq<string>, predicted: seq<string>, created: seq<string>): (r: seq<Row>)
    requires |created| == |predicted| <= |features|
    ensures |r| == |rows|
    ensures forall i :: 0 <= i < |rows| ==> r[i] == AddNet(rows[i], features, predicted, created)
  {
    seq(|rows|, i requires 0 <= i < |rows| => AddNet(rows[i], features, predicted, created))
  }

  /** `transform` once the group values are known: KeyError for a missing `__id`, then the
      merge on `__id` and `_add_net_over_predicted`. */
  function NetTransform(df: Frame, granularity: seq<string>, grouped: map<Key, Row>, features: seq<string>,
                        predicted: seq<string>, created: seq<string>): (r: Result<Frame>)
    requires |created| == |predicted| <= |features|
    ensures IdColumn !in df.columns ==> r == Err(KeyError(IdColumn))
    ensures r.Err? ==> r.error.KeyError?
  {
    if IdColumn !in df.columns then Err(KeyError(IdColumn))
    else
      NetFrom(Without(df.columns + Without(predicted, df.columns), [IdColumn]),
              MergeOnId(df.rows, df.rows, granularity, grouped, predicted), features, predicted, created)
  }

  /** What `fit_transform` returns for the table it was given. */
  function NetFrame(df: Frame, granularity: seq<string>, grouped: map<Key, Row>, features: seq<string>,
                    predicted: seq<string>, created: seq<string>): Result<Frame>
    requires |created| == |predicted| <= |features|
  {
    NetTransform(WithIds(df), granularity, grouped, features, predicted, created)
  }

  // ---------------------------------------------------------------------------
  // What the net columns mean.

  /** The names the transformer touches are kept apart: the features and the created names are
      each distinct, a created name may coincide only with its own feature (as with the default
      empty prefix), and the predicted names, the granularity and the row id are disjoint from
      them and from each other. */
  ghost predicate SeparateNames(features: seq<string>, granularity: seq<string>, predicted: seq<string>, created: seq<string>) {
    && SeparateNet(features, predicted, created)
    && (forall n :: n in granularity ==> n !in features && n !in predicted && n !in created && n != IdColumn)
    && IdColumn !in features && IdColumn !in predicted && IdColumn !in created
  }

  /** The part of `SeparateNames` that `_add_net_over_predicted` itself needs. */
  ghost predicate SeparateNet(features: seq<string>, predicted: seq<string>, created: seq<string>) {
    && |created| == |predicted| == |features|
    && Distinct(features) && Distinct(predicted) && Distinct(created)
    && (forall j, k :: 0 <= j < |created| && 0 <= k < |features| && j != k ==> created[j] != features[k])
    && (forall j, k :: 0 <= j < |predicted| && 0 <= k < |features| ==> predicted[j] != features[k] && predicted[j] != created[k])
  }

  /** A cell that is neither a created nor a predicted name passes `_add_net_over_predicted` unchanged. */
  lemma {:induction false} AddNetKeeps(row: Row, features: seq<string>, predicted: seq<string>, created: seq<string>, c: string)
    requires |created| == |predicted| <= |features|
    requires c !in created && c !in predicted
    ensures Get(AddNet(row, features, predicted, created), c) == Get(row, c)
    decreases |predicted|
  {
    if predicted != [] {
      var n := |predicted| - 1;
      assert c !in created[..n] && c !in predicted[..n];
      AddNetKeeps(row, features, predicted[..n], created[..n], c);
    }
  }

  /** Each created name receives its feature minus its predicted value, read from the row as it
      was before the net columns were added, and every predicted column is dropped. */
  lemma {:induction false} AddNetCells(row: Row, features: seq<string>, predicted: seq<string>, created: seq<string>, k: nat)
    requires |created| == |predicted| <= |features|
    requires SeparateNet(features[..|predicted|], predicted, created)
    requires k < |predicted|
    ensures Get(AddNet(row, features, predicted, created), created[k]) == Sub(Get(row, features[k]), Get(row, predicted[k]))
    ensures predicted[k] !in AddNet(row, features, predicted, created)
    decreases |predicted|
  {
    var n := |predicted| - 1;
    SeparateNetInit(features, predicted, created);
    AddNetKeeps(row, features, predicted[..n], created[..n], features[n]);
    AddNetKeeps(row, features, predicted[..n], created[..n], predicted[n]);
    if k < n {
      AddNetCells(row, features, predicted[..n], created[..n], k);
    }
  }

  /** Dropping the last pair keeps the names separate, and the last pair's names are none of
      the earlier ones. */
  lemma SeparateNetInit(features: seq<string>, predicted: seq<string>, created: seq<string>)
    requires |created| == |predicted| <= |features| && predicted != []
    requires SeparateNet(features[..|predicted|], predicted, created)
    ensures var n := |predicted| - 1;
      && SeparateNet(features[..n], predicted[..n], created[..n])
      && features[n] !in created[..n] && features[n] !in predicted[..n]
      && predicted[n] !in created[..n] && predicted[n] !in predicted[..n]
      && predicted[n] != created[n]
      && forall j :: 0 <= j < n ==> created[j] != created[n] && created[j] != predicted[n] && predicted[j] != predicted[n]
  {
    var n := |predicted| - 1;
    var fs := features[..|predicted|];
    assert fs[n] == features[n];
    assert SeparateNet(features[..n], predicted[..n], created[..n]) by {
      assert forall j :: 0 <= j < n ==> features[..n][j] == fs[j];
    }
    forall j | 0 <= j < n ensures created[j] != features[n] && predicted[j] != features[n] && created[j] != predicted[n]
      && predicted[j] != predicted[n] && created[j] != created[n] {
      assert fs[j] == features[j];
    }
  }

  /** When every value is present, the present values are all of them. */
  lemma {:induction false} PresentAll(vs: seq<Value>)
    requires forall i :: 0 <= i < |vs| ==> vs[i].Some?
    ensures Present(vs) == seq(|vs|, i requires 0 <= i < |vs| => vs[i].value)
    decreases |vs|
  {
    if vs != [] {
      var n := |vs| - 1;
      PresentAll(vs[..n]);
      assert Present(vs) == Present(vs[..n]) + [vs[n].value];
      var ps := seq(|vs|, i requires 0 <= i < |vs| => vs[i].value);
      assert ps == seq(n, i requires 0 <= i < n => vs[..n][i].value) + [vs[n].value];
    }
  }

  /** Subtracting a constant from every element subtracts it `|xs|` times from the sum. */
  lemma {:induction false} SumShift(xs: seq<real>, c: real)
    ensures Sum(seq(|xs|, i requires 0 <= i < |xs| => xs[i] - c)) == Sum(xs) - |xs| as real * c
    decreases |xs|
  {
    var ys := seq(|xs|, i requires 0 <= i < |xs| => xs[i] - c);
    if xs != [] {
      var n := |xs| - 1;
      SumShift(xs[..n], c);
      assert ys[..n] == seq(n, i requires 0 <= i < n => xs[..n][i] - c);
    }
  }

  /** Subtracting the mean from every element leaves a sum of zero. */
  lemma ShiftByMean(xs: seq<real>)
    requires |xs| > 0
    ensures Sum(seq(|xs|, i requires 0 <= i < |xs| => xs[i] - Mean(xs))) == 0.0
  {
    var n := |xs| as real;
    var t := Sum(xs);
    assert n * (t / n) == t;
    SumShift(xs, Mean(xs));
  }

  /** The group's net values are its values shifted by `m`, when every output row keeps its key
      and its net cell is its input cell minus `m`. */
  lemma {:induction false} ShiftedGroup(inRows: seq<Row>, outRows: seq<Row>, granularity: seq<string>, key: Key,
                                        f: string, c: string, m: real)
    requires |inRows| == |outRows|
    requires forall i :: 0 <= i < |inRows| ==> KeyOf(outRows[i], granularity) == KeyOf(inRows[i], granularity)
    requires forall i :: 0 <= i < |inRows| && KeyOf(inRows[i], granularity) == Some(key) ==>
      Get(outRows[i], c) == Sub(Get(inRows[i], f), Some(m))
    ensures var vs := GroupColumn(inRows, granularity, key, f);
      GroupColumn(outRows, granularity, key, c) == seq(|vs|, i requires 0 <= i < |vs| => Sub(vs[i], Some(m)))
    decreases |inRows|
  {
    if inRows != [] {
      var n := |inRows| - 1;
      assert forall i :: 0 <= i < n ==> inRows[..n][i] == inRows[i] && outRows[..n][i] == outRows[i];
      ShiftedGroup(inRows[..n], outRows[..n], granularity, key, f, c, m);
      ShiftedGroupStep(inRows, outRows, granularity, key, f, c, m);
    }
  }

  /** The step of `ShiftedGroup`: from the rows but the last to all rows. */
  lemma ShiftedGroupStep(inRows: seq<Row>, outRows: seq<Row>, granularity: seq<string>, key: Key,
                         f: string, c: string, m: real)
    requires |inRows| == |outRows| > 0
    requires KeyOf(outRows[|inRows| - 1], granularity) == KeyOf(inRows[|inRows| - 1], granularity)
    requires KeyOf(inRows[|inRows| - 1], granularity) == Some(key) ==>
      Get(outRows[|inRows| - 1], c) == Sub(Get(inRows[|inRows| - 1], f), Some(m))
    requires var vs := GroupColumn(inRows[..|inRows| - 1], granularity, key, f);
      GroupColumn(outRows[..|inRows| - 1], granularity, key, c) == seq(|vs|, i requires 0 <= i < |vs| => Sub(vs[i], Some(m)))
    ensures var vs := GroupColumn(inRows, granularity, key, f);
      GroupColumn(outRows, granularity, key, c) == seq(|vs|, i requires 0 <= i < |vs| => Sub(vs[i], Some(m)))
  {
    var n := |inRows| - 1;
    var before := GroupColumn(inRows[..n], granularity, key, f);
    if KeyOf(inRows[n], granularity) == Some(key) {
      ShiftAppend(before, Get(inRows[n], f), m);
    }
  }

  /** Shifting a sequence with one more value appends that value shifted. */
  lemma ShiftAppend(vs: seq<Value>, x: Value, m: real)
    ensures var ws := vs + [x];
      seq(|ws|, i requires 0 <= i < |ws| => Sub(ws[i], Some(m))) ==
      seq(|vs|, i requires 0 <= i < |vs| => Sub(vs[i], Some(m))) + [Sub(x, Some(m))]
  {
    var ws := vs + [x];
    assert forall i :: 0 <= i < |vs| ==> ws[i] == vs[i];
  }

  /** The net values of a group whose values are all present sum to zero: the group mean is
      exactly what is subtracted. */
  lemma NetSumsToZero(vs: seq<Value>)
    requires |vs| > 0 && forall i :: 0 <= i < |vs| ==> vs[i].Some?
    ensures MeanSkipNa(vs).Some?
    ensures var net := seq(|vs|, i requires 0 <= i < |vs| => Sub(vs[i], Some(MeanSkipNa(vs).value)));
      (forall i :: 0 <= i < |net| ==> net[i].Some?) && Sum(Present(net)) == 0.0
  {
    PresentAll(vs);
    var xs := Present(vs);
    var m := Mean(xs);
    assert MeanSkipNa(vs) == Some(m);
    var net := seq(|vs|, i requires 0 <= i < |vs| => Sub(vs[i], Some(m)));
    NetOfShift(vs, xs, m);
    ShiftByMean(xs);
  }

  lemma NetOfShift(vs: seq<Value>, xs: seq<real>, m: real)
    requires forall i :: 0 <= i < |vs| ==> vs[i].Some?
    requires xs == seq(|vs|, i requires 0 <= i < |vs| => vs[i].value)
    ensures var net := seq(|vs|, i requires 0 <= i < |vs| => Sub(vs[i], Some(m)));
      (forall i :: 0 <= i < |net| ==> net[i].Some?)
      && Present(net) == seq(|xs|, i requires 0 <= i < |xs| => xs[i] - m)
  {
    var net := seq(|vs|, i requires 0 <= i < |vs| => Sub(vs[i], Some(m)));
    assert forall i :: 0 <= i < |net| ==> net[i] == Some(xs[i] - m);
    PresentAll(net);
    var values := seq(|net|, i requires 0 <= i < |net| => net[i].value);
    var shifted := seq(|xs|, i requires 0 <= i < |xs| => xs[i] - m);
    assert forall i :: 0 <= i < |values| ==> values[i] == shifted[i];
    assert values == shifted;
  }


  /** Rows that agree on the granularity cells have the same key. */
  lemma {:induction false} KeyOfAgree(r1: Row, r2: Row, granularity: seq<string>)
    requires forall n :: n in granularity ==> Get(r1, n) == Get(r2, n)
    ensures KeyOf(r1, granularity) == KeyOf(r2, granularity)
    decreases |granularity|
  {
    if granularity != [] {
      var init := granularity[..|granularity| - 1];
      assert forall n :: n in init ==> n in granularity;
      KeyOfAgree(r1, r2, init);
      assert granularity[|granularity| - 1] in granularity;
    }
  }

  /** Tables whose rows agree on the keys and on one feature have the same group columns. */
  lemma {:induction false} GroupColumnAgree(rows1: seq<Row>, rows2: seq<Row>, granularity: seq<string>, key: Key, f: string)
    requires |rows1| == |rows2|
    requires forall i :: 0 <= i < |rows1| ==> KeyOf(rows1[i], granularity) == KeyOf(rows2[i], granularity)
    requires forall i :: 0 <= i < |rows1| ==> Get(rows1[i], f) == Get(rows2[i], f)
    ensures GroupColumn(rows1, granularity, key, f) == GroupColumn(rows2, granularity, key, f)
    decreases |rows1|
  {
    if rows1 != [] {
      var n := |rows1| - 1;
      GroupColumnAgree(rows1[..n], rows2[..n], granularity, key, f);
    }
  }

  /** Numbering the rows changes neither their keys nor their features. */
  lemma WithIdsAgree(df: Frame, granularity: seq<string>, f: string, key: Key)
    requires IdColumn !in granularity && f != IdColumn
    ensures forall i :: 0 <= i < |df.rows| ==> KeyOf(WithIds(df).rows[i], granularity) == KeyOf(df.rows[i], granularity)
    ensures GroupColumn(WithIds(df).rows, granularity, key, f) == GroupColumn(df.rows, granularity, key, f)
  {
    var nd := WithIds(df);
    forall i | 0 <= i < |df.rows| ensures KeyOf(nd.rows[i], granularity) == KeyOf(df.rows[i], granularity) {
      KeyOfAgree(nd.rows[i], df.rows[i], granularity);
    }
    GroupColumnAgree(nd.rows, df.rows, granularity, key, f);
  }

  /** The names `prefix + feature`, as a set. */
  lemma CreatedSet(prefix: string, features: seq<string>)
    ensures (set n | n in Created(prefix, features)) == (set x | x in features :: prefix + x)
  {
    var c := Created(prefix, features);
    forall n | n in c ensures n in (set x | x in features :: prefix + x) {
      var j :| 0 <= j < |c| && c[j] == n;
      assert features[j] in features;
    }
    forall x | x in features ensures prefix + x in c {
      var j :| 0 <= j < |features| && features[j] == x;
      assert c[j] == prefix + x;
    }
  }

  /** Under the left merge every row receives exactly the predicted names. */
  lemma MatchedKeys(row: Row, granularity: seq<string>, g: map<Key, Row>, features: seq<string>)
    requires forall key :: key in g ==> g[key].Keys == (set x | x in features :: "mean_" + x)
    ensures forall n :: n in Matched(row, granularity, g, Created("mean_", features)) <==> n in Created("mean_", features)
  {
    CreatedSet("mean_", features);
  }

  /** The entries of `_grouped` computed on a table. */
  lemma GroupedEntries(df: Frame, features: seq<string>, granularity: seq<string>, prefix: string, agg: Aggregate)
    requires Grouped(df, features, granularity, prefix, agg).Ok?
    ensures var g := Grouped(df, features, granularity, prefix, agg).value;
      forall key :: key in g ==> g[key] == GroupRow(df.rows, granularity, key, features, prefix, agg)
  {
  }

  /** One net row: it keeps the granularity cells, and the created name of feature `k` holds the
      feature minus the predicted value the row matched. */
  lemma NetRowOfBase(row: Row, matched: Row, granularity: seq<string>, features: seq<string>,
                     predicted: seq<string>, created: seq<string>, k: nat)
    requires SeparateNet(features, predicted, created)
    requires forall n :: n in granularity ==> n !in predicted && n !in created && n != IdColumn
    requires IdColumn !in features && IdColumn !in predicted
    requires forall n :: n in matched <==> n in predicted
    requires k < |features|
    ensures var out := AddNet((row + matched) - {IdColumn}, features, predicted, created);
      && (forall n :: n in granularity ==> Get(out, n) == Get(row, n))
      && Get(out, created[k]) == Sub(Get(row, features[k]), Get(matched, predicted[k]))
  {
    var base := (row + matched) - {IdColumn};
    forall n | n in granularity
      ensures Get(AddNet(base, features, predicted, created), n) == Get(row, n)
    {
      AddNetKeeps(base, features, predicted, created, n);
    }
    assert features[..|predicted|] == features;
    AddNetCells(base, features, predicted, created, k);
    assert features[k] in features;
    assert predicted[k] in predicted;
  }

  /** One output row of `fit_transform`: it keeps its key, and the created name of feature `k`
      holds the feature minus the mean of the feature over the row's group. */
  lemma NetRowCell(df: Frame, granularity: seq<string>, features: seq<string>, prefix: string, k: nat, i: nat)
    requires SeparateNames(features, granularity, Created("mean_", features), Created(prefix, features))
    requires k < |features| && i < |df.rows|
    requires Grouped(WithIds(df), features, granularity, "mean_", MeanSkipNa).Ok?
    ensures var g := Grouped(WithIds(df), features, granularity, "mean_", MeanSkipNa).value;
      var out := NetFrame(df, granularity, g, features, Created("mean_", features), Created(prefix, features));
      && out.Ok?
      && |out.value.rows| == |df.rows|
      && KeyOf(out.value.rows[i], granularity) == KeyOf(df.rows[i], granularity)
      && (KeyOf(df.rows[i], granularity).Some? ==>
            Get(out.value.rows[i], prefix + features[k])
              == Sub(Get(df.rows[i], features[k]),
                     MeanSkipNa(GroupColumn(df.rows, granularity, KeyOf(df.rows[i], granularity).value, features[k]))))
  {
    var nd := WithIds(df);
    var g := Grouped(nd, features, granularity, "mean_", MeanSkipNa).value;
    var predicted := Created("mean_", features);
    var matched := Matched(nd.rows[i], granularity, g, predicted);
    var f := features[k];
    assert (forall n :: n in matched <==> n in predicted)
        && (KeyOf(df.rows[i], granularity).Some? ==>
              Get(matched, "mean_" + f) == MeanSkipNa(GroupColumn(df.rows, granularity, KeyOf(df.rows[i], granularity).value, f))) by {
      GroupedEntries(nd, features, granularity, "mean_", MeanSkipNa);
      MatchedKeys(nd.rows[i], granularity, g, features);
      if KeyOf(df.rows[i], granularity).Some? {
        assert f != IdColumn;
        MatchedMean(df, granularity, g, features, k, i);
      }
    }
    NetRowCellOf(df, granularity, g, features, prefix, k, i);
  }

  /** `NetRowCell` for any group table from which row `i` of the numbered table receives
      exactly the predicted names, holding its group's mean when it has a key. */
  lemma NetRowCellOf(df: Frame, granularity: seq<string>, g: map<Key, Row>, features: seq<string>, prefix: string, k: nat, i: nat)
    requires SeparateNames(features, granularity, Created("mean_", features), Created(prefix, features))
    requires k < |features| && i < |df.rows|
    requires forall f :: f in features ==> f in WithIds(df).columns
    requires forall n :: n in Matched(WithIds(df).rows[i], granularity, g, Created("mean_", features)) <==> n in Created("mean_", features)
    requires KeyOf(df.rows[i], granularity).Some? ==>
      Get(Matched(WithIds(df).rows[i], granularity, g, Created("mean_", features)), "mean_" + features[k])
        == MeanSkipNa(GroupColumn(df.rows, granularity, KeyOf(df.rows[i], granularity).value, features[k]))
    ensures var out := NetFrame(df, granularity, g, features, Created("mean_", features), Created(prefix, features));
      && out.Ok?
      && |out.value.rows| == |df.rows|
      && KeyOf(out.value.rows[i], granularity) == KeyOf(df.rows[i], granularity)
      && (KeyOf(df.rows[i], granularity).Some? ==>
            Get(out.value.rows[i], prefix + features[k])
              == Sub(Get(df.rows[i], features[k]),
                     MeanSkipNa(GroupColumn(df.rows, granularity, KeyOf(df.rows[i], granularity).value, features[k]))))
  {
    var nd := WithIds(df);
    var predicted := Created("mean_", features);
    var created := Created(prefix, features);
    var row := nd.rows[i];
    var matched := Matched(row, granularity, g, predicted);
    var out := AddNet(Joined(row, row, granularity, g, predicted), features, predicted, created);
    var f := features[k];
    var net := NetFrame(df, granularity, g, features, predicted, created);
    assert net.Ok? && |net.value.rows| == |df.rows| && net.value.rows[i] == out by {
      NetFrameRows(df, granularity, g, features, predicted, created);
    }
    assert (forall n :: n in granularity ==> Get(out, n) == Get(row, n))
        && Get(out, created[k]) == Sub(Get(row, f), Get(matched, predicted[k])) by {
      assert Joined(row, row, granularity, g, predicted) == (row + matched) - {IdColumn};
      NetRowOfBase(row, matched, granularity, features, predicted, created, k);
    }
    assert f != IdColumn;
    assert KeyOf(out, granularity) == KeyOf(df.rows[i], granularity) by {
      WithIdsAgree(df, granularity, f, []);
      KeyOfAgree(out, row, granularity);
    }
    if KeyOf(df.rows[i], granularity).Some? {
      GetBesideId(df.rows[i], Some((i + 1) as real), f);
      assert predicted[k] == "mean_" + f && created[k] == prefix + f;
    }
  }

  /** Numbering a row leaves every other cell as it was. */
  lemma GetBesideId(row: Row, id: Value, f: string)
    requires f != IdColumn
    ensures Get(row[IdColumn := id], f) == Get(row, f)
  {
  }

  /** A keyed row of the numbered table keeps its feature cell and matches the mean of its group
      in the original table. */
  lemma MatchedMean(df: Frame, granularity: seq<string>, g: map<Key, Row>, features: seq<string>, k: nat, i: nat)
    requires k < |features| && i < |df.rows|
    requires IdColumn !in granularity && features[k] != IdColumn
    requires g.Keys == Keys(WithIds(df).rows, granularity)
    requires forall key :: key in g ==> g[key] == GroupRow(WithIds(df).rows, granularity, key, features, "mean_", MeanSkipNa)
    requires KeyOf(df.rows[i], granularity).Some?
    ensures Get(WithIds(df).rows[i], features[k]) == Get(df.rows[i], features[k])
    ensures Get(Matched(WithIds(df).rows[i], granularity, g, Created("mean_", features)), "mean_" + features[k])
      == MeanSkipNa(GroupColumn(df.rows, granularity, KeyOf(df.rows[i], granularity).value, features[k]))
  {
    var nd := WithIds(df);
    var f := features[k];
    var key := KeyOf(df.rows[i], granularity).value;
    GetBesideId(df.rows[i], Some((i + 1) as real), f);
    WithIdsAgree(df, granularity, f, key);
    assert KeyOf(nd.rows[i], granularity) == Some(key);
    assert key in Keys(nd.rows, granularity);
    assert f in features;
  }

  /** The row numbers `fit_transform` adds are distinct. */
  lemma WithIdsDistinct(df: Frame)
    ensures DistinctIds(WithIds(df).rows)
  {
    var nd := WithIds(df);
    forall i, j | 0 <= i < j < |nd.rows| ensures Get(nd.rows[i], IdColumn) != Get(nd.rows[j], IdColumn) {
      assert Get(nd.rows[i], IdColumn) == Some((i + 1) as real);
    }
  }

  /** `fit_transform` succeeds once the group values are computed, and its rows are the
      numbered rows one to one, each with its group values and net columns. */
  lemma NetFrameRows(df: Frame, granularity: seq<string>, grouped: map<Key, Row>, features: seq<string>,
                     predicted: seq<string>, created: seq<string>)
    requires SeparateNet(features, predicted, created)
    requires IdColumn !in features && IdColumn !in predicted
    requires forall f :: f in features ==> f in WithIds(df).columns
    ensures var out := NetFrame(df, granularity, grouped, features, predicted, created);
      var nd := WithIds(df);
      && out.Ok?
      && |out.value.rows| == |df.rows|
      && forall i :: 0 <= i < |df.rows| ==>
           out.value.rows[i] == AddNet(Joined(nd.rows[i], nd.rows[i], granularity, grouped, predicted),
                                       features, predicted, created)
  {
    var nd := WithIds(df);
    var merged := MergeOnId(nd.rows, nd.rows, granularity, grouped, predicted);
    assert NetTransform(nd, granularity, grouped, features, predicted, created).Ok? by {
      NetTransformMissingFeature(nd, granularity, grouped, features, predicted, created);
    }
    assert |merged| == |df.rows| && forall i :: 0 <= i < |df.rows| ==> merged[i] == Joined(nd.rows[i], nd.rows[i], granularity, grouped, predicted) by {
      WithIdsDistinct(df);
      MergeOnIdDistinct(nd.rows, granularity, grouped, predicted, |nd.rows|);
      assert nd.rows[..|nd.rows|] == nd.rows;
    }
    var out := NetFrame(df, granularity, grouped, features, predicted, created);
    assert out.value.rows == NetRows(merged, features, predicted, created);
    forall i | 0 <= i < |df.rows|
      ensures out.value.rows[i] == AddNet(Joined(nd.rows[i], nd.rows[i], granularity, grouped, predicted),
                                          features, predicted, created)
    {
    }
  }

  /** Within every group whose values are all present, the net values written by
      `fit_transform` sum to zero: each row's net value is its distance from the group mean. */
  lemma NetGroupSumsToZero(df: Frame, granularity: seq<string>, features: seq<string>, prefix: string, k: nat, key: Key)
    requires SeparateNames(features, granularity, Created("mean_", features), Created(prefix, features))
    requires k < |features|
    requires Grouped(WithIds(df), features, granularity, "mean_", MeanSkipNa).Ok?
    requires var vs := GroupColumn(df.rows, granularity, key, features[k]);
      |vs| > 0 && forall j :: 0 <= j < |vs| ==> vs[j].Some?
    ensures var g := Grouped(WithIds(df), features, granularity, "mean_", MeanSkipNa).value;
      var out := NetFrame(df, granularity, g, features, Created("mean_", features), Created(prefix, features));
      && out.Ok?
      && var net := GroupColumn(out.value.rows, granularity, key, prefix + features[k]);
         (forall j :: 0 <= j < |net| ==> net[j].Some?) && Sum(Present(net)) == 0.0
  {
    var g := Grouped(WithIds(df), features, granularity, "mean_", MeanSkipNa).value;
    var out := NetFrame(df, granularity, g, features, Created("mean_", features), Created(prefix, features));
    var f := features[k];
    var vs := GroupColumn(df.rows, granularity, key, f);
    NetSumsToZero(vs);
    var m := MeanSkipNa(vs).value;
    NetRowCell(df, granularity, features, prefix, k, 0);
    forall i | 0 <= i < |df.rows|
      ensures KeyOf(out.value.rows[i], granularity) == KeyOf(df.rows[i], granularity)
      ensures KeyOf(df.rows[i], granularity) == Some(key) ==> Get(out.value.rows[i], prefix + f) == Sub(Get(df.rows[i], f), Some(m))
    {
      NetRowCell(df, granularity, features, prefix, k, i);
    }
    ShiftedGroup(df.rows, out.value.rows, granularity, key, f, prefix + f, m);
  }

  // ---------------------------------------------------------------------------
  // The merge on `__id` and the net loop's errors.

  /** No two rows share an `__id` cell. */
  ghost predicate DistinctIds(rows: seq<Row>) {
    forall i, j :: 0 <= i < j < |rows| ==> Get(rows[i], IdColumn) != Get(rows[j], IdColumn)
  }

  /** With distinct ids, a row's only partner is the one row carrying its id. */
  lemma {:induction false} IdPartnersUnique(left: Row, right: seq<Row>, granularity: seq<string>, grouped: map<Key, Row>,
                                            predicted: seq<string>, j: nat, m: nat)
    requires DistinctIds(right) && j < |right| && m <= |right|
    requires Get(right[j], IdColumn) == Get(left, IdColumn)
    ensures IdPartners(left, right[..m], granularity, grouped, predicted)
      == if j < m then [Joined(left, right[j], granularity, grouped, predicted)] else []
    decreases m
  {
    if m > 0 {
      var n := m - 1;
      assert right[..m][..n] == right[..n];
      assert right[..m][n] == right[n];
      IdPartnersUnique(left, right, granularity, grouped, predicted, j, n);
      if n < j {
        assert Get(right[n], IdColumn) != Get(right[j], IdColumn);
      } else if j < n {
        assert Get(right[j], IdColumn) != Get(right[n], IdColumn);
      }
    }
  }

  /** With distinct ids the merge on `__id` pairs each row with itself, in order. */
  lemma {:induction false} MergeOnIdDistinct(rows: seq<Row>, granularity: seq<string>, grouped: map<Key, Row>,
                                             predicted: seq<string>, m: nat)
    requires DistinctIds(rows) && m <= |rows|
    ensures var merged := MergeOnId(rows[..m], rows, granularity, grouped, predicted);
      && |merged| == m
      && forall i :: 0 <= i < m ==> merged[i] == Joined(rows[i], rows[i], granularity, grouped, predicted)
    decreases m
  {
    if m > 0 {
      var n := m - 1;
      var prev := MergeOnId(rows[..n], rows, granularity, grouped, predicted);
      var part := IdPartners(rows[n], rows, granularity, grouped, predicted);
      assert MergeOnId(rows[..m], rows, granularity, grouped, predicted) == prev + part by {
        assert rows[..m][..n] == rows[..n];
        assert rows[..m][n] == rows[n];
      }
      assert part == [Joined(rows[n], rows[n], granularity, grouped, predicted)] by {
        IdPartnersUnique(rows[n], rows, granularity, grouped, predicted, n, |rows|);
        assert rows[..|rows|] == rows;
      }
      MergeOnIdDistinct(rows, granularity, grouped, predicted, n);
      forall i | 0 <= i < m ensures (prev + part)[i] == Joined(rows[i], rows[i], granularity, grouped, predicted) {
        if i < n {
          assert (prev + part)[i] == prev[i];
        }
      }
    }
  }

  /** A row whose id every row of `right` shares is merged once with each of them. */
  lemma {:induction false} IdPartnersAll(left: Row, right: seq<Row>, granularity: seq<string>, grouped: map<Key, Row>,
                                         predicted: seq<string>)
    requires forall j :: 0 <= j < |right| ==> Get(right[j], IdColumn) == Get(left, IdColumn)
    ensures |IdPartners(left, right, granularity, grouped, predicted)| == |right|
    decreases |right|
  {
    if right != [] {
      var n := |right| - 1;
      IdPartnersAll(left, right[..n], granularity, grouped, predicted);
    }
  }

  /** The merge of the first `m` left rows adds the partners of row `m - 1` to those of the rest. */
  lemma MergeOnIdStep(left: seq<Row>, right: seq<Row>, granularity: seq<string>, grouped: map<Key, Row>,
                      predicted: seq<string>, m: nat)
    requires 0 < m <= |left|
    ensures |MergeOnId(left[..m], right, granularity, grouped, predicted)|
      == |MergeOnId(left[..m - 1], right, granularity, grouped, predicted)| + |IdPartners(left[m - 1], right, granularity, grouped, predicted)|
  {
    assert left[..m][..m - 1] == left[..m - 1];
    assert left[..m][m - 1] == left[m - 1];
  }

  /** When the `k` rows given to `transform` all carry the same id, the inner merge on `__id`
      yields `k * k` rows rather than `k`. */
  lemma {:induction false} SharedIdSquares(rows: seq<Row>, granularity: seq<string>, grouped: map<Key, Row>,
                                           predicted: seq<string>, m: nat)
    requires forall i, j :: 0 <= i < |rows| && 0 <= j < |rows| ==> Get(rows[i], IdColumn) == Get(rows[j], IdColumn)
    requires m <= |rows|
    ensures |MergeOnId(rows[..m], rows, granularity, grouped, predicted)| == m * |rows|
    decreases m
  {
    if m > 0 {
      var n := m - 1;
      var size := |rows|;
      SharedIdSquares(rows, granularity, grouped, predicted, n);
      IdPartnersAll(rows[n], rows, granularity, grouped, predicted);
      MergeOnIdStep(rows, rows, granularity, grouped, predicted, m);
      MulSucc(n, size);
    }
  }

  /** `(n + 1) * s == n * s + s`, kept apart from the sequences above. */
  lemma MulSucc(n: nat, s: nat)
    ensures (n + 1) * s == n * s + s
  {
  }

  /** One pass of the net loop, with the names kept apart: the features present stay present,
      and so do the predicted columns of the later passes. */
  lemma NetPass(columns: seq<string>, c: seq<string>, features: seq<string>, predicted: seq<string>,
                created: seq<string>, n: nat)
    requires SeparateNet(features, predicted, created) && n < |predicted|
    requires forall k :: 0 <= k < |features| ==> (features[k] in c <==> features[k] in columns)
    requires features[n] in c
    ensures var c2 := Without(if created[n] in c then c else c + [created[n]], [predicted[n]]);
      && (forall k :: 0 <= k < |features| ==> (features[k] in c2 <==> features[k] in columns))
      && forall j :: n < j < |predicted| && predicted[j] in c ==> predicted[j] in c2
  {
    var c2 := Without(if created[n] in c then c else c + [created[n]], [predicted[n]]);
    forall k | 0 <= k < |features| ensures features[k] in c2 <==> features[k] in columns {
      assert predicted[n] != features[k];
      if k != n {
        assert created[n] != features[k];
      }
    }
    forall j | n < j < |predicted| && predicted[j] in c ensures predicted[j] in c2 {
      assert predicted[j] != predicted[n];
    }
  }

  /** Through the first `m` passes of the net loop, with the names kept apart and every
      predicted column present: the loop fails exactly when one of the first `m` features is
      missing, with the KeyError of the first such feature; otherwise the features present are
      those present at the start and the later predicted columns are all still there. */
  lemma {:induction false} NetColumnsPrefix(columns: seq<string>, features: seq<string>, predicted: seq<string>,
                                            created: seq<string>, m: nat)
    requires SeparateNet(features, predicted, created)
    requires forall x :: x in predicted ==> x in columns
    requires m <= |predicted|
    ensures var r := NetColumns(columns, features, predicted[..m], created[..m]);
      && (r.Ok? <==> forall k :: 0 <= k < m ==> features[k] in columns)
      && (r.Err? ==> exists k :: 0 <= k < m && features[k] !in columns
                       && (forall j :: 0 <= j < k ==> features[j] in columns) && r.error == KeyError(features[k]))
      && (r.Ok? ==> (forall k :: 0 <= k < |features| ==> (features[k] in r.value <==> features[k] in columns))
                    && forall j :: m <= j < |predicted| ==> predicted[j] in r.value)
    decreases m
  {
    if m > 0 {
      var n := m - 1;
      NetColumnsPrefix(columns, features, predicted, created, n);
      NetColumnsPass(columns, features, predicted, created, n);
      var prev := NetColumns(columns, features, predicted[..n], created[..n]);
      if prev.Ok? {
        if features[n] in prev.value {
          assert predicted[n] in prev.value;
          NetPass(columns, prev.value, features, predicted, created, n);
        } else {
          assert features[n] !in columns;
        }
      }
    }
  }


  /** `transform` on a table with an id column: with the names kept apart, it fails exactly
      when a feature column is missing, with the KeyError of the first missing feature. */
  lemma NetTransformMissingFeature(df: Frame, granularity: seq<string>, grouped: map<Key, Row>, features: seq<string>,
                                   predicted: seq<string>, created: seq<string>)
    requires SeparateNet(features, predicted, created)
    requires IdColumn !in features && IdColumn !in predicted
    requires IdColumn in df.columns
    ensures var r := NetTransform(df, granularity, grouped, features, predicted, created);
      && (r.Ok? <==> forall f :: f in features ==> f in df.columns)
      && (r.Err? ==> exists k :: 0 <= k < |features| && features[k] !in df.columns
                       && (forall j :: 0 <= j < k ==> features[j] in df.columns) && r.error == KeyError(features[k]))
  {
    var columns := Without(df.columns + Without(predicted, df.columns), [IdColumn]);
    assert predicted[..|predicted|] == predicted && created[..|predicted|] == created;
    forall k | 0 <= k < |features| ensures features[k] in columns <==> features[k] in df.columns {
      assert features[k] !in predicted;
    }
    NetColumnsPrefix(columns, features, predicted, created, |predicted|);
  }
}
