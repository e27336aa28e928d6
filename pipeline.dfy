/** The `Pipeline`: it turns a table of player results into performances, then ratings,
    then post-rating features, and hands them to a predictor. The rating engines, the
    post-rating transformers and the predictor's model are given as functions; what is
    modelled is the pipeline's own bookkeeping: which columns it writes, under which names,
    in which order, and when it refuses a table. */
module Pipeline {
  import opened Common
  import opened Tables
  import opened DataStructures
  import opened ColumnWeighting
  import opened PerformancesGenerator

  /** `PredictColumnNames.TARGET`, the target name the pipeline forces on its predictor. */
  const Target: string := "__target"

  /** A rating generator as the pipeline sees it: the names of the features it produces and
      the column names it reads matches with. */
  datatype RatingGenerator = RatingGenerator(featuresOut: seq<string>, columnNames: ColumnNames)

  /** A post-rating transformer, known to the pipeline by its `features_out`. */
  datatype PostTransformer = PostTransformer(featuresOut: seq<string>)

  /** The `rating_generators` argument: `None`, one generator, or a list. */
  datatype GeneratorsArg = NoGenerators | OneGenerator(one: RatingGenerator) | GeneratorList(list: seq<RatingGenerator>)

  /** The `matches` argument of `generate_historical`: `None`, one list shared by every
      generator, or one list per generator. */
  datatype MatchesArg = NoMatches | FlatMatches(flat: seq<Match>) | NestedMatches(nested: seq<seq<Match>>)

  /** Where a rating engine gets its matches: converted from the table, or given. */
  datatype MatchSource = FromTable(columnNames: ColumnNames, table: Frame) | Given(matches: seq<Match>)

  /** `generate_historical` of rating generator `idx`: its feature columns, in dictionary
      order, from the matches and (when ratings are stored) the table. */
  type HistoricalEngine = (nat, MatchSource, Option<Frame>) -> seq<(string, seq<Value>)>

  /** `generate_future` of rating generator `idx`: its feature columns by name. */
  type FutureEngine = (nat, MatchSource, Frame) -> map<string, seq<Value>>

  function TargetMessage(target: string): string {
    "Target " + target + " not in df columns. Target always needs to be set equal to " + Target
  }

  function PredColumnMessage(predColumn: string): string {
    "Predictor column " + predColumn + " already in df columns. Remove or rename before generating predictions"
  }

  const LengthMismatch: string := "Length of values does not match length of index"

  /** The predictor the pipeline drives (`BaseMLWrapper`): its target, which the pipeline
      overwrites, and the name of the column its predictions go to. */
  class Predictor {
    var target: string
    const predColumn: string

    constructor (target: string, predColumn: string := "prob")
      ensures this.target == target && this.predColumn == predColumn
    {
      this.target := target;
      this.predColumn := predColumn;
    }

    /** `set_target`. */
    method SetTarget(newTarget: string)
      modifies this
      ensures target == newTarget
    {
      target := newTarget;
    }
  }

  /** `rating_generators` as a list: `None` is empty, a single generator is wrapped. */
  function Generators(arg: GeneratorsArg): (r: seq<RatingGenerator>)
    ensures arg.NoGenerators? ==> r == []
    ensures arg.OneGenerator? ==> r == [arg.one]
    ensures arg.GeneratorList? ==> r == arg.list
  {
    match arg
    case NoGenerators => []
    case OneGenerator(g) => [g]
    case GeneratorList(gs) => gs
  }

  /** `column_weights` as stored: a non-empty flat list is wrapped into a list of lists; an
      empty list is falsy and kept as it is; `None` stays `None`. */
  function StoredWeights(arg: Option<WeightsArg>): (r: Option<seq<seq<ColumnWeight>>>)
    ensures r.None? <==> arg.None?
    ensures r.Some? ==> forall cw :: (exists i :: 0 <= i < |r.value| && cw in r.value[i]) <==>
      (if arg.value.FlatWeights? then cw in arg.value.flat else exists i :: 0 <= i < |arg.value.nested| && cw in arg.value.nested[i])
    ensures r.Some? && arg.value.FlatWeights? && arg.value.flat != [] ==> |r.value| == 1
    ensures arg.Some? && arg.value.FlatWeights? && arg.value.flat != [] ==> r == Some([arg.value.flat])
  {
    match arg
    case None => None
    case Some(FlatWeights(ws)) =>
      if ws == [] then Some([])
      else
        assert forall cw :: (exists i :: 0 <= i < 1 && cw in [ws][i]) <==> cw in ws by {
          forall cw | cw in ws ensures exists i :: 0 <= i < 1 && cw in [ws][i] {
            assert cw in [ws][0];
          }
        }
        Some([ws])
    case Some(NestedWeights(wss)) => Some(wss)
  }

  /** The name the pipeline gives feature `feature` of rating generator `idx` when there
      are `count` generators: `str(idx)` is appended only when there is more than one. */
  function RatingName(feature: string, idx: nat, count: nat): string {
    if count > 1 then feature + NatToString(idx) else feature
  }

  /** The names of one generator's features. */
  function Suffixed(features: seq<string>, idx: nat, count: nat): (r: seq<string>)
    ensures |r| == |features|
    ensures forall j :: 0 <= j < |r| ==> r[j] == RatingName(features[j], idx, count)
  {
    seq(|features|, j requires 0 <= j < |features| => RatingName(features[j], idx, count))
  }

  /** The named features of the first `k` generators, generator by generator. */
  function RatingFeatures(gens: seq<RatingGenerator>, k: nat, count: nat): seq<string>
    requires k <= |gens|
  {
    if k == 0 then [] else RatingFeatures(gens, k - 1, count) + Suffixed(gens[k - 1].featuresOut, k - 1, count)
  }

  /** The features of the first `k` post-rating transformers, transformer by transformer. */
  function PostFeatures(post: seq<PostTransformer>, k: nat): seq<string>
    requires k <= |post|
  {
    if k == 0 then [] else PostFeatures(post, k - 1) + post[k - 1].featuresOut
  }

  /** The features handed to the predictor: the post-rating transformers' features first,
      then every rating feature under its pipeline name. */
  function EstimatorFeatures(post: seq<PostTransformer>, gens: seq<RatingGenerator>): seq<string> {
    PostFeatures(post, |post|) + RatingFeatures(gens, |gens|, |gens|)
  }

  /** A rating feature name is in the list exactly when some generator produces a feature
      that the pipeline names that way. */
  lemma {:induction false} RatingFeaturesMembership(gens: seq<RatingGenerator>, k: nat, count: nat, x: string)
    requires k <= |gens|
    ensures x in RatingFeatures(gens, k, count) <==>
      exists i, j :: 0 <= i < k && 0 <= j < |gens[i].featuresOut| && x == RatingName(gens[i].featuresOut[j], i, count)
  {
    if k > 0 {
      RatingFeaturesMembership(gens, k - 1, count, x);
      var last := Suffixed(gens[k - 1].featuresOut, k - 1, count);
      assert x in RatingFeatures(gens, k, count) <==> x in RatingFeatures(gens, k - 1, count) || x in last;
      if x in last {
        var j :| 0 <= j < |last| && last[j] == x;
        assert x == RatingName(gens[k - 1].featuresOut[j], k - 1, count);
      }
    }
  }

  /** With a single generator the features keep their own names. */
  lemma OneGeneratorNames(post: seq<PostTransformer>, g: RatingGenerator)
    ensures EstimatorFeatures(post, [g]) == PostFeatures(post, |post|) + g.featuresOut
  {
    var named := Suffixed(g.featuresOut, 0, 1);
    assert forall j :: 0 <= j < |named| ==> named[j] == g.featuresOut[j];
    assert named == g.featuresOut;
    assert RatingFeatures([g], 1, 1) == named by {
      assert RatingFeatures([g], 1, 1) == RatingFeatures([g], 0, 1) + named;
    }
  }

  /** With several generators, the same feature of two generators gets two names. */
  lemma SuffixSeparatesGenerators(feature: string, i: nat, j: nat, count: nat)
    requires count > 1 && i != j
    ensures RatingName(feature, i, count) != RatingName(feature, j, count)
  {
    var si, sj := NatToString(i), NatToString(j);
    if feature + si == feature + sj {
      assert (feature + si)[|feature|..] == si;
      assert (feature + sj)[|feature|..] == sj;
      NatToStringRoundTrip(i);
      NatToStringRoundTrip(j);
    }
  }

  /** Two features of one generator keep distinct names. */
  lemma SuffixSeparatesFeatures(f: string, g: string, idx: nat, count: nat)
    requires f != g
    ensures RatingName(f, idx, count) != RatingName(g, idx, count)
  {
    if count > 1 {
      var s := NatToString(idx);
      if |f| == |g| {
        assert (f + s)[..|f|] == f && (g + s)[..|g|] == g;
      }
    }
  }

  /** The constructor's loops over the post-rating transformers and the generators. */
  method CollectEstimatorFeatures(post: seq<PostTransformer>, gens: seq<RatingGenerator>) returns (features: seq<string>)
    ensures features == EstimatorFeatures(post, gens)
  {
    features := [];
    var i := 0;
    while i < |post|
      invariant i <= |post|
      invariant features == PostFeatures(post, i)
    {
      features := features + post[i].featuresOut;
      i := i + 1;
    }
    var idx := 0;
    while idx < |gens|
      invariant idx <= |gens|
      invariant features == PostFeatures(post, |post|) + RatingFeatures(gens, idx, |gens|)
    {
      features := AppendGeneratorFeatures(features, gens[idx].featuresOut, idx, |gens|);
      idx := idx + 1;
    }
  }

  /** The inner loop: one generator's features, named, appended in order. */
  method AppendGeneratorFeatures(features: seq<string>, out: seq<string>, idx: nat, count: nat) returns (r: seq<string>)
    ensures r == features + Suffixed(out, idx, count)
  {
    r := features;
    var j := 0;
    while j < |out|
      invariant j <= |out|
      invariant r == features + Suffixed(out[..j], idx, count)
    {
      var name := if count > 1 then out[j] + NatToString(idx) else out[j];
      assert Suffixed(out[..j + 1], idx, count) == Suffixed(out[..j], idx, count) + [name];
      r := r + [name];
      j := j + 1;
    }
    assert out[..j] == out;
  }

  /** `df[name] = values`: pandas refuses a list whose length is not the number of rows. */
  function AssignChecked(df: Frame, name: string, values: seq<Value>): (r: Result<Frame>)
    ensures r.Err? <==> |values| != |df.rows|
    ensures r.Err? ==> r.error == ValueError(LengthMismatch)
    ensures r.Ok? ==> r.value == Assign(df, name, values)
  {
    if |values| != |df.rows| then Err(ValueError(LengthMismatch)) else Ok(Assign(df, name, values))
  }

  /** One generator's historical ratings written into the table, item by item. */
  function WriteRatings(df: Frame, items: seq<(string, seq<Value>)>, idx: nat, count: nat): Result<Frame>
    decreases |items|
  {
    if items == [] then Ok(df)
    else
      match WriteRatings(df, items[..|items| - 1], idx, count)
      case Err(e) => Err(e)
      case Ok(d) => AssignChecked(d, RatingName(items[|items| - 1].0, idx, count), items[|items| - 1].1)
  }

  function ItemNames(items: seq<(string, seq<Value>)>): (names: seq<string>)
    ensures |names| == |items|
    ensures forall j :: 0 <= j < |items| ==> names[j] == items[j].0
  {
    seq(|items|, j requires 0 <= j < |items| => items[j].0)
  }

  /** `out` has the rows of `df` and at least its columns. */
  ghost predicate Extends(df: Frame, out: Frame) {
    |out.rows| == |df.rows| && forall c :: c in df.columns ==> c in out.columns
  }

  /** Writing ratings fails exactly when some item's length is not the number of rows. */
  lemma {:induction false} WriteRatingsFails(df: Frame, items: seq<(string, seq<Value>)>, idx: nat, count: nat)
    ensures WriteRatings(df, items, idx, count).Err? <==> exists j :: 0 <= j < |items| && |items[j].1| != |df.rows|
    decreases |items|
  {
    if items != [] {
      var n := |items| - 1;
      var init := items[..n];
      WriteRatingsFails(df, init, idx, count);
      assert forall j :: 0 <= j < n ==> init[j] == items[j];
      WriteRatingsFailsStep(df, items, idx, count);
    }
  }

  /** The step of `WriteRatingsFails`: from the items but the last to all items. */
  lemma WriteRatingsFailsStep(df: Frame, items: seq<(string, seq<Value>)>, idx: nat, count: nat)
    requires items != []
    requires WriteRatings(df, items[..|items| - 1], idx, count).Err? <==>
      exists j :: 0 <= j < |items| - 1 && |items[j].1| != |df.rows|
    ensures WriteRatings(df, items, idx, count).Err? <==> exists j :: 0 <= j < |items| && |items[j].1| != |df.rows|
  {
    var n := |items| - 1;
    var prev := WriteRatings(df, items[..n], idx, count);
    if prev.Ok? {
      WriteRatingsKeeps(df, items[..n], idx, count, prev.value);
    }
  }

  /** A successful write keeps every column and every row. */
  lemma {:induction false} WriteRatingsKeeps(df: Frame, items: seq<(string, seq<Value>)>, idx: nat, count: nat, out: Frame)
    requires WriteRatings(df, items, idx, count) == Ok(out)
    ensures Extends(df, out)
    decreases |items|
  {
    if items != [] {
      var n := |items| - 1;
      var prev := WriteRatings(df, items[..n], idx, count);
      assert prev.Ok?;
      WriteRatingsKeeps(df, items[..n], idx, count, prev.value);
      AssignExtends(prev.value, RatingName(items[n].0, idx, count), items[n].1);
    }
  }

  /** Assigning a column keeps the rows and columns. */
  lemma AssignExtends(d: Frame, name: string, values: seq<Value>)
    requires |values| == |d.rows|
    ensures Extends(d, Assign(d, name, values))
  {
  }

  /** With distinct feature names (a dictionary's keys) each feature's column holds exactly
      the values the engine returned for it. */
  lemma {:induction false} WriteRatingsColumns(df: Frame, items: seq<(string, seq<Value>)>, idx: nat, count: nat, out: Frame)
    requires Distinct(ItemNames(items))
    requires WriteRatings(df, items, idx, count) == Ok(out)
    ensures forall j :: 0 <= j < |items| ==> Column(out, RatingName(items[j].0, idx, count)) == items[j].1
    decreases |items|
  {
    if items != [] {
      var prev := WriteRatingsLast(df, items, idx, count, out);
      DistinctNamesPrefix(items);
      WriteRatingsColumns(df, items[..|items| - 1], idx, count, prev);
      WriteRatingsColumnsStep(items, idx, count, prev, out);
    }
  }

  /** A successful write of several items is a successful write of all but the last, followed
      by the last item's column. */
  lemma WriteRatingsLast(df: Frame, items: seq<(string, seq<Value>)>, idx: nat, count: nat, out: Frame)
    returns (prev: Frame)
    requires items != [] && WriteRatings(df, items, idx, count) == Ok(out)
    ensures WriteRatings(df, items[..|items| - 1], idx, count) == Ok(prev)
    ensures |items[|items| - 1].1| == |prev.rows|
    ensures out == Assign(prev, RatingName(items[|items| - 1].0, idx, count), items[|items| - 1].1)
  {
    prev := WriteRatings(df, items[..|items| - 1], idx, count).value;
  }

  /** The items but the last have distinct names when all of them do. */
  lemma DistinctNamesPrefix(items: seq<(string, seq<Value>)>)
    requires items != [] && Distinct(ItemNames(items))
    ensures Distinct(ItemNames(items[..|items| - 1]))
  {
    assert ItemNames(items[..|items| - 1]) == ItemNames(items)[..|items| - 1];
  }

  /** The step of `WriteRatingsColumns`: the last item's column is written, and the earlier
      items' columns, which have other names, are left as they were. */
  lemma WriteRatingsColumnsStep(items: seq<(string, seq<Value>)>, idx: nat, count: nat, prev: Frame, out: Frame)
    requires items != [] && Distinct(ItemNames(items))
    requires |items[|items| - 1].1| == |prev.rows|
    requires out == Assign(prev, RatingName(items[|items| - 1].0, idx, count), items[|items| - 1].1)
    requires var init := items[..|items| - 1];
      forall j :: 0 <= j < |init| ==> Column(prev, RatingName(init[j].0, idx, count)) == init[j].1
    ensures forall j :: 0 <= j < |items| ==> Column(out, RatingName(items[j].0, idx, count)) == items[j].1
  {
    var n := |items| - 1;
    forall j | 0 <= j < |items|
      ensures Column(out, RatingName(items[j].0, idx, count)) == items[j].1
    {
      if j < n {
        assert items[..n][j] == items[j];
        assert ItemNames(items)[j] != ItemNames(items)[n];
      }
      WrittenColumn(items, idx, count, j, prev, out);
    }
  }

  /** One item's column after the last item is written. */
  lemma WrittenColumn(items: seq<(string, seq<Value>)>, idx: nat, count: nat, j: nat, prev: Frame, out: Frame)
    requires j < |items|
    requires j < |items| - 1 ==> items[j].0 != items[|items| - 1].0
    requires |items[|items| - 1].1| == |prev.rows|
    requires out == Assign(prev, RatingName(items[|items| - 1].0, idx, count), items[|items| - 1].1)
    requires j < |items| - 1 ==> Column(prev, RatingName(items[j].0, idx, count)) == items[j].1
    ensures Column(out, RatingName(items[j].0, idx, count)) == items[j].1
  {
    var n := |items| - 1;
    if j < n {
      SuffixSeparatesFeatures(items[j].0, items[n].0, idx, count);
    }
    ColumnAfterAssign(prev, RatingName(items[n].0, idx, count), items[n].1, RatingName(items[j].0, idx, count));
  }

  /** After `df[name] = values`, column `name` holds `values` and every other column is as it was. */
  lemma ColumnAfterAssign(d: Frame, name: string, values: seq<Value>, other: string)
    requires |values| == |d.rows|
    ensures Column(Assign(d, name, values), other) == if other == name then values else Column(d, other)
  {
    var c := Column(Assign(d, name, values), other);
    assert forall i :: 0 <= i < |c| ==> c[i] == if other == name then values[i] else Column(d, other)[i];
  }

  /** The inner loop of `_add_rating` for generator `idx`. */
  method WriteRatingItems(df: Frame, items: seq<(string, seq<Value>)>, idx: nat, count: nat) returns (r: Result<Frame>)
    ensures r == WriteRatings(df, items, idx, count)
  {
    var d := df;
    var j := 0;
    while j < |items|
      invariant j <= |items|
      invariant WriteRatings(df, items[..j], idx, count) == Ok(d)
    {
      WriteRatingsStep(df, items, idx, count, j, d);
      var name := if count > 1 then items[j].0 + NatToString(idx) else items[j].0;
      if |items[j].1| != |d.rows| {
        WriteRatingsPrefixErr(df, items, idx, count, j + 1);
        return Err(ValueError(LengthMismatch));
      }
      d := Assign(d, name, items[j].1);
      j := j + 1;
    }
    assert items[..j] == items;
    r := Ok(d);
  }

  /** One more item written onto a prefix that succeeded. */
  lemma WriteRatingsStep(df: Frame, items: seq<(string, seq<Value>)>, idx: nat, count: nat, j: nat, d: Frame)
    requires j < |items|
    requires WriteRatings(df, items[..j], idx, count) == Ok(d)
    ensures WriteRatings(df, items[..j + 1], idx, count) == AssignChecked(d, RatingName(items[j].0, idx, count), items[j].1)
  {
    assert items[..j + 1][..j] == items[..j];
  }

  /** Once a prefix of the items fails, writing all of them fails with the same error. */
  lemma {:induction false} WriteRatingsPrefixErr(df: Frame, items: seq<(string, seq<Value>)>, idx: nat, count: nat, k: nat)
    requires k <= |items|
    requires WriteRatings(df, items[..k], idx, count).Err?
    ensures WriteRatings(df, items, idx, count) == WriteRatings(df, items[..k], idx, count)
    decreases |items| - k
  {
    if k < |items| {
      assert items[..k + 1][..k] == items[..k];
      WriteRatingsPrefixErr(df, items, idx, count, k + 1);
    } else {
      assert items[..k] == items;
    }
  }

  /** `matches` as `_add_rating` indexes it: `None` means converting the table; a non-empty
      flat list is shared by every generator; an empty list is falsy and kept. */
  function PerGenerator(arg: MatchesArg, count: nat): (r: Option<seq<seq<Match>>>)
    ensures r.None? <==> arg.NoMatches?
    ensures arg.FlatMatches? && arg.flat != [] ==>
      r.Some? && |r.value| == count && forall i :: 0 <= i < count ==> r.value[i] == arg.flat
    ensures arg.FlatMatches? && arg.flat == [] ==> r == Some([])
    ensures arg.NestedMatches? ==> r == Some(arg.nested)
  {
    match arg
    case NoMatches => None
    case FlatMatches(ms) => if ms == [] then Some([]) else Some(seq(count, _ => ms))
    case NestedMatches(mss) => Some(mss)
  }

  /** The matches rating generator `idx` rates: converted from the current table, or the
      `idx`-th list, an `IndexError` when there are fewer lists than generators. */
  function SourceFor(gens: seq<RatingGenerator>, per: Option<seq<seq<Match>>>, idx: nat, df: Frame): (r: Result<MatchSource>)
    requires idx < |gens|
    ensures per.None? ==> r == Ok(FromTable(gens[idx].columnNames, df))
    ensures per.Some? ==> (r.Err? <==> idx >= |per.value|)
    ensures r.Err? ==> r.error == IndexError
    ensures per.Some? && r.Ok? ==> r.value == Given(per.value[idx])
  {
    if per.None? then Ok(FromTable(gens[idx].columnNames, df))
    else if idx < |per.value| then Ok(Given(per.value[idx]))
    else Err(IndexError)
  }

  /** `_add_rating`'s loop from generator `idx` on, stopping at the first failure. */
  function RatingsFrom(gens: seq<RatingGenerator>, per: Option<seq<seq<Match>>>, store: bool,
                       engine: HistoricalEngine, df: Frame, idx: nat): Result<Frame>
    requires idx <= |gens|
    decreases |gens| - idx
  {
    if idx == |gens| then Ok(df)
    else
      match SourceFor(gens, per, idx, df)
      case Err(e) => Err(e)
      case Ok(source) =>
        match WriteRatings(df, engine(idx, source, if store then Some(df) else None), idx, |gens|)
        case Err(e) => Err(e)
        case Ok(d) => RatingsFrom(gens, per, store, engine, d, idx + 1)
  }

  /** Adding ratings never loses a column or a row. */
  lemma {:induction false} RatingsFromKeeps(gens: seq<RatingGenerator>, per: Option<seq<seq<Match>>>, store: bool,
                                            engine: HistoricalEngine, df: Frame, idx: nat)
    requires idx <= |gens|
    ensures RatingsFrom(gens, per, store, engine, df, idx).Ok? ==>
      var out := RatingsFrom(gens, per, store, engine, df, idx).value;
      |out.rows| == |df.rows| && forall c :: c in df.columns ==> c in out.columns
    decreases |gens| - idx
  {
    if idx < |gens| {
      var source := SourceFor(gens, per, idx, df);
      if source.Ok? {
        var items := engine(idx, source.value, if store then Some(df) else None);
        var w := WriteRatings(df, items, idx, |gens|);
        if w.Ok? {
          WriteRatingsKeeps(df, items, idx, |gens|, w.value);
          RatingsFromKeeps(gens, per, store, engine, w.value, idx + 1);
        }
      }
    }
  }

  /** An empty `matches` list is kept as it is and the first generator's lookup fails. */
  lemma EmptyMatchesFail(gens: seq<RatingGenerator>, store: bool, engine: HistoricalEngine, df: Frame)
    requires |gens| > 0
    ensures RatingsFrom(gens, PerGenerator(FlatMatches([]), |gens|), store, engine, df, 0) == Err(IndexError)
    ensures RatingsFrom(gens, PerGenerator(NestedMatches([]), |gens|), store, engine, df, 0) == Err(IndexError)
  {
  }

  /** One generator's future ratings written into the table, in `features_out` order; a
      feature the engine did not return is a `KeyError`. */
  function WriteFuture(df: Frame, ratings: map<string, seq<Value>>, features: seq<string>, idx: nat, count: nat): Result<Frame>
    decreases |features|
  {
    if features == [] then Ok(df)
    else
      match WriteFuture(df, ratings, features[..|features| - 1], idx, count)
      case Err(e) => Err(e)
      case Ok(d) =>
        var f := features[|features| - 1];
        if f !in ratings then Err(KeyError(f)) else AssignChecked(d, RatingName(f, idx, count), ratings[f])
  }

  /** A successful write keeps every row and column and adds every named feature. */
  lemma {:induction false} WriteFutureEffect(df: Frame, ratings: map<string, seq<Value>>, features: seq<string>, idx: nat, count: nat)
    ensures WriteFuture(df, ratings, features, idx, count).Ok? ==>
      var out := WriteFuture(df, ratings, features, idx, count).value;
      && |out.rows| == |df.rows|
      && (forall c :: c in df.columns ==> c in out.columns)
      && forall f :: f in features ==> f in ratings && RatingName(f, idx, count) in out.columns
    ensures (exists f :: f in features && f !in ratings) ==> WriteFuture(df, ratings, features, idx, count).Err?
    decreases |features|
  {
    if features != [] {
      var init := features[..|features| - 1];
      WriteFutureEffect(df, ratings, init, idx, count);
      assert features == init + [features[|features| - 1]];
    }
  }

  /** `predict`'s loop over the generators from `idx` on. */
  function FutureFrom(gens: seq<RatingGenerator>, engine: FutureEngine, df: Frame, idx: nat): Result<Frame>
    requires idx <= |gens|
    decreases |gens| - idx
  {
    if idx == |gens| then Ok(df)
    else
      var source := FromTable(gens[idx].columnNames, df);
      match WriteFuture(df, engine(idx, source, df), gens[idx].featuresOut, idx, |gens|)
      case Err(e) => Err(e)
      case Ok(d) => FutureFrom(gens, engine, d, idx + 1)
  }

  /** After `predict`'s rating loop the table has every row and column it had and every
      rating feature the predictor was trained on. */
  lemma {:induction false} FutureFromComplete(gens: seq<RatingGenerator>, engine: FutureEngine, df: Frame, idx: nat)
    requires idx <= |gens|
    ensures FutureFrom(gens, engine, df, idx).Ok? ==>
      var out := FutureFrom(gens, engine, df, idx).value;
      && |out.rows| == |df.rows|
      && (forall c :: c in df.columns ==> c in out.columns)
      && forall i, j :: idx <= i < |gens| && 0 <= j < |gens[i].featuresOut| ==>
           RatingName(gens[i].featuresOut[j], i, |gens|) in out.columns
    decreases |gens| - idx
  {
    if idx < |gens| {
      var ratings := engine(idx, FromTable(gens[idx].columnNames, df), df);
      WriteFutureEffect(df, ratings, gens[idx].featuresOut, idx, |gens|);
      var w := WriteFuture(df, ratings, gens[idx].featuresOut, idx, |gens|);
      if w.Ok? {
        FutureFromComplete(gens, engine, w.value, idx + 1);
      }
    }
  }

  /** Every rating feature of the estimator list is a column after `predict`'s rating loop. */
  lemma FutureHasRatingFeatures(gens: seq<RatingGenerator>, engine: FutureEngine, df: Frame, x: string)
    requires FutureFrom(gens, engine, df, 0).Ok?
    requires x in RatingFeatures(gens, |gens|, |gens|)
    ensures x in FutureFrom(gens, engine, df, 0).value.columns
  {
    RatingFeaturesMembership(gens, |gens|, |gens|, x);
    FutureFromComplete(gens, engine, df, 0);
  }

  /** The inner loop of `predict` for generator `idx`. */
  method WriteFutureRatings(df: Frame, ratings: map<string, seq<Value>>, features: seq<string>, idx: nat, count: nat)
    returns (r: Result<Frame>)
    ensures r == WriteFuture(df, ratings, features, idx, count)
  {
    var d := df;
    var j := 0;
    while j < |features|
      invariant j <= |features|
      invariant WriteFuture(df, ratings, features[..j], idx, count) == Ok(d)
    {
      WriteFutureStep(df, ratings, features, idx, count, j, d);
      var f := features[j];
      if f !in ratings || |ratings[f]| != |d.rows| {
        WriteFuturePrefixErr(df, ratings, features, idx, count, j + 1);
        return WriteFuture(df, ratings, features[..j + 1], idx, count);
      }
      var name := if count > 1 then f + NatToString(idx) else f;
      d := Assign(d, name, ratings[f]);
      j := j + 1;
    }
    assert features[..j] == features;
    r := Ok(d);
  }

  /** One more feature written onto a prefix that succeeded. */
  lemma WriteFutureStep(df: Frame, ratings: map<string, seq<Value>>, features: seq<string>, idx: nat, count: nat, j: nat, d: Frame)
    requires j < |features|
    requires WriteFuture(df, ratings, features[..j], idx, count) == Ok(d)
    ensures WriteFuture(df, ratings, features[..j + 1], idx, count) ==
      if features[j] !in ratings then Err(KeyError(features[j]))
      else AssignChecked(d, RatingName(features[j], idx, count), ratings[features[j]])
  {
    assert features[..j + 1][..j] == features[..j];
  }

  /** Once a prefix of the features fails, writing all of them fails with the same error. */
  lemma {:induction false} WriteFuturePrefixErr(df: Frame, ratings: map<string, seq<Value>>, features: seq<string>,
                                               idx: nat, count: nat, k: nat)
    requires k <= |features|
    requires WriteFuture(df, ratings, features[..k], idx, count).Err?
    ensures WriteFuture(df, ratings, features, idx, count) == WriteFuture(df, ratings, features[..k], idx, count)
    decreases |features| - k
  {
    if k < |features| {
      assert features[..k + 1][..k] == features[..k];
      WriteFuturePrefixErr(df, ratings, features, idx, count, k + 1);
    } else {
      assert features[..k] == features;
    }
  }

  /** The loop over the post-rating transformers. */
  method ApplyPost(step: Step, df: Frame, n: nat) returns (r: Frame)
    ensures r == Chain(step, df, n)
  {
    r := df;
    var i := 0;
    while i < n
      invariant i <= n
      invariant r == Chain(step, df, i)
    {
      r := step(i, r);
      i := i + 1;
    }
  }

  /** The `ori_cols + [pred_column]` selection when features are not kept. */
  function Output(df: Frame, oriCols: seq<string>, predColumn: string, keepFeatures: bool): (r: Result<Frame>)
    ensures keepFeatures ==> r == Ok(df)
    ensures !keepFeatures && r.Ok? ==> r.value.columns == oriCols + [predColumn] && |r.value.rows| == |df.rows|
    ensures !keepFeatures ==> (r.Ok? <==> forall c :: c in oriCols + [predColumn] ==> c in df.columns)
  {
    if keepFeatures then Ok(df) else Select(df, oriCols + [predColumn])
  }

  class Pipeline {
    const predictor: Predictor
    const ratingGenerators: seq<RatingGenerator>
    const postRatingTransformers: seq<PostTransformer>
    const columnWeights: Option<seq<seq<ColumnWeight>>>
    const performancesGenerator: Option<Generator>
    const keepFeatures: bool
    const estimatorFeatures: seq<string>

    /** The constructor: the arguments normalised to lists, the estimator features collected,
        and the predictor's target set to `Target`. */
    constructor (predictor: Predictor, ratingGenerators: GeneratorsArg := NoGenerators,
                 performancesGenerator: Option<Generator> := None,
                 postRatingTransformers: Option<seq<PostTransformer>> := None,
                 columnWeights: Option<WeightsArg> := None, keepFeatures: bool := false)
      modifies predictor
      ensures this.predictor == predictor && predictor.target == Target
      ensures this.ratingGenerators == Generators(ratingGenerators)
      ensures this.postRatingTransformers == if postRatingTransformers.Some? then postRatingTransformers.value else []
      ensures this.columnWeights == StoredWeights(columnWeights)
      ensures this.performancesGenerator == performancesGenerator && this.keepFeatures == keepFeatures
      ensures this.estimatorFeatures == EstimatorFeatures(this.postRatingTransformers, this.ratingGenerators)
    {
      var gens := Generators(ratingGenerators);
      var post := if postRatingTransformers.Some? then postRatingTransformers.value else [];
      var features := CollectEstimatorFeatures(post, gens);
      this.predictor := predictor;
      this.ratingGenerators := gens;
      this.postRatingTransformers := post;
      this.columnWeights := StoredWeights(columnWeights);
      this.performancesGenerator := performancesGenerator;
      this.keepFeatures := keepFeatures;
      this.estimatorFeatures := features;
      new;
      predictor.SetTarget(Target);
    }

    /** The table the performances generator's pre-transformations produce from `df`: `df`
        itself when there is no generator or it has no pre-transformations. */
    function PreTransformed(df: Frame, preTransform: Step): (t: Frame)
      ensures performancesGenerator.None? || performancesGenerator.value.preTransformations == [] ==> t == df
    {
      if performancesGenerator.None? then df
      else Chain(preTransform, df, |performancesGenerator.value.preTransformations|)
    }

    /** What `_add_performance` returns. */
    function Performed(df: Frame, preTransform: Step): (r: Result<Frame>)
      reads predictor
      ensures r.Ok? ==> predictor.predColumn !in df.columns && predictor.target in r.value.columns
      ensures r.Ok? && performancesGenerator.None? ==> r.value == df
    {
      if predictor.predColumn in df.columns then Err(ValueError(PredColumnMessage(predictor.predColumn)))
      else
        var generated := if performancesGenerator.Some? then GenerateFrom(performancesGenerator.value, PreTransformed(df, preTransform), 0)
                         else Ok(df);
        if generated.Err? || predictor.target in generated.value.columns then generated
        else Err(ValueError(TargetMessage(predictor.target)))
    }

    /** `_add_performance`: a table that already has the prediction column is refused; the
        performances are generated from the pre-transformed table when there is a generator;
        the target must be present. */
    method AddPerformance(df: Frame, preTransform: Step) returns (r: Result<Frame>)
      ensures r == Performed(df, preTransform)
      ensures predictor.predColumn in df.columns ==> r == Err(ValueError(PredColumnMessage(predictor.predColumn)))
      ensures predictor.predColumn !in df.columns && performancesGenerator.None? ==>
        r == if predictor.target in df.columns then Ok(df) else Err(ValueError(TargetMessage(predictor.target)))
      ensures predictor.predColumn !in df.columns && performancesGenerator.Some? ==>
        var generated := GenerateFrom(performancesGenerator.value, PreTransformed(df, preTransform), 0);
        r == if generated.Err? || predictor.target in generated.value.columns then generated
             else Err(ValueError(TargetMessage(predictor.target)))
      ensures r.Ok? ==> predictor.target in r.value.columns
      ensures r.Ok? && performancesGenerator.Some? ==>
        Complete(performancesGenerator.value, PreTransformed(df, preTransform), r.value, |performancesGenerator.value.columnNames|)
    {
      if predictor.predColumn in df.columns {
        return Err(ValueError(PredColumnMessage(predictor.predColumn)));
      }
      var d := df;
      if performancesGenerator.Some? {
        var generated := Generate(performancesGenerator.value, df, preTransform);
        if generated.Err? {
          return generated;
        }
        d := generated.value;
      }
      if predictor.target !in d.columns {
        return Err(ValueError(TargetMessage(predictor.target)));
      }
      r := Ok(d);
    }

    /** `_add_rating`: every generator's ratings written into the table under their pipeline
        names, generator by generator. */
    method AddRating(matches: MatchesArg, df: Frame, storeRatings: bool, engine: HistoricalEngine) returns (r: Result<Frame>)
      ensures r == RatingsFrom(ratingGenerators, PerGenerator(matches, |ratingGenerators|), storeRatings, engine, df, 0)
      ensures r.Ok? ==> |r.value.rows| == |df.rows| && forall c :: c in df.columns ==> c in r.value.columns
    {
      var per := PerGenerator(matches, |ratingGenerators|);
      RatingsFromKeeps(ratingGenerators, per, storeRatings, engine, df, 0);
      var d := df;
      var idx := 0;
      while idx < |ratingGenerators|
        invariant idx <= |ratingGenerators|
        invariant RatingsFrom(ratingGenerators, per, storeRatings, engine, d, idx) ==
                  RatingsFrom(ratingGenerators, per, storeRatings, engine, df, 0)
      {
        var source: MatchSource;
        if per.None? {
          source := FromTable(ratingGenerators[idx].columnNames, d);
        } else if idx < |per.value| {
          source := Given(per.value[idx]);
        } else {
          return Err(IndexError);
        }
        var items := engine(idx, source, if storeRatings then Some(d) else None);
        var w := WriteRatingItems(d, items, idx, |ratingGenerators|);
        if w.Err? {
          return Err(w.error);
        }
        d := w.value;
        idx := idx + 1;
      }
      r := Ok(d);
    }

    /** `generate_historical`: the target must be present; performances and ratings are
        added, the post-rating transformers fitted, the predictions added, and unless the
        features are kept only the input columns and the prediction column are returned. An
        exception of any step ends the call with that exception. */
    method GenerateHistorical(df: Frame, preTransform: Step, matches: MatchesArg, storeRatings: bool,
                              engine: HistoricalEngine, fitTransform: Step, addPrediction: Frame -> Frame)
      returns (r: Result<Frame>)
      ensures predictor.target !in df.columns ==> r == Err(ValueError(TargetMessage(predictor.target)))
      ensures predictor.target in df.columns ==>
        var performed := Performed(df, preTransform);
        var rated := if performed.Err? then performed
                     else RatingsFrom(ratingGenerators, PerGenerator(matches, |ratingGenerators|), storeRatings, engine, performed.value, 0);
        r == if rated.Err? then rated
             else Output(addPrediction(Chain(fitTransform, rated.value, |postRatingTransformers|)),
                         df.columns, predictor.predColumn, keepFeatures)
      ensures predictor.target in df.columns && predictor.predColumn in df.columns ==>
        r == Err(ValueError(PredColumnMessage(predictor.predColumn)))
      ensures r.Ok? ==> predictor.target in df.columns && predictor.predColumn !in df.columns
      ensures r.Ok? && !keepFeatures ==> r.value.columns == df.columns + [predictor.predColumn]
    {
      if predictor.target !in df.columns {
        return Err(ValueError(TargetMessage(predictor.target)));
      }
      var oriCols := df.columns;
      var performed := AddPerformance(df, preTransform);
      if performed.Err? {
        return performed;
      }
      var rated := AddRating(matches, performed.value, storeRatings, engine);
      if rated.Err? {
        return rated;
      }
      var d := ApplyPost(fitTransform, rated.value, |postRatingTransformers|);
      d := addPrediction(d);
      r := Output(d, oriCols, predictor.predColumn, keepFeatures);
    }

    /** `predict`: every generator's future ratings written under their pipeline names, the
        post-rating transformers applied, the predictions added, and unless the features are
        kept only the input columns and the prediction column returned. */
    method Predict(df: Frame, engine: FutureEngine, transform: Step, addPrediction: Frame -> Frame)
      returns (r: Result<Frame>)
      ensures FutureFrom(ratingGenerators, engine, df, 0).Err? ==> r == FutureFrom(ratingGenerators, engine, df, 0)
      ensures FutureFrom(ratingGenerators, engine, df, 0).Ok? ==>
        r == Output(addPrediction(Chain(transform, FutureFrom(ratingGenerators, engine, df, 0).value, |postRatingTransformers|)),
                    df.columns, predictor.predColumn, keepFeatures)
      ensures r.Ok? && !keepFeatures ==> r.value.columns == df.columns + [predictor.predColumn]
    {
      var d := df;
      var idx := 0;
      while idx < |ratingGenerators|
        invariant idx <= |ratingGenerators|
        invariant FutureFrom(ratingGenerators, engine, d, idx) == FutureFrom(ratingGenerators, engine, df, 0)
      {
        var ratings := engine(idx, FromTable(ratingGenerators[idx].columnNames, d), d);
        var w := WriteFutureRatings(d, ratings, ratingGenerators[idx].featuresOut, idx, |ratingGenerators|);
        if w.Err? {
          return Err(w.error);
        }
        d := w.value;
        idx := idx + 1;
      }
      d := ApplyPost(transform, d, |postRatingTransformers|);
      d := addPrediction(d);
      r := Output(d, df.columns, predictor.predColumn, keepFeatures);
    }
  }
}
