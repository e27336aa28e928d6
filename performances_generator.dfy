/** `PerformancesGenerator`: turns the stat columns named by each list of column
    weights into one performance column per `ColumnNames`, after a chain of
    pre-transformations. The transformers themselves are not part of this module:
    a transformer is known here only by the feature names it reports, and
    `Generate` receives the table the transformer chain produced. */
module PerformancesGenerator {
  import opened Common
  import opened Tables
  import opened DataStructures
  import opened ColumnWeighting

  /** A fitted pre-transformation, known by its `features_out`. */
  datatype Transformer = Transformer(featuresOut: seq<string>)

  /** `column_weights` as the caller passes it: one flat list, or one list per `ColumnNames`. */
  datatype WeightsArg = FlatWeights(flat: seq<ColumnWeight>) | NestedWeights(nested: seq<seq<ColumnWeight>>)

  /** `column_names` as the caller passes it: a single record or a list. */
  datatype NamesArg = OneColumnNames(one: ColumnNames) | ColumnNamesList(list: seq<ColumnNames>)

  /** `column_weights if isinstance(column_weights[0], list) else [column_weights]`:
      an empty argument fails on `[0]`; a flat list is wrapped, a nested list kept. */
  function WrapWeights(arg: WeightsArg): (r: Result<seq<seq<ColumnWeight>>>)
    ensures r.Err? <==> (arg.FlatWeights? && arg.flat == []) || (arg.NestedWeights? && arg.nested == [])
    ensures r.Err? ==> r.error == IndexError
    ensures r.Ok? && arg.FlatWeights? ==> r.value == [arg.flat]
    ensures r.Ok? && arg.NestedWeights? ==> r.value == arg.nested
  {
    match arg
    case FlatWeights(ws) => if ws == [] then Err(IndexError) else Ok([ws])
    case NestedWeights(wss) => if wss == [] then Err(IndexError) else Ok(wss)
  }

  /** `column_names if isinstance(column_names, list) else [column_names]`. */
  function WrapNames(arg: NamesArg): (r: seq<ColumnNames>)
    ensures arg.OneColumnNames? ==> r == [arg.one]
    ensures arg.ColumnNamesList? ==> r == arg.list
  {
    match arg
    case OneColumnNames(c) => [c]
    case ColumnNamesList(cs) => cs
  }

  // ---------------------------------------------------------------------------
  // Feature-name collection in `auto_create_pre_performance_transformations`.

  /** Every weighted column name, list after list. */
  function AllNames(weights: seq<seq<ColumnWeight>>): seq<string>
    decreases |weights|
  {
    if weights == [] then [] else AllNames(weights[..|weights| - 1]) + Names(weights[|weights| - 1])
  }

  /** The names of `s` without repeats, each kept where it was first seen. */
  function Dedup(s: seq<string>): (d: seq<string>)
    ensures forall x :: x in d <==> x in s
    ensures Distinct(d)
    decreases |s|
  {
    if s == [] then []
    else
      var d := Dedup(s[..|s| - 1]);
      var x := s[|s| - 1];
      assert forall y :: y in s <==> y in s[..|s| - 1] || y == x by {
        assert s == s[..|s| - 1] + [x];
      }
      if x in d then d else d + [x]
  }

  lemma DedupAppend(s: seq<string>, x: string)
    ensures Dedup(s + [x]) == if x in s then Dedup(s) else Dedup(s) + [x]
  {
    assert (s + [x])[..|s|] == s;
  }

  /** Later names never reorder earlier ones: deduplicating a longer list only adds at the end.
      With `Distinct` and membership this pins the first-seen order. */
  lemma {:induction false} DedupPrefix(s: seq<string>, t: seq<string>)
    ensures Dedup(s) <= Dedup(s + t)
    decreases |t|
  {
    if t != [] {
      var t' := t[..|t| - 1];
      DedupPrefix(s, t');
      assert s + t == (s + t') + [t[|t| - 1]];
      DedupAppend(s + t', t[|t| - 1]);
    } else {
      assert s + t == s;
    }
  }

  /** The nested loop that fills `all_feature_names`. */
  method CollectFeatureNames(weights: seq<seq<ColumnWeight>>) returns (names: seq<string>)
    ensures names == Dedup(AllNames(weights))
    ensures Distinct(names)
    ensures forall i, cw :: 0 <= i < |weights| && cw in weights[i] ==> cw.name in names
  {
    names := [];
    var i := 0;
    while i < |weights|
      invariant 0 <= i <= |weights|
      invariant names == Dedup(AllNames(weights[..i]))
    {
      assert AllNames(weights[..i + 1]) == AllNames(weights[..i]) + Names(weights[i]) by {
        assert weights[..i + 1][..i] == weights[..i];
      }
      names := AppendNewNames(names, AllNames(weights[..i]), weights[i]);
      i := i + 1;
    }
    assert weights[..|weights|] == weights;
    forall i, cw | 0 <= i < |weights| && cw in weights[i] ensures cw.name in AllNames(weights) {
      AllNamesContains(weights, i, cw);
    }
  }

  /** The inner loop: append each name of one weight list that is not yet collected. */
  method AppendNewNames(names: seq<string>, ghost seen: seq<string>, cws: seq<ColumnWeight>) returns (out: seq<string>)
    requires names == Dedup(seen)
    ensures out == Dedup(seen + Names(cws))
  {
    out := names;
    ghost var consumed := seen;
    var j := 0;
    while j < |cws|
      invariant 0 <= j <= |cws|
      invariant consumed == seen + Names(cws[..j])
      invariant out == Dedup(consumed)
    {
      DedupNext(consumed, cws[j].name, out);
      NamesNext(cws, j);
      if cws[j].name !in out {
        out := out + [cws[j].name];
      }
      consumed := consumed + [cws[j].name];
      j := j + 1;
    }
    assert cws[..j] == cws;
  }

  /** One step of the inner loop: a name already collected is skipped, a new one appended. */
  lemma DedupNext(consumed: seq<string>, name: string, out: seq<string>)
    requires out == Dedup(consumed)
    ensures name in out ==> Dedup(consumed + [name]) == out
    ensures name !in out ==> Dedup(consumed + [name]) == out + [name]
  {
    DedupAppend(consumed, name);
  }

  /** The names of one more weight. */
  lemma NamesNext(cws: seq<ColumnWeight>, j: nat)
    requires j < |cws|
    ensures Names(cws[..j + 1]) == Names(cws[..j]) + [cws[j].name]
  {
    assert cws[..j + 1][..j] == cws[..j];
  }

  lemma {:induction false} AllNamesContains(weights: seq<seq<ColumnWeight>>, i: nat, cw: ColumnWeight)
    requires i < |weights| && cw in weights[i]
    ensures cw.name in AllNames(weights)
    decreases |weights|
  {
    var k :| 0 <= k < |weights[i]| && weights[i][k] == cw;
    if i == |weights| - 1 {
      assert Names(weights[i])[k] == cw.name;
    } else {
      AllNamesContains(weights[..|weights| - 1], i, cw);
    }
  }

  /** `auto_create_pre_performance_transformations` on the path where no `ColumnNames` carries a
      position: the weights are wrapped (failing on an empty argument), the names collected, and
      the pre-transformations come back unchanged; the symmetric-distribution transformer it
      builds is never appended. */
  method AutoCreatePreTransformations(preTransformations: seq<Transformer>, columnWeights: WeightsArg)
    returns (r: Result<seq<Transformer>>)
    ensures r.Err? <==> WrapWeights(columnWeights).Err?
    ensures r.Err? ==> r.error == IndexError
    ensures r.Ok? ==> r.value == preTransformations
  {
    var wrapped := WrapWeights(columnWeights);
    if wrapped.Err? {
      return Err(wrapped.error);
    }
    var _ := CollectFeatureNames(wrapped.value);
    r := Ok(preTransformations);
  }

  // ---------------------------------------------------------------------------
  // The generator.

  datatype Generator = Generator(
    columnNames: seq<ColumnNames>,
    columnWeights: seq<seq<ColumnWeight>>,
    preTransformations: seq<Transformer>)

  /** `PerformancesGenerator.__init__`; `pre_transformations or []` turns None into no transformers. */
  method NewGenerator(columnWeights: WeightsArg, columnNames: NamesArg, preTransformations: Option<seq<Transformer>> := None)
    returns (r: Result<Generator>)
    ensures r.Err? <==> WrapWeights(columnWeights).Err?
    ensures r.Ok? ==> r.value.columnNames == WrapNames(columnNames)
    ensures r.Ok? ==> r.value.columnWeights == WrapWeights(columnWeights).value
    ensures r.Ok? ==> r.value.preTransformations == if preTransformations.Some? then preTransformations.value else []
  {
    var names := WrapNames(columnNames);
    var weights := WrapWeights(columnWeights);
    if weights.Err? {
      return Err(weights.error);
    }
    var pre := if preTransformations.Some? then preTransformations.value else [];
    var created := AutoCreatePreTransformations(pre, columnWeights);
    r := Ok(Generator(names, weights.value, created.value));
  }

  /** `features_out`: the performance column of each `ColumnNames`, in order. */
  function FeaturesOut(g: Generator): (names: seq<string>)
    ensures |names| == |g.columnNames|
    ensures forall i :: 0 <= i < |names| ==> names[i] == g.columnNames[i].performance
  {
    seq(|g.columnNames|, i requires 0 <= i < |g.columnNames| => g.columnNames[i].performance)
  }

  /** The index of the last weight with this name, if any. */
  function LastIndexOf(cws: seq<ColumnWeight>, name: string): (k: int)
    ensures -1 <= k < |cws|
    ensures k >= 0 ==> cws[k].name == name
    ensures forall j :: k < j < |cws| ==> cws[j].name != name
    decreases |cws|
  {
    if cws == [] then -1
    else if cws[|cws| - 1].name == name then |cws| - 1
    else LastIndexOf(cws[..|cws| - 1], name)
  }

  /** `{w.name: features_out[j] for j, w in enumerate(weights)}`: IndexError when the last
      transformer reports fewer names than there are weights; a repeated name keeps its last entry. */
  function ColumnMapping(cws: seq<ColumnWeight>, featuresOut: seq<string>): (r: Result<map<string, string>>)
    ensures r.Ok? <==> |cws| <= |featuresOut|
    ensures r.Err? ==> r.error == IndexError
    decreases |cws|
  {
    if cws == [] then Ok(map[])
    else
      var init := cws[..|cws| - 1];
      var last := cws[|cws| - 1];
      match ColumnMapping(init, featuresOut)
      case Err(e) => Err(e)
      case Ok(m) =>
        if |cws| - 1 < |featuresOut| then Ok(m[last.name := featuresOut[|cws| - 1]]) else Err(IndexError)
  }

  /** The mapping sends each weighted name to the transformer output at the position of its
      last occurrence, and has no other keys. */
  lemma {:induction false} ColumnMappingEntries(cws: seq<ColumnWeight>, featuresOut: seq<string>)
    requires |cws| <= |featuresOut|
    ensures ColumnMapping(cws, featuresOut).value.Keys == set cw | cw in cws :: cw.name
    ensures forall name :: name in ColumnMapping(cws, featuresOut).value ==>
      0 <= LastIndexOf(cws, name) && ColumnMapping(cws, featuresOut).value[name] == featuresOut[LastIndexOf(cws, name)]
    decreases |cws|
  {
    if cws != [] {
      var init := cws[..|cws| - 1];
      var last := cws[|cws| - 1];
      assert forall cw :: cw in cws <==> cw in init || cw == last by {
        assert cws == init + [last];
      }
      ColumnMappingEntries(init, featuresOut);
    }
  }

  /** The mapping `generate` passes to `_weight_columns`: none without pre-transformations,
      otherwise the names reported by the last transformer. */
  function MappingFor(g: Generator, idx: nat): Result<Option<map<string, string>>>
    requires idx < |g.columnWeights|
  {
    if g.preTransformations == [] then Ok(None)
    else
      match ColumnMapping(g.columnWeights[idx], g.preTransformations[|g.preTransformations| - 1].featuresOut)
      case Err(e) => Err(e)
      case Ok(m) => Ok(Some(m))
  }

  /** `df[performance] = column`, then the check that no value of it is missing. */
  function WritePerformance(df: Frame, name: string, column: seq<Value>): (r: Result<Frame>)
    requires |column| == |df.rows|
    ensures r.Err? <==> exists i :: 0 <= i < |column| && column[i].None?
    ensures r.Err? ==> r.error == ValueError("performance contains nan values")
    ensures r.Ok? ==> r.value == Assign(df, name, column)
    ensures r.Ok? ==> forall i :: 0 <= i < |df.rows| ==> Get(r.value.rows[i], name).Some?
  {
    if exists i :: 0 <= i < |column| && column[i].None?
    then Err(ValueError("performance contains nan values"))
    else
      var out := Assign(df, name, column);
      assert forall i :: 0 <= i < |df.rows| ==> Get(out.rows[i], name) == column[i];
      Ok(out)
  }

  /** One pass of the loop in `generate`: build the mapping, weight the columns, write the
      performance column and reject a missing value. */
  function GenerateOne(g: Generator, df: Frame, idx: nat): Result<Frame>
    requires idx < |g.columnNames|
  {
    if idx >= |g.columnWeights| then Err(IndexError)
    else
      match MappingFor(g, idx)
      case Err(e) => Err(e)
      case Ok(m) =>
        match WeightedColumn(df, g.columnWeights[idx], m)
        case Err(e) => Err(e)
        case Ok(column) => WritePerformance(df, g.columnNames[idx].performance, column)
  }

  /** What one successful pass leaves behind: the rows are kept, every old column stays, the
      performance column is there with no missing value, and every other cell is unchanged. */
  ghost predicate Keeps(d: Frame, out: Frame, name: string) {
    && |out.rows| == |d.rows|
    && (forall c :: c in d.columns ==> c in out.columns)
    && name in out.columns
    && (forall i :: 0 <= i < |d.rows| ==> Get(out.rows[i], name).Some?)
    && (forall i, c :: 0 <= i < |d.rows| && c != name ==> Get(out.rows[i], c) == Get(d.rows[i], c))
  }

  /** A successful pass keeps the table as `Keeps` says. */
  lemma PassKeeps(g: Generator, d: Frame, idx: nat, out: Frame)
    requires idx < |g.columnNames|
    requires GenerateOne(g, d, idx) == Ok(out)
    ensures Keeps(d, out, g.columnNames[idx].performance)
  {
  }

  /** `generate`'s loop from pass `idx` on, stopping at the first pass that raises. */
  function GenerateFrom(g: Generator, df: Frame, idx: nat): Result<Frame>
    requires idx <= |g.columnNames|
    decreases |g.columnNames| - idx
  {
    if idx == |g.columnNames| then Ok(df)
    else
      match GenerateOne(g, df, idx)
      case Err(e) => Err(e)
      case Ok(d) => GenerateFrom(g, d, idx + 1)
  }

  /** One pass of `generate`'s loop, computed with the loops of `_weight_columns`. */
  method GenerateStep(g: Generator, df: Frame, idx: nat) returns (r: Result<Frame>)
    requires idx < |g.columnNames|
    ensures r == GenerateOne(g, df, idx)
  {
    if idx >= |g.columnWeights| {
      return Err(IndexError);
    }
    var cws := g.columnWeights[idx];
    var mapping: Option<map<string, string>> := None;
    if g.preTransformations != [] {
      var m := ColumnMapping(cws, g.preTransformations[|g.preTransformations| - 1].featuresOut);
      if m.Err? {
        return Err(m.error);
      }
      mapping := Some(m.value);
    }
    assert MappingFor(g, idx) == Ok(mapping);
    var column := WeightColumns(df, cws, mapping);
    if column.Err? {
      return Err(column.error);
    }
    var name := g.columnNames[idx].performance;
    var k := 0;
    while k < |column.value|
      invariant 0 <= k <= |column.value|
      invariant forall i :: 0 <= i < k ==> column.value[i].Some?
    {
      if column.value[k].None? {
        assert WritePerformance(df, name, column.value).Err?;
        return Err(ValueError("performance contains nan values"));
      }
      k := k + 1;
    }
    r := Ok(Assign(df, name, column.value));
  }

  /** The pass at `idx`: its error ends `generate`, and its table is where the rest starts. */
  method GenerateNext(g: Generator, df0: Frame, idx: nat, df: Frame) returns (r: Result<Frame>)
    requires idx < |g.columnNames|
    requires Complete(g, df0, df, idx)
    ensures r.Err? ==> r == GenerateFrom(g, df, idx)
    ensures r.Ok? ==> GenerateFrom(g, r.value, idx + 1) == GenerateFrom(g, df, idx)
    ensures r.Ok? ==> Complete(g, df0, r.value, idx + 1)
  {
    r := GenerateStep(g, df, idx);
    if r.Ok? {
      PassKeeps(g, df, idx, r.value);
      CompleteStep(g, df0, df, r.value, idx + 1);
    }
  }

  /** `generate`: the pre-transformations' `fit_transform`s applied to `df` in order (none
      when the list is empty, so the passes read `df` itself), then one pass per
      `ColumnNames`. On success every column of `features_out` is in the table, the row
      count is kept, and no performance value is missing. */
  method Generate(g: Generator, df: Frame, fitTransform: Step) returns (r: Result<Frame>)
    ensures r == GenerateFrom(g, Chain(fitTransform, df, |g.preTransformations|), 0)
    ensures g.preTransformations == [] ==> r == GenerateFrom(g, df, 0)
    ensures r.Ok? ==> Complete(g, Chain(fitTransform, df, |g.preTransformations|), r.value, |g.columnNames|)
  {
    var transformed := df;
    var t := 0;
    while t < |g.preTransformations|
      invariant t <= |g.preTransformations|
      invariant transformed == Chain(fitTransform, df, t)
    {
      transformed := fitTransform(t, transformed);
      t := t + 1;
    }
    var d := transformed;
    var idx := 0;
    while idx < |g.columnNames|
      invariant 0 <= idx <= |g.columnNames|
      invariant GenerateFrom(g, d, idx) == GenerateFrom(g, transformed, 0)
      invariant Complete(g, transformed, d, idx)
    {
      var step := GenerateNext(g, transformed, idx, d);
      if step.Err? {
        return step;
      }
      d := step.value;
      idx := idx + 1;
    }
    r := Ok(d);
  }

  /** The table `out` holds every column of `df`, as many rows, and the first `k` columns of
      `features_out` with no missing value. */
  ghost predicate Complete(g: Generator, df: Frame, out: Frame, k: nat)
    requires k <= |g.columnNames|
  {
    && |out.rows| == |df.rows|
    && (forall c :: c in df.columns ==> c in out.columns)
    && forall j :: 0 <= j < k ==>
      (FeaturesOut(g)[j] in out.columns && forall i :: 0 <= i < |out.rows| ==> Get(out.rows[i], FeaturesOut(g)[j]).Some?)
  }

  /** One more successful pass extends completeness by one column. */
  lemma CompleteStep(g: Generator, df: Frame, d: Frame, out: Frame, k: nat)
    requires 0 < k <= |g.columnNames|
    requires Complete(g, df, d, k - 1)
    requires Keeps(d, out, g.columnNames[k - 1].performance)
    ensures Complete(g, df, out, k)
  {
    var name := g.columnNames[k - 1].performance;
    forall j | 0 <= j < k
      ensures FeaturesOut(g)[j] in out.columns
      ensures forall i :: 0 <= i < |out.rows| ==> Get(out.rows[i], FeaturesOut(g)[j]).Some?
    {
      if j < k - 1 && FeaturesOut(g)[j] != name {
        forall i | 0 <= i < |out.rows| ensures Get(out.rows[i], FeaturesOut(g)[j]).Some? {
          assert Get(out.rows[i], FeaturesOut(g)[j]) == Get(d.rows[i], FeaturesOut(g)[j]);
        }
      }
    }
  }
}
