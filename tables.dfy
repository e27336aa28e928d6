/** A pandas DataFrame as the modelled code sees it: an ordered list of column
    names and a list of rows, each row a map from column name to a numeric cell.
    `None` is pandas' missing value (NaN). Identifier columns (match id, team id,
    dates) are numeric cells too: the code only compares them for equality or order. */
module Tables {
  import opened Common

  type Value = Option<real>
  type Row = map<string, Value>

  datatype Frame = Frame(columns: seq<string>, rows: seq<Row>)

  /** Column names are unique and every row has exactly those columns. */
  ghost predicate WellFormed(f: Frame) {
    && Distinct(f.columns)
    && forall i :: 0 <= i < |f.rows| ==> f.rows[i].Keys == (set c | c in f.columns)
  }

  /** The cell `row[name]`, missing when the row has no such column. */
  function Get(row: Row, name: string): Value {
    if name in row then row[name] else None
  }

  /** `df[name]` as a list of cells. */
  function Column(f: Frame, name: string): (c: seq<Value>)
    ensures |c| == |f.rows|
    ensures forall i :: 0 <= i < |c| ==> c[i] == Get(f.rows[i], name)
  {
    seq(|f.rows|, i requires 0 <= i < |f.rows| => Get(f.rows[i], name))
  }

  /** `df[name] = values`: a new column goes last, an existing one is overwritten in place. */
  function Assign(f: Frame, name: string, values: seq<Value>): (g: Frame)
    requires |values| == |f.rows|
    ensures g.columns == if name in f.columns then f.columns else f.columns + [name]
    ensures |g.rows| == |f.rows|
    ensures forall i :: 0 <= i < |g.rows| ==> g.rows[i] == f.rows[i][name := values[i]]
  {
    var columns := if name in f.columns then f.columns else f.columns + [name];
    Frame(columns, seq(|f.rows|, i requires 0 <= i < |f.rows| => f.rows[i][name := values[i]]))
  }

  /** Assigning a column keeps a table well formed. */
  lemma AssignWellFormed(f: Frame, name: string, values: seq<Value>)
    requires |values| == |f.rows|
    requires WellFormed(f)
    ensures WellFormed(Assign(f, name, values))
  {
    var g := Assign(f, name, values);
    forall i | 0 <= i < |g.rows| ensures g.rows[i].Keys == (set c | c in g.columns) {
      assert f.rows[i].Keys == (set c | c in f.columns);
    }
  }

  /** The non-missing cells, in order. */
  function Present(values: seq<Value>): (p: seq<real>)
    ensures |p| <= |values|
    ensures forall x :: x in p <==> Some(x) in values
    decreases |values|
  {
    if values == [] then []
    else
      var init := values[..|values| - 1];
      var last := values[|values| - 1];
      assert forall v :: v in values <==> v in init || v == last by {
        assert values == init + [last];
      }
      Present(init) + (if last.Some? then [last.value] else [])
  }

  /** pandas' `Series.mean()`: missing cells are skipped; with none left the mean is missing. */
  function MeanSkipNa(values: seq<Value>): (m: Value)
    ensures m.Some? <==> exists i :: 0 <= i < |values| && values[i].Some?
  {
    var p := Present(values);
    assert p == [] <==> forall i :: 0 <= i < |values| ==> values[i].None? by {
      if p != [] {
        assert Some(p[0]) in values;
      }
      if exists i :: 0 <= i < |values| && values[i].Some? {
        var i :| 0 <= i < |values| && values[i].Some?;
        assert values[i].value in p;
      }
    }
    if p == [] then None else Some(Mean(p))
  }

  /** pandas' `Series.quantile(p)`, supplied by the caller. */
  type QuantileFn = (seq<Value>, real) -> Value

  /** What the model assumes of a quantile: it does not decrease as `p` grows. */
  ghost predicate IsQuantile(quantile: QuantileFn) {
    forall xs, p, p' :: 0.0 <= p <= p' <= 1.0 && quantile(xs, p).Some? && quantile(xs, p').Some? ==>
      quantile(xs, p).value <= quantile(xs, p').value
  }

  /** The first of `names` that is not a column, if any. */
  function FirstMissing(columns: seq<string>, names: seq<string>): (m: Option<string>)
    ensures m.None? <==> forall n :: n in names ==> n in columns
    ensures m.Some? ==> m.value in names && m.value !in columns
  {
    if names == [] then None
    else if names[0] !in columns then Some(names[0])
    else FirstMissing(columns, names[1..])
  }

  /** `df[names]`: KeyError when a name is not a column; otherwise exactly those columns, in that order. */
  function Select(f: Frame, names: seq<string>): (r: Result<Frame>)
    ensures r.Ok? <==> forall n :: n in names ==> n in f.columns
    ensures r.Ok? ==> r.value.columns == names && |r.value.rows| == |f.rows|
    ensures r.Ok? ==> forall i :: 0 <= i < |f.rows| ==> r.value.rows[i] == map c | c in names && c in f.rows[i] :: f.rows[i][c]
    ensures r.Err? ==> r.error.KeyError? && r.error.key in names && r.error.key !in f.columns
  {
    match FirstMissing(f.columns, names)
    case Some(n) => Err(KeyError(n))
    case None =>
      Ok(Frame(names, seq(|f.rows|, i requires 0 <= i < |f.rows| => map c | c in names && c in f.rows[i] :: f.rows[i][c])))
  }

  /** `df.drop(columns=names)`; every name must be a column. */
  function Drop(f: Frame, names: seq<string>): (r: Result<Frame>)
    ensures r.Ok? <==> forall n :: n in names ==> n in f.columns
    ensures r.Ok? ==> forall c :: c in r.value.columns <==> c in f.columns && c !in names
    ensures r.Ok? ==> |r.value.rows| == |f.rows|
    ensures r.Ok? ==> forall i :: 0 <= i < |f.rows| ==> r.value.rows[i] == f.rows[i] - (set n | n in names)
  {
    match FirstMissing(f.columns, names)
    case Some(n) => Err(KeyError(n))
    case None =>
      Ok(Frame(Without(f.columns, names), seq(|f.rows|, i requires 0 <= i < |f.rows| => f.rows[i] - (set n | n in names))))
  }

  /** `columns` without the members of `names`, order kept. */
  function Without(columns: seq<string>, names: seq<string>): (r: seq<string>)
    ensures forall c :: c in r <==> c in columns && c !in names
    ensures |r| <= |columns|
  {
    if columns == [] then []
    else (if columns[0] in names then [] else [columns[0]]) + Without(columns[1..], names)
  }

  /** A fitted transformer's `fit_transform` or `transform`, known only as a function of its
      position in the chain and the table it receives. */
  type Step = (nat, Frame) -> Frame

  /** The first `k` transformers of a chain applied in order, each to what the previous one
      returned. */
  function Chain(step: Step, df: Frame, k: nat): Frame {
    if k == 0 then df else step(k - 1, Chain(step, df, k - 1))
  }
}
