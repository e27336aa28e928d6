/** Time-ordered cross-validation. Both validators cut the table into a training part and a
    validation part several times over, always training on rows numbered below the cut and
    validating on the rows just above it. The predictor and the post-transformers are not
    part of this model: a split is described by the row indices of its blocks, and the
    output by the blocks handed to `add_prediction`, in the order they are concatenated. */
module CrossValidator {
  import opened Common

  // ---------------------------------------------------------------------------
  // Numbering.

  /** The distinct values in order of first appearance (`pd.factorize`'s uniques,
      `Series.unique()`). */
  function Uniques<T(==,!new)>(s: seq<T>): (u: seq<T>)
    ensures Distinct(u)
    ensures forall x :: x in u <==> x in s
    ensures |u| <= |s|
    decreases |s|
  {
    if s == [] then []
    else
      var init := s[..|s| - 1];
      var x := s[|s| - 1];
      assert forall y :: y in s <==> y in init || y == x by {
        assert s == init + [x];
      }
      var u := Uniques(init);
      if x in u then u else u + [x]
  }

  /** The position of a value in a sequence that holds it. */
  function IndexOf<T(==,!new)>(s: seq<T>, x: T): (i: nat)
    requires x in s
    ensures i < |s| && s[i] == x
    ensures forall j :: 0 <= j < i ==> s[j] != x
  {
    if s[0] == x then 0 else 1 + IndexOf(s[1..], x)
  }

  /** `pd.factorize(ids)[0]`: each row's index among the distinct ids in order of first
      appearance. */
  function Factorize<T(==,!new)>(ids: seq<T>): (codes: seq<int>)
    ensures |codes| == |ids|
    ensures forall i :: 0 <= i < |ids| ==> 0 <= codes[i] < |Uniques(ids)| && Uniques(ids)[codes[i]] == ids[i]
  {
    var u := Uniques(ids);
    seq(|ids|, i requires 0 <= i < |ids| => IndexOf(u, ids[i]))
  }

  /** Rows share a match number exactly when they share a match id. */
  lemma FactorizeSameId<T(!new)>(ids: seq<T>, i: nat, j: nat)
    requires i < |ids| && j < |ids|
    ensures Factorize(ids)[i] == Factorize(ids)[j] <==> ids[i] == ids[j]
  {
    var u := Uniques(ids);
    assert Factorize(ids)[i] == IndexOf(u, ids[i]) && Factorize(ids)[j] == IndexOf(u, ids[j]);
  }

  /** Numbers are handed out in order of first appearance: the first row gets 0, and a row's
      number is at most one more than every number before it. */
  lemma {:induction false} FactorizeFirstAppearance<T(!new)>(ids: seq<T>, i: nat)
    requires i < |ids|
    ensures Factorize(ids)[i] <= |Uniques(ids[..i])|
    ensures Factorize(ids)[i] == |Uniques(ids[..i])| <==> ids[i] !in ids[..i]
  {
    var u := Uniques(ids);
    var p := Uniques(ids[..i]);
    UniquesPrefix(ids, i);
    assert p <= u;
    if ids[i] in ids[..i] {
      var k := IndexOf(p, ids[i]);
      assert u[k] == ids[i];
      assert IndexOf(u, ids[i]) <= k;
    } else {
      UniquesPrefix(ids, i + 1);
      assert ids[..i + 1] == ids[..i] + [ids[i]];
      assert Uniques(ids[..i + 1]) == p + [ids[i]];
      assert u[|p|] == ids[i];
      assert forall j :: 0 <= j < |p| ==> u[j] == p[j] && p[j] in ids[..i];
    }
  }

  /** The uniques of a prefix are a prefix of the uniques. */
  lemma {:induction false} UniquesPrefix<T(!new)>(s: seq<T>, k: nat)
    requires k <= |s|
    ensures Uniques(s[..k]) <= Uniques(s)
    decreases |s| - k
  {
    if k < |s| {
      UniquesPrefix(s, k + 1);
      assert s[..k + 1][..k] == s[..k];
    } else {
      assert s[..k] == s;
    }
  }

  /** The largest match number, or -1 for an empty table (where pandas' NaN selects no rows,
      as -1 does). */
  function MaxCode<T(==,!new)>(ids: seq<T>): int {
    |Uniques(ids)| - 1
  }

  // ---------------------------------------------------------------------------
  // Windows.

  /** `lo <= x < hi`, either bound possibly absent. */
  function In(x: real, lo: Option<real>, hi: Option<real>): bool {
    (lo.None? || lo.value <= x) && (hi.None? || x < hi.value)
  }

  /** The rows whose number lies in the window, in row order (a boolean mask on the table). */
  function Window(numbers: seq<real>, lo: Option<real>, hi: Option<real>): seq<nat> {
    Mask(numbers, lo, hi, |numbers|)
  }

  /** The mask over the first `k` rows. */
  function Mask(numbers: seq<real>, lo: Option<real>, hi: Option<real>, k: nat): seq<nat>
    requires k <= |numbers|
  {
    if k == 0 then [] else Mask(numbers, lo, hi, k - 1) + (if In(numbers[k - 1], lo, hi) then [k - 1] else [])
  }

  /** A row is in the mask over the first `k` rows exactly when it is one of them and its
      number lies between the bounds. */
  lemma {:induction false} InMask(numbers: seq<real>, lo: Option<real>, hi: Option<real>, k: nat, i: int)
    requires k <= |numbers|
    ensures i in Mask(numbers, lo, hi, k) <==> 0 <= i < k && In(numbers[i], lo, hi)
  {
    if k > 0 {
      InMask(numbers, lo, hi, k - 1, i);
    }
  }

  /** A row is in the window exactly when its number lies between the bounds. */
  lemma InWindow(numbers: seq<real>, lo: Option<real>, hi: Option<real>, i: int)
    ensures i in Window(numbers, lo, hi) <==> 0 <= i < |numbers| && In(numbers[i], lo, hi)
  {
    InMask(numbers, lo, hi, |numbers|, i);
  }

  /** Row indices listed in strictly increasing order. */
  predicate Increasing(w: seq<nat>) {
    forall a, b :: 0 <= a < b < |w| ==> w[a] < w[b]
  }

  /** The mask keeps table order. */
  lemma {:induction false} MaskIncreasing(numbers: seq<real>, lo: Option<real>, hi: Option<real>, k: nat)
    requires k <= |numbers|
    ensures Increasing(Mask(numbers, lo, hi, k))
  {
    if k > 0 {
      var p := Mask(numbers, lo, hi, k - 1);
      MaskIncreasing(numbers, lo, hi, k - 1);
      if In(numbers[k - 1], lo, hi) {
        var w := p + [k - 1];
        forall a, b | 0 <= a < b < |w| ensures w[a] < w[b] {
          if b < |p| {
            assert w[a] == p[a] && w[b] == p[b];
          } else {
            InMask(numbers, lo, hi, k - 1, p[a]);
            assert w[a] == p[a] && w[b] == k - 1;
          }
        }
      }
    }
  }

  /** The rows of a window are strictly increasing: the window keeps table order. */
  lemma WindowIncreasing(numbers: seq<real>, lo: Option<real>, hi: Option<real>)
    ensures Increasing(Window(numbers, lo, hi))
  {
    MaskIncreasing(numbers, lo, hi, |numbers|);
  }

  /** Integer match numbers as the reals the windows compare. */
  function AsReal(codes: seq<int>): (r: seq<real>)
    ensures |r| == |codes| && forall i :: 0 <= i < |codes| ==> r[i] == codes[i] as real
  {
    seq(|codes|, i requires 0 <= i < |codes| => codes[i] as real)
  }

  /** Training rows always come before the validation rows of the same cut: every training
      number is below the cut and every validation number at or above it. */
  lemma NoLookAhead(numbers: seq<real>, cut: real, hi: Option<real>, a: nat, b: nat)
    requires a in Window(numbers, None, Some(cut)) && b in Window(numbers, Some(cut), hi)
    ensures a < |numbers| && b < |numbers|
    ensures numbers[a] < numbers[b]
  {
    InWindow(numbers, None, Some(cut), a);
    InWindow(numbers, Some(cut), hi, b);
  }

  /** Moving the cut up by a non-negative step adds exactly the window it passes over. */
  lemma TrainGrows(numbers: seq<real>, cut: real, step: real, i: nat)
    requires step >= 0.0 && i < |numbers|
    ensures i in Window(numbers, None, Some(cut + step))
      <==> i in Window(numbers, None, Some(cut)) || i in Window(numbers, Some(cut), Some(cut + step))
  {
    InWindow(numbers, None, Some(cut + step), i);
    InWindow(numbers, None, Some(cut), i);
    InWindow(numbers, Some(cut), Some(cut + step), i);
  }

  // ---------------------------------------------------------------------------
  // MatchCountCrossValidator.

  /** The validation window of split `i`: `vmc` match numbers starting `i` steps above `cut0`. */
  function MatchWindow(numbers: seq<real>, cut0: int, vmc: int, i: int): seq<nat> {
    Window(numbers, Some((cut0 + i * vmc) as real), Some((cut0 + i * vmc + vmc) as real))
  }

  /** The blocks split `i` hands over: the training block first when this is the first split
      and training predictions are asked for, then the validation window. */
  function MatchCountSplit(numbers: seq<real>, cut0: int, vmc: int, i: nat, addTrain: bool): seq<seq<nat>> {
    (if addTrain && i == 0 then [Window(numbers, None, Some(cut0 as real))] else []) + [MatchWindow(numbers, cut0, vmc, i)]
  }

  /** The blocks of the first `k` splits, in concatenation order. */
  function MatchCountPrefix(numbers: seq<real>, cut0: int, vmc: int, k: nat, addTrain: bool): (blocks: seq<seq<nat>>)
    ensures |blocks| == k + (if addTrain && k > 0 then 1 else 0)
    decreases k
  {
    if k == 0 then []
    else MatchCountPrefix(numbers, cut0, vmc, k - 1, addTrain) + MatchCountSplit(numbers, cut0, vmc, k - 1, addTrain)
  }

  /** The output starts with the first training block when it is asked for, and block
      `i` after it is the validation window of split `i`. */
  lemma {:induction false} MatchCountPrefixBlock(numbers: seq<real>, cut0: int, vmc: int, k: nat, addTrain: bool, i: nat)
    requires i < k
    ensures addTrain ==> MatchCountPrefix(numbers, cut0, vmc, k, addTrain)[0] == Window(numbers, None, Some(cut0 as real))
    ensures MatchCountPrefix(numbers, cut0, vmc, k, addTrain)[i + (if addTrain then 1 else 0)] == MatchWindow(numbers, cut0, vmc, i)
    decreases k
  {
    var prev := MatchCountPrefix(numbers, cut0, vmc, k - 1, addTrain);
    var split := MatchCountSplit(numbers, cut0, vmc, k - 1, addTrain);
    assert MatchCountPrefix(numbers, cut0, vmc, k, addTrain) == prev + split;
    if k > 1 {
      MatchCountPrefixBlock(numbers, cut0, vmc, k - 1, addTrain, if i < k - 1 then i else 0);
    }
  }

  /** The first cut: the last `vmc * nSplits` match numbers are validated. */
  function FirstCut(maxCode: int, vmc: int, nSplits: int): int {
    maxCode - vmc * nSplits + 1
  }

  /** `MatchCountCrossValidator.generate_validation_df`: with no split the empty list cannot be
      concatenated (ValueError); a `None` list of post-transformers cannot be iterated (TypeError). */
  function MatchCountBlocks<T(==,!new)>(ids: seq<T>, vmc: int, nSplits: int, postTransformersNone: bool, addTrain: bool)
    : (r: Result<seq<seq<nat>>>)
    ensures nSplits <= 0 <==> r == Err(ValueError("No objects to concatenate"))
    ensures r.Ok? ==> |r.value| == nSplits + (if addTrain then 1 else 0)
  {
    if nSplits <= 0 then Err(ValueError("No objects to concatenate"))
    else if postTransformersNone then Err(TypeError("'NoneType' object is not iterable"))
    else Ok(MatchCountPrefix(AsReal(Factorize(ids)), FirstCut(MaxCode(ids), vmc, nSplits), vmc, nSplits, addTrain))
  }

  class MatchCountCrossValidator {
    const matchIdColumnName: string
    const validationMatchCount: int
    const nSplits: int

    constructor (matchIdColumnName: string, validationMatchCount: int, nSplits: int := 3)
      ensures this.matchIdColumnName == matchIdColumnName
      ensures this.validationMatchCount == validationMatchCount && this.nSplits == nSplits
    {
      this.matchIdColumnName := matchIdColumnName;
      this.validationMatchCount := validationMatchCount;
      this.nSplits := nSplits;
    }

    /** The split loop: the cut advances by `validation_match_count` after every split, and the
        training and validation blocks are recomputed from it. */
    method GenerateValidationBlocks(matchIds: seq<string>, postTransformersNone: bool, addTrain: bool)
      returns (r: Result<seq<seq<nat>>>)
      ensures r == MatchCountBlocks(matchIds, validationMatchCount, nSplits, postTransformersNone, addTrain)
    {
      var numbers := AsReal(Factorize(matchIds));
      var cut0 := FirstCut(MaxCode(matchIds), validationMatchCount, nSplits);
      var cut := cut0;
      var step := validationMatchCount;
      var train := Window(numbers, None, Some(cut as real));
      var validation := Window(numbers, Some(cut as real), Some((cut + step) as real));
      var blocks: seq<seq<nat>> := [];
      var idx := 0;
      while idx < nSplits
        invariant 0 <= idx && (nSplits > 0 ==> idx <= nSplits) && (nSplits <= 0 ==> idx == 0)
        invariant idx > 0 ==> !postTransformersNone
        invariant cut == cut0 + idx * step
        invariant idx == 0 ==> train == Window(numbers, None, Some(cut0 as real))
        invariant validation == MatchWindow(numbers, cut0, step, idx)
        invariant blocks == MatchCountPrefix(numbers, cut0, step, idx, addTrain)
      {
        if postTransformersNone {
          return Err(TypeError("'NoneType' object is not iterable"));
        }
        ghost var prev := blocks;
        if idx == 0 && addTrain {
          blocks := blocks + [train];
        }
        blocks := blocks + [validation];
        assert blocks == prev + MatchCountSplit(numbers, cut0, step, idx, addTrain);
        MulSucc(idx, step);
        cut := cut + step;
        train := Window(numbers, None, Some(cut as real));
        validation := Window(numbers, Some(cut as real), Some((cut + step) as real));
        idx := idx + 1;
      }
      if blocks == [] {
        return Err(ValueError("No objects to concatenate"));
      }
      r := Ok(blocks);
    }
  }

  lemma MulSucc(a: int, b: int)
    ensures (a + 1) * b == a * b + b
  {
  }

  lemma MulMonotone(a: int, b: int, c: int)
    requires a <= b && c > 0
    ensures a * c <= b * c
  {
  }

  lemma InMatchWindow(numbers: seq<int>, cut0: int, vmc: int, i: int, row: nat)
    requires row < |numbers|
    ensures row in MatchWindow(AsReal(numbers), cut0, vmc, i) <==> cut0 + i * vmc <= numbers[row] < cut0 + i * vmc + vmc
  {
    InWindow(AsReal(numbers), Some((cut0 + i * vmc) as real), Some((cut0 + i * vmc + vmc) as real), row);
  }

  /** A number in `[cut0, cut0 + n*vmc)` lies in the window of split `(x - cut0) / vmc`. */
  lemma TileFind(x: int, cut0: int, vmc: int, n: int) returns (j: int)
    requires vmc > 0 && cut0 <= x < cut0 + n * vmc
    ensures 0 <= j < n && cut0 + j * vmc <= x < cut0 + j * vmc + vmc
  {
    j := (x - cut0) / vmc;
    var rem := (x - cut0) % vmc;
    assert x - cut0 == j * vmc + rem && 0 <= rem < vmc;
    if j < 0 {
      MulMonotone(j, -1, vmc);
    }
    if j >= n {
      MulMonotone(n, j, vmc);
    }
  }

  /** Every window of a split lies inside `[cut0, cut0 + n*vmc)`. */
  lemma TileBound(x: int, cut0: int, vmc: int, n: int, i: int)
    requires vmc > 0 && 0 <= i < n && cut0 + i * vmc <= x < cut0 + i * vmc + vmc
    ensures cut0 <= x < cut0 + n * vmc
  {
    MulMonotone(0, i, vmc);
    MulMonotone(i + 1, n, vmc);
    MulSucc(i, vmc);
  }

  /** Two windows that share a number are the same window. */
  lemma TileUnique(x: int, cut0: int, vmc: int, i: int, j: int)
    requires vmc > 0
    requires cut0 + i * vmc <= x < cut0 + i * vmc + vmc && cut0 + j * vmc <= x < cut0 + j * vmc + vmc
    ensures i == j
  {
    if i < j {
      MulMonotone(i + 1, j, vmc);
      MulSucc(i, vmc);
    } else if j < i {
      MulMonotone(j + 1, i, vmc);
      MulSucc(j, vmc);
    }
  }

  /** With a positive window width, the validation windows of the splits together hold
      exactly the rows whose match number is among the last `vmc * nSplits`. */
  lemma MatchCountCover(numbers: seq<int>, maxCode: int, vmc: int, nSplits: int, row: nat)
    requires vmc > 0 && nSplits > 0 && row < |numbers|
    ensures (exists i :: 0 <= i < nSplits && row in MatchWindow(AsReal(numbers), FirstCut(maxCode, vmc, nSplits), vmc, i))
      <==> maxCode - vmc * nSplits < numbers[row] <= maxCode
  {
    var cut0 := FirstCut(maxCode, vmc, nSplits);
    var x := numbers[row];
    if maxCode - vmc * nSplits < x <= maxCode {
      var i := TileFind(x, cut0, vmc, nSplits);
      InMatchWindow(numbers, cut0, vmc, i, row);
    } else {
      forall i | 0 <= i < nSplits ensures row !in MatchWindow(AsReal(numbers), cut0, vmc, i) {
        InMatchWindow(numbers, cut0, vmc, i, row);
        if cut0 + i * vmc <= x < cut0 + i * vmc + vmc {
          TileBound(x, cut0, vmc, nSplits, i);
        }
      }
    }
  }

  /** No row is validated by two splits. */
  lemma MatchCountDisjoint(numbers: seq<int>, maxCode: int, vmc: int, nSplits: int, row: nat, i: int, j: int)
    requires vmc > 0 && nSplits > 0 && row < |numbers|
    requires 0 <= i < nSplits && 0 <= j < nSplits
    requires row in MatchWindow(AsReal(numbers), FirstCut(maxCode, vmc, nSplits), vmc, i)
    requires row in MatchWindow(AsReal(numbers), FirstCut(maxCode, vmc, nSplits), vmc, j)
    ensures i == j
  {
    var cut0 := FirstCut(maxCode, vmc, nSplits);
    InMatchWindow(numbers, cut0, vmc, i, row);
    InMatchWindow(numbers, cut0, vmc, j, row);
    TileUnique(numbers[row], cut0, vmc, i, j);
  }

  /** The validator's output: after the optional training block, the validation blocks hold
      exactly the rows of the last `vmc * nSplits` distinct matches, each row once. */
  lemma MatchCountValidatesLastMatches<T(!new)>(ids: seq<T>, vmc: int, nSplits: int, addTrain: bool, row: nat)
    requires vmc > 0 && nSplits > 0 && row < |ids|
    ensures var blocks := MatchCountBlocks(ids, vmc, nSplits, false, addTrain).value;
      var validation := blocks[if addTrain then 1 else 0..];
      (exists i :: 0 <= i < nSplits && row in validation[i]) <==> Factorize(ids)[row] > MaxCode(ids) - vmc * nSplits
  {
    var codes := Factorize(ids);
    var cut0 := FirstCut(MaxCode(ids), vmc, nSplits);
    var blocks := MatchCountPrefix(AsReal(codes), cut0, vmc, nSplits, addTrain);
    var off := if addTrain then 1 else 0;
    var validation := blocks[off..];
    forall i | 0 <= i < nSplits ensures validation[i] == MatchWindow(AsReal(codes), cut0, vmc, i) {
      MatchCountPrefixBlock(AsReal(codes), cut0, vmc, nSplits, addTrain, i);
    }
    MatchCountCover(codes, MaxCode(ids), vmc, nSplits, row);
    assert codes[row] <= MaxCode(ids);
  }

  // ---------------------------------------------------------------------------
  // MatchKFoldCrossValidator.

  /** The first row whose date is at or after `from`, if any: the smallest row number of
      `df[df[date] >= min_validation_date]`. */
  function FirstFrom(dates: seq<int>, from: int): (m: Option<nat>)
    ensures m.Some? ==> m.value < |dates| && dates[m.value] >= from
    ensures m.Some? ==> forall i :: 0 <= i < m.value ==> dates[i] < from
    ensures m.None? ==> forall i :: 0 <= i < |dates| ==> dates[i] < from
  {
    if dates == [] then None
    else if dates[0] >= from then Some(0)
    else match FirstFrom(dates[1..], from)
      case None => None
      case Some(k) => Some(k + 1)
  }

  /** Row positions as the numbers the windows compare. */
  function Positions(n: nat): (p: seq<real>)
    ensures |p| == n && forall i :: 0 <= i < n ==> p[i] == i as real
  {
    seq(n, i requires 0 <= i < n => i as real)
  }

  /** The cut of split `i`: the first validation row plus `i` real-valued steps. */
  function KCut(first: nat, step: real, i: nat): real {
    first as real + i as real * step
  }

  /** The validation window of split `i`: one step wide, except that the window prepared after
      split `nSplits - 2`, the last one, runs to the end of the table. */
  function KValidation(rows: nat, first: nat, step: real, nSplits: int, i: nat): seq<nat> {
    if nSplits >= 2 && i == nSplits - 1 then Window(Positions(rows), Some(KCut(first, step, i)), None)
    else Window(Positions(rows), Some(KCut(first, step, i)), Some(KCut(first, step, i) + step))
  }

  /** The blocks split `i` hands over: the training block first when this is the first split
      and training predictions are asked for, then the validation window. When no row reaches
      the validation date, every comparison is with NaN and both blocks are empty. */
  function KSplit(rows: nat, first: Option<nat>, nSplits: int, i: nat, addTrain: bool): seq<seq<nat>> {
    (if addTrain && i == 0 then [KTrain(rows, first)] else []) + [KVal(rows, first, nSplits, i)]
  }

  /** The first training block: every row before the first validation row. */
  function KTrain(rows: nat, first: Option<nat>): seq<nat> {
    if first.None? then [] else Window(Positions(rows), None, Some(first.value as real))
  }

  /** The validation block of split `i`. */
  function KVal(rows: nat, first: Option<nat>, nSplits: int, i: nat): seq<nat> {
    if first.None? then [] else KValidation(rows, first.value, KStep(rows, first.value, nSplits), nSplits, i)
  }

  /** Advancing the cut by one step gives the cut, and the window, of the next split. */
  lemma KFoldAdvance(rows: nat, first: nat, nSplits: int, idx: nat, cut: real)
    requires cut == KCut(first, KStep(rows, first, nSplits), idx)
    ensures var step := KStep(rows, first, nSplits);
      && cut + step == KCut(first, step, idx + 1)
      && KVal(rows, Some(first), nSplits, idx + 1)
         == if idx == nSplits - 2 then Window(Positions(rows), Some(cut + step), None)
            else Window(Positions(rows), Some(cut + step), Some(cut + step + step))
  {
    var step := KStep(rows, first, nSplits);
    assert (idx + 1) as real * step == idx as real * step + step;
  }

  /** One pass of the split loop: the blocks of split `idx` are appended (the training block
      first when it is the first split and training predictions are asked for), then the cut
      moves on by one step and the windows of the next split are cut from the table. When no
      row reaches the validation date the cut stays put and the windows stay empty. */
  method SplitStep(positions: seq<real>, rows: nat, first: Option<nat>, nSplits: int, idx: nat, addTrain: bool,
                   step: real, cut: real, train: seq<nat>, validation: seq<nat>, blocks: seq<seq<nat>>)
    returns (nextCut: real, nextTrain: seq<nat>, nextValidation: seq<nat>, nextBlocks: seq<seq<nat>>)
    requires positions == Positions(rows)
    requires first.Some? ==> step == KStep(rows, first.value, nSplits) && cut == KCut(first.value, step, idx)
    requires idx == 0 ==> train == KTrain(rows, first)
    requires validation == KVal(rows, first, nSplits, idx)
    requires blocks == KFoldPrefix(rows, first, nSplits, idx, addTrain)
    ensures first.Some? ==> nextCut == KCut(first.value, step, idx + 1)
    ensures nextValidation == KVal(rows, first, nSplits, idx + 1)
    ensures nextBlocks == KFoldPrefix(rows, first, nSplits, idx + 1, addTrain)
  {
    nextBlocks := blocks;
    if idx == 0 && addTrain {
      nextBlocks := nextBlocks + [train];
    }
    nextBlocks := nextBlocks + [validation];
    assert nextBlocks == blocks + KSplit(rows, first, nSplits, idx, addTrain);
    nextCut, nextTrain, nextValidation := cut, train, validation;
    if first.Some? {
      KFoldAdvance(rows, first.value, nSplits, idx, cut);
      nextCut := cut + step;
      nextTrain := Window(positions, None, Some(nextCut));
      if idx == nSplits - 2 {
        nextValidation := Window(positions, Some(nextCut), None);
      } else {
        nextValidation := Window(positions, Some(nextCut), Some(nextCut + step));
      }
    }
  }

  /** The blocks of the first `k` splits, in concatenation order. */
  function KFoldPrefix(rows: nat, first: Option<nat>, nSplits: int, k: nat, addTrain: bool): (blocks: seq<seq<nat>>)
    ensures |blocks| == k + (if addTrain && k > 0 then 1 else 0)
    decreases k
  {
    if k == 0 then [] else KFoldPrefix(rows, first, nSplits, k - 1, addTrain) + KSplit(rows, first, nSplits, k - 1, addTrain)
  }

  /** `(max_match_number - min_validation_match_number) / n_splits`; only used when the
      number of splits is positive. */
  function KStep(rows: nat, first: nat, nSplits: int): real {
    if nSplits <= 0 then 0.0 else ((rows as int - 1) - first) as real / nSplits as real
  }

  /** `MatchKFoldCrossValidator.generate_validation_df` once the validation date is known. */
  function KFoldBlocks(dates: seq<int>, minValidationDate: int, nSplits: int, addTrain: bool): (r: Result<seq<seq<nat>>>)
    ensures nSplits <= 0 <==> r.Err?
    ensures r.Err? ==> r.error == ValueError("No objects to concatenate")
    ensures r.Ok? ==> |r.value| == nSplits + (if addTrain then 1 else 0)
  {
    if nSplits <= 0 then Err(ValueError("No objects to concatenate"))
    else Ok(KFoldPrefix(|dates|, FirstFrom(dates, minValidationDate), nSplits, nSplits, addTrain))
  }

  /** The default validation date: the middle one of the distinct dates in order of appearance;
      IndexError for an empty table. */
  function DefaultValidationDate(dates: seq<int>): (r: Result<int>)
    ensures r.Ok? <==> |dates| > 0
    ensures r.Ok? ==> r.value in dates
    ensures r.Ok? ==> r.value == Uniques(dates)[|Uniques(dates)| / 2]
  {
    var u := Uniques(dates);
    if |dates| == 0 then Err(IndexError)
    else
      assert dates[0] in u;
      Ok(u[|u| / 2])
  }

  class MatchKFoldCrossValidator {
    const matchIdColumnName: string
    const dateColumnName: string
    const nSplits: int
    var minValidationDate: Option<int>

    constructor (matchIdColumnName: string, dateColumnName: string, minValidationDate: Option<int> := None, nSplits: int := 3)
      ensures this.matchIdColumnName == matchIdColumnName && this.dateColumnName == dateColumnName
      ensures this.minValidationDate == minValidationDate && this.nSplits == nSplits
    {
      this.matchIdColumnName := matchIdColumnName;
      this.dateColumnName := dateColumnName;
      this.minValidationDate := minValidationDate;
      this.nSplits := nSplits;
    }

    /** `generate_validation_df`: a missing validation date is computed once and kept for
        later calls, then the split loop cuts the blocks. Only `None` counts as missing here;
        the source also recomputes a falsy date such as an empty string. */
    method GenerateValidationBlocks(dates: seq<int>, addTrain: bool) returns (r: Result<seq<seq<nat>>>)
      modifies this
      ensures old(minValidationDate).Some? ==> minValidationDate == old(minValidationDate)
      ensures old(minValidationDate).None? && |dates| == 0 ==> minValidationDate.None? && r == Err(IndexError)
      ensures old(minValidationDate).None? && |dates| > 0 ==> minValidationDate == Some(DefaultValidationDate(dates).value)
      ensures minValidationDate.Some? ==> r == KFoldBlocks(dates, minValidationDate.value, nSplits, addTrain)
    {
      if minValidationDate.None? {
        var d := DefaultValidationDate(dates);
        if d.Err? {
          return Err(d.error);
        }
        minValidationDate := Some(d.value);
      }
      var blocks := SplitLoop(dates, minValidationDate.value, nSplits, addTrain);
      if blocks == [] {
        return Err(ValueError("No objects to concatenate"));
      }
      r := Ok(blocks);
    }
  }

  /** The split loop of `generate_validation_df` once the validation date is known: rows are
      numbered by position, the cut advances by a real-valued step, and the window prepared
      after the last-but-one split runs to the end of the table. */
  method SplitLoop(dates: seq<int>, minValidationDate: int, nSplits: int, addTrain: bool) returns (blocks: seq<seq<nat>>)
    ensures blocks == KFoldPrefix(|dates|, FirstFrom(dates, minValidationDate), nSplits, if nSplits > 0 then nSplits else 0, addTrain)
  {
    var rows := |dates|;
    var positions := Positions(rows);
    var first := FirstFrom(dates, minValidationDate);
    var step := if first.Some? then KStep(rows, first.value, nSplits) else 0.0;
    var cut := if first.Some? then first.value as real else 0.0;
    var train: seq<nat> := if first.Some? then Window(positions, None, Some(cut)) else [];
    var validation: seq<nat> := if first.Some? then Window(positions, Some(cut), Some(cut + step)) else [];
    blocks := [];
    var idx := 0;
    while idx < nSplits
      invariant 0 <= idx && (nSplits > 0 ==> idx <= nSplits) && (nSplits <= 0 ==> idx == 0)
      invariant first.Some? ==> step == KStep(rows, first.value, nSplits) && cut == KCut(first.value, step, idx)
      invariant idx == 0 ==> train == KTrain(rows, first)
      invariant validation == KVal(rows, first, nSplits, idx)
      invariant blocks == KFoldPrefix(rows, first, nSplits, idx, addTrain)
    {
      cut, train, validation, blocks := SplitStep(positions, rows, first, nSplits, idx, addTrain, step, cut, train, validation, blocks);
      idx := idx + 1;
    }
  }

  /** With two or more splits the last validation window reaches the last row of the table, as
      long as some row reaches the validation date. */
  lemma KFoldLastRowValidated(dates: seq<int>, minValidationDate: int, nSplits: int, addTrain: bool)
    requires nSplits >= 2
    requires FirstFrom(dates, minValidationDate).Some?
    ensures var blocks := KFoldBlocks(dates, minValidationDate, nSplits, addTrain).value;
      |dates| - 1 in blocks[|blocks| - 1]
  {
    var first := FirstFrom(dates, minValidationDate).value;
    var rows := |dates|;
    var blocks := KFoldPrefix(rows, Some(first), nSplits, nSplits, addTrain);
    assert blocks[|blocks| - 1] == KValidation(rows, first, KStep(rows, first, nSplits), nSplits, nSplits - 1);
    LastWindowHasLastRow(rows, first, nSplits);
  }

  lemma LastWindowHasLastRow(rows: nat, first: nat, nSplits: int)
    requires nSplits >= 2 && first < rows
    ensures rows - 1 in KValidation(rows, first, KStep(rows, first, nSplits), nSplits, nSplits - 1)
  {
    var step := KStep(rows, first, nSplits);
    LastCutBelowSpan((rows - 1 - first) as real, nSplits);
    assert KCut(first, step, nSplits - 1) <= (rows - 1) as real;
    InWindow(Positions(rows), Some(KCut(first, step, nSplits - 1)), None, rows - 1);
  }

  /** `nSplits - 1` steps of `span / nSplits` stay within the span. */
  lemma LastCutBelowSpan(span: real, nSplits: int)
    requires nSplits >= 2 && span >= 0.0
    ensures (nSplits - 1) as real * (span / nSplits as real) <= span
  {
    var n := nSplits as real;
    var q := span / n;
    assert n * q == span;
    assert q >= 0.0;
    assert (n - 1.0) * q == n * q - q;
  }

  /** With a single split, the one validation window stops one step after the first
      validation row, which is the last row itself: the last row is neither trained on nor
      validated whenever it comes after the first validation row. */
  lemma KFoldSingleSplitMissesLastRow(dates: seq<int>, minValidationDate: int, addTrain: bool)
    requires FirstFrom(dates, minValidationDate).Some?
    requires FirstFrom(dates, minValidationDate).value < |dates| - 1
    ensures var blocks := KFoldBlocks(dates, minValidationDate, 1, addTrain).value;
      forall b :: b in blocks ==> |dates| - 1 !in b
  {
    var first := FirstFrom(dates, minValidationDate).value;
    var rows := |dates|;
    var step := KStep(rows, first, 1);
    var last := rows - 1;
    var blocks := KFoldBlocks(dates, minValidationDate, 1, addTrain).value;
    assert blocks == KSplit(rows, Some(first), 1, 0, addTrain);
    assert KCut(first, step, 0) + step == last as real;
    InWindow(Positions(rows), Some(KCut(first, step, 0)), Some(KCut(first, step, 0) + step), last);
    InWindow(Positions(rows), None, Some(first as real), last);
  }

  /** In every K-fold split, each training row comes before each row of its validation window. */
  lemma KFoldNoLookAhead(rows: nat, first: nat, nSplits: int, i: nat, a: nat, b: nat)
    requires 0 < nSplits && i < nSplits
    requires a in Window(Positions(rows), None, Some(KCut(first, KStep(rows, first, nSplits), i)))
    requires b in KValidation(rows, first, KStep(rows, first, nSplits), nSplits, i)
    ensures a < b
  {
    var step := KStep(rows, first, nSplits);
    var cut := KCut(first, step, i);
    InWindow(Positions(rows), None, Some(cut), a);
    InWindow(Positions(rows), Some(cut), None, b);
    InWindow(Positions(rows), Some(cut), Some(cut + step), b);
  }
}
