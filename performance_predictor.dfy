/** Expected-performance predictors: map a player's pre-match rating and the
    opponent's (and own team's) pre-match rating to a value in [0, 1].
    `math.exp` is a parameter `exp` that every caller supplies; `IsExp` states
    the only facts about it that the proofs use. */
module PerformancePredictor {
  import opened Common
  import opened DataStructures

  /** What the model assumes of the exponential function. */
  ghost predicate IsExp(exp: real -> real) {
    && exp(0.0) == 1.0
    && (forall x :: exp(x) > 0.0)
    && (forall x, y :: x < y ==> exp(x) < exp(y))
  }

  /** exp(v) / (1 + exp(v)), the logistic function. */
  function Logistic(exp: real -> real, v: real): (p: real)
    requires IsExp(exp)
    ensures 0.0 < p < 1.0
  {
    exp(v) / (1.0 + exp(v))
  }

  lemma LogisticAtZero(exp: real -> real)
    requires IsExp(exp)
    ensures Logistic(exp, 0.0) == 0.5
  {
  }

  /** t / (1 + t) grows with t, and exp grows, so the logistic function grows. */
  lemma LogisticMonotone(exp: real -> real, u: real, v: real)
    requires IsExp(exp)
    requires u <= v
    ensures Logistic(exp, u) <= Logistic(exp, v)
  {
    if u < v {
      var a, b := exp(u), exp(v);
      assert 0.0 < a < b;
      assert a * (1.0 + b) < b * (1.0 + a);
      DivLess(a, 1.0 + a, b, 1.0 + b);
    }
  }

  lemma DivLess(a: real, c: real, b: real, d: real)
    requires c > 0.0 && d > 0.0
    requires a * d < b * c
    ensures a / c < b / d
  {
    assert a / c == (a * d) / (c * d);
    assert b / d == (b * c) / (c * d);
  }

  /** The tail cut of both predictors: never above `maxPredictValue`, never below `1 - maxPredictValue`
      (the upper cut is tested first). */
  function Clamp(prediction: real, maxPredictValue: real): (r: real)
    ensures maxPredictValue >= 0.5 ==> 1.0 - maxPredictValue <= r <= maxPredictValue
    ensures 1.0 - maxPredictValue <= prediction <= maxPredictValue ==> r == prediction
  {
    if prediction > maxPredictValue then maxPredictValue
    else if prediction < 1.0 - maxPredictValue then 1.0 - maxPredictValue
    else prediction
  }

  lemma ClampMonotone(p: real, q: real, maxPredictValue: real)
    requires p <= q
    requires maxPredictValue >= 0.5
    ensures Clamp(p, maxPredictValue) <= Clamp(q, maxPredictValue)
  {
  }

  /** `sigmoid_subtract_half_and_multiply2`: 2 * (1 / (1 + exp(-value / x)) - 1/2).
      Python raises ZeroDivisionError when x is 0. */
  function SigmoidSubtractHalfAndMultiply2(exp: real -> real, value: real, x: real): (r: Result<real>)
    requires IsExp(exp)
    ensures r.Err? <==> x == 0.0
    ensures r.Err? ==> r.error == ZeroDivisionError
    ensures r.Ok? ==> -1.0 < r.value < 1.0
  {
    if x == 0.0 then Err(ZeroDivisionError)
    else
      var e := exp(-value / x);
      LogisticAroundHalf(e);
      Ok((1.0 / (1.0 + e) - 0.5) * 2.0)
  }

  /** The sigmoid helper is 0 at 0 and has the sign of value / x. */
  lemma SigmoidSign(exp: real -> real, value: real, x: real)
    requires IsExp(exp)
    requires x != 0.0
    ensures value == 0.0 ==> SigmoidSubtractHalfAndMultiply2(exp, value, x) == Ok(0.0)
    ensures value / x > 0.0 ==> SigmoidSubtractHalfAndMultiply2(exp, value, x).value > 0.0
    ensures value / x < 0.0 ==> SigmoidSubtractHalfAndMultiply2(exp, value, x).value < 0.0
  {
    var e := exp(-value / x);
    if value / x > 0.0 {
      assert -value / x < 0.0;
      assert e < 1.0;
      LogisticAroundHalf(e);
    } else if value / x < 0.0 {
      assert -value / x > 0.0;
      assert e > 1.0;
      LogisticAroundHalf(e);
    } else {
      assert -value / x == 0.0;
    }
  }

  /** `1 / (1 + e)` is above one half exactly when `e` is below one. */
  lemma LogisticAroundHalf(e: real)
    requires e > 0.0
    ensures e < 1.0 ==> 1.0 / (1.0 + e) > 0.5
    ensures e > 1.0 ==> 1.0 / (1.0 + e) < 0.5
    ensures 0.0 < 1.0 / (1.0 + e) < 1.0
  {
    var q := 1.0 / (1.0 + e);
    assert q * (1.0 + e) == 1.0;
    assert q > 0.0;
    assert q * 1.0 < q * (1.0 + e);
    if e < 1.0 {
      assert q * 2.0 > q * (1.0 + e);
    } else if e > 1.0 {
      assert q * 2.0 < q * (1.0 + e);
    }
  }

  /** `RatingDifferencePerformancePredictor` and its constructor defaults. */
  datatype RatingDifferencePerformancePredictor = RatingDifferencePerformancePredictor(
    ratingDiffCoef: real := 0.005757,
    ratingDiffTeamFromEntityCoef: real := 0.0,
    teamRatingDiffCoef: real := 0.0,
    maxPredictValue: real := 1.0)

  /** The linear score fed to the logistic function; both team terms are 0 without a team rating. */
  function DifferenceScore(
    p: RatingDifferencePerformancePredictor,
    player: PreMatchPlayerRating,
    opponent: PreMatchTeamRating,
    team: Option<PreMatchTeamRating>): real
  {
    var ratingDifference := player.ratingValue - opponent.ratingValue;
    var teamFromEntity := if team.Some? then team.value.ratingValue - player.ratingValue else 0.0;
    var teamDiff := if team.Some? then team.value.ratingValue - opponent.ratingValue else 0.0;
    p.ratingDiffCoef * ratingDifference + p.ratingDiffTeamFromEntityCoef * teamFromEntity
      + teamDiff * p.teamRatingDiffCoef
  }

  /** `RatingDifferencePerformancePredictor.predict_performance`. */
  function PredictByDifference(
    p: RatingDifferencePerformancePredictor,
    exp: real -> real,
    player: PreMatchPlayerRating,
    opponent: PreMatchTeamRating,
    team: Option<PreMatchTeamRating>): (r: real)
    requires IsExp(exp)
    ensures p.maxPredictValue >= 0.5 ==> 1.0 - p.maxPredictValue <= r <= p.maxPredictValue
    ensures p.maxPredictValue >= 1.0 ==> 0.0 < r < 1.0
  {
    var l := Logistic(exp, DifferenceScore(p, player, opponent, team));
    assert p.maxPredictValue >= 1.0 ==> 1.0 - p.maxPredictValue <= l <= p.maxPredictValue;
    Clamp(l, p.maxPredictValue)
  }

  /** Without a team rating only the player-minus-opponent difference matters. */
  lemma NoTeamDependsOnlyOnDifference(
    p: RatingDifferencePerformancePredictor, exp: real -> real,
    player1: PreMatchPlayerRating, opponent1: PreMatchTeamRating,
    player2: PreMatchPlayerRating, opponent2: PreMatchTeamRating)
    requires IsExp(exp)
    requires player1.ratingValue - opponent1.ratingValue == player2.ratingValue - opponent2.ratingValue
    ensures PredictByDifference(p, exp, player1, opponent1, None) == PredictByDifference(p, exp, player2, opponent2, None)
  {
    var s := DifferenceScore(p, player1, opponent1, None);
    assert s == p.ratingDiffCoef * (player1.ratingValue - opponent1.ratingValue);
    assert DifferenceScore(p, player2, opponent2, None) == p.ratingDiffCoef * (player2.ratingValue - opponent2.ratingValue);
    assert s == DifferenceScore(p, player2, opponent2, None);
    assert PredictByDifference(p, exp, player1, opponent1, None) == Clamp(Logistic(exp, s), p.maxPredictValue);
    assert PredictByDifference(p, exp, player2, opponent2, None) == Clamp(Logistic(exp, s), p.maxPredictValue);
  }

  /** With the default team coefficients (0), a player rated like the opponent is predicted exactly 0.5. */
  lemma EqualRatingsPredictHalf(
    p: RatingDifferencePerformancePredictor, exp: real -> real,
    player: PreMatchPlayerRating, opponent: PreMatchTeamRating, team: Option<PreMatchTeamRating>)
    requires IsExp(exp)
    requires p.ratingDiffTeamFromEntityCoef == 0.0 && p.teamRatingDiffCoef == 0.0
    requires p.maxPredictValue >= 0.5
    requires player.ratingValue == opponent.ratingValue
    ensures PredictByDifference(p, exp, player, opponent, team) == 0.5
  {
    assert DifferenceScore(p, player, opponent, team) == 0.0;
    LogisticAtZero(exp);
  }

  /** A higher player rating never lowers the prediction when the difference coefficient is
      non-negative and the team coefficients are 0. */
  lemma PredictionMonotoneInPlayerRating(
    p: RatingDifferencePerformancePredictor, exp: real -> real,
    player1: PreMatchPlayerRating, player2: PreMatchPlayerRating,
    opponent: PreMatchTeamRating, team: Option<PreMatchTeamRating>)
    requires IsExp(exp)
    requires p.ratingDiffCoef >= 0.0
    requires p.ratingDiffTeamFromEntityCoef == 0.0 && p.teamRatingDiffCoef == 0.0
    requires p.maxPredictValue >= 0.5
    requires player1.ratingValue <= player2.ratingValue
    ensures PredictByDifference(p, exp, player1, opponent, team) <= PredictByDifference(p, exp, player2, opponent, team)
  {
    var s1 := DifferenceScore(p, player1, opponent, team);
    var s2 := DifferenceScore(p, player2, opponent, team);
    assert s1 == p.ratingDiffCoef * (player1.ratingValue - opponent.ratingValue);
    assert s2 == p.ratingDiffCoef * (player2.ratingValue - opponent.ratingValue);
    assert s1 <= s2;
    LogisticMonotone(exp, s1, s2);
    ClampMonotone(Logistic(exp, s1), Logistic(exp, s2), p.maxPredictValue);
  }

  /** The most recent `count` elements of `history`, as `history[max(0, len - count):]` gives them. */
  function Window(history: seq<real>, count: int): (w: seq<real>)
    ensures |w| == if count <= 0 then 0 else if |history| <= count then |history| else count
    ensures w == history[|history| - |w|..]
  {
    if count <= 0 then [] else if |history| <= count then history else history[|history| - count..]
  }

  /** Trimming before or after appending gives the same window. */
  lemma WindowAppend(history: seq<real>, x: real, count: int)
    ensures Window(Window(history, count) + [x], count) == Window(history + [x], count)
  {
    var h := history + [x];
    if count > 0 && |history| > count {
      var w := history[|history| - count..];
      assert (w + [x])[1..] == h[|h| - count..];
    }
  }

  /** `RatingMeanPerformancePredictor`: predicts from the player's and opponent's mean rating
      relative to the running mean of every player rating it has been asked about.
      `history` (ghost) is the sequence of all player ratings passed in so far. */
  class RatingMeanPerformancePredictor {
    const coef: real
    const maxPredictValue: real
    const lastSampleCount: int
    var sumRatings: seq<real>
    var sumRating: real
    var ratingCount: nat
    ghost var history: seq<real>

    /** The count and sum are over the whole history; the kept list is its most recent window. */
    ghost predicate Valid()
      reads this
    {
      && ratingCount == |history|
      && sumRating == Sum(history)
      && sumRatings == Window(history, lastSampleCount)
    }

    constructor (coef: real := 0.005757, maxPredictValue: real := 1.0, lastSampleCount: int := 1500)
      ensures Valid() && history == []
      ensures this.coef == coef && this.maxPredictValue == maxPredictValue
      ensures this.lastSampleCount == lastSampleCount
      ensures sumRatings == [] && sumRating == 0.0 && ratingCount == 0
    {
      this.coef := coef;
      this.maxPredictValue := maxPredictValue;
      this.lastSampleCount := lastSampleCount;
      sumRatings := [];
      sumRating := 0.0;
      ratingCount := 0;
      history := [];
    }

    /** The prediction from the running mean rating: the logistic function of how far the
        player/opponent average lies above that mean, cut at both tails. */
    function Prediction(exp: real -> real, average: real, player: real, opponent: real): (r: real)
      requires IsExp(exp)
      ensures maxPredictValue >= 0.5 ==> 1.0 - maxPredictValue <= r <= maxPredictValue
    {
      var meanRating := player * 0.5 + opponent * 0.5 - average;
      var value := coef * meanRating;
      Clamp(Logistic(exp, value), maxPredictValue)
    }

    /** `predict_performance`: record the player's rating, then predict from the mean of every
        rating recorded so far, the current one included. */
    method PredictPerformance(
      exp: real -> real,
      player: PreMatchPlayerRating,
      opponent: PreMatchTeamRating,
      team: Option<PreMatchTeamRating>) returns (r: real)
      requires Valid() && IsExp(exp)
      modifies this
      ensures Valid()
      ensures history == old(history) + [player.ratingValue]
      ensures ratingCount == old(ratingCount) + 1
      ensures sumRating == old(sumRating) + player.ratingValue
      ensures sumRatings == Window(old(sumRatings) + [player.ratingValue], lastSampleCount)
      ensures r == Prediction(exp, Mean(history), player.ratingValue, opponent.ratingValue)
    {
      Record(player.ratingValue);
      var averageRating := sumRating / ratingCount as real;
      r := Prediction(exp, averageRating, player.ratingValue, opponent.ratingValue);
    }

    /** The bookkeeping half of `predict_performance`: append the rating, bump the count and
        the sum, and trim the kept list to its last `lastSampleCount` entries. */
    method Record(rating: real)
      requires Valid()
      modifies this
      ensures Valid()
      ensures history == old(history) + [rating]
      ensures ratingCount == old(ratingCount) + 1
      ensures sumRating == old(sumRating) + rating
      ensures sumRatings == Window(old(sumRatings) + [rating], lastSampleCount)
    {
      ghost var h := history + [rating];
      var kept := sumRatings + [rating];
      WindowAppend(history, rating, lastSampleCount);
      SumAppend(history, rating);
      var startIndex := if |kept| - lastSampleCount > 0 then |kept| - lastSampleCount else 0;
      TrimIsWindow(kept, lastSampleCount);
      var trimmed := if startIndex <= |kept| then kept[startIndex..] else [];
      assert trimmed == Window(h, lastSampleCount);
      history := h;
      ratingCount := ratingCount + 1;
      sumRating := sumRating + rating;
      sumRatings := trimmed;
    }
  }

  /** Python's `l[max(0, len(l) - count):]` is the window of the last `count` entries. */
  lemma TrimIsWindow(kept: seq<real>, count: int)
    ensures var startIndex := if |kept| - count > 0 then |kept| - count else 0;
      (if startIndex <= |kept| then kept[startIndex..] else []) == Window(kept, count)
  {
  }

  /** A run of calls: the kept list is always the most recent `count` ratings, in arrival order,
      whatever the history before. */
  lemma {:induction false} WindowOfRun(history: seq<real>, inputs: seq<real>, count: int)
    ensures WindowFold(Window(history, count), inputs, count) == Window(history + inputs, count)
    decreases |inputs|
  {
    if inputs != [] {
      var n := |inputs| - 1;
      var last, init := inputs[n], inputs[..n];
      var w := Window(history, count);
      calc {
        WindowFold(w, inputs, count);
        Window(WindowFold(w, init, count) + [last], count);
        { WindowOfRun(history, init, count); }
        Window(Window(history + init, count) + [last], count);
        { WindowAppend(history + init, last, count); }
        Window((history + init) + [last], count);
        { assert (history + init) + [last] == history + inputs; }
        Window(history + inputs, count);
      }
    }
  }

  /** The list the Python object keeps after appending each of `inputs` and trimming each time. */
  function WindowFold(kept: seq<real>, inputs: seq<real>, count: int): seq<real>
    decreases |inputs|
  {
    if inputs == [] then kept
    else Window(WindowFold(kept, inputs[..|inputs| - 1], count) + [inputs[|inputs| - 1]], count)
  }
}
