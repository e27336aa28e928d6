/** Search ranges for hyper-parameter tuning (`tuner/utils.py`): the parameter dictionary
    filled from a trial's suggestions, and the default ranges for the gradient-boosting
    estimators and the team rating generator. */
module TunerUtils {
  import opened Common

  /** A suggested or stored hyper-parameter value. */
  datatype ParamValue = Number(x: real) | Text(s: string)

  /** `ParameterSearchRange`: the parameter's name, its kind ("uniform", "loguniform", "int",
      "categorical" or "discrete_uniform"), optional bounds and choices, and extra settings. */
  datatype ParameterSearchRange = ParameterSearchRange(
    name: string,
    kind: string,
    low: Option<real>,
    high: Option<real>,
    choices: Option<seq<ParamValue>>,
    customParams: map<string, ParamValue>)

  /** A range with only its name, kind and bounds; choices absent and no extra settings. */
  function Bounded(name: string, kind: string, low: real, high: real): (c: ParameterSearchRange)
    ensures c.name == name && c.kind == kind && c.low == Some(low) && c.high == Some(high)
  {
    ParameterSearchRange(name, kind, Some(low), Some(high), None, map[])
  }

  /** The trial of a study: what it suggests for a name, given bounds or choices. */
  datatype Trial = Trial(
    suggestUniform: (string, Option<real>, Option<real>) -> ParamValue,
    suggestLogUniform: (string, Option<real>, Option<real>) -> ParamValue,
    suggestInt: (string, Option<real>, Option<real>) -> ParamValue,
    suggestCategorical: (string, Option<seq<ParamValue>>) -> ParamValue)

  /** The kinds the trial is asked about; any other kind is only warned about. */
  predicate KnownKind(kind: string) {
    kind == "uniform" || kind == "loguniform" || kind == "int" || kind == "categorical"
  }

  /** What one configuration stores under its name, if anything. */
  function Suggestion(trial: Trial, config: ParameterSearchRange): (s: Option<ParamValue>)
    ensures s.Some? <==> KnownKind(config.kind)
    ensures config.kind == "uniform" ==> s == Some(trial.suggestUniform(config.name, config.low, config.high))
    ensures config.kind == "loguniform" ==> s == Some(trial.suggestLogUniform(config.name, config.low, config.high))
    ensures config.kind == "int" ==> s == Some(trial.suggestInt(config.name, config.low, config.high))
    ensures config.kind == "categorical" ==> s == Some(trial.suggestCategorical(config.name, config.choices))
  {
    if config.kind == "uniform" then Some(trial.suggestUniform(config.name, config.low, config.high))
    else if config.kind == "loguniform" then Some(trial.suggestLogUniform(config.name, config.low, config.high))
    else if config.kind == "int" then Some(trial.suggestInt(config.name, config.low, config.high))
    else if config.kind == "categorical" then Some(trial.suggestCategorical(config.name, config.choices))
    else None
  }

  /** The dictionary after one configuration. */
  function ApplyRange(params: map<string, ParamValue>, config: ParameterSearchRange, trial: Trial): map<string, ParamValue> {
    match Suggestion(trial, config)
    case Some(v) => params[config.name := v]
    case None => params
  }

  /** The dictionary after the configurations, in order. */
  function ApplyRanges(params: map<string, ParamValue>, ranges: seq<ParameterSearchRange>, trial: Trial): map<string, ParamValue>
    decreases |ranges|
  {
    if ranges == [] then params
    else ApplyRange(ApplyRanges(params, ranges[..|ranges| - 1], trial), ranges[|ranges| - 1], trial)
  }

  /** The names some configuration of a known kind stores. */
  function SuggestedNames(ranges: seq<ParameterSearchRange>): set<string> {
    set k | 0 <= k < |ranges| && KnownKind(ranges[k].kind) :: ranges[k].name
  }

  /** The parameter dictionary, shared between the caller and the update. */
  class ParamDict {
    var entries: map<string, ParamValue>

    constructor(entries: map<string, ParamValue>)
      ensures this.entries == entries
    {
      this.entries := entries;
    }
  }

  /** `add_params_from_search_range`: stores each known-kind configuration's suggestion under
      its name, in order, into the given dictionary, and returns that same dictionary. */
  method AddParamsFromSearchRange(trial: Trial, ranges: seq<ParameterSearchRange>, params: ParamDict)
    returns (r: ParamDict)
    modifies params
    ensures r == params
    ensures params.entries == ApplyRanges(old(params.entries), ranges, trial)
  {
    for i := 0 to |ranges|
      invariant params.entries == ApplyRanges(old(params.entries), ranges[..i], trial)
    {
      var config := ranges[i];
      if config.kind == "uniform" {
        params.entries := params.entries[config.name := trial.suggestUniform(config.name, config.low, config.high)];
      } else if config.kind == "loguniform" {
        params.entries := params.entries[config.name := trial.suggestLogUniform(config.name, config.low, config.high)];
      } else if config.kind == "int" {
        params.entries := params.entries[config.name := trial.suggestInt(config.name, config.low, config.high)];
      } else if config.kind == "categorical" {
        params.entries := params.entries[config.name := trial.suggestCategorical(config.name, config.choices)];
      }
      assert ranges[..i + 1][..i] == ranges[..i];
    }
    assert ranges[..|ranges|] == ranges;
    r := params;
  }

  /** The keys afterwards are the old keys and the names of the known-kind configurations. */
  lemma {:induction false} ApplyRangesKeys(params: map<string, ParamValue>, ranges: seq<ParameterSearchRange>, trial: Trial)
    ensures ApplyRanges(params, ranges, trial).Keys == params.Keys + SuggestedNames(ranges)
    decreases |ranges|
  {
    if ranges != [] {
      var init := ranges[..|ranges| - 1];
      var last := ranges[|ranges| - 1];
      ApplyRangesKeys(params, init, trial);
      assert SuggestedNames(ranges) == SuggestedNames(init) + (if KnownKind(last.kind) then {last.name} else {}) by {
        forall n | n in SuggestedNames(ranges) ensures n in SuggestedNames(init) || (KnownKind(last.kind) && n == last.name) {
          var k :| 0 <= k < |ranges| && KnownKind(ranges[k].kind) && ranges[k].name == n;
          if k < |init| { assert init[k] == ranges[k]; }
        }
        forall n | n in SuggestedNames(init) ensures n in SuggestedNames(ranges) {
          var k :| 0 <= k < |init| && KnownKind(init[k].kind) && init[k].name == n;
          assert ranges[k] == init[k];
        }
      }
    }
  }

  /** A name no known-kind configuration mentions keeps its value, or stays absent. */
  lemma {:induction false} ApplyRangesUntouched(params: map<string, ParamValue>, ranges: seq<ParameterSearchRange>, trial: Trial, name: string)
    requires forall k :: 0 <= k < |ranges| && ranges[k].name == name ==> !KnownKind(ranges[k].kind)
    ensures name in ApplyRanges(params, ranges, trial) <==> name in params
    ensures name in params ==> ApplyRanges(params, ranges, trial)[name] == params[name]
    decreases |ranges|
  {
    if ranges != [] {
      var init := ranges[..|ranges| - 1];
      assert forall k :: 0 <= k < |init| ==> init[k] == ranges[k];
      ApplyRangesUntouched(params, init, trial, name);
    }
  }

  /** Configurations of an unknown kind, "discrete_uniform" among them, change nothing. */
  lemma {:induction false} UnknownKindsIgnored(params: map<string, ParamValue>, ranges: seq<ParameterSearchRange>, trial: Trial)
    requires forall k :: 0 <= k < |ranges| ==> !KnownKind(ranges[k].kind)
    ensures ApplyRanges(params, ranges, trial) == params
    decreases |ranges|
  {
    if ranges != [] {
      var init := ranges[..|ranges| - 1];
      assert forall k :: 0 <= k < |init| ==> init[k] == ranges[k];
      UnknownKindsIgnored(params, init, trial);
    }
  }

  /** The last known-kind configuration with a name decides that name's value. */
  lemma {:induction false} LastConfigWins(params: map<string, ParamValue>, ranges: seq<ParameterSearchRange>, trial: Trial, j: nat)
    requires j < |ranges| && KnownKind(ranges[j].kind)
    requires forall k :: j < k < |ranges| && ranges[k].name == ranges[j].name ==> !KnownKind(ranges[k].kind)
    ensures ranges[j].name in ApplyRanges(params, ranges, trial)
    ensures ApplyRanges(params, ranges, trial)[ranges[j].name] == Suggestion(trial, ranges[j]).value
    decreases |ranges|
  {
    var init := ranges[..|ranges| - 1];
    if j < |ranges| - 1 {
      assert forall k :: 0 <= k < |init| ==> init[k] == ranges[k];
      LastConfigWins(params, init, trial, j);
    }
  }

  /** `get_default_lgbm_classifier_search_range_by_learning_rate`: the number of trees from
      7 / learning_rate capped at 1000 up to six times that; fixed ranges for the rest. */
  function ClassifierSearchRange(learningRate: real): (r: Result<seq<ParameterSearchRange>>)
    ensures r.Err? <==> learningRate == 0.0
    ensures r.Err? ==> r.error == ZeroDivisionError
  {
    if learningRate == 0.0 then Err(ZeroDivisionError)
    else
      var minEstimators := MinEstimators(learningRate);
      Ok([
        Bounded("n_estimators", "int", minEstimators, minEstimators * 6.0),
        Bounded("num_leaves", "int", 10.0, 100.0),
        Bounded("max_depth", "int", 2.0, 7.0),
        Bounded("min_child_samples", "int", 2.0, 200.0),
        Bounded("reg_alpha", "uniform", 0.0, 5.0)
      ])
  }

  /** `min(1 / learning_rate * 7, 1000)`. */
  function MinEstimators(learningRate: real): (n: real)
    requires learningRate != 0.0
    ensures n <= 1000.0
    ensures learningRate > 0.0 ==> 0.0 < n
    ensures learningRate < 0.0 ==> n < 0.0
    ensures n == 1000.0 || n * learningRate == 7.0
  {
    var x := 1.0 / learningRate * 7.0;
    if x <= 1000.0 then x else 1000.0
  }

  /** `get_default_lgbm_regressor_search_range_by_learning_rate`: as for the classifier, but
      the number of trees reaches seven times its lower bound and the depth reaches 14. */
  function RegressorSearchRange(learningRate: real): (r: Result<seq<ParameterSearchRange>>)
    ensures r.Err? <==> learningRate == 0.0
    ensures r.Err? ==> r.error == ZeroDivisionError
  {
    if learningRate == 0.0 then Err(ZeroDivisionError)
    else
      var minEstimators := MinEstimators(learningRate);
      Ok([
        Bounded("n_estimators", "int", minEstimators, minEstimators * 7.0),
        Bounded("num_leaves", "int", 10.0, 100.0),
        Bounded("max_depth", "int", 2.0, 14.0),
        Bounded("min_child_samples", "int", 2.0, 200.0),
        Bounded("reg_alpha", "uniform", 0.0, 5.0)
      ])
  }

  /** `get_default_team_rating_search_range`: uniform ranges for the rating generator. */
  function TeamRatingSearchRange(): seq<ParameterSearchRange> {
    [
      Bounded("confidence_weight", "uniform", 0.7, 0.95),
      Bounded("confidence_days_ago_multiplier", "uniform", 0.02, 0.12),
      Bounded("confidence_max_days", "uniform", 40.0, 150.0),
      Bounded("confidence_max_sum", "uniform", 60.0, 300.0),
      Bounded("confidence_value_denom", "uniform", 50.0, 350.0),
      Bounded("rating_change_multiplier", "uniform", 30.0, 100.0),
      Bounded("min_rating_change_multiplier_ratio", "uniform", 0.02, 0.2)
    ]
  }

  /** Every range has both bounds, the lower one not above the upper one. */
  ghost predicate Ordered(ranges: seq<ParameterSearchRange>) {
    forall k :: 0 <= k < |ranges| ==>
      ranges[k].low.Some? && ranges[k].high.Some? && ranges[k].low.value <= ranges[k].high.value
  }

  /** The names of the ranges, in order. */
  function Names(ranges: seq<ParameterSearchRange>): (names: seq<string>)
    ensures |names| == |ranges| && forall k :: 0 <= k < |ranges| ==> names[k] == ranges[k].name
  {
    if ranges == [] then [] else Names(ranges[..|ranges| - 1]) + [ranges[|ranges| - 1].name]
  }

  /** With a positive learning rate every classifier range is ordered and of a known kind,
      and the number of trees starts above 0 and at most at 1000. */
  lemma ClassifierRangesOrdered(learningRate: real)
    requires learningRate > 0.0
    ensures Ordered(ClassifierSearchRange(learningRate).value)
    ensures forall k :: 0 <= k < |ClassifierSearchRange(learningRate).value| ==>
      KnownKind(ClassifierSearchRange(learningRate).value[k].kind)
    ensures 0.0 < ClassifierSearchRange(learningRate).value[0].low.value <= 1000.0
  {
  }

  /** With a positive learning rate every regressor range is ordered and of a known kind. */
  lemma RegressorRangesOrdered(learningRate: real)
    requires learningRate > 0.0
    ensures Ordered(RegressorSearchRange(learningRate).value)
    ensures forall k :: 0 <= k < |RegressorSearchRange(learningRate).value| ==>
      KnownKind(RegressorSearchRange(learningRate).value[k].kind)
  {
  }

  /** Both estimator builders name the same five parameters, in the same order. */
  lemma EstimatorRangeNames(learningRate: real)
    requires learningRate != 0.0
    ensures Names(ClassifierSearchRange(learningRate).value) == Names(RegressorSearchRange(learningRate).value)
    ensures Names(ClassifierSearchRange(learningRate).value) ==
      ["n_estimators", "num_leaves", "max_depth", "min_child_samples", "reg_alpha"]
  {
    var c := ClassifierSearchRange(learningRate).value;
    assert Names(c) == [c[0].name, c[1].name, c[2].name, c[3].name, c[4].name];
  }

  /** A negative learning rate gives a tree range whose lower bound is above its upper one. */
  lemma NegativeRateInvertsEstimators(learningRate: real)
    requires learningRate < 0.0
    ensures ClassifierSearchRange(learningRate).value[0].high.value < ClassifierSearchRange(learningRate).value[0].low.value
    ensures RegressorSearchRange(learningRate).value[0].high.value < RegressorSearchRange(learningRate).value[0].low.value
  {
  }

  /** The regressor searches every range the classifier searches, and more trees and depth. */
  lemma RegressorWidensClassifier(learningRate: real)
    requires learningRate > 0.0
    ensures forall k :: 0 <= k < 5 ==>
      (RegressorSearchRange(learningRate).value[k].low == ClassifierSearchRange(learningRate).value[k].low &&
       ClassifierSearchRange(learningRate).value[k].high.value <= RegressorSearchRange(learningRate).value[k].high.value)
    ensures ClassifierSearchRange(learningRate).value[0].high.value < RegressorSearchRange(learningRate).value[0].high.value
    ensures ClassifierSearchRange(learningRate).value[2].high.value < RegressorSearchRange(learningRate).value[2].high.value
  {
  }

  /** The team rating ranges are seven ordered uniform ranges. */
  lemma TeamRatingRangesOrdered()
    ensures |TeamRatingSearchRange()| == 7 && Ordered(TeamRatingSearchRange())
    ensures forall k :: 0 <= k < 7 ==> TeamRatingSearchRange()[k].kind == "uniform"
  {
  }

  /** The team rating ranges name seven distinct parameters (their names differ in length). */
  lemma TeamRatingNamesDistinct()
    ensures Distinct(Names(TeamRatingSearchRange()))
  {
    var t := TeamRatingSearchRange();
    var lengths := [17, 30, 19, 18, 22, 24, 34];
    assert forall k :: 0 <= k < 7 ==> |t[k].name| == lengths[k];
  }

  /** Ranges all of a known kind, as every default range is, add to the dictionary exactly
      their names. */
  lemma KnownRangesFillAll(params: map<string, ParamValue>, ranges: seq<ParameterSearchRange>, trial: Trial)
    requires forall k :: 0 <= k < |ranges| ==> KnownKind(ranges[k].kind)
    ensures ApplyRanges(params, ranges, trial).Keys == params.Keys + (set k | 0 <= k < |ranges| :: ranges[k].name)
  {
    ApplyRangesKeys(params, ranges, trial);
  }
}
