/** The ensemble of forecasting models: named members with weights, whose
    predictions are combined into a weighted average, with the spread of
    the members' predictions as the uncertainty.

    A member's forecast is an oracle: `outputs[name]` is what its `predict`
    returns on the requested rows. */
module Ensemble {
  import opened Common

  /** A member model; only members with a `predict` take part in
      predictions. */
  datatype Model = Model(hasPredict: bool)

  /** The members of `names` that can predict, in order. */
  function Predicting(names: seq<string>, models: map<string, Model>): (r: seq<string>)
    requires forall k :: 0 <= k < |names| ==> names[k] in models
    ensures |r| <= |names|
    ensures forall k :: 0 <= k < |r| ==> r[k] in names && models[r[k]].hasPredict
  {
    if |names| == 0 then []
    else
      var rest := Predicting(names[..|names| - 1], models);
      var last := names[|names| - 1];
      if models[last].hasPredict then rest + [last] else rest
  }

  /** The predicting members are exactly the listed members that can
      predict, without repeats when the list has none. */
  lemma {:induction false} PredictingMembers(names: seq<string>, models: map<string, Model>)
    requires forall k :: 0 <= k < |names| ==> names[k] in models
    ensures var r := Predicting(names, models);
      (forall name :: name in names && models[name].hasPredict ==> name in r) &&
      (Distinct(names) ==> Distinct(r))
  {
    if |names| > 0 {
      var init := names[..|names| - 1];
      var last := names[|names| - 1];
      PredictingMembers(init, models);
      assert forall name :: name in names ==> name in init || name == last;
      assert forall name :: name in init ==> name in names;
    }
  }

  /** Python's `sum(self.weights.values())`, over the members in order. */
  function TotalWeight(names: seq<string>, weights: map<string, real>): (total: real)
    requires forall k :: 0 <= k < |names| ==> names[k] in weights
    ensures (forall k :: 0 <= k < |names| ==> weights[names[k]] >= 0.0) ==> total >= 0.0
    ensures (forall k :: 0 <= k < |names| ==> weights[names[k]] > 0.0) && |names| > 0 ==> total > 0.0
  {
    if |names| == 0 then 0.0
    else TotalWeight(names[..|names| - 1], weights) + weights[names[|names| - 1]]
  }

  function Zeros(n: nat): (r: seq<real>)
    ensures |r| == n && forall t :: 0 <= t < n ==> r[t] == 0.0
  {
    seq(n, t => 0.0)
  }

  /** Every predicting member has a forecast of n rows and a weight. */
  ghost predicate Forecasts(names: seq<string>, outputs: map<string, seq<real>>, weights: map<string, real>, n: nat)
  {
    forall k :: 0 <= k < |names| ==> names[k] in outputs && |outputs[names[k]]| == n && names[k] in weights
  }

  /** A member's contribution to one row: its forecast times its weight,
      over the total weight. */
  function Share(forecast: real, weight: real, total: real): real
    requires total != 0.0
  {
    forecast * weight / total
  }

  /** c times the fraction a / total of the weight. */
  function Portion(c: real, a: real, total: real): real
    requires total != 0.0
  {
    c * (a / total)
  }

  /** The sum, row by row, of each member's forecast times its share
      w / total of the weight. */
  function WeightedPrediction(names: seq<string>, outputs: map<string, seq<real>>, weights: map<string, real>,
                              total: real, n: nat): (r: seq<real>)
    requires Forecasts(names, outputs, weights, n) && total != 0.0
    ensures |r| == n
  {
    if |names| == 0 then Zeros(n)
    else
      var prev := WeightedPrediction(names[..|names| - 1], outputs, weights, total, n);
      var name := names[|names| - 1];
      seq(n, t requires 0 <= t < n => prev[t] + Share(outputs[name][t], weights[name], total))
  }

  /** The weighted forecast reads only the forecasts of the members named. */
  lemma {:induction false} WeightedPredictionReadsNames(names: seq<string>, outputs: map<string, seq<real>>,
                                                        other: map<string, seq<real>>, weights: map<string, real>,
                                                        total: real, n: nat)
    requires Forecasts(names, outputs, weights, n) && total != 0.0
    requires forall k :: 0 <= k < |names| ==> names[k] in other && other[names[k]] == outputs[names[k]]
    ensures Forecasts(names, other, weights, n)
    ensures WeightedPrediction(names, other, weights, total, n) == WeightedPrediction(names, outputs, weights, total, n)
  {
    if |names| > 0 {
      WeightedPredictionReadsNames(names[..|names| - 1], outputs, other, weights, total, n);
    }
  }

  /** The members' forecasts on row t. */
  function Column(names: seq<string>, outputs: map<string, seq<real>>, t: nat): (r: seq<real>)
    requires forall k :: 0 <= k < |names| ==> names[k] in outputs && t < |outputs[names[k]]|
    ensures |r| == |names| && forall k :: 0 <= k < |names| ==> r[k] == outputs[names[k]][t]
  {
    seq(|names|, k requires 0 <= k < |names| => outputs[names[k]][t])
  }

  function Mean(xs: seq<real>): real
    requires |xs| > 0
  {
    Sum(xs) / (|xs| as real)
  }

  function SquaredDeviations(xs: seq<real>, m: real): (r: seq<real>)
    ensures |r| == |xs| && forall k :: 0 <= k < |xs| ==> r[k] == (xs[k] - m) * (xs[k] - m)
  {
    seq(|xs|, k requires 0 <= k < |xs| => (xs[k] - m) * (xs[k] - m))
  }

  /** numpy's population variance (the square of `np.std`). */
  function Variance(xs: seq<real>): (v: real)
    requires |xs| > 0
    ensures v >= 0.0
  {
    var sq := SquaredDeviations(xs, Mean(xs));
    SquaresNonNegative(xs, Mean(xs));
    SumNonNegative(sq);
    QuotientNonNegative(Sum(sq), |sq| as real);
    Mean(sq)
  }

  datatype EnsemblePrediction = EnsemblePrediction(
    prediction: seq<real>, modelPredictions: map<string, seq<real>>, variance: seq<real>)

  /** What `predict` returns on n rows: None when the weights sum to zero
      while some member predicts (the average is not finite). The
      uncertainty is zero on every row with at most one predicting member. */
  function EnsembleOutcome(order: seq<string>, models: map<string, Model>, weights: map<string, real>,
                           outputs: map<string, seq<real>>, n: nat): (r: Option<EnsemblePrediction>)
    requires forall k :: 0 <= k < |order| ==> order[k] in models && order[k] in weights
    requires Forecasts(Predicting(order, models), outputs, weights, n)
    ensures r.Some? ==> |r.value.prediction| == n && |r.value.variance| == n
    ensures r.Some? && |Predicting(order, models)| <= 1 ==> forall t :: 0 <= t < n ==> r.value.variance[t] == 0.0
    ensures r.None? <==> TotalWeight(order, weights) == 0.0 && |Predicting(order, models)| > 0
  {
    var names := Predicting(order, models);
    var total := TotalWeight(order, weights);
    var preds := map name | name in names :: outputs[name];
    if |names| == 0 then Some(EnsemblePrediction(Zeros(n), preds, Zeros(n)))
    else if total == 0.0 then None
    else
      var variance := if |names| > 1 then seq(n, t requires 0 <= t < n => Variance(Column(names, outputs, t)))
                      else Zeros(n);
      Some(EnsemblePrediction(WeightedPrediction(names, outputs, weights, total, n), preds, variance))
  }

  /** The 95% band around the prediction: 1.96 standard deviations either
      side. */
  function ConfidenceInterval(prediction: seq<real>, std: seq<real>): (band: (seq<real>, seq<real>))
    requires |std| == |prediction|
    ensures |band.0| == |band.1| == |prediction|
    ensures forall t :: 0 <= t < |prediction| ==>
      band.0[t] == prediction[t] - 1.96 * std[t] && band.1[t] == prediction[t] + 1.96 * std[t]
  {
    (seq(|prediction|, t requires 0 <= t < |prediction| => prediction[t] - 1.96 * std[t]),
     seq(|prediction|, t requires 0 <= t < |prediction| => prediction[t] + 1.96 * std[t]))
  }

  /** The band is symmetric about the prediction, contains it for a
      non-negative deviation and collapses onto it for a zero one. */
  lemma IntervalSymmetric(prediction: seq<real>, std: seq<real>, t: nat)
    requires |std| == |prediction| && t < |prediction|
    ensures var band := ConfidenceInterval(prediction, std);
      band.1[t] - prediction[t] == prediction[t] - band.0[t] &&
      (std[t] >= 0.0 ==> band.0[t] <= prediction[t] <= band.1[t]) &&
      (std[t] == 0.0 ==> band.0[t] == prediction[t] == band.1[t])
  {
  }

  /** When every predicting member forecasts c on row t, the ensemble
      forecasts c times the predicting members' share of the total weight. */
  lemma {:induction false} AgreeingForecasts(names: seq<string>, outputs: map<string, seq<real>>,
                                             weights: map<string, real>, total: real, n: nat, t: nat, c: real)
    requires Forecasts(names, outputs, weights, n) && total != 0.0 && t < n
    requires forall k :: 0 <= k < |names| ==> outputs[names[k]][t] == c
    ensures WeightedPrediction(names, outputs, weights, total, n)[t] == Portion(c, TotalWeight(names, weights), total)
  {
    if |names| > 0 {
      var init := names[..|names| - 1];
      var name := names[|names| - 1];
      AgreeingForecasts(init, outputs, weights, total, n, t, c);
      assert WeightedPrediction(names, outputs, weights, total, n)[t] ==
             WeightedPrediction(init, outputs, weights, total, n)[t] + Share(c, weights[name], total);
      ShareStep(c, TotalWeight(init, weights), weights[name], total);
    }
  }

  /** Adding a member's share to the running share. */
  lemma ShareStep(c: real, a: real, w: real, total: real)
    requires total != 0.0
    ensures Portion(c, a, total) + Share(c, w, total) == Portion(c, a + w, total)
  {
    var x := a / total;
    var y := w / total;
    assert x * total == a;
    assert y * total == w;
    assert (x + y) * total == a + w;
    assert (a + w) / total == x + y;
    assert c * w / total == c * y;
  }

  /** When every member predicts and all agree on row t, the ensemble
      forecast on row t is their common value. */
  lemma UnanimousEnsemble(order: seq<string>, models: map<string, Model>, weights: map<string, real>,
                          outputs: map<string, seq<real>>, n: nat, t: nat, c: real)
    requires forall k :: 0 <= k < |order| ==> order[k] in models && order[k] in weights && models[order[k]].hasPredict
    requires Forecasts(order, outputs, weights, n) && t < n && |order| > 0
    requires forall k :: 0 <= k < |order| ==> outputs[order[k]][t] == c
    requires TotalWeight(order, weights) != 0.0
    ensures EnsembleOutcome(order, models, weights, outputs, n).Some?
    ensures EnsembleOutcome(order, models, weights, outputs, n).value.prediction[t] == c
  {
    var total := TotalWeight(order, weights);
    OutcomeWhenAllPredict(order, models, weights, outputs, n);
    AgreeingForecasts(order, outputs, weights, total, n, t, c);
    PortionOfWhole(c, total);
  }

  /** When every member predicts, the prediction is the weighted sum over
      all members. */
  lemma OutcomeWhenAllPredict(order: seq<string>, models: map<string, Model>, weights: map<string, real>,
                              outputs: map<string, seq<real>>, n: nat)
    requires forall k :: 0 <= k < |order| ==> order[k] in models && order[k] in weights && models[order[k]].hasPredict
    requires Forecasts(order, outputs, weights, n) && |order| > 0
    requires TotalWeight(order, weights) != 0.0
    ensures Predicting(order, models) == order
    ensures EnsembleOutcome(order, models, weights, outputs, n).Some?
    ensures EnsembleOutcome(order, models, weights, outputs, n).value.prediction ==
            WeightedPrediction(order, outputs, weights, TotalWeight(order, weights), n)
  {
    AllPredicting(order, models);
  }

  lemma PortionOfWhole(c: real, total: real)
    requires total != 0.0
    ensures Portion(c, total, total) == c
  {
    assert total / total == 1.0;
  }

  lemma {:induction false} AllPredicting(names: seq<string>, models: map<string, Model>)
    requires forall k :: 0 <= k < |names| ==> names[k] in models && models[names[k]].hasPredict
    ensures Predicting(names, models) == names
  {
    AllPredictingPrefix(names, models, |names|);
    assert names[..|names|] == names;
  }

  lemma {:induction false} AllPredictingPrefix(names: seq<string>, models: map<string, Model>, i: nat)
    requires i <= |names|
    requires forall k :: 0 <= k < |names| ==> names[k] in models && models[names[k]].hasPredict
    ensures Predicting(names[..i], models) == names[..i]
  {
    if i > 0 {
      AllPredictingPrefix(names, models, i - 1);
      PredictingStep(names, models, i - 1);
      assert names[..i - 1] + [names[i - 1]] == names[..i];
    }
  }

  lemma SquareNonNegative(x: real)
    ensures x * x >= 0.0
  {
  }

  /** The mean of n copies of c is c. */
  lemma MeanOfConstant(xs: seq<real>, c: real)
    requires |xs| > 0 && forall k :: 0 <= k < |xs| ==> xs[k] == c
    ensures Mean(xs) == c
  {
    SumConstant(xs, c);
    var len := |xs| as real;
    assert Sum(xs) == len * c;
    assert Sum(xs) / len == c;
  }

  lemma SquaresNonNegative(xs: seq<real>, m: real)
    ensures forall k :: 0 <= k < |xs| ==> SquaredDeviations(xs, m)[k] >= 0.0
  {
    forall k | 0 <= k < |xs|
      ensures SquaredDeviations(xs, m)[k] >= 0.0
    {
      SquareNonNegative(xs[k] - m);
    }
  }

  lemma SquaresVanish(xs: seq<real>, m: real)
    requires forall k :: 0 <= k < |xs| ==> xs[k] == m
    ensures forall k :: 0 <= k < |xs| ==> SquaredDeviations(xs, m)[k] == 0.0
  {
  }

  lemma QuotientNonNegative(x: real, y: real)
    requires x >= 0.0 && y > 0.0
    ensures x / y >= 0.0
  {
  }

  /** The variance is never negative, and is zero when every forecast is
      the same. */
  lemma VarianceBounds(xs: seq<real>)
    requires |xs| > 0
    ensures Variance(xs) >= 0.0
    ensures (forall k :: 0 <= k < |xs| ==> xs[k] == xs[0]) ==> Variance(xs) == 0.0
  {
    var m := Mean(xs);
    var sq := SquaredDeviations(xs, m);
    if forall k :: 0 <= k < |xs| ==> xs[k] == xs[0] {
      MeanOfConstant(xs, xs[0]);
      SquaresVanish(xs, m);
      SumZeros(sq);
    }
  }

  /** The forecasts of the members that can predict, and their names in
      order. */
  method CollectPredictions(order: seq<string>, models: map<string, Model>, outputs: map<string, seq<real>>)
    returns (names: seq<string>, predictions: map<string, seq<real>>)
    requires forall k :: 0 <= k < |order| ==> order[k] in models
    requires forall name :: name in models && models[name].hasPredict ==> name in outputs
    ensures names == Predicting(order, models)
    ensures predictions == map name | name in names :: outputs[name]
  {
    names := [];
    predictions := map[];
    for i := 0 to |order|
      invariant names == Predicting(order[..i], models)
      invariant forall name :: name in names ==> name in outputs
      invariant predictions == map name | name in names :: outputs[name]
    {
      PredictingStep(order, models, i);
      if models[order[i]].hasPredict {
        ExtendPredictions(names, outputs, order[i]);
        predictions := predictions[order[i] := outputs[order[i]]];
        names := names + [order[i]];
      }
    }
    assert order[..|order|] == order;
  }

  /** One more member of the order: it joins the predicting members when
      it can predict. */
  lemma PredictingStep(order: seq<string>, models: map<string, Model>, i: nat)
    requires i < |order| && forall k :: 0 <= k < |order| ==> order[k] in models
    ensures Predicting(order[..i + 1], models) ==
      if models[order[i]].hasPredict then Predicting(order[..i], models) + [order[i]]
      else Predicting(order[..i], models)
  {
    assert order[..i + 1][..i] == order[..i];
  }

  lemma ExtendPredictions(names: seq<string>, outputs: map<string, seq<real>>, name: string)
    requires name in outputs && forall x :: x in names ==> x in outputs
    ensures (map x | x in names :: outputs[x])[name := outputs[name]] == map x | x in names + [name] :: outputs[x]
  {
  }

  /** Adds each member's weighted forecast into a running sum of rows. */
  method Combine(names: seq<string>, predictions: map<string, seq<real>>, weights: map<string, real>,
                 total: real, n: nat)
    returns (weighted: seq<real>)
    requires Forecasts(names, predictions, weights, n) && total != 0.0
    ensures weighted == WeightedPrediction(names, predictions, weights, total, n)
  {
    weighted := Zeros(n);
    for k := 0 to |names|
      invariant weighted == WeightedPrediction(names[..k], predictions, weights, total, n)
    {
      var forecast, weight := predictions[names[k]], weights[names[k]];
      assert names[..k + 1][..k] == names[..k];
      weighted := seq(n, t requires 0 <= t < n => weighted[t] + Share(forecast[t], weight, total));
    }
    assert names[..|names|] == names;
  }

  class EnsembleModel {
    var models: map<string, Model>
    var weights: map<string, real>
    /** The members' names in insertion order (the dictionaries' order). */
    var order: seq<string>

    ghost predicate Valid()
      reads this
    {
      Distinct(order) &&
      (forall name :: name in models <==> name in order) &&
      (forall name :: name in weights <==> name in order)
    }

    constructor()
      ensures Valid() && models == map[] && weights == map[] && order == []
    {
      models := map[];
      weights := map[];
      order := [];
    }

    /** Adds a member, or replaces the model and weight of an existing one
        in place. */
    method AddModel(name: string, model: Model, weight: real := 1.0)
      requires Valid()
      modifies this
      ensures Valid()
      ensures models == old(models)[name := model] && weights == old(weights)[name := weight]
      ensures order == if name in old(models) then old(order) else old(order) + [name]
    {
      if name !in models {
        order := order + [name];
      }
      models := models[name := model];
      weights := weights[name := weight];
    }

    /** Every predicting member in the table has its forecast and weight. */
    lemma TableForecasts(n: nat, outputs: map<string, seq<real>>)
      requires Valid()
      requires forall name :: name in models && models[name].hasPredict ==> name in outputs && |outputs[name]| == n
      ensures forall k :: 0 <= k < |order| ==> order[k] in models && order[k] in weights
      ensures Forecasts(Predicting(order, models), outputs, weights, n)
    {
      assert forall k :: 0 <= k < |order| ==> order[k] in order;
      var names := Predicting(order, models);
      forall k | 0 <= k < |names|
        ensures names[k] in outputs && |outputs[names[k]]| == n && names[k] in weights
      {
        assert names[k] in order;
      }
    }

    /** The combined forecast on n rows; see EnsembleOutcome. */
    method Predict(n: nat, outputs: map<string, seq<real>>) returns (r: Option<EnsemblePrediction>)
      requires Valid()
      requires forall name :: name in models && models[name].hasPredict ==> name in outputs && |outputs[name]| == n
      ensures Forecasts(Predicting(order, models), outputs, weights, n)
      ensures r == EnsembleOutcome(order, models, weights, outputs, n)
    {
      TableForecasts(n, outputs);
      var names, predictions := CollectPredictions(order, models, outputs);
      var total := TotalWeight(order, weights);
      if |names| > 0 && total == 0.0 {
        return None;
      }
      var weighted := Zeros(n);
      if |names| > 0 {
        WeightedPredictionReadsNames(names, outputs, predictions, weights, total, n);
        weighted := Combine(names, predictions, weights, total, n);
      }
      var variance := if |names| > 1 then seq(n, t requires 0 <= t < n => Variance(Column(names, outputs, t)))
                      else Zeros(n);
      r := Some(EnsemblePrediction(weighted, predictions, variance));
    }
  }
}
