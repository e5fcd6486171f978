/**
 * Horizon forecast (`forecastSales`): the trained network is asked once for
 * every (month, product) pair of months 1..6 and products {0, 1}, month-major,
 * product-minor. The network is an abstract total function `model`.
 */
module Forecast {

  /** One record `{month, product, quantity_sold}` of the forecast. */
  datatype Prediction<Q> = Prediction(month: int, product: int, quantitySold: Q)

  /** Months of the horizon: 1..LastMonth. */
  const LastMonth: int := 6

  /** Records in a full forecast: LastMonth months times two products. */
  const HorizonSize: int := 12

  /** The month of the k-th pair in month-major, product-minor order. */
  function MonthAt(k: int): int {
    k / 2 + 1
  }

  /** The product of the k-th pair in month-major, product-minor order. */
  function ProductAt(k: int): int {
    k % 2
  }

  /** The position of a (month, product) pair in month-major, product-minor order. */
  function PairIndex(month: int, product: int): int {
    2 * (month - 1) + product
  }

  /** PairIndex and (MonthAt, ProductAt) are inverse bijections between 0..11 and 1..6 x {0, 1}. */
  lemma PairIndexBijection(k: int, month: int, product: int)
    ensures 0 <= k < HorizonSize ==>
              1 <= MonthAt(k) <= LastMonth && 0 <= ProductAt(k) <= 1 && PairIndex(MonthAt(k), ProductAt(k)) == k
    ensures 1 <= month <= LastMonth && 0 <= product <= 1 ==>
              0 <= PairIndex(month, product) < HorizonSize &&
              MonthAt(PairIndex(month, product)) == month && ProductAt(PairIndex(month, product)) == product
  {
  }

  /** Record k of preds holds pair k and the model's answer for it, for every k in preds. */
  ghost predicate IsForecastPrefix<Q>(preds: seq<Prediction<Q>>, model: (int, int) -> Q) {
    forall k :: 0 <= k < |preds| ==>
      preds[k] == Prediction(MonthAt(k), ProductAt(k), model(MonthAt(k), ProductAt(k)))
  }

  /** preds is what forecastSales produces with `model`: all twelve pairs, each with the model's answer. */
  ghost predicate IsHorizonForecast<Q>(preds: seq<Prediction<Q>>, model: (int, int) -> Q) {
    |preds| == HorizonSize && IsForecastPrefix(preds, model)
  }

  /** Appending the record for the next pair keeps a forecast prefix a forecast prefix. */
  lemma ExtendForecastPrefix<Q>(preds: seq<Prediction<Q>>, model: (int, int) -> Q, month: int, product: int)
    requires IsForecastPrefix(preds, model)
    requires 0 <= product <= 1 && |preds| == PairIndex(month, product)
    ensures IsForecastPrefix(preds + [Prediction(month, product, model(month, product))], model)
  {
    var k0 := |preds|;
    assert MonthAt(k0) == month && ProductAt(k0) == product;
  }

  method ForecastSales<Q>(model: (int, int) -> Q) returns (futurePredictions: seq<Prediction<Q>>)
    ensures IsHorizonForecast(futurePredictions, model)
  {
    futurePredictions := [];
    var month := 1;
    while month <= LastMonth
      invariant 1 <= month <= LastMonth + 1
      invariant |futurePredictions| == PairIndex(month, 0)
      invariant IsForecastPrefix(futurePredictions, model)
    {
      var product := 0;
      while product <= 1
        invariant 0 <= product <= 2
        invariant |futurePredictions| == PairIndex(month, product)
        invariant IsForecastPrefix(futurePredictions, model)
      {
        var prediction := model(month, product);
        ExtendForecastPrefix(futurePredictions, model, month, product);
        futurePredictions := futurePredictions + [Prediction(month, product, prediction)];
        product := product + 1;
      }
      month := month + 1;
    }
  }

  /** Every (month, product) pair of the horizon is in the forecast, at its PairIndex, and nothing else is. */
  lemma ForecastCoversHorizon<Q>(preds: seq<Prediction<Q>>, model: (int, int) -> Q)
    requires IsHorizonForecast(preds, model)
    ensures forall k :: 0 <= k < |preds| ==>
              1 <= preds[k].month <= LastMonth && 0 <= preds[k].product <= 1
    ensures forall month, product :: 1 <= month <= LastMonth && 0 <= product <= 1 ==>
              0 <= PairIndex(month, product) < |preds| &&
              preds[PairIndex(month, product)].month == month &&
              preds[PairIndex(month, product)].product == product
  {
    forall k | 0 <= k < |preds|
      ensures 1 <= preds[k].month <= LastMonth && 0 <= preds[k].product <= 1
    {
      PairIndexBijection(k, 1, 0);
    }
    forall month, product | 1 <= month <= LastMonth && 0 <= product <= 1
      ensures 0 <= PairIndex(month, product) < |preds|
      ensures preds[PairIndex(month, product)].month == month
      ensures preds[PairIndex(month, product)].product == product
    {
      PairIndexBijection(0, month, product);
    }
  }

  /** No (month, product) pair occurs twice in the forecast. */
  lemma ForecastNoDuplicates<Q>(preds: seq<Prediction<Q>>, model: (int, int) -> Q)
    requires IsHorizonForecast(preds, model)
    ensures forall i, j :: 0 <= i < j < |preds| ==>
              preds[i].month != preds[j].month || preds[i].product != preds[j].product
  {
    forall i, j | 0 <= i < j < |preds|
      ensures preds[i].month != preds[j].month || preds[i].product != preds[j].product
    {
      PairIndexBijection(i, 1, 0);
      PairIndexBijection(j, 1, 0);
    }
  }

  /** Each record's quantity is the model's answer for that record's own pair. */
  lemma ForecastQueriesModel<Q>(preds: seq<Prediction<Q>>, model: (int, int) -> Q)
    requires IsHorizonForecast(preds, model)
    ensures forall k :: 0 <= k < |preds| ==> preds[k].quantitySold == model(preds[k].month, preds[k].product)
  {
  }

  /** With the same model, two forecasts are identical: the forecast is a function of the model. */
  lemma ForecastDeterministic<Q>(p1: seq<Prediction<Q>>, p2: seq<Prediction<Q>>, model: (int, int) -> Q)
    requires IsHorizonForecast(p1, model) && IsHorizonForecast(p2, model)
    ensures p1 == p2
  {
  }
}
