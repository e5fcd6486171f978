/**
 * Series merging (`getChartData`): the actual series, one point per feature
 * row, and the predicted series, one point per (month, product) pair of the
 * horizon looked up in the forecast, with the label axis they share.
 */
module Chart {
  import opened Wrappers
  import opened ArrayOps
  import opened NumberText
  import opened Preprocess
  import opened Forecast

  /** The chart input: the shared label axis, the "Actual Sales" and the "Predicted Sales" values (None is `null`). */
  datatype ChartData<Q> = ChartData(labels: seq<string>, actualData: seq<Q>, predictedData: seq<Option<Q>>)

  /** `Month ${d.sales_date}` */
  function ActualLabel<Q>(row: FeatureRow<Q>): string {
    "Month " + NumberToString(row.salesDate)
  }

  /** `data.map(d => `Month ${d.sales_date}`)` */
  function ActualLabels<Q>(data: seq<FeatureRow<Q>>): (labels: seq<string>)
    ensures |labels| == |data|
    ensures forall i :: 0 <= i < |data| ==> labels[i] == "Month " + NumberToString(data[i].salesDate)
  {
    MapSeq(data, (row: FeatureRow<Q>) => ActualLabel(row))
  }

  /** `data.map(d => d.quantity_sold)` */
  function ActualData<Q>(data: seq<FeatureRow<Q>>): (values: seq<Q>)
    ensures |values| == |data|
    ensures forall i :: 0 <= i < |data| ==> values[i] == data[i].quantitySold
  {
    MapSeq(data, (row: FeatureRow<Q>) => row.quantitySold)
  }

  /** Whether a forecast record is the one for (month, product). */
  predicate IsPair<Q>(p: Prediction<Q>, month: int, product: int) {
    p.month == month && p.product == product
  }

  /**
   * `predictions.find(...)` on (month, product), then its quantity or `null`:
   * None exactly when no record has that pair, else the quantity of the first
   * record that has it.
   */
  function LookupPrediction<Q>(predictions: seq<Prediction<Q>>, month: int, product: int): (r: Option<Q>)
    ensures r.None? <==> forall i :: 0 <= i < |predictions| ==> !IsPair(predictions[i], month, product)
    ensures forall i ::
              (0 <= i < |predictions| && IsPair(predictions[i], month, product) &&
               forall j :: 0 <= j < i ==> !IsPair(predictions[j], month, product))
              ==> r == Some(predictions[i].quantitySold)
  {
    match Find(predictions, (p: Prediction<Q>) => IsPair(p, month, product))
    case Some(prediction) => Some(prediction.quantitySold)
    case None => None
  }

  /** Entry k of pd is the lookup of pair k, for every k in pd. */
  ghost predicate IsPredictedPrefix<Q>(pd: seq<Option<Q>>, predictions: seq<Prediction<Q>>) {
    forall k :: 0 <= k < |pd| ==> pd[k] == LookupPrediction(predictions, MonthAt(k), ProductAt(k))
  }

  /** pd is the predicted series getChartData builds from predictions. */
  ghost predicate IsPredictedSeries<Q>(pd: seq<Option<Q>>, predictions: seq<Prediction<Q>>) {
    |pd| == HorizonSize && IsPredictedPrefix(pd, predictions)
  }

  lemma ExtendPredictedPrefix<Q>(pd: seq<Option<Q>>, predictions: seq<Prediction<Q>>, month: int, product: int)
    requires IsPredictedPrefix(pd, predictions)
    requires 0 <= product <= 1 && |pd| == PairIndex(month, product)
    ensures IsPredictedPrefix(pd + [LookupPrediction(predictions, month, product)], predictions)
  {
    assert MonthAt(|pd|) == month && ProductAt(|pd|) == product;
  }

  /** The nested loop that fills `predictedData`, month-major, product-minor. */
  method PredictedData<Q>(predictions: seq<Prediction<Q>>) returns (predictedData: seq<Option<Q>>)
    ensures IsPredictedSeries(predictedData, predictions)
  {
    predictedData := [];
    var month := 1;
    while month <= LastMonth
      invariant 1 <= month <= LastMonth + 1
      invariant |predictedData| == PairIndex(month, 0)
      invariant IsPredictedPrefix(predictedData, predictions)
    {
      var product := 0;
      while product <= 1
        invariant 0 <= product <= 2
        invariant |predictedData| == PairIndex(month, product)
        invariant IsPredictedPrefix(predictedData, predictions)
      {
        var prediction := Find(predictions, (p: Prediction<Q>) => IsPair(p, month, product));
        var value := if prediction.Some? then Some(prediction.value.quantitySold) else None;
        ExtendPredictedPrefix(predictedData, predictions, month, product);
        predictedData := predictedData + [value];
        product := product + 1;
      }
      month := month + 1;
    }
  }

  /** `Month ${month} Product A` for product 0, `Month ${month} Product B` for product 1. */
  function PredictedLabel(month: int, product: int): string {
    "Month " + NumberToString(Int(month)) + (if product == 0 then " Product A" else " Product B")
  }

  /** Entry k of labels is the label of pair k, for every k in labels. */
  ghost predicate IsPredictedLabelPrefix(labels: seq<string>) {
    forall k :: 0 <= k < |labels| ==> labels[k] == PredictedLabel(MonthAt(k), ProductAt(k))
  }

  /** labels is the fixed predicted label list. */
  ghost predicate IsPredictedLabels(labels: seq<string>) {
    |labels| == HorizonSize && IsPredictedLabelPrefix(labels)
  }

  lemma ExtendPredictedLabelPrefix(labels: seq<string>, month: int)
    requires IsPredictedLabelPrefix(labels) && |labels| == PairIndex(month, 0)
    ensures IsPredictedLabelPrefix(labels + [PredictedLabel(month, 0), PredictedLabel(month, 1)])
  {
    assert MonthAt(|labels|) == month && ProductAt(|labels|) == 0;
    assert MonthAt(|labels| + 1) == month && ProductAt(|labels| + 1) == 1;
  }

  /** The loop that fills `predictedLabels`, two labels per month. */
  method PredictedLabels() returns (predictedLabels: seq<string>)
    ensures IsPredictedLabels(predictedLabels)
  {
    predictedLabels := [];
    var month := 1;
    while month <= LastMonth
      invariant 1 <= month <= LastMonth + 1
      invariant |predictedLabels| == PairIndex(month, 0)
      invariant IsPredictedLabelPrefix(predictedLabels)
    {
      ExtendPredictedLabelPrefix(predictedLabels, month);
      predictedLabels := predictedLabels + [PredictedLabel(month, 0), PredictedLabel(month, 1)];
      month := month + 1;
    }
  }

  /** Entry 2(m-1) of the predicted labels is "Month m Product A" and entry 2(m-1)+1 is "Month m Product B". */
  lemma PredictedLabelsByMonth(labels: seq<string>)
    requires IsPredictedLabels(labels)
    ensures forall month :: 1 <= month <= LastMonth ==>
              labels[PairIndex(month, 0)] == "Month " + NatText(month) + " Product A" &&
              labels[PairIndex(month, 1)] == "Month " + NatText(month) + " Product B"
  {
    PredictedLabelsAtPairs(labels);
    PredictedLabelTexts(labels);
  }

  lemma PredictedLabelsAtPairs(labels: seq<string>)
    requires IsPredictedLabels(labels)
    ensures forall month :: 1 <= month <= LastMonth ==>
              labels[PairIndex(month, 0)] == PredictedLabel(month, 0) &&
              labels[PairIndex(month, 1)] == PredictedLabel(month, 1)
  {
    forall month | 1 <= month <= LastMonth
      ensures labels[PairIndex(month, 0)] == PredictedLabel(month, 0)
      ensures labels[PairIndex(month, 1)] == PredictedLabel(month, 1)
    {
      PredictedLabelAtPair(labels, month, 0);
      PredictedLabelAtPair(labels, month, 1);
    }
  }

  lemma PredictedLabelAtPair(labels: seq<string>, month: int, product: int)
    requires IsPredictedLabels(labels)
    requires 1 <= month <= LastMonth && 0 <= product <= 1
    ensures 0 <= PairIndex(month, product) < |labels|
    ensures labels[PairIndex(month, product)] == PredictedLabel(month, product)
  {
    PairIndexBijection(0, month, product);
  }

  lemma PredictedLabelTexts(labels: seq<string>)
    requires |labels| == HorizonSize
    requires forall month :: 1 <= month <= LastMonth ==>
               labels[PairIndex(month, 0)] == PredictedLabel(month, 0) &&
               labels[PairIndex(month, 1)] == PredictedLabel(month, 1)
    ensures forall month :: 1 <= month <= LastMonth ==>
              labels[PairIndex(month, 0)] == "Month " + NatText(month) + " Product A" &&
              labels[PairIndex(month, 1)] == "Month " + NatText(month) + " Product B"
  {
    forall month | 1 <= month <= LastMonth
      ensures labels[PairIndex(month, 0)] == "Month " + NatText(month) + " Product A"
      ensures labels[PairIndex(month, 1)] == "Month " + NatText(month) + " Product B"
    {
      PredictedLabelText(month);
    }
  }

  lemma PredictedLabelText(month: int)
    requires 1 <= month <= LastMonth
    ensures PredictedLabel(month, 0) == "Month " + NatText(month) + " Product A"
    ensures PredictedLabel(month, 1) == "Month " + NatText(month) + " Product B"
  {
  }

  /** The twelve predicted labels are pairwise different. */
  lemma PredictedLabelsDistinct(labels: seq<string>)
    requires IsPredictedLabels(labels)
    ensures forall i, j :: 0 <= i < j < |labels| ==> labels[i] != labels[j]
  {
    forall i, j | 0 <= i < j < |labels|
      ensures labels[i] != labels[j]
    {
      PairIndexBijection(i, 1, 0);
      PairIndexBijection(j, 1, 0);
      var mi, mj := NatText(MonthAt(i)), NatText(MonthAt(j));
      assert |mi| == 1 && |mj| == 1;
      if MonthAt(i) != MonthAt(j) {
        DecimalValueOfNatText(MonthAt(i));
        DecimalValueOfNatText(MonthAt(j));
        assert labels[i][6] == mi[0] && labels[j][6] == mj[0];
      } else {
        assert labels[i][16] != labels[j][16];
      }
    }
  }

  /** With the forecast of a model, pair k is found at record k: no `null`, and the model's answer for pair k. */
  lemma LookupInForecast<Q>(preds: seq<Prediction<Q>>, model: (int, int) -> Q, k: int)
    requires IsHorizonForecast(preds, model) && 0 <= k < HorizonSize
    ensures LookupPrediction(preds, MonthAt(k), ProductAt(k)) == Some(preds[k].quantitySold)
    ensures LookupPrediction(preds, MonthAt(k), ProductAt(k)) == Some(model(MonthAt(k), ProductAt(k)))
  {
    ForecastNoDuplicates(preds, model);
    assert IsPair(preds[k], MonthAt(k), ProductAt(k));
    forall j | 0 <= j < k
      ensures !IsPair(preds[j], MonthAt(k), ProductAt(k))
    {
    }
  }

  /** The predicted series built from a forecast has no `null`: entry k is forecast record k's quantity. */
  lemma PredictedFromForecast<Q>(pd: seq<Option<Q>>, preds: seq<Prediction<Q>>, model: (int, int) -> Q)
    requires IsPredictedSeries(pd, preds) && IsHorizonForecast(preds, model)
    ensures forall k :: 0 <= k < |pd| ==> pd[k] == Some(preds[k].quantitySold)
    ensures forall k :: 0 <= k < |pd| ==> pd[k] == Some(model(MonthAt(k), ProductAt(k)))
  {
    forall k | 0 <= k < |pd|
      ensures pd[k] == Some(preds[k].quantitySold) && pd[k] == Some(model(MonthAt(k), ProductAt(k)))
    {
      LookupInForecast(preds, model, k);
    }
  }

  /** chart is what getChartData returns for data and predictions. */
  ghost predicate IsChartData<Q>(chart: ChartData<Q>, data: seq<FeatureRow<Q>>, predictions: seq<Prediction<Q>>) {
    && |chart.labels| == |data| + HorizonSize
    && chart.labels[..|data|] == ActualLabels(data)
    && IsPredictedLabels(chart.labels[|data|..])
    && chart.actualData == ActualData(data)
    && IsPredictedSeries(chart.predictedData, predictions)
  }

  method GetChartData<Q>(data: seq<FeatureRow<Q>>, predictions: seq<Prediction<Q>>) returns (chart: ChartData<Q>)
    ensures IsChartData(chart, data, predictions)
    ensures |chart.labels| == |data| + HorizonSize
    ensures forall i :: 0 <= i < |data| ==> chart.labels[i] == "Month " + NumberToString(data[i].salesDate)
    ensures |chart.actualData| == |data|
    ensures forall i :: 0 <= i < |data| ==> chart.actualData[i] == data[i].quantitySold
    ensures |chart.predictedData| == HorizonSize
  {
    var labels := ActualLabels(data);
    var actualData := ActualData(data);
    var predictedData := PredictedData(predictions);
    var predictedLabels := PredictedLabels();
    chart := ChartData(labels + predictedLabels, actualData, predictedData);
    assert chart.labels[..|data|] == labels;
    assert chart.labels[|data|..] == predictedLabels;
  }

  /** Built from a forecast, every predicted point is present and is the model's answer for its pair. */
  lemma ChartFromForecast<Q>(chart: ChartData<Q>, data: seq<FeatureRow<Q>>,
                             preds: seq<Prediction<Q>>, model: (int, int) -> Q)
    requires IsChartData(chart, data, preds) && IsHorizonForecast(preds, model)
    ensures forall k :: 0 <= k < HorizonSize ==> chart.predictedData[k] == Some(model(MonthAt(k), ProductAt(k)))
  {
    PredictedFromForecast(chart.predictedData, preds, model);
  }

  /** Before any upload (no data, no predictions) the axis holds only the predicted labels and every predicted point is `null`. */
  lemma InitialChart<Q>(chart: ChartData<Q>)
    requires IsChartData(chart, [], [])
    ensures IsPredictedLabels(chart.labels) && chart.actualData == []
    ensures forall k :: 0 <= k < |chart.predictedData| ==> chart.predictedData[k] == None
  {
    assert chart.labels[0..] == chart.labels;
  }
}
