# Sales forecasting: the data shaping around the network

This project models, in Dafny, the deterministic part of the sales-forecasting
app (`sales-forecasting/src/App.js`): how uploaded CSV rows become feature rows,
how the trained network is queried over the six-month horizon, and how the
actual and predicted series are merged for the chart.

- `Preprocess` (`preprocess.dfy`): `preprocessData`. Each raw row becomes one
  feature row `{sales_date, product_description, quantity_sold}`. The month is
  `getMonth() + 1` or NaN. The product text is encoded as 0 for exactly
  `"Product A"` and 1 for any other text, a missing column included. The
  quantity is whatever `parseFloat` gives. The row mapping keeps order and is
  one-to-one.
- `Forecast` (`forecast.dfy`): `forecastSales`. A nested loop asks the model
  once for every (month, product) pair in 1..6 x {0, 1}. The order is
  month-major, product-minor, so record k holds month `k/2 + 1` and product
  `k%2`. Lemmas prove that every pair occurs exactly once, that each quantity is
  the model's answer for its record's own pair, and that the forecast depends
  only on the model.
- `Chart` (`chart.dfy`): `getChartData`. It builds the actual labels and values
  (one per row), the twelve predicted values and the twelve fixed predicted
  labels, and the combined label axis. Each predicted value is found by a
  first-match `find` on (month, product) and falls back to `null`. Lemmas prove
  that a forecast leaves no `null`, that the predicted labels are the
  "Month m Product A/B" texts and are pairwise distinct, and what the chart
  looks like before any upload.
- `ArrayOps` (`array_ops.dfy`) and `NumberText` (`number_text.dfy`): the
  JavaScript built-ins the core relies on. These are `Array.prototype.map`,
  `Array.prototype.find`, and the text a template literal gives for an integer
  or NaN. `NatText` is proved inverse to a decimal reader, so labels determine
  their numbers.

Foreign parts are parameters:
- the trained network is an abstract total function `(int, int) -> Q`, where
  `Q` is an opaque quantity type;
- the date-to-month step is a function that yields a month index 0..11, or
  None for an invalid date;
- `parseFloat` is a function from the raw quantity text to `Q`.

## Model

| member | source | states |
|---|---|---|
| `Preprocess.EncodeProduct` | sales-forecasting/src/App.js:31 | the code is always 0 or 1, and it is 0 exactly when the text is "Product A" (a missing text gives 1) |
| `Preprocess.MonthNumber` | sales-forecasting/src/App.js:30 | the period is NaN exactly when the month is NaN; otherwise it is the 0-based month plus one and lies in 1..12 |
| `Preprocess.NormalizeRow` | sales-forecasting/src/App.js:29-33 | each output field comes from the same-named field of that one row: month in 1..12 or NaN, category 0 exactly for "Product A", quantity the parse of the row's quantity text |
| `Preprocess.PreprocessData` | sales-forecasting/src/App.js:29-33 | one output row per input row, and output row i is the encoding of input row i |
| `Preprocess.PreprocessConcat` | sales-forecasting/src/App.js:29-33 | preprocessing keeps order: the encoding of a concatenation is the concatenation of the encodings |
| `Preprocess.TwoRowScenario` | sales-forecasting/src/App.js:29-33 | a January "Product A" row and a February "Product B" row encode to (1, 0, q1) and (2, 1, q2) |
| `ArrayOps.MapSeq` | sales-forecasting/src/App.js:29 | `map` gives a result of the same length whose i-th element is f of the i-th input element |
| `ArrayOps.MapSeqConcat` | sales-forecasting/src/App.js:83-84 | mapping distributes over concatenation, so order is kept |
| `ArrayOps.Find` | sales-forecasting/src/App.js:90 | `find` gives none exactly when no element matches; otherwise it gives the element at the first matching index |
| `ArrayOps.FindSound` | sales-forecasting/src/App.js:90 | a found value is an element of the array that satisfies the predicate |
| `NumberText.NatText` | sales-forecasting/src/App.js:100 | the decimal text of a number is non-empty, made of digits, one character long exactly below 10, and without a leading zero |
| `NumberText.DecimalValueOfNatText` | sales-forecasting/src/App.js:100 | reading the decimal text back gives the number (round trip) |
| `NumberText.NumberToString` | sales-forecasting/src/App.js:83 | the text is "NaN" exactly for NaN, the decimal digits for a non-negative integer, and "-" then the digits for a negative one |
| `NumberText.NumberToStringInjective` | sales-forecasting/src/App.js:83 | different numbers give different texts |
| `Forecast.PairIndexBijection` | sales-forecasting/src/App.js:66-67 | position k = 2(month-1)+product is a bijection between 0..11 and the pairs 1..6 x {0,1} |
| `Forecast.ForecastSales` | sales-forecasting/src/App.js:64-79 | the result has exactly 12 records; record k is (k/2+1, k%2) with the model's answer for that pair |
| `Forecast.ForecastCoversHorizon` | sales-forecasting/src/App.js:65-76 | every record's month is in 1..6 and its product in {0,1}, and every such pair sits at its own position |
| `Forecast.ForecastNoDuplicates` | sales-forecasting/src/App.js:65-76 | no (month, product) pair occurs twice |
| `Forecast.ForecastQueriesModel` | sales-forecasting/src/App.js:68-73 | every record's quantity is the model applied to that record's own month and product |
| `Forecast.ForecastDeterministic` | sales-forecasting/src/App.js:68-69 | two forecasts with the same model are identical |
| `Chart.ActualLabels` | sales-forecasting/src/App.js:83 | one label per data row, and label i is "Month " followed by row i's month text |
| `Chart.ActualData` | sales-forecasting/src/App.js:84 | one value per data row, and value i is row i's quantity |
| `Chart.LookupPrediction` | sales-forecasting/src/App.js:90-91 | the value is `null` exactly when no prediction has the pair; otherwise it is the quantity of the first prediction that has it |
| `Chart.PredictedData` | sales-forecasting/src/App.js:87-95 | exactly 12 entries; entry k is the lookup of pair (k/2+1, k%2) in the predictions |
| `Chart.PredictedLabels` | sales-forecasting/src/App.js:98-101 | exactly 12 labels; label k is the label of pair (k/2+1, k%2), independent of any data |
| `Chart.PredictedLabelsByMonth` | sales-forecasting/src/App.js:99-100 | entry 2(m-1) is "Month m Product A" and entry 2(m-1)+1 is "Month m Product B" for m in 1..6 |
| `Chart.PredictedLabelsDistinct` | sales-forecasting/src/App.js:98-101 | the twelve predicted labels are pairwise different |
| `Chart.LookupInForecast` | sales-forecasting/src/App.js:88-91 | looking up pair k in a forecast finds record k: never `null`, and the value is the model's answer for pair k |
| `Chart.PredictedFromForecast` | sales-forecasting/src/App.js:87-95 | a predicted series built from a forecast has no `null`, and entry k is forecast record k's quantity |
| `Chart.GetChartData` | sales-forecasting/src/App.js:81-120 | labels are the actual labels followed by the predicted labels, with length `|data| + 12`; actual label i is "Month " plus row i's month; actual value i is row i's quantity; 12 predicted values |
| `Chart.ChartFromForecast` | sales-forecasting/src/App.js:81-104 | for a chart built from a forecast, predicted point k is the model's answer for pair (k/2+1, k%2) |
| `Chart.InitialChart` | sales-forecasting/src/App.js:83-104 | with no data and no predictions, the axis is just the 12 predicted labels, there are no actual values and every predicted point is `null` |

## Left out

- React state and rendering (`useState`, the loading flag, the JSX, the chart options and the dataset colours): these are UI glue. The chart is modelled as its labels and its two value series.
- CSV reading through `Papa.parse` and the file-input event: this is I/O through a foreign library. The model starts from the parsed rows.
- Building and training the network with TensorFlow.js (`tensor2d`, the two dense layers, Adam for 100 epochs): this is floating point inside a foreign library. The trained network is an abstract total function. The training matrix built at App.js:44-45 is not part of this model.
- `new Date(text).getMonth()` is an opaque parameter that yields 0..11 or NaN, as ECMAScript's MonthFromTime guarantees. The model does not capture how the date text parses or the time-zone dependence of local months. For example, a date-only text is read as UTC, but `getMonth` reports the local month.
- `parseFloat` is an opaque parameter, and its NaN behaviour lives in the opaque quantity type `Q`.
- `console.log` calls: these are logging only.
- The asynchronous training and any interleaving of two uploads: this is UI scheduling. The model looks at one run at a time.
- JavaScript's exponent notation for integers at or above 10^21 is not modelled in `NumberToString`. The numbers rendered here are months, so it never arises.
