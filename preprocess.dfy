/**
 * Row encoding (`preprocessData`): every parsed CSV row becomes one feature
 * row `{sales_date, product_description, quantity_sold}`.
 *
 * Month extraction (`new Date(text).getMonth()`) and the quantity parse
 * (`parseFloat`) are foreign: they are parameters. `getMonth` yields a 0-based
 * month index 0..11, or None for a date that does not parse (NaN).
 */
module Preprocess {
  import opened Wrappers
  import opened ArrayOps
  import opened NumberText

  /** The value range of `Date.prototype.getMonth` on a valid date. */
  type MonthIndex = m: int | 0 <= m <= 11

  /** The one product name encoded as category 0. */
  const ProductA: string := "Product A"

  /**
   * A row as the CSV parser delivers it. The date and quantity columns are
   * opaque texts; the product column is None when the row lacks it.
   */
  datatype RawRow<D, S> = RawRow(salesDate: D, productDescription: Option<string>, quantitySold: S)

  /** A row after encoding: month number (or NaN), category code, quantity. */
  datatype FeatureRow<Q> = FeatureRow(salesDate: IntNumber, productDescription: int, quantitySold: Q)

  /** The category code: 0 exactly for the text "Product A", 1 for every other text or a missing one. */
  function EncodeProduct(description: Option<string>): (code: int)
    ensures code == 0 || code == 1
    ensures code == 0 <==> description == Some(ProductA)
  {
    if description == Some(ProductA) then 0 else 1
  }

  /** `getMonth() + 1`: the 1-based month, NaN staying NaN. */
  function MonthNumber(month: Option<MonthIndex>): (period: IntNumber)
    ensures period.NaN? <==> month.None?
    ensures period.Int? ==> 1 <= period.value <= 12 && period.value - 1 == month.value
  {
    match month
    case None => NaN
    case Some(m) => Int(m + 1)
  }

  /** The encoding of one row: each field comes from the same-named field of that row alone. */
  function NormalizeRow<D, S, Q>(row: RawRow<D, S>, getMonth: D -> Option<MonthIndex>, parseFloat: S -> Q)
    : (r: FeatureRow<Q>)
    ensures r.salesDate.NaN? <==> getMonth(row.salesDate).None?
    ensures r.salesDate.Int? ==> 1 <= r.salesDate.value <= 12
    ensures r.salesDate.Int? ==> r.salesDate.value == getMonth(row.salesDate).value + 1
    ensures r.productDescription == 0 <==> row.productDescription == Some(ProductA)
    ensures r.productDescription == 0 || r.productDescription == 1
    ensures r.quantitySold == parseFloat(row.quantitySold)
  {
    FeatureRow(
      MonthNumber(getMonth(row.salesDate)),
      EncodeProduct(row.productDescription),
      parseFloat(row.quantitySold))
  }

  /** `data.map(row => ...)`: one feature row per raw row, in the same order. */
  function PreprocessData<D, S, Q>(data: seq<RawRow<D, S>>, getMonth: D -> Option<MonthIndex>, parseFloat: S -> Q)
    : (processed: seq<FeatureRow<Q>>)
    ensures |processed| == |data|
    ensures forall i :: 0 <= i < |data| ==> processed[i] == NormalizeRow(data[i], getMonth, parseFloat)
  {
    MapSeq(data, row => NormalizeRow(row, getMonth, parseFloat))
  }

  /** Encoding keeps order: encoding two batches one after the other is encoding their concatenation. */
  lemma PreprocessConcat<D, S, Q>(a: seq<RawRow<D, S>>, b: seq<RawRow<D, S>>,
                                  getMonth: D -> Option<MonthIndex>, parseFloat: S -> Q)
    ensures PreprocessData(a + b, getMonth, parseFloat)
         == PreprocessData(a, getMonth, parseFloat) + PreprocessData(b, getMonth, parseFloat)
  {
    MapSeqConcat(a, b, row => NormalizeRow(row, getMonth, parseFloat));
  }

  /**
   * The two-row scenario: a January "Product A" row and a February
   * "Product B" row encode to (1, 0, q1) and (2, 1, q2).
   */
  lemma TwoRowScenario<D, S, Q>(d1: D, d2: D, q1: S, q2: S,
                                getMonth: D -> Option<MonthIndex>, parseFloat: S -> Q)
    requires getMonth(d1) == Some(0) && getMonth(d2) == Some(1)
    ensures PreprocessData([RawRow(d1, Some("Product A"), q1), RawRow(d2, Some("Product B"), q2)], getMonth, parseFloat)
         == [FeatureRow(Int(1), 0, parseFloat(q1)), FeatureRow(Int(2), 1, parseFloat(q2))]
  {
    assert "Product B" != ProductA by { assert "Product B"[8] != ProductA[8]; }
  }
}
