/**
 * The values that flow between the screen and the external content provider:
 * the queries the screen sends, the rows the provider's cursors yield, and the
 * (date, rate) observations the screen keeps and charts.
 */
module Data {
  import opened Wrappers

  /** Content URI of the provider's exchange-rate table. */
  const ExchangeRateUri: string := "content://com.example.proyecto_divisa.ContentProvider/exchangerate"

  /** One call of `ContentResolver.query`: URI, projected columns and sort order. */
  datatype Query = Query(uri: string, projection: seq<string>, sortOrder: string)

  /** One row of the observation endpoint, decoded into its two projected columns. */
  datatype RateRow = RateRow(fecha: string, cantidad: real)

  /** One point of a series: a `Pair<String, Double>` holding the date key and the rate. */
  datatype Observation = Observation(date: string, rate: real)

  /**
   * The provider, as the rows a query's cursor yields in cursor order;
   * `None` is a `null` cursor.
   */
  type RateSource = Query -> Option<seq<RateRow>>

  /** The provider's answer to the currency-name query: the `nombre` column of each row. */
  type NameSource = Query -> Option<seq<string>>

  /** The query the currency selector sends: all names, sorted by name. */
  function CurrencyQuery(): Query {
    Query(ExchangeRateUri, ["nombre"], "nombre ASC")
  }

  /** The query for one currency and date range; the provider filters by the path segments. */
  function RatesQuery(currency: string, startDate: string, endDate: string): Query {
    Query(ExchangeRateUri + "/" + currency + "/" + startDate + "/" + endDate, ["fecha", "cantidad"], "fecha ASC")
  }
}
