/**
 * Guarded series retrieval: what `getExchangeRates` does with a selection.
 * An incomplete selection yields the empty series without any query; a
 * complete one sends one query and copies the cursor's rows, in cursor order,
 * into the series.
 */
module Retrieval {
  import opened Wrappers
  import opened Data

  /** A selection with an empty currency, start date or end date is not queried. */
  predicate IsIncomplete(currency: string, startDate: string, endDate: string) {
    currency == [] || startDate == [] || endDate == []
  }

  /** The pair built from one cursor row. */
  function ToObservation(row: RateRow): Observation {
    Observation(row.fecha, row.cantidad)
  }

  /** The series built by appending one pair per row, in the rows' order. */
  function Series(rows: seq<RateRow>): seq<Observation> {
    if rows == [] then [] else Series(rows[..|rows| - 1]) + [ToObservation(rows[|rows| - 1])]
  }

  /** The series has one pair per row, and pair `i` comes from row `i`. */
  lemma {:induction false} SeriesAt(rows: seq<RateRow>)
    ensures |Series(rows)| == |rows|
    ensures forall i :: 0 <= i < |rows| ==> Series(rows)[i] == ToObservation(rows[i])
  {
    if rows != [] {
      SeriesAt(rows[..|rows| - 1]);
    }
  }

  /** Rows that arrive later land later: the series of a concatenation is the concatenation of the series. */
  lemma SeriesAppend(a: seq<RateRow>, b: seq<RateRow>)
    ensures Series(a + b) == Series(a) + Series(b)
  {
    SeriesAt(a + b);
    SeriesAt(a);
    SeriesAt(b);
    assert forall i :: 0 <= i < |a| + |b| ==> (a + b)[i] == if i < |a| then a[i] else b[i - |a|];
  }

  /** The series the screen obtains for a selection from a provider. */
  function ExchangeRates(source: RateSource, currency: string, startDate: string, endDate: string): seq<Observation> {
    if IsIncomplete(currency, startDate, endDate) then []
    else match source(RatesQuery(currency, startDate, endDate))
      case None => []
      case Some(rows) => Series(rows)
  }

  /**
   * `getExchangeRates`: the guard, then one query and a copy loop over the
   * cursor. `issued` is the query sent to the provider, `None` when none is.
   */
  method GetExchangeRates(source: RateSource, currency: string, startDate: string, endDate: string)
    returns (rates: seq<Observation>, issued: Option<Query>)
    ensures issued.None? <==> IsIncomplete(currency, startDate, endDate)
    ensures issued.Some? ==> issued.value == RatesQuery(currency, startDate, endDate)
    ensures IsIncomplete(currency, startDate, endDate) ==> rates == []
    ensures issued.Some? && source(issued.value).None? ==> rates == []
    ensures issued.Some? && source(issued.value).Some? ==>
      var rows := source(issued.value).value;
      |rates| == |rows| && forall i :: 0 <= i < |rows| ==> rates[i] == ToObservation(rows[i])
    ensures rates == ExchangeRates(source, currency, startDate, endDate)
  {
    if currency == [] || startDate == [] || endDate == [] {
      return [], None;
    }
    var query := RatesQuery(currency, startDate, endDate);
    issued := Some(query);
    var cursor := source(query);
    rates := [];
    if cursor.Some? {
      var rows := cursor.value;
      var position := 0;
      while position < |rows|
        invariant 0 <= position <= |rows|
        invariant rates == Series(rows[..position])
      {
        assert rows[..position + 1][..position] == rows[..position];
        rates := rates + [ToObservation(rows[position])];
        position := position + 1;
      }
      assert rows[..position] == rows;
      SeriesAt(rows);
    }
  }
}
