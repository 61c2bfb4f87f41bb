/**
 * The screen's state and handlers: the selection (currency, start date, end
 * date, each "" until chosen), the series list shown by the chart, and the
 * chart itself. The load button replaces the series wholesale with a fresh
 * retrieval and the chart is redrawn from it. The chart is kept twice: as the
 * code leaves it (factory once, then data-only updates) and as the corrected
 * full redraw leaves it.
 */
module Screen {
  import opened Wrappers
  import opened Data
  import Retrieval
  import DateKey
  import Chart

  class MainScreen {
    var selectedCurrency: string
    var startDate: string
    var endDate: string
    var exchangeRates: seq<Observation>
    /** The chart under the corrected update, `Chart.Redraw`. */
    var chart: Chart.ChartView
    /** The chart as the code leaves it: the factory on the first composition, then `Chart.UpdateAsWritten`. */
    var chartAsWritten: Chart.ChartView

    /**
     * The corrected chart always shows the configuration of the current
     * series; the as-written chart always holds a data set for it, but never
     * got bounds or the date formatter.
     */
    ghost predicate Valid()
      reads this
    {
      && chart == Chart.Factory(exchangeRates)
      && chartAsWritten.data == Some(Chart.Entries(exchangeRates))
      && chartAsWritten.axisMinimum.None? && chartAsWritten.axisMaximum.None?
      && !chartAsWritten.dateLabels
    }

    /**
     * A new screen: nothing selected, no series. The corrected chart shows its
     * placeholder; the as-written one already holds an empty data set.
     */
    constructor ()
      ensures Valid()
      ensures selectedCurrency == "" && startDate == "" && endDate == ""
      ensures exchangeRates == []
      ensures Chart.ShowsPlaceholder(chart)
      ensures chartAsWritten == Chart.ShownAsWritten([]) && !Chart.ShowsPlaceholder(chartAsWritten)
    {
      selectedCurrency, startDate, endDate := "", "", "";
      exchangeRates := [];
      chart := Chart.Factory([]);
      chartAsWritten := Chart.UpdateAsWritten(Chart.Factory([]), []);
    }

    /** The dropdown's callback: only the currency changes. */
    method SelectCurrency(currency: string)
      requires Valid()
      modifies this
      ensures Valid()
      ensures selectedCurrency == currency
      ensures startDate == old(startDate) && endDate == old(endDate)
      ensures exchangeRates == old(exchangeRates) && chart == old(chart) && chartAsWritten == old(chartAsWritten)
    {
      selectedCurrency := currency;
    }

    /** The start-date picker's callback: the start date becomes the key of the picked day. */
    method PickStartDate(year: int, month0: int, day: int)
      requires Valid()
      modifies this
      ensures Valid()
      ensures startDate == DateKey.FormatDateKey(year, month0, day)
      ensures selectedCurrency == old(selectedCurrency) && endDate == old(endDate)
      ensures exchangeRates == old(exchangeRates) && chart == old(chart) && chartAsWritten == old(chartAsWritten)
    {
      startDate := DateKey.FormatDateKey(year, month0, day);
    }

    /** The end-date picker's callback: the end date becomes the key of the picked day. */
    method PickEndDate(year: int, month0: int, day: int)
      requires Valid()
      modifies this
      ensures Valid()
      ensures endDate == DateKey.FormatDateKey(year, month0, day)
      ensures selectedCurrency == old(selectedCurrency) && startDate == old(startDate)
      ensures exchangeRates == old(exchangeRates) && chart == old(chart) && chartAsWritten == old(chartAsWritten)
    {
      endDate := DateKey.FormatDateKey(year, month0, day);
    }

    /**
     * The "Cargar Resultados" handler: retrieve for the current selection,
     * clear the list and add the whole result, then redraw both charts. The
     * selection is untouched, and `issued` is the query sent, if any.
     */
    method Load(source: RateSource) returns (issued: Option<Query>)
      requires Valid()
      modifies this
      ensures Valid()
      ensures exchangeRates == Retrieval.ExchangeRates(source, selectedCurrency, startDate, endDate)
      ensures issued.None? <==> Retrieval.IsIncomplete(selectedCurrency, startDate, endDate)
      ensures selectedCurrency == old(selectedCurrency)
      ensures startDate == old(startDate) && endDate == old(endDate)
      ensures issued.Some? ==> issued.value == RatesQuery(selectedCurrency, startDate, endDate)
      ensures Chart.IsPopulated(chart) <==> exchangeRates != []
      ensures chartAsWritten == Chart.UpdateAsWritten(old(chartAsWritten), exchangeRates)
      ensures Chart.IsPopulated(chartAsWritten)
    {
      var result;
      result, issued := Retrieval.GetExchangeRates(source, selectedCurrency, startDate, endDate);
      exchangeRates := [];
      exchangeRates := exchangeRates + result;
      chart := Chart.Redraw(chart, exchangeRates);
      chartAsWritten := Chart.UpdateAsWritten(chartAsWritten, exchangeRates);
    }
  }

  /** Loading twice with the same selection and provider gives the same series both times. */
  method LoadTwice(screen: MainScreen, source: RateSource) returns (first: seq<Observation>, second: seq<Observation>)
    requires screen.Valid()
    modifies screen
    ensures screen.Valid()
    ensures first == second && screen.exchangeRates == second
  {
    var _ := screen.Load(source);
    first := screen.exchangeRates;
    var _ := screen.Load(source);
    second := screen.exchangeRates;
  }
}
