/**
 * The chart built from a series: the plotted entries (X = index, Y = rate),
 * the X-axis label formatter, the Y-axis bounds, and the chart configuration
 * that the view's factory and update blocks leave behind.
 */
module Chart {
  import opened Wrappers
  import opened Data

  /** A plotted point. */
  datatype Entry = Entry(x: real, y: real)

  /** `mapIndexed`: the entry for observation `i` is placed at X = `i`, Y = its rate. */
  function Entries(series: seq<Observation>): seq<Entry> {
    if series == [] then []
    else Entries(series[..|series| - 1]) + [Entry((|series| - 1) as real, series[|series| - 1].rate)]
  }

  /** One entry per observation; entry `i` has X = `i` and Y = the rate of observation `i`. */
  lemma {:induction false} EntriesAt(series: seq<Observation>)
    ensures |Entries(series)| == |series|
    ensures forall i :: 0 <= i < |series| ==> Entries(series)[i] == Entry(i as real, series[i].rate)
  {
    if series != [] {
      EntriesAt(series[..|series| - 1]);
    }
  }

  /** Kotlin's `Float.toInt()`: the integer part, rounding toward zero. */
  function TruncateToInt(v: real): (n: int)
    ensures 0.0 <= v ==> n as real <= v < n as real + 1.0
    ensures v < 0.0 ==> n as real - 1.0 < v <= n as real
  {
    if v >= 0.0 then v.Floor else -((-v).Floor)
  }

  /** The X-axis label at coordinate `value`: the date at that index, or "" out of range. */
  function AxisLabel(series: seq<Observation>, value: real): string {
    var i := TruncateToInt(value);
    if 0 <= i < |series| then series[i].date else ""
  }

  /** `minOfOrNull` over the rates. */
  function MinRate(series: seq<Observation>): (m: Option<real>)
    ensures m.None? <==> series == []
    ensures m.Some? ==> exists i :: 0 <= i < |series| && series[i].rate == m.value
    ensures m.Some? ==> forall i :: 0 <= i < |series| ==> m.value <= series[i].rate
  {
    if series == [] then None
    else match MinRate(series[1..])
      case None => Some(series[0].rate)
      case Some(rest) =>
        assert series[1..][0] == series[1];
        Some(if series[0].rate <= rest then series[0].rate else rest)
  }

  /** `maxOfOrNull` over the rates. */
  function MaxRate(series: seq<Observation>): (m: Option<real>)
    ensures m.None? <==> series == []
    ensures m.Some? ==> exists i :: 0 <= i < |series| && series[i].rate == m.value
    ensures m.Some? ==> forall i :: 0 <= i < |series| ==> series[i].rate <= m.value
  {
    if series == [] then None
    else match MaxRate(series[1..])
      case None => Some(series[0].rate)
      case Some(rest) =>
        assert series[1..][0] == series[1];
        Some(if series[0].rate >= rest then series[0].rate else rest)
  }

  /** The Y-axis minimum: the smallest rate less 0.5, or 0 for an empty series. */
  function AxisMinimum(series: seq<Observation>): (lo: real)
    ensures series == [] ==> lo == 0.0
    ensures forall i :: 0 <= i < |series| ==> lo <= series[i].rate - 0.5
    ensures series != [] ==> exists i :: 0 <= i < |series| && lo == series[i].rate - 0.5
  {
    match MinRate(series)
    case None => 0.0
    case Some(m) => m - 0.5
  }

  /** The Y-axis maximum: the largest rate plus 0.5, or 1 for an empty series. */
  function AxisMaximum(series: seq<Observation>): (hi: real)
    ensures series == [] ==> hi == 1.0
    ensures forall i :: 0 <= i < |series| ==> series[i].rate + 0.5 <= hi
    ensures series != [] ==> exists i :: 0 <= i < |series| && hi == series[i].rate + 0.5
  {
    match MaxRate(series)
    case None => 1.0
    case Some(m) => m + 0.5
  }

  /** The placeholder shown when the chart holds no data. */
  const NoDataText: string := "No hay datos disponibles"

  /**
   * What the chart holds after configuration: the placeholder text, the data
   * set's entries (`None` while no data is set), the Y-axis bounds (`None`
   * while left to the chart), and whether the date label formatter is installed.
   */
  datatype ChartView = ChartView(
    noDataText: string,
    data: Option<seq<Entry>>,
    axisMinimum: Option<real>,
    axisMaximum: Option<real>,
    dateLabels: bool)

  /** A newly created chart, before the factory configures it. */
  const FreshChart: ChartView := ChartView("", None, None, None, false)

  /** The chart shows data (the `Populated` state) once a data set is attached. */
  predicate IsPopulated(view: ChartView) {
    view.data.Some?
  }

  /** The chart shows its placeholder text while no data set is attached. */
  predicate ShowsPlaceholder(view: ChartView) {
    view.data.None? && view.noDataText != ""
  }

  /**
   * The label drawn under X-axis coordinate `value`: the date formatter's,
   * which reads the screen's current series, or `None` for the chart's own
   * numeric label when no formatter is installed.
   */
  function DisplayedLabel(view: ChartView, series: seq<Observation>, value: real): Option<string> {
    if view.dateLabels then Some(AxisLabel(series, value)) else None
  }

  /**
   * The factory block: for an empty series only the placeholder text is set;
   * otherwise the data set, the date formatter and the Y-axis bounds.
   */
  function Factory(series: seq<Observation>): ChartView {
    if series == [] then FreshChart.(noDataText := NoDataText)
    else ChartView(NoDataText, Some(Entries(series)), Some(AxisMinimum(series)), Some(AxisMaximum(series)), true)
  }

  /** The update block as written: it replaces the data set and nothing else. */
  function UpdateAsWritten(view: ChartView, series: seq<Observation>): ChartView {
    view.(data := Some(Entries(series)))
  }

  /** The update as intended: every redraw reconfigures the whole chart from the current series. */
  function Redraw(view: ChartView, series: seq<Observation>): ChartView {
    Factory(series)
  }

  /** The chart after the first composition of an empty screen and then each load in turn, as written. */
  function ShownAsWritten(loads: seq<seq<Observation>>): ChartView {
    if loads == [] then UpdateAsWritten(Factory([]), [])
    else UpdateAsWritten(ShownAsWritten(loads[..|loads| - 1]), loads[|loads| - 1])
  }

  /** The same sequence of compositions with the intended update. */
  function Shown(loads: seq<seq<Observation>>): ChartView {
    if loads == [] then Redraw(Factory([]), [])
    else Redraw(Shown(loads[..|loads| - 1]), loads[|loads| - 1])
  }

  /** The chart is empty exactly when the series is, and then it shows the placeholder. */
  lemma FactoryStates(series: seq<Observation>)
    ensures IsPopulated(Factory(series)) <==> series != []
    ensures ShowsPlaceholder(Factory(series)) <==> series == []
  {
  }

  /**
   * For a non-empty series the factory plots entry `i` at (`i`, rate `i`),
   * labels coordinate `i` with date `i`, and the bounds enclose rate `i` with
   * a margin of at least 0.5.
   */
  lemma FactoryPopulated(series: seq<Observation>, i: int)
    requires 0 <= i < |series|
    ensures var view := Factory(series);
      && view.data.Some? && |view.data.value| == |series|
      && view.data.value[i] == Entry(i as real, series[i].rate)
      && DisplayedLabel(view, series, view.data.value[i].x) == Some(series[i].date)
      && view.axisMinimum.Some? && view.axisMinimum.value <= series[i].rate - 0.5
      && view.axisMaximum.Some? && series[i].rate + 0.5 <= view.axisMaximum.value
  {
    EntriesAt(series);
  }

  /** With the formatter installed, an index outside the series labels as "". */
  lemma AxisLabelOutOfRange(series: seq<Observation>, i: int)
    requires i < 0 || i >= |series|
    ensures AxisLabel(series, i as real) == ""
  {
    assert TruncateToInt(i as real) == i;
  }

  /** The formatter truncates toward zero: any coordinate strictly between -1 and 1 labels as the first date. */
  lemma AxisLabelTruncates(series: seq<Observation>, value: real)
    requires series != [] && -1.0 < value < 1.0
    ensures AxisLabel(series, value) == series[0].date
  {
  }

  /**
   * As written, the bounds and the date formatter are never applied: the
   * factory sees the screen's initial empty series, and no update sets them.
   */
  lemma {:induction false} StaleConfigurationAsWritten(loads: seq<seq<Observation>>)
    ensures ShownAsWritten(loads).axisMinimum.None? && ShownAsWritten(loads).axisMaximum.None?
    ensures !ShownAsWritten(loads).dateLabels
    ensures IsPopulated(ShownAsWritten(loads))
  {
    if loads != [] {
      StaleConfigurationAsWritten(loads[..|loads| - 1]);
    }
  }

  /** A concrete case: one load of one observation at rate 1.0 leaves the Y-axis unbounded, not [0.5, 1.5]. */
  lemma StaleBoundsExample()
    ensures var loaded := [Observation("2024-01-01", 1.0)];
      && ShownAsWritten([loaded]).axisMinimum == None
      && Factory(loaded).axisMinimum == Some(0.5)
      && Factory(loaded).axisMaximum == Some(1.5)
  {
    var loaded := [Observation("2024-01-01", 1.0)];
    StaleConfigurationAsWritten([loaded]);
  }

  /**
   * With the intended update, the chart after any sequence of loads is the
   * configuration of the latest series: its entries, its date labels and
   * bounds enclosing its rates, or the placeholder when it is empty.
   */
  lemma ShownIsLatest(loads: seq<seq<Observation>>, i: int)
    requires loads != [] && 0 <= i < |loads[|loads| - 1]|
    ensures var latest := loads[|loads| - 1];
      && Shown(loads).data == Some(Entries(latest))
      && |Shown(loads).data.value| == |latest|
      && Shown(loads).data.value[i] == Entry(i as real, latest[i].rate)
      && DisplayedLabel(Shown(loads), latest, i as real) == Some(latest[i].date)
      && Shown(loads).axisMinimum.Some? && Shown(loads).axisMinimum.value <= latest[i].rate - 0.5
      && Shown(loads).axisMaximum.Some? && latest[i].rate + 0.5 <= Shown(loads).axisMaximum.value
  {
    FactoryPopulated(loads[|loads| - 1], i);
  }

  /** With the intended update, a load of zero rows brings the placeholder back. */
  lemma ShownEmptyAgain(loads: seq<seq<Observation>>)
    requires loads != [] && loads[|loads| - 1] == []
    ensures ShowsPlaceholder(Shown(loads)) && !IsPopulated(Shown(loads))
  {
  }

  /** Two rates 1.00 and 1.02 give the Y-axis bounds [0.50, 1.52]. */
  lemma ScenarioBounds()
    ensures var series := [Observation("2024-01-01", 1.00), Observation("2024-01-02", 1.02)];
      AxisMinimum(series) == 0.50 && AxisMaximum(series) == 1.52
  {
    var series := [Observation("2024-01-01", 1.00), Observation("2024-01-02", 1.02)];
    assert series[1..] == [series[1]] && series[1..][1..] == [];
  }
}
