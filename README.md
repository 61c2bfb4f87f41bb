# ClienteDivisas: selection, retrieval and chart logic

ClienteDivisas is a one-screen Android client for a local exchange-rate
content provider. The user picks a currency and two dates, presses
"Cargar Resultados", and sees the rates over that range as a line chart.
This project models the logic under that screen, all of it in
`MainActivity.kt`, and proves its properties in Dafny:

- **Guarded retrieval** (`getExchangeRates`). If the currency, the start date
  or the end date is empty, the result is the empty list and no query is
  sent. Otherwise one query goes to the provider and every cursor row is
  copied, in cursor order, into a `(fecha, cantidad)` pair
  (`Retrieval.GetExchangeRates`, a loop proved against `Retrieval.Series`).
- **Screen state** (`MainScreen`). A class holds the selection, the series
  list and the chart. The load handler clears the list and adds the whole
  result, so the series is replaced outright and the selection is unchanged
  (`Screen.MainScreen.Load`).
- **Chart mapping** (`ExchangeRateChart`). Entry `i` has X = `i` and Y = its
  rate. The X-axis label is the date at the truncated coordinate, or `""`
  out of range. The Y-axis bounds are min − 0.5 and max + 0.5, with 0 and 1
  for an empty series. The placeholder text is shown while no data is set
  (module `Chart`).
- **Helpers.** The date picker writes `%04d-%02d-%02d` of
  `(year, month + 1, day)` (module `DateKey`). That key reads back, has one
  spelling, and sorts as text in calendar order. The currency selector
  collects names into an insertion-ordered set (`Currencies.CollectCurrencies`).

The provider is a function from a `Query` (URI, projection, sort order) to
the rows its cursor yields, with `None` for a `null` cursor. Sending a query
is the only effect retrieval has. It is returned as `issued`, so the model
can state that an incomplete selection sends none. Rates and bounds are
`real`.

Modules: `Wrappers` (Option), `Data` (queries, rows, observations),
`Lexicographic` (string order), `DateKey`, `Retrieval`, `Currencies`,
`Chart`, `Screen`.

## Model

| member | source | states |
|---|---|---|
| Retrieval.GetExchangeRates | ClienteDivisas/app/src/main/java/com/example/clientedivisas/MainActivity.kt:221-249 | No query is issued exactly when the currency, start date or end date is empty, and the result is then `[]`. Otherwise the only query is the one for `currency/startDate/endDate` with columns `fecha, cantidad` sorted by `fecha ASC`. A `null` cursor gives `[]`. Otherwise there is one pair per row, pair `i` from row `i`. The result equals `ExchangeRates` of the same arguments. |
| Retrieval.SeriesAt | ClienteDivisas/app/src/main/java/com/example/clientedivisas/MainActivity.kt:234-245 | The copied series has as many pairs as the cursor has rows, and pair `i` is `(fecha, cantidad)` of row `i`: cursor order is kept. |
| Retrieval.SeriesAppend | ClienteDivisas/app/src/main/java/com/example/clientedivisas/MainActivity.kt:240-244 | The loop only appends at the end: the series of rows `a + b` is the series of `a` followed by that of `b`. |
| Currencies.CollectCurrencies | ClienteDivisas/app/src/main/java/com/example/clientedivisas/MainActivity.kt:49-66 | A `null` cursor gives no names. Otherwise the list is the rows' names in first-occurrence order. It has no duplicates and contains a name exactly when some row has it. |
| Currencies.DistinctSpec | ClienteDivisas/app/src/main/java/com/example/clientedivisas/MainActivity.kt:54-61 | Adding the rows to the set one by one gives a list without duplicates whose elements are exactly the names seen. |
| Currencies.DistinctSorted | ClienteDivisas/app/src/main/java/com/example/clientedivisas/MainActivity.kt:52-65 | When the provider honours `nombre ASC`, the dropdown's list is strictly increasing. |
| DateKey.ZeroPadFixed | ClienteDivisas/app/src/main/java/com/example/clientedivisas/MainActivity.kt:104 | `%0wd` of a value below 10^w is exactly w digits, and they read back as the value. |
| DateKey.ZeroPadOfDigits | ClienteDivisas/app/src/main/java/com/example/clientedivisas/MainActivity.kt:104 | Every string of w digits is the `%0wd` padding of its own value, so padded numbers have one spelling. |
| DateKey.ZeroPadOrder | ClienteDivisas/app/src/main/java/com/example/clientedivisas/MainActivity.kt:104 | Two values padded to the same width compare as strings exactly as they compare as numbers. |
| DateKey.KeyFields | ClienteDivisas/app/src/main/java/com/example/clientedivisas/MainActivity.kt:104 | On the picker's range the key is a 4-digit year, `-`, a 2-digit month (`month + 1`), `-`, a 2-digit day, each reading back as its field. |
| DateKey.DateKeyRoundTrip | ClienteDivisas/app/src/main/java/com/example/clientedivisas/MainActivity.kt:103-105 | For year 0..9999, month 0..11 and day 1..31 the key has 10 characters with `-` at positions 4 and 7. It parses back to the year, `month + 1` and the day. |
| DateKey.ParseThenFormat | ClienteDivisas/app/src/main/java/com/example/clientedivisas/MainActivity.kt:104 | The other direction: every well-formed `YYYY-MM-DD` key is exactly what the format writes for the fields it parses to. |
| DateKey.DateKeyOrder | ClienteDivisas/app/src/main/java/com/example/clientedivisas/MainActivity.kt:104 | On the picker's range, one key is lexicographically below another exactly when its date is earlier. So sorting keys as text (`fecha ASC`) is sorting by date. |
| Chart.EntriesAt | ClienteDivisas/app/src/main/java/com/example/clientedivisas/MainActivity.kt:132-134 | `mapIndexed` gives one entry per observation, and entry `i` is at X = `i`, Y = rate `i`. |
| Chart.TruncateToInt | ClienteDivisas/app/src/main/java/com/example/clientedivisas/MainActivity.kt:159 | `value.toInt()` rounds toward zero: the result is the integer part, from below for non-negative values and from above for negative ones. |
| Chart.AxisLabelOutOfRange | ClienteDivisas/app/src/main/java/com/example/clientedivisas/MainActivity.kt:157-160 | At an integer coordinate outside the series the label is `""` (`getOrNull(...) ?: ""`). |
| Chart.AxisLabelTruncates | ClienteDivisas/app/src/main/java/com/example/clientedivisas/MainActivity.kt:159 | Because of truncation, every coordinate strictly between -1 and 1, negative ones included, is labelled with the first date. |
| Chart.MinRate | ClienteDivisas/app/src/main/java/com/example/clientedivisas/MainActivity.kt:168 | `minOfOrNull` is null exactly for an empty series. Otherwise it is one of the rates and no rate is below it. |
| Chart.MaxRate | ClienteDivisas/app/src/main/java/com/example/clientedivisas/MainActivity.kt:169 | `maxOfOrNull` is null exactly for an empty series. Otherwise it is one of the rates and no rate is above it. |
| Chart.AxisMinimum | ClienteDivisas/app/src/main/java/com/example/clientedivisas/MainActivity.kt:168 | 0 for an empty series. Otherwise it is some rate minus 0.5 and lies at least 0.5 below every rate. |
| Chart.AxisMaximum | ClienteDivisas/app/src/main/java/com/example/clientedivisas/MainActivity.kt:169 | 1 for an empty series. Otherwise it is some rate plus 0.5 and lies at least 0.5 above every rate. |
| Chart.FactoryStates | ClienteDivisas/app/src/main/java/com/example/clientedivisas/MainActivity.kt:125-130 | After the factory the chart holds data exactly when the series is non-empty, and shows the placeholder exactly when it is empty. |
| Chart.FactoryPopulated | ClienteDivisas/app/src/main/java/com/example/clientedivisas/MainActivity.kt:125-170 | For a non-empty series the factory plots entry `i` at (`i`, rate `i`), labels that coordinate with date `i`, and sets bounds that enclose rate `i` with a margin of at least 0.5. |
| Chart.StaleConfigurationAsWritten | ClienteDivisas/app/src/main/java/com/example/clientedivisas/MainActivity.kt:190-209 | As written, after the first composition of the empty screen and any number of loads, the Y-axis bounds are unset and no date formatter is installed. The chart holds a data set, even an empty one. |
| Chart.StaleBoundsExample | ClienteDivisas/app/src/main/java/com/example/clientedivisas/MainActivity.kt:190-209 | One load of one observation at rate 1.0 leaves the Y-axis unbounded, where the factory's rule gives [0.5, 1.5]. |
| Chart.ShownIsLatest | ClienteDivisas/app/src/main/java/com/example/clientedivisas/MainActivity.kt:125-170 | With the corrected update (`Redraw`), after any sequence of loads the chart plots the latest series, labels its dates and bounds its rates. |
| Chart.ShownEmptyAgain | ClienteDivisas/app/src/main/java/com/example/clientedivisas/MainActivity.kt:127-130 | With the corrected update, a load of zero rows returns the chart to the placeholder state. |
| Chart.ScenarioBounds | ClienteDivisas/app/src/main/java/com/example/clientedivisas/MainActivity.kt:168-169 | Rates 1.00 and 1.02 give Y-axis bounds 0.50 and 1.52. |
| Screen.MainScreen.constructor | ClienteDivisas/app/src/main/java/com/example/clientedivisas/MainActivity.kt:253-257 | A new screen selects nothing (three empty strings) and holds an empty series. With the corrected update (`Chart.Redraw`) its chart shows the placeholder. The as-written chart (`chartAsWritten`) is the factory followed by one update, already holding an empty data set, so it shows no placeholder. |
| Screen.MainScreen.SelectCurrency | ClienteDivisas/app/src/main/java/com/example/clientedivisas/MainActivity.kt:260 | The dropdown callback sets the currency and changes nothing else. |
| Screen.MainScreen.PickStartDate | ClienteDivisas/app/src/main/java/com/example/clientedivisas/MainActivity.kt:264 | The start date becomes the formatted key of the picked day. Nothing else changes. |
| Screen.MainScreen.PickEndDate | ClienteDivisas/app/src/main/java/com/example/clientedivisas/MainActivity.kt:268 | The end date becomes the formatted key of the picked day. Nothing else changes. |
| Screen.MainScreen.Load | ClienteDivisas/app/src/main/java/com/example/clientedivisas/MainActivity.kt:272-278 | After the handler the series is exactly the fresh retrieval for the unchanged selection, so nothing of the previous series remains. No query is issued exactly when the selection is incomplete, and any query issued is the one for the selection. With the corrected update (`Chart.Redraw`) the chart is populated exactly when the new series is non-empty. The as-written chart gets only the new data set, so it is populated after every load, empty ones too, and keeps no bounds and no date formatter. |
| Screen.LoadTwice | ClienteDivisas/app/src/main/java/com/example/clientedivisas/MainActivity.kt:272-278 | Pressing load twice with the same selection and provider gives the same series both times. |

## Findings

| source | as written | input that shows it | evidently intended | confidence | as-written member | corrected member |
|---|---|---|---|---|---|---|
| ClienteDivisas/app/src/main/java/com/example/clientedivisas/MainActivity.kt:190-209 | The Y-axis bounds (164-170) and the date formatter (157-161) are set only in the view factory. The factory returns early for an empty series (127-130). The update block replaces only the data set. The screen's list starts empty (257), so the factory runs on `[]`. The first update then attaches an empty data set, which also hides the placeholder from then on. | Start the screen, then load one row `(2024-01-01, 1.0)`. The axis is never set to [0.5, 1.5], and X labels are not dates. | Every redraw applies the current series' entries, bounds and date labels, or the placeholder when the series is empty. | medium, not executed (relies on the view factory running once per chart, as the compose interop view does) | Chart.StaleConfigurationAsWritten | Chart.ShownIsLatest |

The corrected update is `Chart.Redraw`, the whole factory configuration
applied to the current series. `Screen.MainScreen` keeps two charts:
`chart`, redrawn with `Chart.Redraw`, which `Screen.MainScreen.Valid` keeps
equal to that configuration, and `chartAsWritten`, updated with
`Chart.UpdateAsWritten`.

## Left out

- The Android `ContentResolver`, `Cursor` and `Uri` are not modelled. The provider is a function from a query to the rows its cursor yields. Its filtering by currency and date range and its sorting happen outside this repository.
- `getColumnIndexOrThrow` failures are not modelled, because rows are decoded into typed `(fecha, cantidad)` and `nombre` fields. The projection always names those columns.
- Coroutines and the `Dispatchers.IO` / `Dispatchers.Main` handoff in `CurrencySelector` are not modelled. Overlapping loads are not modelled either, because `Load` is one atomic step.
- `Log.d`, `MainActivity.onCreate`, Compose layout, `StyledButton`, the dropdown's `expanded` flag, `DatePickerDialog` and `Calendar.getInstance()` are user interface, lifecycle or clock. They are left out.
- MPAndroidChart styling (colours, widths, circles, bezier mode, text sizes, rotation, legend, description, granularity) is display configuration only. The fresh chart's own default placeholder text is a library constant, modelled as `""`.
- Float and Double are not modelled: rates and bounds are `real`, with no IEEE rounding in `toFloat()` or in the `0.5f` literal and no NaN in `minOfOrNull` / `maxOfOrNull`.
- Chart.TruncateToInt: does not model `Float.toInt()` clamping huge values to the Int range or mapping NaN to 0, because coordinates are `real`.
- DateKey.FormatDateKey: the 32-bit overflow of `month + 1` and the default locale's digits in `String.format` are not modelled. The digits are ASCII and integers are unbounded. FormatDecimal does model negative values: the sign comes first and counts towards the width.
- The code's selection fields are plain strings, with `""` meaning "not chosen", and the model follows the code; no optional value per field is used.
- The 0 and 1 defaults of `Chart.AxisMinimum` / `Chart.AxisMaximum` model the expressions at lines 168-169 on their own. Inside the factory they are unreachable, because an empty series returns earlier.
- `Chart.ShowsPlaceholder` reads "placeholder shown" as "no data set attached", the condition the factory's early return relies on.
- The label formatter closes over the screen's live list, which is cleared and refilled in place. `Chart.DisplayedLabel` therefore takes the current series as a parameter, rather than modelling that aliasing.
- Screen.MainScreen.Load: the screen's `chart` field is the corrected chart (`Chart.Redraw`). What the code leaves on screen is the `chartAsWritten` field, the same as `Chart.ShownAsWritten` over the loads.
- Screen.MainScreen.SelectCurrency: does not require the name to come from the collected list; the source's callback does not check it either. The collected list is not stored on the screen, because it is the selector's local state.
