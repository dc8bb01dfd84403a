# SteamDashClone chart alignment, modelled in Dafny

The dashboard shows one Steam game's recent concurrent-player counts with a
30-day demand forecast drawn after them. Two pieces of code produce that chart:

- the Flask server (`app.py`): `/api/history/<appid>` returns the player counts
  of the last 30 points of the upstream steamcharts `chart-data.json` document,
  and `/api/forecast/<appid>` projects 30 future values from the same window
  (each clamped at 0) and derives a high band (x1.15) and a low band (x0.85);
- the browser script (`static/app.js`): `drawChart` puts the history on a fixed
  60-tick axis, left-pads the forecast, high and low series with one null per
  history point so that they start on the tick after the last history point,
  lists four datasets (Actual Players, Forecast, High, Low), and replaces the
  page's single chart, destroying the previous one first.

Files:

- `outcomes.dfy`: `Option` and `Result`.
- `backend.dfy` (module `Backend`): the two routes. The upstream document is an
  `Option<seq<seq<int>>>` (None when the request or the parse fails). A point is
  a JSON array, and a point with no second component makes `p[1]` raise. The
  float projection `int(last_val + slope*i + sin(i/3)*2000)` is an `Estimator`,
  a function parameter of the window and the step. The 30-step loop is the
  method `Future`, proved against the function `Projected`.
- `chart_view.dfy` (module `ChartView`): padding (`PadShift`) and its inverse
  (`Unshift`), the chart configuration (`BuildSpec`), and two classes. `Chart`
  is a rendered Chart.js chart that can be destroyed. `Dashboard` holds the
  script's global `chart` variable, which `DrawChart` replaces.
- `pipeline.dfy` (module `Pipeline`): what gets drawn when both routes answer
  from the same upstream document.

Facts about the code worth knowing:

- The labels are `0..59`.
- An empty history is accepted. `drawChart` then draws the bands from tick 0.
- The code never checks `low <= forecast <= high`. The model proves that it
  holds for every answer of the forecast route (`Backend.ForecastOf`).
- The forecast fits a straight line, which needs at least two points. With
  fewer, the route fails (an HTTP 500).

## Model

| member | source | states |
|---|---|---|
| Backend.LastWindow | app.py:38 | `data[-30:]` keeps exactly min(len, 30) elements, which are the most recent ones in their original order |
| Backend.PlayerCounts | app.py:38 | when the comprehension succeeds it gives one count per point, and count k is the second component of point k |
| Backend.PlayerCountsFailsIff | app.py:38 | the comprehension fails if and only if some point has no second component |
| Backend.History | app.py:34-41 | the history route returns at most 30 values, and returns the empty list when the upstream request or parse fails |
| Backend.HistoryOfWellFormed | app.py:38 | a readable document gives exactly min(len(data), 30) values: `data[k][1]` of the last points, oldest first |
| Backend.HistoryOfMalformed | app.py:36-41 | one malformed point among the last 30 turns the whole answer into the empty list (the except branch) |
| Backend.Clamp | app.py:58 | `max(int(y), 0)` is non-negative, at least y, and is either y or 0 |
| Backend.Projected | app.py:55-58 | the projection has exactly 30 values, all non-negative |
| Backend.Future | app.py:52-58 | the loop appends exactly 30 values, value j comes from step j+1 alone, and every value is >= 0 |
| Backend.BandBounds | app.py:58-61 | for a non-negative count v: 0 <= low(v) <= v <= high(v) |
| Backend.Bands | app.py:60-61 | high and low have the forecast's length, entry i depends only on forecast entry i, and non-negative forecasts lie between their bands |
| Backend.ForecastOf | app.py:45-63 | every answer has three lists of exactly 30 values with 0 <= low[i] <= forecast[i] <= high[i] |
| Backend.Forecast | app.py:45-63 | the route (read the window, run the loop, widen) answers exactly as ForecastOf, including its three failure cases: upstream failure, a malformed point, and fewer than two points for the line fit |
| Backend.ForecastSucceedsIff | app.py:46-58 | the route answers if and only if the document was read, holds at least two points (a degree-1 fit needs two), and its last 30 points all carry a count; the forecast is then projected from the same window the history route returns |
| ChartView.Labels | static/app.js:45 | the axis is 60 labels with label i equal to i |
| ChartView.PadShift | static/app.js:47-50 | the shifted series has length h + len(xs), its first h entries are null, and entry h+i is xs[i] |
| ChartView.ShiftedByUnique | static/app.js:47-50 | that length/null/value description fixes the shifted series completely |
| ChartView.LeadingNulls | static/app.js:47 | the count of leading nulls, followed by a non-null entry or the end: the tick where a line starts |
| ChartView.Values | static/app.js:48 | reading a null-free series back gives one number per entry, in order |
| ChartView.LeadingNullsOfShift | static/app.js:47-48 | a series shifted by h starts drawing exactly at tick h, even when it is empty |
| ChartView.ValuesOfNums | static/app.js:48-50 | the spread copy keeps every forecast value and its order |
| ChartView.PadShiftRoundTrip | static/app.js:47-50 | reading back a shifted series gives exactly its shift and its values, so padding never uses a number as a placeholder |
| ChartView.BuildSpec | static/app.js:45-85 | labels are 0..59 whatever the series lengths; exactly four datasets named Actual Players, Forecast, High, Low in that order; Actual is the history unpadded; each band is shifted by len(history) |
| ChartView.LegsAdjacent | static/app.js:47-66 | at every tick the Actual line has a value if and only if the tick is before len(history), and each band has one if and only if the tick is in [len(history), len(history) + len(forecast)) |
| ChartView.Chart.constructor | static/app.js:52-94 | a new chart shows the given configuration and is live |
| ChartView.Chart.Destroy | static/app.js:43 | `chart.destroy()` leaves the chart destroyed |
| ChartView.Dashboard.constructor | static/app.js:4 | the page starts with no chart |
| ChartView.Dashboard.DrawChart | static/app.js:41-95 | the previous chart, if any, is destroyed; the page then holds a fresh, live chart whose configuration depends only on this call's arguments |
| Pipeline.SeriesFitAxis | static/app.js:45-50 | with the server's answers (app.py:38, app.py:55), every dataset fits the 60 labels, and each of the Forecast, High and Low series fills the axis exactly if and only if the document holds at least 30 points |
| Pipeline.ForecastStartsAfterHistory | static/app.js:47-48 | with the server's answers, the Actual line holds at least two values, its last value is the newest point's count, and the Forecast line starts on the very next tick |

## Left out

- Flask routing, `requests.get` and JSON (de)serialisation: the upstream
  document is a parameter, and a request or parse failure is `None`. The search,
  players, cover and top routes are not part of this model.
- `np.polyfit`, `np.sin` and the float formula for `y` (app.py:50-57): floating
  point. They are abstracted as the `Estimator` parameter, a function of the
  window and the step. Only the loop shape and the clamp are modelled.
- Backend.Bands: models `int(v * 1.15)` and `int(v * 0.85)` as exact `v * 115 / 100` and `v * 85 / 100`. Python multiplies by the nearest doubles to 1.15 and 0.85, which lie slightly below them, so for some v the source's band value is one less than the model's. The ordering `low <= v <= high` holds either way.
- A route that raises is modelled as a `Failure` value. Flask turns it into an
  HTTP 500 page; that page is not modelled.
- DOM wiring, the search box, `toLocaleString` and the players fetch
  (static/app.js:1-33): presentation and I/O.
- The async fetch order in `loadGame` (static/app.js:31-38): asynchronous I/O.
  `Pipeline` assumes that the history and forecast routes, which fetch upstream
  separately, both read the same document.
- Chart.js styling options (colours, dashes, tension, scales,
  static/app.js:60-93) and the canvas context: presentation in a foreign library.
- ChartView.BuildSpec: the series are values (`seq`). In the source the Actual dataset is the caller's `history` array itself, while the bands are fresh spread copies; that aliasing is not modelled.
- tempCodeRunnerFile.py is an older copy of app.py. Its history route lacks the
  try/except, and it has cover and top routes. It is not part of this model.
