/**
 * The two data routes of the Flask server (app.py) that feed the chart:
 * /api/history/<appid> and /api/forecast/<appid>. Both read the upstream
 * steamcharts chart-data.json document, a JSON array of [timestamp, players]
 * points, oldest first.
 */
module Backend {
  import opened Outcomes

  /** One upstream point: a JSON array, normally [timestamp, players]. */
  type Point = seq<int>

  /** The upstream document as the server got it: None when the request,
      the JSON parse, or slicing the parsed value failed. */
  type Upstream = Option<seq<Point>>

  /** Number of most recent points both routes look at (`data[-30:]`). */
  const Window: nat := 30

  /** Number of future days the forecast route projects (`range(1, 31)`). */
  const Horizon: nat := 30

  /** Python's `s[-n:]` for n > 0: the last min(|s|, n) elements, oldest first. */
  function LastWindow<T>(s: seq<T>, n: nat): (r: seq<T>)
    requires n > 0
    ensures |r| == if |s| < n then |s| else n
    ensures forall k :: 0 <= k < |r| ==> r[k] == s[|s| - |r| + k]
  {
    if |s| <= n then s else s[|s| - n..]
  }

  /** `[p[1] for p in points]`: the player counts, or None when some point has
      no second component (the comprehension raises IndexError). */
  function PlayerCounts(points: seq<Point>): (r: Option<seq<int>>)
    ensures r.Some? ==> |r.value| == |points|
    ensures r.Some? ==> forall k :: 0 <= k < |points| ==> |points[k]| >= 2 && r.value[k] == points[k][1]
  {
    if points == [] then Some([])
    else if |points[0]| < 2 then None
    else match PlayerCounts(points[1..])
      case None => None
      case Some(rest) => Some([points[0][1]] + rest)
  }

  /** Every point of `points` has a player count. */
  predicate WellFormed(points: seq<Point>) {
    forall k :: 0 <= k < |points| ==> |points[k]| >= 2
  }

  /** PlayerCounts fails exactly when some point lacks a second component. */
  lemma {:induction false} PlayerCountsFailsIff(points: seq<Point>)
    ensures PlayerCounts(points).Some? <==> WellFormed(points)
  {
    if points != [] && |points[0]| >= 2 {
      PlayerCountsFailsIff(points[1..]);
      if WellFormed(points) {
        assert forall k :: 0 <= k < |points| - 1 ==> points[1..][k] == points[k + 1];
      }
    }
  }

  /** The /api/history route: the player counts of the last 30 points, or the
      empty list when anything in fetching or reading them raises. */
  function History(upstream: Upstream): (r: seq<int>)
    ensures |r| <= Window
    ensures upstream.None? ==> r == []
  {
    match upstream
    case None => []
    case Some(data) =>
      match PlayerCounts(LastWindow(data, Window))
      case None => []
      case Some(counts) => counts
  }

  /** A readable document yields exactly min(|data|, 30) counts: the second
      components of its most recent points, in their original order. */
  lemma HistoryOfWellFormed(data: seq<Point>)
    requires WellFormed(LastWindow(data, Window))
    ensures |History(Some(data))| == if |data| < Window then |data| else Window
    ensures forall k :: 0 <= k < |History(Some(data))| ==>
              History(Some(data))[k] == data[|data| - |History(Some(data))| + k][1]
  {
    var w := LastWindow(data, Window);
    PlayerCountsFailsIff(w);
    var counts := PlayerCounts(w).value;
    assert History(Some(data)) == counts;
    forall k | 0 <= k < |counts|
      ensures counts[k] == data[|data| - |counts| + k][1]
    {
      assert counts[k] == w[k][1];
    }
  }

  /** One malformed point among the last 30 empties the whole history. */
  lemma HistoryOfMalformed(data: seq<Point>, k: nat)
    requires k < |LastWindow(data, Window)| && |LastWindow(data, Window)[k]| < 2
    ensures History(Some(data)) == []
  {
    PlayerCountsFailsIff(LastWindow(data, Window));
  }

  /** `int(y)` of step i in the source: the trend-plus-seasonal estimate
      `last_val + slope * i + sin(i / 3) * 2000`, truncated to an integer,
      as a function of the window it is fitted to and of the step. */
  type Estimator = (seq<int>, nat) -> int

  /** `max(int(y), 0)`: the larger of y and 0. */
  function Clamp(y: int): (r: int)
    ensures r >= 0 && r >= y
    ensures r == y || r == 0
  {
    if y > 0 then y else 0
  }

  /** The 30 future values, entry j coming from step j + 1. */
  function Projected(window: seq<int>, estimate: Estimator): (r: seq<int>)
    ensures |r| == Horizon
    ensures forall j :: 0 <= j < |r| ==> r[j] >= 0
  {
    var r := seq(Horizon, j requires 0 <= j => Clamp(estimate(window, j + 1)));
    assert forall j :: 0 <= j < |r| ==> r[j] == Clamp(estimate(window, j + 1));
    r
  }

  /** The loop of the forecast route, appending one clamped value per step. */
  method Future(window: seq<int>, estimate: Estimator) returns (future: seq<int>)
    ensures future == Projected(window, estimate)
    ensures |future| == Horizon
    ensures forall j :: 0 <= j < |future| ==> future[j] >= 0
  {
    future := [];
    for i := 1 to Horizon + 1
      invariant |future| == i - 1
      invariant forall j :: 0 <= j < |future| ==> future[j] == Clamp(estimate(window, j + 1))
    {
      future := future + [Clamp(estimate(window, i))];
    }
  }

  /** `int(v * 1.15)` on a non-negative count, in exact arithmetic. */
  function High(v: int): int {
    v * 115 / 100
  }

  /** `int(v * 0.85)` on a non-negative count, in exact arithmetic. */
  function Low(v: int): int {
    v * 85 / 100
  }

  /** A non-negative count lies between its low and high band values. */
  lemma BandBounds(v: int)
    requires v >= 0
    ensures 0 <= Low(v) <= v <= High(v)
  {
  }

  /** The JSON object the forecast route returns. */
  datatype Band = Band(forecast: seq<int>, high: seq<int>, low: seq<int>)

  /** The high and low comprehensions over `future`. */
  function Bands(future: seq<int>): (b: Band)
    ensures b.forecast == future && |b.high| == |future| && |b.low| == |future|
    ensures forall i :: 0 <= i < |future| ==> b.high[i] == High(future[i]) && b.low[i] == Low(future[i])
    ensures (forall i :: 0 <= i < |future| ==> future[i] >= 0) ==>
              forall i :: 0 <= i < |future| ==> 0 <= b.low[i] <= b.forecast[i] <= b.high[i]
  {
    var b := Band(future,
                  seq(|future|, i requires 0 <= i < |future| => High(future[i])),
                  seq(|future|, i requires 0 <= i < |future| => Low(future[i])));
    forall i | 0 <= i < |future| && future[i] >= 0
      ensures 0 <= b.low[i] <= b.forecast[i] <= b.high[i]
    {
      BandBounds(future[i]);
    }
    b
  }

  /** Why the forecast route raises (Flask then answers with an HTTP 500). */
  datatype ForecastError =
    | UpstreamFailed   // request or JSON parse failed; the route has no try
    | MalformedPoint   // `p[1]` raised IndexError on one of the last 30 points
    | TooFewPoints     // a degree-1 np.polyfit needs two x values: it raises on
                       // an empty series, and one point gives a NaN slope that
                       // int(y) rejects

  /** What the forecast route answers for an upstream document. */
  function ForecastOf(upstream: Upstream, estimate: Estimator): (r: Result<Band, ForecastError>)
    ensures r.Success? ==> |r.value.forecast| == Horizon && |r.value.high| == Horizon && |r.value.low| == Horizon
    ensures r.Success? ==> forall i :: 0 <= i < Horizon ==>
              0 <= r.value.low[i] <= r.value.forecast[i] <= r.value.high[i]
  {
    match upstream
    case None => Failure(UpstreamFailed)
    case Some(data) =>
      match PlayerCounts(LastWindow(data, Window))
      case None => Failure(MalformedPoint)
      case Some(window) =>
        if |window| < 2 then Failure(TooFewPoints)
        else Success(Bands(Projected(window, estimate)))
  }

  /** The forecast route: read the window, run the projection loop, widen it. */
  method Forecast(upstream: Upstream, estimate: Estimator) returns (r: Result<Band, ForecastError>)
    ensures r == ForecastOf(upstream, estimate)
  {
    if upstream.None? {
      return Failure(UpstreamFailed);
    }
    var counts := PlayerCounts(LastWindow(upstream.value, Window));
    if counts.None? {
      return Failure(MalformedPoint);
    }
    var window := counts.value;
    if |window| < 2 {
      return Failure(TooFewPoints);
    }
    var future := Future(window, estimate);
    r := Success(Bands(future));
  }

  /** The forecast route answers exactly when the document was read, has at
      least two points, and its last 30 points all carry a player count; in
      that case the forecast is the projection of the history route's window. */
  lemma ForecastSucceedsIff(upstream: Upstream, estimate: Estimator)
    ensures ForecastOf(upstream, estimate).Success? <==>
              upstream.Some? && |upstream.value| >= 2 && WellFormed(LastWindow(upstream.value, Window))
    ensures ForecastOf(upstream, estimate).Success? ==>
              ForecastOf(upstream, estimate).value.forecast == Projected(History(upstream), estimate)
  {
    if upstream.Some? {
      PlayerCountsFailsIff(LastWindow(upstream.value, Window));
    }
  }
}
