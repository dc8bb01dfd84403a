/**
 * What the dashboard draws for one game when both routes answer from the
 * same upstream document: the history route's counts go to drawChart as
 * `history`, the forecast route's three lists as `forecast`, `high`, `low`.
 */
module Pipeline {
  import opened Outcomes
  import opened Backend
  import opened ChartView

  /** The chart drawn from the two routes' answers. */
  function Drawn(upstream: Upstream, b: Band): ChartSpec {
    BuildSpec(History(upstream), b.forecast, b.high, b.low)
  }

  /** Every series fits the 60-tick axis, and each of the three padded bands
      fills it exactly when, and only when, the document holds at least 30 points. */
  lemma SeriesFitAxis(upstream: Upstream, estimate: Estimator)
    requires ForecastOf(upstream, estimate).Success?
    ensures var c := Drawn(upstream, ForecastOf(upstream, estimate).value);
      && (forall k :: 0 <= k < 4 ==> |c.datasets[k].data| <= |c.labels|)
      && (forall k :: 1 <= k < 4 ==> (|c.datasets[k].data| == |c.labels| <==> |upstream.value| >= Window))
  {
    var data := upstream.value;
    PlayerCountsFailsIff(LastWindow(data, Window));
    HistoryOfWellFormed(data);
    var b := ForecastOf(upstream, estimate).value;
    var h := History(upstream);
    assert |h| == if |data| < Window then |data| else Window;
    assert |b.forecast| == Horizon && |b.high| == Horizon && |b.low| == Horizon;
    var c := BuildSpec(h, b.forecast, b.high, b.low);
    assert |c.datasets[1].data| == |h| + Horizon;
    assert |c.datasets[2].data| == |h| + Horizon;
    assert |c.datasets[3].data| == |h| + Horizon;
  }

  /** The actual line holds at least two values when a forecast is drawn, and the
      forecast line starts on the tick right after the last actual value,
      which is the player count of the document's newest point. */
  lemma ForecastStartsAfterHistory(upstream: Upstream, estimate: Estimator)
    requires ForecastOf(upstream, estimate).Success?
    ensures var data := upstream.value;
      var c := Drawn(upstream, ForecastOf(upstream, estimate).value);
      var h := |History(upstream)|;
      && h > 1
      && LeadingNulls(c.datasets[1].data) == h
      && c.datasets[0].data[h - 1] == Num(data[|data| - 1][1])
  {
    var data := upstream.value;
    var b := ForecastOf(upstream, estimate).value;
    PlayerCountsFailsIff(LastWindow(data, Window));
    HistoryOfWellFormed(data);
    var hist := History(upstream);
    var h := |hist|;
    assert h == if |data| < Window then |data| else Window;
    assert |data| >= 2;
    assert hist[h - 1] == data[|data| - 1][1];
    LeadingNullsOfShift(h, b.forecast);
    ShiftedByUnique(Drawn(upstream, b).datasets[1].data, h, b.forecast);
    assert Drawn(upstream, b).datasets[0].data[0 + (h - 1)] == Num(hist[h - 1]);
  }
}
