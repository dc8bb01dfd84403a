/**
 * drawChart of the dashboard script (static/app.js): the label axis, the
 * null-padding that makes the three forecast legs start on the tick after the
 * last history point, the four datasets in their fixed order, and the single
 * page-wide chart that every call destroys and replaces.
 */
module ChartView {
  import opened Outcomes

  /** One entry of a Chart.js data array: a number, or null for "no value at this tick". */
  datatype Cell = Null | Num(n: int)

  /** Length of the label axis, `[...Array(60).keys()]`. */
  const AxisLength: nat := 60

  /** Dataset names, in the order drawChart lists them. */
  const SeriesNames: seq<string> := ["Actual Players", "Forecast", "High", "Low"]

  /** The x-axis labels 0, 1, ..., 59. */
  function Labels(): (r: seq<int>)
    ensures |r| == AxisLength
    ensures forall i :: 0 <= i < |r| ==> r[i] == i
  {
    seq(AxisLength, i => i)
  }

  /** `Array(n).fill(null)`. */
  function Nulls(n: nat): seq<Cell> {
    seq(n, _ => Null)
  }

  /** A JSON array of numbers as a Chart.js data array. */
  function Nums(xs: seq<int>): seq<Cell> {
    seq(|xs|, i requires 0 <= i < |xs| => Num(xs[i]))
  }

  /** `d` is `xs` moved right by `h` ticks: h nulls, then xs in order. */
  ghost predicate ShiftedBy(d: seq<Cell>, h: nat, xs: seq<int>) {
    && |d| == h + |xs|
    && (forall i :: 0 <= i < h ==> d[i] == Null)
    && (forall i :: 0 <= i < |xs| ==> d[h + i] == Num(xs[i]))
  }

  /** `[...pad, ...xs]` with `pad` holding h nulls. */
  function PadShift(h: nat, xs: seq<int>): (r: seq<Cell>)
    ensures ShiftedBy(r, h, xs)
  {
    Nulls(h) + Nums(xs)
  }

  /** Only one data array is shifted by h from xs: the one PadShift builds. */
  lemma ShiftedByUnique(d: seq<Cell>, h: nat, xs: seq<int>)
    requires ShiftedBy(d, h, xs)
    ensures d == PadShift(h, xs)
  {
    var p := PadShift(h, xs);
    forall i | 0 <= i < |d|
      ensures d[i] == p[i]
    {
      if i >= h {
        assert d[h + (i - h)] == p[h + (i - h)];
      }
    }
  }

  /** Number of nulls before the first number: the tick where a line starts. */
  function LeadingNulls(d: seq<Cell>): (k: nat)
    ensures k <= |d|
    ensures forall i :: 0 <= i < k ==> d[i] == Null
    ensures k < |d| ==> d[k] != Null
  {
    if d == [] || d[0] != Null then 0 else 1 + LeadingNulls(d[1..])
  }

  /** The numbers of a data array that holds no null, in order. */
  function Values(d: seq<Cell>): (r: Option<seq<int>>)
    ensures r.Some? ==> |r.value| == |d|
    ensures r.Some? ==> forall i :: 0 <= i < |d| ==> d[i] == Num(r.value[i])
  {
    if d == [] then Some([])
    else match (d[0], Values(d[1..]))
      case (Num(n), Some(rest)) => Some([n] + rest)
      case _ => None
  }

  /** Reads a shifted data array back: its leading nulls, then its numbers. */
  function Unshift(d: seq<Cell>): Option<(nat, seq<int>)> {
    var h := LeadingNulls(d);
    match Values(d[h..])
    case Some(xs) => Some((h, xs))
    case None => None
  }

  /** Every data array of numbers reads back as its numbers. */
  lemma {:induction false} ValuesOfNums(xs: seq<int>)
    ensures Values(Nums(xs)) == Some(xs)
  {
    if xs != [] {
      ValuesOfNums(xs[1..]);
      assert Nums(xs)[1..] == Nums(xs[1..]);
      assert [xs[0]] + xs[1..] == xs;
    }
  }

  /** A shifted leg starts drawing at tick h. */
  lemma {:induction false} LeadingNullsOfShift(h: nat, xs: seq<int>)
    ensures LeadingNulls(PadShift(h, xs)) == h
  {
    if h == 0 {
      assert PadShift(0, xs) == Nums(xs);
    } else {
      LeadingNullsOfShift(h - 1, xs);
      assert PadShift(h, xs)[1..] == PadShift(h - 1, xs);
    }
  }

  /** Padding loses nothing: a shifted leg reads back as its shift and its values. */
  lemma PadShiftRoundTrip(h: nat, xs: seq<int>)
    ensures Unshift(PadShift(h, xs)) == Some((h, xs))
  {
    LeadingNullsOfShift(h, xs);
    assert PadShift(h, xs)[h..] == Nums(xs);
    ValuesOfNums(xs);
  }

  /** One Chart.js dataset, stripped of its styling. */
  datatype Dataset = Dataset(name: string, data: seq<Cell>)

  /** The `data` part of the Chart.js configuration drawChart builds. */
  datatype ChartSpec = ChartSpec(labels: seq<int>, datasets: seq<Dataset>)

  /** The configuration for one game: the history unpadded, each band shifted
      by the history's length, under a fixed 60-tick axis. */
  function BuildSpec(history: seq<int>, forecast: seq<int>, high: seq<int>, low: seq<int>): (c: ChartSpec)
    ensures |c.labels| == AxisLength && forall i :: 0 <= i < AxisLength ==> c.labels[i] == i
    ensures |c.datasets| == 4 && forall k :: 0 <= k < 4 ==> c.datasets[k].name == SeriesNames[k]
    ensures ShiftedBy(c.datasets[0].data, 0, history)
    ensures ShiftedBy(c.datasets[1].data, |history|, forecast)
    ensures ShiftedBy(c.datasets[2].data, |history|, high)
    ensures ShiftedBy(c.datasets[3].data, |history|, low)
  {
    var pad := |history|;
    ChartSpec(Labels(), [
      Dataset(SeriesNames[0], PadShift(0, history)),
      Dataset(SeriesNames[1], PadShift(pad, forecast)),
      Dataset(SeriesNames[2], PadShift(pad, high)),
      Dataset(SeriesNames[3], PadShift(pad, low))
    ])
  }

  /** The value a data array shows at tick t; ticks past its end show nothing. */
  function At(d: seq<Cell>, t: nat): Cell {
    if t < |d| then d[t] else Null
  }

  /** The legs meet without overlap: the actual line covers ticks [0, H), each
      band covers [H, H + F), where H and F are the lengths of history and forecast. */
  lemma LegsAdjacent(history: seq<int>, forecast: seq<int>, high: seq<int>, low: seq<int>, t: nat)
    requires |high| == |forecast| && |low| == |forecast|
    ensures var c := BuildSpec(history, forecast, high, low);
      && (At(c.datasets[0].data, t).Num? <==> t < |history|)
      && (forall k :: 1 <= k < 4 ==>
            (At(c.datasets[k].data, t).Num? <==> |history| <= t < |history| + |forecast|))
  {
    var c := BuildSpec(history, forecast, high, low);
    var h := |history|;
    if t < h {
      assert c.datasets[0].data[0 + t] == Num(history[t]);
    }
    if h <= t < h + |forecast| {
      assert c.datasets[1].data[h + (t - h)] == Num(forecast[t - h]);
      assert c.datasets[2].data[h + (t - h)] == Num(high[t - h]);
      assert c.datasets[3].data[h + (t - h)] == Num(low[t - h]);
    }
  }

  /** A rendered Chart.js chart; `destroy()` releases it. */
  class Chart {
    const config: ChartSpec
    var destroyed: bool

    constructor (config: ChartSpec)
      ensures this.config == config && !destroyed
    {
      this.config := config;
      destroyed := false;
    }

    method Destroy()
      modifies this
      ensures destroyed
    {
      destroyed := true;
    }
  }

  /** The page, holding the script's one `chart` variable. */
  class Dashboard {
    var chart: Chart?

    constructor ()
      ensures chart == null
    {
      chart := null;
    }

    /** Destroys the chart on the page, if any, and puts up a new one built
        from the arguments alone. */
    method DrawChart(history: seq<int>, forecast: seq<int>, high: seq<int>, low: seq<int>)
      modifies this, chart
      ensures chart != null && fresh(chart) && !chart.destroyed
      ensures chart.config == BuildSpec(history, forecast, high, low)
      ensures old(chart) != null ==> old(chart).destroyed
    {
      if chart != null {
        chart.Destroy();
      }
      chart := new Chart(BuildSpec(history, forecast, high, low));
    }
  }
}
