/**
  The coordinate arithmetic of the XP line chart: the time and XP domains
  read off the series, the two linear scales onto the 800 x 400 drawing,
  and the heights of the horizontal grid lines.
 */
module LineChart {
  import opened Records
  import opened XpSeries

  const SvgWidth: real := 800.0
  const SvgHeight: real := 400.0
  const Padding: real := 40.0
  /** The line chart's own left margin, wider than the shared 70. */
  const LeftPadding: real := 100.0
  /** The number of bands between horizontal grid lines. */
  const YSteps: nat := 5

  /** The first and last point instants and the highest total of a series. */
  datatype Domain = Domain(minDate: int, maxDate: int, maxXp: int)

  /** `Math.max(...points.map(p => p.xp))` */
  function MaxXp(points: seq<Point>): (m: int)
    requires |points| > 0
    ensures exists i :: 0 <= i < |points| && points[i].xp == m
    ensures forall i :: 0 <= i < |points| ==> points[i].xp <= m
  {
    if |points| == 1 then points[0].xp
    else
      var rest := MaxXp(points[1..]);
      assert forall i :: 1 <= i < |points| ==> points[i] == points[1..][i - 1];
      if points[0].xp >= rest then points[0].xp else rest
  }

  /** `points[0].date`, `points[points.length - 1].date` and the highest total. */
  function ChartDomain(points: seq<Point>): (d: Domain)
    requires |points| > 0
    ensures d.minDate == points[0].date && d.maxDate == points[|points| - 1].date
    ensures forall i :: 0 <= i < |points| ==> points[i].xp <= d.maxXp
    ensures exists i :: 0 <= i < |points| && points[i].xp == d.maxXp
  {
    Domain(points[0].date, points[|points| - 1].date, MaxXp(points))
  }

  /** `xScale`: instants onto the horizontal plot range. Equal end instants divide by zero. */
  function XScale(d: Domain, date: int): (x: real)
    requires d.minDate != d.maxDate
    ensures (x - LeftPadding) * (d.maxDate - d.minDate) as real
         == (date - d.minDate) as real * (SvgWidth - LeftPadding - Padding)
  {
    LeftPadding + (date - d.minDate) as real / (d.maxDate - d.minDate) as real * (SvgWidth - LeftPadding - Padding)
  }

  /** The instant a horizontal position stands for: the inverse of `XScale`. */
  function DateAt(d: Domain, x: real): real
    requires d.minDate != d.maxDate
  {
    d.minDate as real + (x - LeftPadding) / (SvgWidth - LeftPadding - Padding) * (d.maxDate - d.minDate) as real
  }

  /** `yScale`: totals onto the vertical plot range, growing upwards. A zero maximum divides by zero. */
  function YScale(d: Domain, xp: real): (y: real)
    requires d.maxXp != 0
    ensures (SvgHeight - Padding - y) * d.maxXp as real == xp * (SvgHeight - 2.0 * Padding)
  {
    SvgHeight - Padding - (xp / d.maxXp as real) * (SvgHeight - 2.0 * Padding)
  }

  /** The first instant lands on the y axis at 100, the last on the right edge at 760. */
  lemma XScaleEnds(d: Domain)
    requires d.minDate != d.maxDate
    ensures XScale(d, d.minDate) == 100.0
    ensures XScale(d, d.maxDate) == 760.0
  {
    var span := (d.maxDate - d.minDate) as real;
    assert (XScale(d, d.maxDate) - LeftPadding) * span == span * 660.0;
  }

  /** With the first instant before the last, later instants lie further right. */
  lemma XScaleIncreasing(d: Domain, t1: int, t2: int)
    requires d.minDate < d.maxDate
    requires t1 < t2
    ensures XScale(d, t1) < XScale(d, t2)
  {
    var span := (d.maxDate - d.minDate) as real;
    var x1, x2 := XScale(d, t1), XScale(d, t2);
    assert (x2 - x1) * span == (t2 - t1) as real * 660.0;
  }

  lemma XScaleMonotone(d: Domain, t1: int, t2: int)
    requires d.minDate < d.maxDate
    requires t1 <= t2
    ensures XScale(d, t1) <= XScale(d, t2)
  {
    if t1 < t2 {
      XScaleIncreasing(d, t1, t2);
    }
  }

  /** `DateAt` recovers the instant from its horizontal position. */
  lemma XScaleRoundTrip(d: Domain, date: int)
    requires d.minDate != d.maxDate
    ensures DateAt(d, XScale(d, date)) == date as real
  {
    var span := (d.maxDate - d.minDate) as real;
    var x := XScale(d, date);
    assert (x - LeftPadding) / 660.0 * span == (date - d.minDate) as real;
  }

  /** A total of 0 lies on the x axis at 360, the maximum at the top edge at 40. */
  lemma YScaleEnds(d: Domain)
    requires d.maxXp != 0
    ensures YScale(d, 0.0) == 360.0
    ensures YScale(d, d.maxXp as real) == 40.0
  {
    var top := YScale(d, d.maxXp as real);
    assert (360.0 - top) * d.maxXp as real == 320.0 * d.maxXp as real;
  }

  /** With a positive maximum, higher totals lie higher on the drawing (smaller y). */
  lemma YScaleDecreasing(d: Domain, a: real, b: real)
    requires d.maxXp > 0
    requires a < b
    ensures YScale(d, b) < YScale(d, a)
  {
    var ya, yb := YScale(d, a), YScale(d, b);
    assert (ya - yb) * d.maxXp as real == (b - a) * 320.0;
  }

  lemma YScaleMonotone(d: Domain, a: real, b: real)
    requires d.maxXp > 0
    requires a <= b
    ensures YScale(d, b) <= YScale(d, a)
  {
    if a < b {
      YScaleDecreasing(d, a, b);
    }
  }

  /** The height of horizontal grid line `i`, from the top. */
  function GridLineY(i: nat): (y: real)
    requires i <= YSteps
    ensures Padding <= y <= SvgHeight - Padding
    ensures i == 0 ==> y == Padding
    ensures i == YSteps ==> y == SvgHeight - Padding
  {
    Padding + (i as real * (SvgHeight - 2.0 * Padding) / YSteps as real)
  }

  /** Grid line `i` sits exactly where the scale puts the total its label rounds. */
  lemma GridLineOnScale(d: Domain, i: nat)
    requires d.maxXp != 0 && i <= YSteps
    ensures GridLineY(i) == YScale(d, d.maxXp as real * (YSteps - i) as real / YSteps as real)
  {
    var m := d.maxXp as real;
    var q := (YSteps - i) as real / YSteps as real;
    assert m * (YSteps - i) as real / YSteps as real == m * q;
    CancelFactor(m, q);
  }

  lemma CancelFactor(m: real, q: real)
    requires m != 0.0
    ensures m * q / m == q
  {
  }

  /**
    When the first input record is the earliest one, as the platform's query
    orders them, and no amount is negative, every point of the series lies
    inside the plot rectangle [100, 760] x [40, 360].
   */
  lemma SeriesInsidePlot(xs: seq<Transaction>, now: int)
    requires forall k :: 0 <= k < |xs| ==> xs[0].createdAt <= xs[k].createdAt
    requires forall k :: 0 <= k < |xs| ==> Gain(xs[k]) >= 0
    requires var d := ChartDomain(Series(xs, now)); d.minDate < d.maxDate && d.maxXp > 0
    ensures var r := Series(xs, now); var d := ChartDomain(r);
      forall i :: 0 <= i < |r| ==>
        && 100.0 <= XScale(d, r[i].date) <= 760.0
        && 40.0 <= YScale(d, r[i].xp as real) <= 360.0
  {
    var r := Series(xs, now);
    var d := ChartDomain(r);
    XScaleEnds(d);
    YScaleEnds(d);
    SeriesWithinEnds(xs, now);
    SeriesNonDecreasing(xs, now);
    forall i | 0 <= i < |r|
      ensures 100.0 <= XScale(d, r[i].date) <= 760.0
      ensures 40.0 <= YScale(d, r[i].xp as real) <= 360.0
    {
      XScaleMonotone(d, d.minDate, r[i].date);
      XScaleMonotone(d, r[i].date, d.maxDate);
      assert r[0].xp <= r[i].xp <= d.maxXp;
      YScaleMonotone(d, 0.0, r[i].xp as real);
      YScaleMonotone(d, r[i].xp as real, d.maxXp as real);
    }
  }

  /**
    The start point takes the instant of the first input record, not of the
    earliest one. When a plotted record is earlier than the first record,
    and the last point is later than the start, the scale puts a point left
    of the y axis at 100.
   */
  lemma UnsortedInputLeavesPlot(xs: seq<Transaction>, now: int, i: nat)
    requires 0 < i < |xs| && Plotted(xs[i]) && xs[i].createdAt < xs[0].createdAt
    ensures var r := Series(xs, now); var d := ChartDomain(r);
      d.minDate < d.maxDate ==>
        exists k :: 1 <= k < |r| && XScale(d, r[k].date) < LeftPadding
  {
    var r := Series(xs, now);
    var d := ChartDomain(r);
    EarlierRecordPrecedesStart(xs, now, i);
    var k :| 1 <= k < |r| && r[k].date < r[0].date;
    if d.minDate < d.maxDate {
      XScaleIncreasing(d, r[k].date, d.minDate);
      XScaleEnds(d);
    }
  }
}
