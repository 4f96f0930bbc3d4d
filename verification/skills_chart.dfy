/**
  The layout arithmetic of the skills bar chart: one column per skill across
  the 690-unit plot width, each bar capped at 50 units wide, and each bar's
  height proportional to its 0-100 percentage on a 270-unit scale whose
  baseline is y = 310.
 */
module SkillsChart {
  import opened JsValues

  /** A skill as the chart copies it from the user record: its name and percentage. */
  datatype Skill = Skill(name: string, amount: real)

  /** A rectangle of the drawing: left edge, top edge, width and height. */
  datatype Bar = Bar(x: real, y: real, width: real, height: real)

  const SvgWidth: real := 800.0
  const SvgHeight: real := 400.0
  const Padding: real := 40.0
  const LeftPadding: real := 70.0
  const BottomPadding: real := 90.0
  /** The height of the full 100 % scale: 270. */
  const ChartHeight: real := SvgHeight - Padding - BottomPadding
  /** The width shared out between the bars: 690. */
  const PlotWidth: real := SvgWidth - Padding - LeftPadding
  /** The baseline every bar stands on: 310. */
  const Baseline: real := SvgHeight - BottomPadding
  /** The number of bands between horizontal grid lines. */
  const GridSteps: nat := 5

  /** The horizontal room of one of `n` columns. */
  function Slot(n: nat): (s: real)
    requires n >= 1
    ensures s > 0.0 && s * n as real == PlotWidth
  {
    PlotWidth / n as real
  }

  /** `Math.min(slot * 0.8, 50)` */
  function BarWidth(n: nat): (w: real)
    requires n >= 1
    ensures 0.0 < w <= 50.0
    ensures w <= Slot(n) * 0.8
    ensures w == 50.0 || w == Slot(n) * 0.8
  {
    var wide := Slot(n) * 0.8;
    if wide < 50.0 then wide else 50.0
  }

  /** `slot * 0.2`: the gap always takes a fifth of the column, even when the bar is capped. */
  function BarGap(n: nat): (g: real)
    requires n >= 1
    ensures g > 0.0
    ensures BarWidth(n) + g <= Slot(n)
    ensures 5.0 * g == Slot(n)
  {
    Slot(n) * 0.2
  }

  /** `yScale`: the top edge of a bar for a percentage. */
  function SkillY(amount: real): (y: real)
    ensures (Baseline - y) * 100.0 == amount * ChartHeight
  {
    ChartHeight - (amount / 100.0) * ChartHeight + Padding
  }

  /** The percentage a top edge stands for: the inverse of `SkillY`. */
  function AmountAt(y: real): real
  {
    (Baseline - y) / ChartHeight * 100.0
  }

  /** The bar of skill number `i` of `n` with the given percentage. */
  function BarAt(n: nat, i: nat, amount: real): (b: Bar)
    requires i < n
    ensures b.y + b.height == Baseline
    ensures b.height * 100.0 == amount * ChartHeight
    ensures b.width == BarWidth(n) && b.x >= LeftPadding
  {
    var x := LeftPadding + i as real * (BarWidth(n) + BarGap(n));
    var y := SkillY(amount);
    Bar(x, y, BarWidth(n), ChartHeight - (y - Padding))
  }

  /** The grey background column behind the bar of skill `i` of `n`. */
  function BackgroundAt(n: nat, i: nat): (b: Bar)
    requires i < n
    ensures b.y == Padding && b.y + b.height == Baseline
    ensures forall amount :: BarAt(n, i, amount).x == b.x && BarAt(n, i, amount).width == b.width
  {
    Bar(LeftPadding + i as real * (BarWidth(n) + BarGap(n)), Padding, BarWidth(n), ChartHeight)
  }

  /** The bars of the skills, one per skill, in list order. */
  function SkillBars(skills: seq<Skill>): (bars: seq<Bar>)
    ensures |bars| == |skills|
    ensures forall i :: 0 <= i < |bars| ==> bars[i].width == BarWidth(|skills|)
    ensures forall i :: 0 <= i < |bars| ==> bars[i].y + bars[i].height == Baseline
    ensures forall i, j :: 0 <= i < j < |bars| ==> bars[i].x < bars[j].x
  {
    AllColumnsLeftToRight(|skills|);
    seq(|skills|, i requires 0 <= i < |skills| => BarAt(|skills|, i, skills[i].amount))
  }

  /** No skills field draws nothing; a list, even an empty one, draws one bar per skill. */
  function SkillsChart(skills: Option<seq<Skill>>): (r: Option<seq<Bar>>)
    ensures r.None? <==> skills.None?
    ensures r.Some? ==> |r.value| == |skills.value|
  {
    match skills
    case None => None
    case Some(list) => Some(SkillBars(list))
  }

  /** Every bar stands on the baseline, with a height proportional to its percentage. */
  lemma BarsStandOnBaseline(skills: seq<Skill>)
    ensures var bars := SkillBars(skills);
      forall i :: 0 <= i < |bars| ==>
        && bars[i].y + bars[i].height == Baseline
        && bars[i].height * 100.0 == skills[i].amount * ChartHeight
  {
    var bars := SkillBars(skills);
    forall i | 0 <= i < |bars|
      ensures bars[i].y + bars[i].height == Baseline
      ensures bars[i].height * 100.0 == skills[i].amount * ChartHeight
    {
      assert bars[i] == BarAt(|skills|, i, skills[i].amount);
      assert bars[i].height == Baseline - SkillY(skills[i].amount);
    }
  }

  /** Each bar is at most 50 wide, and a bar with its gap fits in its column. */
  lemma BarsFitColumns(skills: seq<Skill>)
    requires |skills| >= 1
    ensures var bars := SkillBars(skills);
      forall i :: 0 <= i < |bars| ==>
        bars[i].width <= 50.0 && bars[i].width + BarGap(|skills|) <= PlotWidth / |skills| as real
  {
  }

  /** Scaling by a count keeps the order of two values. */
  lemma {:induction false} ScaleMonotone(k: nat, a: real, b: real)
    requires a <= b
    ensures k as real * a <= k as real * b
  {
    if k > 0 {
      ScaleMonotone(k - 1, a, b);
      assert k as real * a == (k - 1) as real * a + a;
      assert k as real * b == (k - 1) as real * b + b;
    }
  }

  /** Column `i` of `n` ends strictly before column `j` starts, whatever the percentages. */
  lemma ColumnsLeftToRight(n: nat, i: nat, j: nat, a: real, b: real)
    requires i < j < n
    ensures BarAt(n, i, a).x + BarAt(n, i, a).width < BarAt(n, j, b).x
  {
    var w, g := BarWidth(n), BarGap(n);
    ScaleMonotone(j - i - 1, 0.0, w + g);
    var k := (j - i - 1) as real;
    assert BarAt(n, j, b).x - BarAt(n, i, a).x == k * (w + g) + (w + g);
  }

  lemma AllColumnsLeftToRight(n: nat)
    ensures forall i: nat, j: nat, a: real, b: real :: i < j < n ==> BarAt(n, i, a).x + BarAt(n, i, a).width < BarAt(n, j, b).x
  {
    forall i: nat, j: nat, a: real, b: real | i < j < n
      ensures BarAt(n, i, a).x + BarAt(n, i, a).width < BarAt(n, j, b).x
    {
      ColumnsLeftToRight(n, i, j, a, b);
    }
  }

  /** A bar ends strictly before the next one starts, so bars never overlap and x increases. */
  lemma BarsLeftToRight(skills: seq<Skill>, i: nat, j: nat)
    requires i < j < |skills|
    ensures var bars := SkillBars(skills);
      bars[i].x + bars[i].width < bars[j].x
  {
    ColumnsLeftToRight(|skills|, i, j, skills[i].amount, skills[j].amount);
  }

  /** The last bar ends before the right edge of the plot at 760. */
  lemma LastBarInsidePlot(skills: seq<Skill>)
    requires |skills| >= 1
    ensures var bars := SkillBars(skills);
      bars[|bars| - 1].x + bars[|bars| - 1].width < SvgWidth - Padding
  {
    var n := |skills|;
    var bars := SkillBars(skills);
    var w, g, s := BarWidth(n), BarGap(n), Slot(n);
    var k := (n - 1) as real;
    assert bars[n - 1] == BarAt(n, n - 1, skills[n - 1].amount);
    ScaleMonotone(n - 1, w + g, s);
    assert k * s + s == PlotWidth;
  }

  /**
    A percentage between 0 and 100 gives a bar inside its background column:
    same left edge and width, top at or below 40, bottom on the baseline.
   */
  lemma BarInsideBackground(skills: seq<Skill>, i: nat)
    requires i < |skills|
    requires 0.0 <= skills[i].amount <= 100.0
    ensures var bar, bg := SkillBars(skills)[i], BackgroundAt(|skills|, i);
      && bar.x == bg.x && bar.width == bg.width
      && bg.y <= bar.y && bar.y + bar.height == bg.y + bg.height
      && 0.0 <= bar.height <= bg.height
  {
    BarsStandOnBaseline(skills);
  }

  /** `AmountAt` recovers the percentage from a bar's top edge. */
  lemma SkillYRoundTrip(amount: real)
    ensures AmountAt(SkillY(amount)) == amount
  {
    var y := SkillY(amount);
    assert (Baseline - y) / ChartHeight == amount / 100.0;
  }

  /** The height of horizontal grid line `i`, from the top. */
  function GridLineY(i: nat): (y: real)
    requires i <= GridSteps
    ensures Padding <= y <= Baseline
    ensures i == 0 ==> y == Padding
    ensures i == GridSteps ==> y == Baseline
  {
    Padding + i as real * ChartHeight / GridSteps as real
  }

  /** The percentage grid line `i` is labelled with. */
  function GridLabel(i: nat): (pct: int)
    requires i <= GridSteps
    ensures 0 <= pct <= 100 && pct % 20 == 0
    ensures i == 0 ==> pct == 100
    ensures i == GridSteps ==> pct == 0
  {
    100 - i * 20
  }

  /** Grid line `i` sits exactly at the top of a bar of its labelled percentage. */
  lemma GridLineOnScale(i: nat)
    requires i <= GridSteps
    ensures GridLineY(i) == SkillY(GridLabel(i) as real)
  {
    assert GridLabel(i) as real / 100.0 == 1.0 - i as real / 5.0;
  }
}
