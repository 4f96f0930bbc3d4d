# XP dashboard arithmetic, modelled in Dafny

The dashboard signs a student in to the school platform, fetches their
transactions, progress entries and audit totals, and draws a profile page.
This project models the pure arithmetic and string handling at its core:

- **Summary figures** (`js/dataUtils.js`): the total XP, where an amount may
  arrive as a number, a string read with `parseInt(amount, 10)`, or not at
  all; the K/M label of a total; the number of completed projects; and the
  two audit ratios with their zero-denominator guards.
- **XP line chart** (`js/graphs.js`): the point series (a `Start` point,
  then one point per transaction with a non-zero numeric amount, in stable
  `createdAt` order, each carrying the running total and the last segment
  of the transaction's path), the two linear scales onto the 800 x 400
  drawing, and the horizontal grid lines.
- **Skills bar chart** (`js/graphs.js`): bar width, gap, left edges, top
  edges and heights for a list of 0-100 percentages.
- **Sign-in form** (`js/loginFlow.js`): the empty-field check and the
  removal of the JSON quotes around the returned token.

Modules: `Folds` (sum, filter and map over sequences, with their
concatenation and permutation lemmas), `JsValues` (absent fields, the
dynamic `amount`, ECMAScript `parseInt` and integer `toString`), `Records`
(transactions and progress entries), `DataUtils`, `XpSeries`, `LineChart`,
`SkillsChart` and `LoginFlow`.

Modelling choices:

- Instants are integers (milliseconds); chart coordinates are `real`.
- `Date.now()` is a parameter `now`.
- Digits produced by `toFixed` are not modelled. `FormatXp` returns the
  quotient and its suffix, and the audit ratios return the value and the
  number of places, or the literal the guard returns. Below 1,000, `FormatXp`
  returns the full `toString` text, or for a total at or below -10^21,
  where `toString` switches to exponent notation, the mantissa and the
  power of ten.
- The stable sort of `Array.prototype.sort` is specified by tagging each
  transaction with its input position. The result must be strictly
  increasing in (`createdAt`, position) and a permutation of the tagged
  input. `XpSeries.StrictOrderIsUnique` shows that at most one list meets
  both conditions.
- The source does not guard against scales with equal end instants or a
  zero maximum, where it divides by zero. These are preconditions of
  `LineChart.XScale` and `LineChart.YScale`.

Observations on the source, which the model follows as written:

- The start point takes the instant of the first record *in input order*
  (`js/graphs.js:112`), while the other points are sorted. When a plotted
  record is earlier than the first record, its point comes before the start.
  When the last point is also later than the start, that point lies left of
  the y axis (`XpSeries.EarlierRecordPrecedesStart`,
  `LineChart.UnsortedInputLeavesPlot`). The
  platform query sorts transactions by `createdAt` ascending
  (`js/userData.js:37`), so this does not happen with fetched data.
- `createProjectGraph` reads `userData.xp`, but the fetched user record
  names the list `transactions` (`js/userData.js:24`). As fetched, the
  series is therefore always the lone start point. The model takes the list
  as a parameter.
- `createSkillsGraph` is not called from `createGraphs`
  (`js/userData.js:137-140`). The skills query selects no `name` field
  (`js/userData.js:44-54`). The layout is modelled for whatever list is
  passed in.

## Model

| member | source | states |
|---|---|---|
| DataUtils.ValidateAndCalculateXp | js/dataUtils.js:2-6 | The left-to-right reduce returns the sum of every transaction's value, and 0 for an empty list. |
| DataUtils.XpValue | js/dataUtils.js:4 | A numeric amount counts as itself and a missing one as 0. A string counts as what `parseInt` reads from it, and as 0 when no digit follows the white space and sign. |
| DataUtils.TotalXp | js/dataUtils.js:2-6 | The total of an empty list is 0, and with no negative value the total is never negative. |
| Folds.Sum | js/dataUtils.js:3-5 | The sum over an empty list is 0, and a sum of non-negative values is non-negative. |
| DataUtils.NumericAmountCounts | js/dataUtils.js:4 | A numeric amount counts as exactly itself. |
| DataUtils.StringAmountCountsAsParsed | js/dataUtils.js:4 | A string amount made of white space, the decimal rendering of n, and then text that does not start with a digit counts as n. |
| DataUtils.UnparsableAmountCountsZero | js/dataUtils.js:4 | A missing amount, or a string that `parseInt` reads as NaN, counts as 0 through `|| 0`. |
| DataUtils.TotalXpAppend | js/dataUtils.js:3-5 | Appending a transaction raises the total by exactly that transaction's value. |
| DataUtils.TotalXpReorder | js/dataUtils.js:3-5 | The total is the same for any reordering of the transactions. |
| JsValues.ParseIntReadsIntToString | js/dataUtils.js:4 | `parseInt` reads back the decimal rendering of every integer and stops at the first non-digit after it. |
| JsValues.ParseIntSkipsWhiteSpace | js/dataUtils.js:4 | Leading white space never changes what `parseInt` returns. |
| JsValues.ParseInt | js/dataUtils.js:4 | `parseInt` gives NaN exactly when no digit follows the white space and the optional sign. |
| DataUtils.FormatXp | js/dataUtils.js:10-17 | The M suffix applies exactly at 1,000,000 and above, and K exactly from 1,000 to below 1,000,000. The quotient times the suffix's scale is the total, and a K quotient lies in [1, 1000). Below 1,000 and above -10^21 the label is plain text: a canonical integer rendering (a '-' exactly for negative totals, no leading zero, no "-0") that parses back to the total. At or below -10^21 it is exponent notation: a mantissa in (-10, -1] times 10^e with e >= 21 gives the total. |
| DataUtils.ExponentLabel | js/dataUtils.js:15-16 | For a total at or below -10^21, the mantissa lies in (-10, -1], the exponent is at least 21, and the mantissa times 10^exponent is the total. |
| JsValues.IntToString | js/dataUtils.js:16 | The rendering is canonical: a '-' exactly for a negative integer, then digits with no leading zero except in "0". |
| JsValues.CanonicalIntIsIntToString | js/dataUtils.js:16 | Any canonical text that `parseInt` reads as n is the rendering of n, so the rendering is the only such text. |
| JsValues.NatToStringOfDigits | js/dataUtils.js:16 | Canonical digits are the rendering of their own value. |
| JsValues.RenderCanonicalValue | js/dataUtils.js:16 | Every canonical text is the rendering of the integer it writes. |
| JsValues.NatToStringLength | js/dataUtils.js:15-16 | A positive number with k digits lies in [10^(k-1), 10^k), which fixes the exponent of its exponent notation. |
| DataUtils.CompletedProjects | js/dataUtils.js:20-22 | The count never exceeds the number of progress entries and is 0 for none. |
| DataUtils.CompletedProjectsCountsPassed | js/dataUtils.js:20-22 | The count is the number of positions whose grade is present and above zero (`Passed`, the `p.grade > 0` filter). |
| DataUtils.CompletedProjectsAll | js/dataUtils.js:21 | The count equals the list length exactly when every grade is above zero. |
| DataUtils.CompletedProjectsNone | js/dataUtils.js:21 | The count is zero exactly when no grade is above zero. |
| DataUtils.CompletedProjectsConcat | js/dataUtils.js:21 | The count of a concatenation is the sum of the counts of its parts. |
| DataUtils.AuditRatio | js/dataUtils.js:24-27 | The literal "0.000" comes back exactly when audits received is zero. Otherwise the value, kept to 3 places, times audits received is audits done. |
| DataUtils.AuditActivityRatio | js/dataUtils.js:29-32 | The literal "0.00" comes back exactly when audits received is zero. Otherwise the 2-place value times audits received times the average auditor count equals audits done times the average group size. |
| DataUtils.ActivityRatioScalesAuditRatio | js/dataUtils.js:24-32 | The activity ratio is the audit ratio scaled by average group size over average auditor count. |
| XpSeries.Series | js/graphs.js:106-131 | The series has one point more than there are plotted transactions. It starts with a `Start` point of total 0 at the first input record's instant, or at now for an empty input. Every later point tracks the plotted transactions in chart order. |
| XpSeries.SeriesSteps | js/graphs.js:122-131 | Each point after the start has its transaction's instant and name, and the previous total plus its amount. |
| XpSeries.SeriesLength | js/graphs.js:122-124 | There is one point per transaction with a non-zero numeric amount, plus the start (`Plotted`, the negation of the `!tx.amount \|\| typeof tx.amount !== 'number'` skip). Zero, missing and string amounts add nothing. |
| XpSeries.SortByCreatedAt | js/graphs.js:118-120 | The chart order is a permutation of the input with instants ascending. |
| XpSeries.StableOrder | js/graphs.js:118-120 | The tagged order is a permutation of the tagged input, strictly ordered by instant and then input position, so ties keep input order. |
| XpSeries.StrictOrderIsUnique | js/graphs.js:118-120 | Two permutations of each other that are both ordered by instant and then position are equal, so the stable order is the only one. |
| XpSeries.SeriesDatesAscend | js/graphs.js:118-131 | The points after the start appear in ascending instant order, whatever the input order. |
| XpSeries.SeriesNamesHaveNoSlash | js/graphs.js:129 | No point name contains '/'. |
| XpSeries.PointName | js/graphs.js:129 | A missing or empty path names the point "XP gain"; otherwise the name is the text after the path's last '/', which contains no '/'. |
| XpSeries.LastSegment | js/graphs.js:129 | The last segment is a suffix of the path without '/', preceded by '/' when it is not the whole path. |
| XpSeries.LastSegmentOfJoin | js/graphs.js:129 | Joining any prefix and a slash-free segment with '/' gives back that segment. |
| XpSeries.SeriesEndsAtPlottedTotal | js/graphs.js:125-128 | The last point's total is the sum of the plotted amounts, taken in input order. |
| XpSeries.PlottedTotalIsTotalXp | js/graphs.js:123-125 | When every amount is a number, the chart's final total equals the summary's total XP. |
| XpSeries.SeriesNonDecreasing | js/graphs.js:125-128 | With no negative amount, totals never decrease along the series. |
| XpSeries.PlottedHasPoint | js/graphs.js:118-131 | Every input transaction with a non-zero numeric amount has a point after the start with its instant and its name. |
| XpSeries.EarlierRecordPrecedesStart | js/graphs.js:110-131 | When a plotted record is earlier than the first input record, some point after the start has an instant before the start's. |
| XpSeries.SeriesWithinEnds | js/graphs.js:110-135 | When the first input record is the earliest, every point's instant lies between the start's and the last point's. |
| XpSeries.Accumulate | js/graphs.js:122-131 | The forEach pushes at most one point per transaction, and none when no transaction is plotted. |
| XpSeries.StartDate | js/graphs.js:112 | The start instant is the first input record's instant, and now for an empty input, whatever the other records' instants. |
| XpSeries.AccumulateTracksPlotted | js/graphs.js:122-131 | Running through a list, each point takes the next plotted transaction's instant and name and the previous total plus its amount; unplotted transactions add no point. |
| XpSeries.AccumulateEndsAtSum | js/graphs.js:125-128 | After at least one plotted transaction, the last running total is the starting total plus the sum of the plotted amounts. |
| LineChart.MaxXp | js/graphs.js:136 | The maximum is the total of some point and at least the total of every point. |
| LineChart.ChartDomain | js/graphs.js:134-136 | The domain runs from the first point's instant to the last point's instant. Its maximum is the total of some point and is at least the total of every point. |
| LineChart.XScale | js/graphs.js:138-139 | The offset from the left padding, times the instant span, equals the instant's offset from the first instant times the 660-unit plot width. |
| LineChart.XScaleEnds | js/graphs.js:138-139 | The first instant maps to 100 and the last to 760. |
| LineChart.XScaleIncreasing | js/graphs.js:138-139 | When the first instant precedes the last, later instants map strictly further right. |
| LineChart.XScaleRoundTrip | js/graphs.js:138-139 | The horizontal position determines the instant it was computed from. |
| LineChart.YScale | js/graphs.js:141-142 | The height above the x axis at 360, times the maximum, equals the total times the 320-unit plot height. |
| LineChart.YScaleEnds | js/graphs.js:141-142 | A total of 0 maps to 360 and the maximum maps to 40. |
| LineChart.YScaleDecreasing | js/graphs.js:141-142 | With a positive maximum, a higher total maps strictly higher on the drawing. |
| LineChart.GridLineY | js/graphs.js:210-213 | Grid lines lie inside the plot height: the first on the top edge at 40, the last on the x axis at 360. |
| LineChart.GridLineOnScale | js/graphs.js:210-213 | Grid line i sits exactly where the y scale puts the total (5 - i)/5 of the maximum, which its label rounds. |
| LineChart.SeriesInsidePlot | js/graphs.js:110-142 | When the first input record is the earliest and no amount is negative, every point lies in the rectangle [100, 760] x [40, 360]. |
| LineChart.UnsortedInputLeavesPlot | js/graphs.js:110-139 | When a plotted record is earlier than the first input record and the last point is later than the start, some point maps left of the y axis at 100. |
| SkillsChart.BarWidth | js/graphs.js:304-307 | The bar width is positive, at most 50, at most 0.8 of the column, and equal to one of the two. |
| SkillsChart.BarGap | js/graphs.js:308 | The gap is a fifth of the column and positive, and a bar with its gap fits in the column. |
| SkillsChart.SkillY | js/graphs.js:310 | The distance from the baseline at 310 to a bar's top, times 100, is the percentage times 270. |
| SkillsChart.SkillYRoundTrip | js/graphs.js:310 | The top edge determines the percentage it was computed from. |
| SkillsChart.BarAt | js/graphs.js:335-338 | A bar stands on the baseline at 310 with a height of its percentage of 270, has the common bar width, and starts right of the left padding at 70. |
| SkillsChart.BackgroundAt | js/graphs.js:335-345 | The background column spans from 40 to the baseline and shares its bar's left edge and width, whatever the percentage. |
| SkillsChart.SkillBars | js/graphs.js:335-353 | There is one bar per skill, all of the common width, all standing on the baseline, with left edges strictly increasing. |
| SkillsChart.ColumnsLeftToRight | js/graphs.js:336 | Column i ends strictly before any later column starts, whatever the two percentages. |
| SkillsChart.SkillsChart | js/graphs.js:272-302 | A missing skills field draws nothing; a list, including an empty one, draws one bar per skill. |
| SkillsChart.BarsStandOnBaseline | js/graphs.js:297-338 | Every bar's top plus its height is 310, and its height is its percentage of 270. |
| SkillsChart.BarsFitColumns | js/graphs.js:304-308 | Every bar is at most 50 wide, and a bar with its gap fits in 690/n. |
| SkillsChart.BarsLeftToRight | js/graphs.js:336 | Each bar ends strictly before any later bar starts, so left edges strictly increase and bars never overlap. |
| SkillsChart.LastBarInsidePlot | js/graphs.js:304-336 | The last bar ends before the plot's right edge at 760. |
| SkillsChart.BarInsideBackground | js/graphs.js:335-353 | For a percentage from 0 to 100, the bar shares its background column's left edge and width. It lies between the column's top at 40 and the baseline. |
| SkillsChart.GridLineY | js/graphs.js:312-313 | Grid lines lie between the top at 40 and the baseline at 310, the first at the top and the last on the baseline. |
| SkillsChart.GridLabel | js/graphs.js:312-314 | Labels are multiples of 20 from 100 for the top line down to 0 for the baseline. |
| SkillsChart.GridLineOnScale | js/graphs.js:312-314 | Grid line i sits exactly at the top of a bar of its labelled percentage 100 - 20i. |
| LoginFlow.CheckFields | js/loginFlow.js:21-23 | The form refuses with "Please fill in all fields" exactly when a field is empty. Otherwise it signs in with both fields unchanged. |
| LoginFlow.BlankFieldsAreNotEmpty | js/loginFlow.js:21 | A username of spaces alone still goes on to sign in. |
| LoginFlow.ReplaceFrom | js/loginFlow.js:45 | Scanning the global replace of `^"\|"$` from position p removes at most two characters from index 0 on and at most one past it. |
| LoginFlow.ReplaceFromPastStart | js/loginFlow.js:45 | Past index 0 the scan keeps every character except a final `"`, which it removes. |
| LoginFlow.CleanTokenIsRegexReplace | js/loginFlow.js:45 | Removing one leading quote, then one trailing quote of the rest, is exactly what a global replace of `^"\|"$` leaves. |
| LoginFlow.CleanToken | js/loginFlow.js:45 | The result is a contiguous piece of the token that starts after a leading quote, if any, and loses at most its last character. |
| LoginFlow.CleanTokenKeepsUnquoted | js/loginFlow.js:45 | A token with no quote at either end is returned unchanged. |
| LoginFlow.CleanTokenStripsQuotes | js/loginFlow.js:45 | A token of length at least 2 quoted at both ends becomes exactly its inner text, inner quotes included. |
| LoginFlow.CleanTokenUnquotes | js/loginFlow.js:45 | Quoting any text and cleaning it gives the text back. |
| LoginFlow.CleanTokenOfQuotesOnly | js/loginFlow.js:45 | A lone `"` and the token `""` both clean to the empty string. |
| LoginFlow.CleanTokenNotIdempotent | js/loginFlow.js:45 | Doubled quotes lose only one pair per cleaning, so cleaning twice can differ from cleaning once. |

## Left out

- Network and GraphQL I/O: the user query, the sign-in request, the
  failed-response message (`js/loginFlow.js:29-41`), and
  `fetchUserData`. These are effects with no arithmetic.
- Base64 encoding of the credentials with `btoa`, which is a foreign call.
- DOM and SVG element creation, tooltips, touch handlers, panel toggling,
  and the `localStorage` token lifecycle.
- The digits of `toFixed`, of `Math.round(... / 1000)` grid labels and
  x-axis tick instants, and of `toLocaleDateString`. These are binary
  floating point rounding and locale formatting.
- The x-axis tick positions of the line chart, which divide by
  `Math.min(points.length - 1, 5)`, zero for a lone start point.
- Floating point in general. Amounts are integers, and chart coordinates are
  exact reals. `parseInt` of a digit run longer than a double can hold, and
  non-integer or NaN amounts, are not modelled.
- XpSeries.StartDate: an empty or missing `createdAt` of the first record,
  which falls back to now, is not modelled; instants are integers.
- XpSeries.SortByCreatedAt: instants that do not parse as dates make the
  comparator return NaN; the model assumes every instant is a number.
- DataUtils.FormatXp: the digits of the exponent notation that `toString`
  uses for totals at or below -10^21 are not modelled; the label carries the
  mantissa and the power of ten instead. Totals from 10^21 upwards take the M
  branch, whose `toFixed` digits are not modelled either.
- DataUtils.AuditActivityRatio: requires both averages to be non-zero. The
  source would divide by zero there. No call of the function appears in
  the modelled code; its defaults are 4.93 and 2.36.
- DataUtils.AuditRatio: `!totalDown` is also true for NaN, `null` and
  `undefined`; the model's totals are numbers, so only 0 takes the guard.
- Totals of `updateUserInterface` (`js/userData.js:106-117`), which repeat
  the summary arithmetic without its guards and mix it with DOM writes.
- `createAuditGraph`, which is imported but defined nowhere.
- The highest amount per skill, which the chart does not compute: it only
  copies each skill's name and amount.
