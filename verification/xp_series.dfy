/**
  The data behind the XP-over-time line chart: a synthetic "Start" point,
  then one point per transaction with a non-zero numeric amount, taken in
  a stable ascending order of `createdAt` and carrying the running total.
 */
module XpSeries {
  import opened JsValues
  import opened Records
  import Folds
  import DataUtils

  /** A point of the line: its instant, the XP total reached, and its label. */
  datatype Point = Point(date: int, xp: int, name: string)

  /** `s.split('/').pop()`: the text after the last '/', or all of `s` when it has none. */
  function LastSegment(s: string): (r: string)
    ensures '/' !in r
    ensures |r| <= |s| && r == s[|s| - |r|..]
    ensures |r| < |s| ==> s[|s| - |r| - 1] == '/'
  {
    if |s| == 0 || s[|s| - 1] == '/' then ""
    else
      var init := s[..|s| - 1];
      var r := LastSegment(init) + [s[|s| - 1]];
      assert init[|init| - |LastSegment(init)|..] + [s[|s| - 1]] == s[|s| - |r|..];
      r
  }

  /** The last segment of a path joined with '/' is the segment itself. */
  lemma {:induction false} LastSegmentOfJoin(prefix: string, segment: string)
    requires '/' !in segment
    ensures LastSegment(prefix + "/" + segment) == segment
    decreases |segment|
  {
    var s := prefix + "/" + segment;
    if |segment| == 0 {
      assert s[|s| - 1] == '/';
    } else {
      var init := segment[..|segment| - 1];
      assert segment == init + [segment[|segment| - 1]];
      assert s[..|s| - 1] == prefix + "/" + init;
      LastSegmentOfJoin(prefix, init);
    }
  }

  /** `tx.path ? tx.path.split('/').pop() : 'XP gain'` */
  function PointName(path: Option<string>): (r: string)
    ensures '/' !in r
    ensures path.None? || path == Some("") ==> r == "XP gain"
    ensures path.Some? && path.value != "" ==> r == LastSegment(path.value)
  {
    if path.None? || path.value == "" then "XP gain" else LastSegment(path.value)
  }

  /** A transaction with its position in the input list. */
  datatype Tagged = Tagged(tx: Transaction, index: nat)

  /** The order a stable sort on `createdAt` puts two tagged transactions in. */
  predicate Before(a: Tagged, b: Tagged)
  {
    a.tx.createdAt < b.tx.createdAt || (a.tx.createdAt == b.tx.createdAt && a.index < b.index)
  }

  predicate StrictlyOrdered(s: seq<Tagged>)
  {
    forall i, j :: 0 <= i < j < |s| ==> Before(s[i], s[j])
  }

  /** `xs` tagged with the positions `from`, `from + 1`, ... */
  function Tag(xs: seq<Transaction>, from: nat): (r: seq<Tagged>)
    ensures |r| == |xs|
    ensures forall i :: 0 <= i < |xs| ==> r[i] == Tagged(xs[i], from + i)
  {
    if |xs| == 0 then [] else [Tagged(xs[0], from)] + Tag(xs[1..], from + 1)
  }

  function TxOf(t: Tagged): Transaction
  {
    t.tx
  }

  /** Insert `x` before the first entry whose `createdAt` is not earlier than its own. */
  function Insert(x: Tagged, s: seq<Tagged>): (r: seq<Tagged>)
    ensures multiset(r) == multiset(s) + multiset{x}
  {
    if |s| == 0 || x.tx.createdAt <= s[0].tx.createdAt then [x] + s
    else
      assert s == [s[0]] + s[1..];
      [s[0]] + Insert(x, s[1..])
  }

  /** Inserting an entry that came earlier in the input than all others keeps the order strict. */
  lemma {:induction false} InsertOrdered(x: Tagged, s: seq<Tagged>)
    requires StrictlyOrdered(s)
    requires forall i :: 0 <= i < |s| ==> x.index < s[i].index
    ensures StrictlyOrdered(Insert(x, s))
    decreases |s|
  {
    if |s| == 0 || x.tx.createdAt <= s[0].tx.createdAt {
      forall k | 0 <= k < |s| ensures Before(x, s[k]) {
        if k > 0 {
          assert Before(s[0], s[k]);
        }
      }
      OrderedCons(x, s);
    } else {
      InsertOrdered(x, s[1..]);
      TailOrdered(s);
      var tail := Insert(x, s[1..]);
      forall k | 0 <= k < |tail| ensures Before(s[0], tail[k]) {
        assert tail[k] in multiset(tail);
        if tail[k] != x {
          assert tail[k] in multiset(s[1..]);
          var m :| 0 <= m < |s[1..]| && s[1..][m] == tail[k];
          assert Before(s[0], s[m + 1]);
        }
      }
      OrderedCons(s[0], tail);
    }
  }

  /** An entry that comes before every entry of a strictly ordered list can be put in front of it. */
  lemma OrderedCons(x: Tagged, s: seq<Tagged>)
    requires StrictlyOrdered(s)
    requires forall k :: 0 <= k < |s| ==> Before(x, s[k])
    ensures StrictlyOrdered([x] + s)
  {
    var r := [x] + s;
    forall i, j | 0 <= i < j < |r| ensures Before(r[i], r[j]) {
      assert r[j] == s[j - 1];
      if i > 0 {
        assert r[i] == s[i - 1];
      }
    }
  }

  /** Insertion sort: each entry is inserted into the sorted rest of the list. */
  function SortTagged(s: seq<Tagged>): (r: seq<Tagged>)
    ensures multiset(r) == multiset(s)
  {
    if |s| == 0 then []
    else
      assert s == [s[0]] + s[1..];
      Insert(s[0], SortTagged(s[1..]))
  }

  lemma {:induction false} SortTaggedOrdered(s: seq<Tagged>)
    requires forall i, j :: 0 <= i < j < |s| ==> s[i].index < s[j].index
    ensures StrictlyOrdered(SortTagged(s))
    decreases |s|
  {
    if |s| > 0 {
      SortTaggedOrdered(s[1..]);
      var rest := SortTagged(s[1..]);
      forall k | 0 <= k < |rest| ensures s[0].index < rest[k].index {
        assert rest[k] in multiset(s[1..]);
        var m :| 0 <= m < |s[1..]| && s[1..][m] == rest[k];
        assert s[m + 1] == rest[k];
      }
      InsertOrdered(s[0], rest);
    }
  }

  /**
    `[...xs].sort((a, b) => new Date(a.createdAt) - new Date(b.createdAt))`,
    each entry tagged with its input position: ascending `createdAt`, and
    input order among equal instants (the sort is stable).
   */
  function StableOrder(xs: seq<Transaction>): (r: seq<Tagged>)
    ensures multiset(r) == multiset(Tag(xs, 0))
    ensures StrictlyOrdered(r)
  {
    SortTaggedOrdered(Tag(xs, 0));
    SortTagged(Tag(xs, 0))
  }

  /** The head of a strictly ordered list comes before every other entry of it. */
  lemma FirstComesFirst(a: seq<Tagged>, y: Tagged)
    requires StrictlyOrdered(a)
    requires y in multiset(a) && y != a[0]
    ensures Before(a[0], y)
  {
    var k :| 0 <= k < |a| && a[k] == y;
    assert k > 0;
  }

  lemma TailOrdered(a: seq<Tagged>)
    requires StrictlyOrdered(a) && |a| > 0
    ensures StrictlyOrdered(a[1..])
  {
    assert forall i :: 0 <= i < |a| - 1 ==> a[1..][i] == a[i + 1];
  }

  /**
    Only one order is strict and a permutation of a given list, so any
    stable sort of the input, the browser's included, returns exactly
    `StableOrder`.
   */
  lemma {:induction false} StrictOrderIsUnique(a: seq<Tagged>, b: seq<Tagged>)
    requires multiset(a) == multiset(b)
    requires StrictlyOrdered(a) && StrictlyOrdered(b)
    ensures a == b
    decreases |a|
  {
    assert |b| == |multiset(b)| == |a|;
    if |a| > 0 {
      HeadsAgree(a, b);
      TailsPermuted(a, b);
      TailOrdered(a);
      TailOrdered(b);
      StrictOrderIsUnique(a[1..], b[1..]);
      assert a == [a[0]] + a[1..] && b == [b[0]] + b[1..];
    }
  }

  /** Two strictly ordered permutations of each other start with the same entry. */
  lemma HeadsAgree(a: seq<Tagged>, b: seq<Tagged>)
    requires multiset(a) == multiset(b) && |a| > 0
    requires StrictlyOrdered(a) && StrictlyOrdered(b)
    ensures |b| > 0 && a[0] == b[0]
  {
    assert a[0] in multiset(b);
    assert |b| > 0;
    assert b[0] in multiset(a);
    if a[0] != b[0] {
      FirstComesFirst(a, b[0]);
      FirstComesFirst(b, a[0]);
      assert false;
    }
  }

  /** Taking the same first entry off two permutations of each other leaves permutations. */
  lemma TailsPermuted(a: seq<Tagged>, b: seq<Tagged>)
    requires multiset(a) == multiset(b) && |a| > 0 && |b| > 0 && a[0] == b[0]
    ensures multiset(a[1..]) == multiset(b[1..])
  {
    assert a == [a[0]] + a[1..] && b == [b[0]] + b[1..];
    assert multiset(a[1..]) == multiset(a) - multiset{a[0]};
    assert multiset(b[1..]) == multiset(b) - multiset{b[0]};
  }

  /** Instants never decrease along `s`. */
  predicate DatesAscend(s: seq<Transaction>)
  {
    forall i, j :: 0 <= i < j < |s| ==> s[i].createdAt <= s[j].createdAt
  }

  /** The transactions in chart order. */
  function SortByCreatedAt(xs: seq<Transaction>): (r: seq<Transaction>)
    ensures |r| == |xs|
    ensures multiset(r) == multiset(xs)
    ensures DatesAscend(r)
  {
    var order := StableOrder(xs);
    assert |order| == |multiset(order)| == |multiset(Tag(xs, 0))| == |xs|;
    Folds.MapPermutation(order, Tag(xs, 0), TxOf);
    assert Folds.MapSeq(Tag(xs, 0), TxOf) == xs;
    assert forall i, j :: 0 <= i < j < |order| ==> Before(order[i], order[j]);
    Folds.MapSeq(order, TxOf)
  }

  /** A transaction the chart plots: its amount is a number other than zero. */
  predicate Plotted(t: Transaction)
  {
    t.amount.Num? && t.amount.n != 0
  }

  /** The numeric amount of a transaction, 0 when it has none. */
  function Gain(t: Transaction): int
  {
    if t.amount.Num? then t.amount.n else 0
  }

  /** The XP the chart adds up: the plotted amounts, in input order. */
  function PlottedTotal(xs: seq<Transaction>): int
  {
    Folds.Sum(Folds.Filter(xs, Plotted), Gain)
  }

  /**
    The `forEach` over the sorted transactions: skip the unplotted ones,
    add each plotted amount to the running total and push a point for it.
   */
  function Accumulate(sorted: seq<Transaction>, running: int): (r: seq<Point>)
    ensures |r| <= |sorted|
    ensures (forall k :: 0 <= k < |sorted| ==> !Plotted(sorted[k])) ==> r == []
  {
    if |sorted| == 0 then []
    else
      var t := sorted[0];
      if !Plotted(t) then Accumulate(sorted[1..], running)
      else
        var total := running + t.amount.n;
        [Point(t.createdAt, total, PointName(t.path))] + Accumulate(sorted[1..], total)
  }

  /** The point of transaction `t` when the total before it is `before`. */
  predicate PointOf(p: Point, t: Transaction, before: int)
  {
    p.date == t.createdAt && p.name == PointName(t.path) && p.xp == before + Gain(t)
  }

  /** One point per plotted transaction, each adding its amount to the total before it. */
  predicate Tracks(points: seq<Point>, plotted: seq<Transaction>, running: int)
  {
    && |points| == |plotted|
    && (|points| > 0 ==> PointOf(points[0], plotted[0], running))
    && forall i :: 1 <= i < |points| ==> PointOf(points[i], plotted[i], points[i - 1].xp)
  }

  /** The points `Accumulate` pushes track exactly the plotted transactions, in order. */
  lemma {:induction false} AccumulateTracksPlotted(sorted: seq<Transaction>, running: int)
    ensures Tracks(Accumulate(sorted, running), Folds.Filter(sorted, Plotted), running)
    decreases |sorted|
  {
    if |sorted| > 0 {
      var t := sorted[0];
      if !Plotted(t) {
        AccumulateTracksPlotted(sorted[1..], running);
      } else {
        var total := running + t.amount.n;
        AccumulateTracksPlotted(sorted[1..], total);
        var rest := Accumulate(sorted[1..], total);
        var f := Folds.Filter(sorted[1..], Plotted);
        var r := Accumulate(sorted, running);
        var g := Folds.Filter(sorted, Plotted);
        assert r == [Point(t.createdAt, total, PointName(t.path))] + rest;
        assert g == [t] + f;
        assert PointOf(r[0], g[0], running);
        forall i | 1 <= i < |r| ensures PointOf(r[i], g[i], r[i - 1].xp) {
          assert r[i] == rest[i - 1] && g[i] == f[i - 1];
          if i > 1 {
            assert r[i - 1] == rest[i - 2];
          }
        }
      }
    }
  }

  /** One point is pushed per plotted transaction. */
  lemma {:induction false} AccumulateLength(sorted: seq<Transaction>, running: int)
    ensures |Accumulate(sorted, running)| == |Folds.Filter(sorted, Plotted)|
    decreases |sorted|
  {
    if |sorted| > 0 {
      AccumulateLength(sorted[1..], running + Gain(sorted[0]));
      AccumulateLength(sorted[1..], running);
    }
  }

  /** The last pushed point reaches the running total plus every plotted amount. */
  lemma {:induction false} AccumulateEndsAtSum(sorted: seq<Transaction>, running: int)
    requires |Folds.Filter(sorted, Plotted)| > 0
    ensures |Accumulate(sorted, running)| > 0
    ensures Accumulate(sorted, running)[|Accumulate(sorted, running)| - 1].xp
         == running + Folds.Sum(Folds.Filter(sorted, Plotted), Gain)
    decreases |sorted|, 1
  {
    if !Plotted(sorted[0]) {
      UnplottedHead(sorted, running);
      AccumulateEndsAtSum(sorted[1..], running);
    } else {
      EndsAfterPlottedHead(sorted, running);
    }
  }

  lemma {:induction false} EndsAfterPlottedHead(sorted: seq<Transaction>, running: int)
    requires |sorted| > 0 && Plotted(sorted[0])
    ensures |Accumulate(sorted, running)| > 0
    ensures Accumulate(sorted, running)[|Accumulate(sorted, running)| - 1].xp
         == running + Folds.Sum(Folds.Filter(sorted, Plotted), Gain)
    decreases |sorted|, 0
  {
    var total := running + Gain(sorted[0]);
    PlottedHead(sorted, running);
    if |Folds.Filter(sorted[1..], Plotted)| > 0 {
      AccumulateEndsAtSum(sorted[1..], total);
      LastOfCons(Accumulate(sorted, running), Accumulate(sorted[1..], total));
    } else {
      AccumulateLength(sorted[1..], total);
    }
  }

  /** An unplotted first transaction pushes nothing and adds nothing to the plotted list. */
  lemma UnplottedHead(sorted: seq<Transaction>, running: int)
    requires |sorted| > 0 && !Plotted(sorted[0])
    ensures Accumulate(sorted, running) == Accumulate(sorted[1..], running)
    ensures Folds.Filter(sorted, Plotted) == Folds.Filter(sorted[1..], Plotted)
  {
  }

  /** A plotted first transaction pushes the first point and adds the first plotted amount. */
  lemma PlottedHead(sorted: seq<Transaction>, running: int)
    requires |sorted| > 0 && Plotted(sorted[0])
    ensures var t, total := sorted[0], running + Gain(sorted[0]);
      && Accumulate(sorted, running) == [Point(t.createdAt, total, PointName(t.path))] + Accumulate(sorted[1..], total)
      && Folds.Sum(Folds.Filter(sorted, Plotted), Gain) == Gain(t) + Folds.Sum(Folds.Filter(sorted[1..], Plotted), Gain)
  {
    var t := sorted[0];
    var f := Folds.Filter(sorted[1..], Plotted);
    assert Folds.Filter(sorted, Plotted) == [t] + f;
    assert ([t] + f)[1..] == f;
  }

  /** A list that is one point followed by a non-empty list ends where that list ends. */
  lemma LastOfCons(r: seq<Point>, rest: seq<Point>)
    requires |rest| > 0 && |r| == |rest| + 1 && r[1..] == rest
    ensures r[|r| - 1] == rest[|rest| - 1]
  {
    assert r[|r| - 1] == r[1..][|rest| - 1];
  }

  /** `new Date(xpData[0]?.createdAt || Date.now())`: the first input record's instant, or now. */
  function StartDate(xs: seq<Transaction>, now: int): (d: int)
    ensures |xs| == 0 ==> d == now
    ensures |xs| > 0 ==> d == xs[0].createdAt
  {
    if |xs| > 0 then xs[0].createdAt else now
  }

  /** The plotted transactions in the order their points appear. */
  function PlottedInOrder(xs: seq<Transaction>): seq<Transaction>
  {
    Folds.Filter(SortByCreatedAt(xs), Plotted)
  }

  /** The points of the XP line, `now` standing for `Date.now()`. */
  function Series(xs: seq<Transaction>, now: int): (r: seq<Point>)
    ensures |r| == 1 + |PlottedInOrder(xs)|
    ensures r[0] == Point(if |xs| > 0 then xs[0].createdAt else now, 0, "Start")
    ensures Tracks(r[1..], PlottedInOrder(xs), 0)
  {
    var rest := Accumulate(SortByCreatedAt(xs), 0);
    AccumulateTracksPlotted(SortByCreatedAt(xs), 0);
    var r := [Point(StartDate(xs, now), 0, "Start")] + rest;
    assert r[1..] == rest;
    r
  }

  /** Each point after the start adds the amount of its transaction to the point before. */
  lemma SeriesSteps(xs: seq<Transaction>, now: int)
    ensures var r := Series(xs, now);
      forall i :: 1 <= i < |r| ==> PointOf(r[i], PlottedInOrder(xs)[i - 1], r[i - 1].xp)
  {
    var r := Series(xs, now);
    var f := PlottedInOrder(xs);
    assert Tracks(r[1..], f, 0);
    forall i | 1 <= i < |r| ensures PointOf(r[i], f[i - 1], r[i - 1].xp) {
      assert r[i] == r[1..][i - 1];
      if i > 1 {
        assert r[i - 1] == r[1..][i - 2];
      }
    }
  }

  /** One point per transaction with a non-zero numeric amount, whatever the order. */
  lemma SeriesLength(xs: seq<Transaction>, now: int)
    ensures |Series(xs, now)| == 1 + |Folds.Filter(xs, Plotted)|
  {
    Folds.FilterPermutation(SortByCreatedAt(xs), xs, Plotted);
  }

  lemma {:induction false} FilterKeepsDateOrder(s: seq<Transaction>)
    requires DatesAscend(s)
    ensures DatesAscend(Folds.Filter(s, Plotted))
    decreases |s|
  {
    if |s| > 0 {
      assert DatesAscend(s[1..]) by {
        assert forall i :: 0 <= i < |s| - 1 ==> s[1..][i] == s[i + 1];
      }
      FilterKeepsDateOrder(s[1..]);
      var rest := Folds.Filter(s[1..], Plotted);
      if Plotted(s[0]) {
        forall k | 0 <= k < |rest| ensures s[0].createdAt <= rest[k].createdAt {
          var m :| 0 <= m < |s[1..]| && s[1..][m] == rest[k];
          assert s[m + 1] == rest[k];
        }
        DatesAscendCons(s[0], rest);
      }
    }
  }

  /** A transaction no later than every transaction of an ascending list can be put in front of it. */
  lemma DatesAscendCons(x: Transaction, s: seq<Transaction>)
    requires DatesAscend(s)
    requires forall k :: 0 <= k < |s| ==> x.createdAt <= s[k].createdAt
    ensures DatesAscend([x] + s)
  {
    var f := [x] + s;
    forall i, j | 0 <= i < j < |f| ensures f[i].createdAt <= f[j].createdAt {
      assert f[j] == s[j - 1];
      if i > 0 {
        assert f[i] == s[i - 1];
      }
    }
  }

  /** Every point after the start is no earlier than any point before it but the start. */
  lemma SeriesDatesAscend(xs: seq<Transaction>, now: int)
    ensures DatesAscend(PlottedInOrder(xs))
    ensures var r := Series(xs, now);
      forall i, j :: 1 <= i < j < |r| ==> r[i].date <= r[j].date
  {
    FilterKeepsDateOrder(SortByCreatedAt(xs));
    var r := Series(xs, now);
    var f := PlottedInOrder(xs);
    SeriesSteps(xs, now);
    forall i, j | 1 <= i < j < |r| ensures r[i].date <= r[j].date {
      var ti, tj := f[i - 1], f[j - 1];
      assert PointOf(r[i], ti, r[i - 1].xp);
      assert PointOf(r[j], tj, r[j - 1].xp);
      assert ti.createdAt <= tj.createdAt;
    }
  }

  /**
    When the first input record is the earliest, every point lies between
    the start and the last point in time.
   */
  lemma SeriesWithinEnds(xs: seq<Transaction>, now: int)
    requires forall k :: 0 <= k < |xs| ==> xs[0].createdAt <= xs[k].createdAt
    ensures var r := Series(xs, now);
      forall i :: 0 <= i < |r| ==> r[0].date <= r[i].date <= r[|r| - 1].date
  {
    var r := Series(xs, now);
    var f := PlottedInOrder(xs);
    SeriesSteps(xs, now);
    SeriesDatesAscend(xs, now);
    forall i | 1 <= i < |r| ensures r[0].date <= r[i].date {
      assert PointOf(r[i], f[i - 1], r[i - 1].xp);
      assert f[i - 1] in SortByCreatedAt(xs);
      assert f[i - 1] in multiset(xs);
      var k :| 0 <= k < |xs| && xs[k] == f[i - 1];
    }
    forall i | 0 <= i < |r| ensures r[i].date <= r[|r| - 1].date {
      if 1 <= i < |r| - 1 {
        assert r[i].date <= r[|r| - 1].date;
      } else if i == 0 && |r| > 1 {
        assert r[0].date <= r[|r| - 1].date;
      }
    }
  }

  /** No point name contains '/'. */
  lemma SeriesNamesHaveNoSlash(xs: seq<Transaction>, now: int)
    ensures var r := Series(xs, now);
      forall i :: 0 <= i < |r| ==> '/' !in r[i].name
  {
    var r := Series(xs, now);
    var f := PlottedInOrder(xs);
    SeriesSteps(xs, now);
    assert '/' !in r[0].name by {
      assert r[0].name == "Start";
    }
    forall i | 1 <= i < |r| ensures '/' !in r[i].name {
      assert PointOf(r[i], f[i - 1], r[i - 1].xp);
      var name := PointName(f[i - 1].path);
      assert r[i].name == name;
    }
  }

  /** The last point reaches the sum of the plotted amounts, taken in input order. */
  lemma SeriesEndsAtPlottedTotal(xs: seq<Transaction>, now: int)
    ensures var r := Series(xs, now);
      r[|r| - 1].xp == PlottedTotal(xs)
  {
    var sorted := SortByCreatedAt(xs);
    var r := Series(xs, now);
    AccumulateTracksPlotted(sorted, 0);
    Folds.FilterPermutation(sorted, xs, Plotted);
    Folds.SumPermutation(Folds.Filter(sorted, Plotted), Folds.Filter(xs, Plotted), Gain);
    assert r[1..] == Accumulate(sorted, 0);
    if |r| == 1 {
      assert |Folds.Filter(xs, Plotted)| == 0;
    } else {
      AccumulateEndsAtSum(sorted, 0);
    }
  }

  /** When every amount is a number, the plotted total is the displayed total XP. */
  lemma {:induction false} PlottedTotalIsTotalXp(xs: seq<Transaction>)
    requires forall i :: 0 <= i < |xs| ==> xs[i].amount.Num?
    ensures PlottedTotal(xs) == DataUtils.TotalXp(xs)
    decreases |xs|
  {
    if |xs| > 0 {
      PlottedTotalIsTotalXp(xs[1..]);
    }
  }

  lemma {:induction false} StepsGiveOrder(r: seq<Point>)
    requires forall i :: 1 <= i < |r| ==> r[i - 1].xp <= r[i].xp
    ensures forall i, j :: 0 <= i <= j < |r| ==> r[i].xp <= r[j].xp
    decreases |r|
  {
    if |r| > 1 {
      var init := r[..|r| - 1];
      assert forall i :: 0 <= i < |init| ==> init[i] == r[i];
      StepsGiveOrder(init);
      forall i, j | 0 <= i <= j < |r| ensures r[i].xp <= r[j].xp {
        if j == |r| - 1 && i < j {
          assert init[i].xp <= init[|init| - 1].xp;
        } else if j < |r| - 1 {
          assert init[i].xp <= init[j].xp;
        }
      }
    }
  }

  /** With no negative amount, the XP line never goes down. */
  lemma SeriesNonDecreasing(xs: seq<Transaction>, now: int)
    requires forall i :: 0 <= i < |xs| ==> Gain(xs[i]) >= 0
    ensures var r := Series(xs, now);
      forall i, j :: 0 <= i <= j < |r| ==> r[i].xp <= r[j].xp
  {
    var r := Series(xs, now);
    var sorted := SortByCreatedAt(xs);
    var f := PlottedInOrder(xs);
    SeriesSteps(xs, now);
    forall i | 1 <= i < |r| ensures r[i - 1].xp <= r[i].xp {
      assert f[i - 1] in sorted;
      assert f[i - 1] in multiset(xs);
      var m :| 0 <= m < |xs| && xs[m] == f[i - 1];
      assert Gain(xs[m]) >= 0;
    }
    StepsGiveOrder(r);
  }

  /** Every plotted transaction of the input has a point after the start, with its instant and name. */
  lemma PlottedHasPoint(xs: seq<Transaction>, now: int, t: Transaction)
    requires t in xs && Plotted(t)
    ensures var r := Series(xs, now);
      exists k :: 1 <= k < |r| && r[k].date == t.createdAt && r[k].name == PointName(t.path)
  {
    var r := Series(xs, now);
    var sorted := SortByCreatedAt(xs);
    var f := PlottedInOrder(xs);
    assert t in multiset(xs);
    assert t in sorted;
    Folds.FilterKeepsMember(sorted, Plotted, t);
    var k :| 0 <= k < |f| && f[k] == t;
    SeriesSteps(xs, now);
    assert PointOf(r[k + 1], f[k], r[k].xp);
  }

  /**
    The start point takes the first input record's instant, not the
    earliest one's: a plotted record earlier than the first record puts a
    point before the start.
   */
  lemma EarlierRecordPrecedesStart(xs: seq<Transaction>, now: int, i: nat)
    requires 0 < i < |xs| && Plotted(xs[i]) && xs[i].createdAt < xs[0].createdAt
    ensures var r := Series(xs, now);
      exists k :: 1 <= k < |r| && r[k].date < r[0].date
  {
    PlottedHasPoint(xs, now, xs[i]);
  }
}
