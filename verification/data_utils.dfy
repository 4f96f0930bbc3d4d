/**
  The summary arithmetic of the dashboard: total XP, the displayed XP unit,
  the completed-project count and the two audit ratios.
 */
module DataUtils {
  import opened JsValues
  import opened Records
  import Folds

  /**
    What one transaction adds to the total: a number as it is, anything
    else through `parseInt(amount, 10) || 0`. An absent amount reads as the
    string "undefined", which has no digits.
   */
  function XpValue(t: Transaction): (v: int)
    ensures t.amount.Num? ==> v == t.amount.n
    ensures t.amount.Missing? ==> v == 0
    ensures t.amount.Str? && DigitRunLength(Unsigned(TrimStart(t.amount.s))) == 0 ==> v == 0
    ensures t.amount.Str? && ParseInt(t.amount.s).Some? ==> v == ParseInt(t.amount.s).value
  {
    match t.amount
    case Num(n) => n
    case Str(s) => (match ParseInt(s) case Some(v) => v case None => 0)
    case Missing => 0
  }

  /** The total XP of a list of transactions. */
  function TotalXp(ts: seq<Transaction>): (total: int)
    ensures |ts| == 0 ==> total == 0
    ensures (forall i :: 0 <= i < |ts| ==> XpValue(ts[i]) >= 0) ==> total >= 0
  {
    Folds.Sum(ts, XpValue)
  }

  /** The left-to-right `reduce` that computes the total XP. */
  method ValidateAndCalculateXp(ts: seq<Transaction>) returns (total: int)
    ensures total == TotalXp(ts)
    ensures |ts| == 0 ==> total == 0
  {
    total := 0;
    var i := 0;
    while i < |ts|
      invariant 0 <= i <= |ts|
      invariant total == TotalXp(ts[..i])
    {
      assert ts[..i + 1] == ts[..i] + [ts[i]];
      Folds.SumAppend(ts[..i], ts[i], XpValue);
      total := total + XpValue(ts[i]);
      i := i + 1;
    }
    assert ts[..i] == ts;
  }

  /** A numeric amount counts as itself. */
  lemma NumericAmountCounts(t: Transaction)
    requires t.amount.Num?
    ensures XpValue(t) == t.amount.n
  {
  }

  /**
    A string amount counts as the integer written at its start, after any
    white space and sign, as `parseInt` reads it.
   */
  lemma StringAmountCountsAsParsed(t: Transaction, n: int, ws: string, rest: string)
    requires forall i :: 0 <= i < |ws| ==> IsStrWhiteSpace(ws[i])
    requires |rest| == 0 || !IsDigit(rest[0])
    requires t.amount == Str(ws + IntToString(n) + rest)
    ensures XpValue(t) == n
  {
    assert ws + IntToString(n) + rest == ws + (IntToString(n) + rest);
    ParseIntSkipsWhiteSpace(ws, IntToString(n) + rest);
    ParseIntReadsIntToString(n, rest);
  }

  /** A string amount without a leading (signed) integer, or no amount, counts as 0. */
  lemma UnparsableAmountCountsZero(t: Transaction)
    requires t.amount.Missing? || (t.amount.Str? && ParseInt(t.amount.s).None?)
    ensures XpValue(t) == 0
  {
  }

  /** Appending a transaction raises the total by exactly its value. */
  lemma TotalXpAppend(ts: seq<Transaction>, t: Transaction)
    ensures TotalXp(ts + [t]) == TotalXp(ts) + XpValue(t)
  {
    Folds.SumAppend(ts, t, XpValue);
  }

  /** The total does not depend on the order of the transactions. */
  lemma TotalXpReorder(a: seq<Transaction>, b: seq<Transaction>)
    requires multiset(a) == multiset(b)
    ensures TotalXp(a) == TotalXp(b)
  {
    Folds.SumPermutation(a, b, XpValue);
  }

  /**
    The total XP as the page labels it. A quotient is rendered with
    `toFixed(1)` followed by the suffix; a smaller total is rendered by
    `toString`, in full, or in exponent notation (mantissa and power of ten)
    once it reaches 10^21 in magnitude, which only a negative total can do there.
   */
  datatype XpLabel =
    | Scaled(quotient: real, suffix: string)
    | Plain(text: string)
    | Exponent(mantissa: real, exponent: nat)

  /** The divisor a suffix stands for. */
  function SuffixScale(suffix: string): real
  {
    if suffix == "M" then 1000000.0 else 1000.0
  }

  function FormatXp(xp: int): (r: XpLabel)
    ensures (r.Scaled? && r.suffix == "M") <==> xp >= 1000000
    ensures (r.Scaled? && r.suffix == "K") <==> 1000 <= xp < 1000000
    ensures r.Plain? <==> -ExponentLimit < xp < 1000
    ensures r.Exponent? <==> xp <= -ExponentLimit
    ensures r.Scaled? ==> r.quotient * SuffixScale(r.suffix) == xp as real && 1.0 <= r.quotient
    ensures r.Scaled? && r.suffix == "K" ==> r.quotient < 1000.0
    ensures r.Plain? ==> ParseInt(r.text) == Some(xp) && CanonicalInt(r.text)
    ensures r.Plain? ==> (r.text[0] == '-' <==> xp < 0)
    ensures r.Exponent? ==> r.exponent >= 21 && -10.0 < r.mantissa <= -1.0
    ensures r.Exponent? ==> r.mantissa * Pow10(r.exponent) as real == xp as real
  {
    if xp >= 1000000 then Scaled(xp as real / 1000000.0, "M")
    else if xp >= 1000 then Scaled(xp as real / 1000.0, "K")
    else if xp <= -ExponentLimit then ExponentLabel(xp)
    else
      var text := IntToString(xp);
      assert text + "" == text;
      ParseIntReadsIntToString(xp, "");
      Plain(text)
  }

  /** `toString` of a total at or below -10^21: a mantissa in (-10, -1] and its power of ten. */
  function ExponentLabel(xp: int): (r: XpLabel)
    requires xp <= -ExponentLimit
    ensures r.Exponent? && r.exponent >= 21 && -10.0 < r.mantissa <= -1.0
    ensures r.mantissa * Pow10(r.exponent) as real == xp as real
  {
    var e := DecimalExponent(-xp);
    MantissaBounds(xp);
    Exponent(Scale(xp, Pow10(e)), e)
  }

  /** The power of ten of the leading digit of a positive number. */
  function DecimalExponent(n: int): nat
    requires n >= 1
  {
    |NatToString(n)| - 1
  }

  lemma MantissaBounds(xp: int)
    requires xp <= -ExponentLimit
    ensures DecimalExponent(-xp) >= 21
    ensures -10.0 < Scale(xp, Pow10(DecimalExponent(-xp))) <= -1.0
  {
    var n: nat := -xp;
    ExponentOfLength(n);
    ExponentBounds(n, Pow10(DecimalExponent(n)));
  }

  /** `toString` writes numbers of this magnitude or more in exponent notation: 10^21. */
  const ExponentLimit: int := 1000000000000000000000

  lemma ExponentLimitIsPow10()
    ensures Pow10(21) == ExponentLimit
  {
    assert Pow10(3) == 1000;
    assert Pow10(6) == 1000000;
    assert Pow10(9) == 1000000000;
    assert Pow10(12) == 1000000000000;
    assert Pow10(15) == 1000000000000000;
    assert Pow10(18) == 1000000000000000000;
    assert Pow10(21) == 1000000000000000000000;
  }

  /** A magnitude of at least 10^21 has 22 digits or more, the first of them in the units of 10^e. */
  lemma ExponentOfLength(n: nat)
    requires n >= ExponentLimit
    ensures var e := |NatToString(n)| - 1;
      e >= 21 && Pow10(e) <= n < 10 * Pow10(e)
  {
    var e := |NatToString(n)| - 1;
    ExponentLimitIsPow10();
    NatToStringLength(n);
    assert Pow10(e + 1) == 10 * Pow10(e);
    if e < 21 {
      Pow10Monotone(e + 1, 21);
    }
  }

  /** `x` in units of `p`. */
  function Scale(x: int, p: nat): (m: real)
    requires p >= 1
    ensures m * p as real == x as real
  {
    x as real / p as real
  }

  /** A magnitude in [p, 10p) over p is a mantissa in [1, 10). */
  lemma ExponentBounds(n: nat, p: nat)
    requires 1 <= p <= n < 10 * p
    ensures 1.0 <= n as real / p as real < 10.0
    ensures Scale(-(n as int), p) == -(n as real / p as real)
  {
    var q := p as real;
    var m := n as real / q;
    assert m * q == n as real;
    if m < 1.0 {
      MultiplyBelow(m, 1.0, q);
    }
    if m >= 10.0 {
      MultiplyBelow(10.0, m, q);
    }
  }

  lemma MultiplyBelow(a: real, b: real, q: real)
    requires a <= b && q > 0.0
    ensures a * q <= b * q
  {
  }

  /** A progress entry counts as completed when its grade is above zero. */
  predicate Passed(p: Progress)
  {
    p.grade.Some? && p.grade.value > 0.0
  }

  /** The positions of the completed entries. */
  function PassedIndices(ps: seq<Progress>): set<nat>
  {
    set i: nat | i < |ps| && Passed(ps[i])
  }

  function CompletedProjects(ps: seq<Progress>): (r: nat)
    ensures r <= |ps|
    ensures |ps| == 0 ==> r == 0
  {
    |Folds.Filter(ps, Passed)|
  }

  /** The count is the number of positions whose grade is above zero. */
  lemma {:induction false} CompletedProjectsCountsPassed(ps: seq<Progress>)
    ensures CompletedProjects(ps) == |PassedIndices(ps)|
    decreases |ps|
  {
    if |ps| > 0 {
      var init := ps[..|ps| - 1];
      var last := ps[|ps| - 1];
      assert ps == init + [last];
      Folds.FilterConcat(init, [last], Passed);
      CompletedProjectsCountsPassed(init);
      if Passed(last) {
        assert PassedIndices(ps) == PassedIndices(init) + {|ps| - 1};
      } else {
        assert PassedIndices(ps) == PassedIndices(init);
      }
    }
  }

  /** Every entry is completed exactly when the count is the list length. */
  lemma CompletedProjectsAll(ps: seq<Progress>)
    ensures CompletedProjects(ps) == |ps| <==> forall i :: 0 <= i < |ps| ==> Passed(ps[i])
  {
    Folds.FilterKeepsAll(ps, Passed);
  }

  /** No entry is completed exactly when the count is zero. */
  lemma CompletedProjectsNone(ps: seq<Progress>)
    ensures CompletedProjects(ps) == 0 <==> forall i :: 0 <= i < |ps| ==> !Passed(ps[i])
  {
    Folds.FilterKeepsNone(ps, Passed);
  }

  /** The count of a concatenation is the sum of the counts of its parts. */
  lemma CompletedProjectsConcat(a: seq<Progress>, b: seq<Progress>)
    ensures CompletedProjects(a + b) == CompletedProjects(a) + CompletedProjects(b)
  {
    Folds.FilterConcat(a, b, Passed);
  }

  /**
    A ratio as the page receives it: the literal of a zero-denominator
    guard, or a value to be rendered with `toFixed(digits)`.
   */
  datatype RatioText = Literal(text: string) | Fixed(value: real, digits: nat)

  /** Audits done over audits received, to three places. */
  function AuditRatio(totalUp: real, totalDown: real): (r: RatioText)
    ensures r.Literal? <==> totalDown == 0.0
    ensures r.Literal? ==> r.text == "0.000"
    ensures r.Fixed? ==> r.digits == 3 && r.value * totalDown == totalUp
  {
    if totalDown == 0.0 then Literal("0.000")
    else Fixed(totalUp / totalDown, 3)
  }

  /**
    Audits done per average auditor count over audits received per average
    group size, to two places.
   */
  function AuditActivityRatio(totalUp: real, totalDown: real,
                              avgNumAuditors: real := 4.93, avgGroupSize: real := 2.36): (r: RatioText)
    requires avgNumAuditors != 0.0 && avgGroupSize != 0.0
    ensures r.Literal? <==> totalDown == 0.0
    ensures r.Literal? ==> r.text == "0.00"
    ensures r.Fixed? ==> r.digits == 2 && r.value * totalDown * avgNumAuditors == totalUp * avgGroupSize
  {
    if totalDown == 0.0 then Literal("0.00")
    else Fixed((totalUp / avgNumAuditors) / (totalDown / avgGroupSize), 2)
  }

  /** The activity ratio is the audit ratio scaled by avgGroupSize / avgNumAuditors. */
  lemma ActivityRatioScalesAuditRatio(totalUp: real, totalDown: real, avgNumAuditors: real, avgGroupSize: real)
    requires totalDown != 0.0 && avgNumAuditors != 0.0 && avgGroupSize != 0.0
    ensures AuditActivityRatio(totalUp, totalDown, avgNumAuditors, avgGroupSize).value
         == AuditRatio(totalUp, totalDown).value * (avgGroupSize / avgNumAuditors)
  {
    var a := AuditActivityRatio(totalUp, totalDown, avgNumAuditors, avgGroupSize).value;
    var q := AuditRatio(totalUp, totalDown).value;
    assert a * totalDown * avgNumAuditors == totalUp * avgGroupSize;
    assert q * totalDown == totalUp;
    assert (a * avgNumAuditors) * totalDown == (q * avgGroupSize) * totalDown;
  }
}
