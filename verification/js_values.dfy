/**
  The few JavaScript value semantics the dashboard's arithmetic depends on:
  a field that may be absent, an `amount` that may arrive as a number, a
  string or not at all, `parseInt(s, 10)` (section 19.2.5 of ECMA-262) and
  the decimal rendering of an integer by `Number.prototype.toString`.
 */
module JsValues {

  /** A record field that may be `undefined`/`null` (None) or present. */
  datatype Option<T> = None | Some(value: T)

  /**
    The dynamic type of a record's `amount` field: a number (XP amounts are
    integral), a string, or absent (`undefined`/`null`).
   */
  datatype Amount = Num(n: int) | Str(s: string) | Missing

  /** StrWhiteSpaceChar of ECMA-262: WhiteSpace or LineTerminator. */
  predicate IsStrWhiteSpace(c: char)
  {
    || c == '\t' || c == '\n' || c == '\U{B}' || c == '\U{C}' || c == '\r'
    || c == ' ' || c == '\U{A0}' || c == '\U{1680}'
    || ('\U{2000}' <= c <= '\U{200A}')
    || c == '\U{2028}' || c == '\U{2029}' || c == '\U{202F}' || c == '\U{205F}'
    || c == '\U{3000}' || c == '\U{FEFF}'
  }

  predicate IsDigit(c: char)
  {
    '0' <= c <= '9'
  }

  predicate AllDigits(s: string)
  {
    forall i :: 0 <= i < |s| ==> IsDigit(s[i])
  }

  function DigitValue(c: char): (d: nat)
    requires IsDigit(c)
    ensures d < 10
  {
    c as int - '0' as int
  }

  function DigitChar(d: nat): (c: char)
    requires d < 10
    ensures IsDigit(c) && DigitValue(c) == d
  {
    ('0' as int + d) as char
  }

  /** The value of a run of decimal digits, most significant first. */
  function DigitsValue(ds: string): nat
    requires AllDigits(ds)
  {
    if |ds| == 0 then 0 else DigitsValue(ds[..|ds|-1]) * 10 + DigitValue(ds[|ds|-1])
  }

  /** `s` with its leading StrWhiteSpaceChar characters removed. */
  function TrimStart(s: string): (r: string)
    ensures |r| <= |s| && r == s[|s|-|r|..]
    ensures forall i :: 0 <= i < |s| - |r| ==> IsStrWhiteSpace(s[i])
    ensures |r| == 0 || !IsStrWhiteSpace(r[0])
  {
    if |s| > 0 && IsStrWhiteSpace(s[0]) then TrimStart(s[1..]) else s
  }

  /** The length of the longest prefix of `s` made of decimal digits. */
  function DigitRunLength(s: string): (n: nat)
    ensures n <= |s|
    ensures AllDigits(s[..n])
    ensures n == |s| || !IsDigit(s[n])
  {
    if |s| > 0 && IsDigit(s[0]) then 1 + DigitRunLength(s[1..]) else 0
  }

  /**
    `parseInt(s, 10)`: skip leading white space, then read a signed decimal
    prefix. No digit at all gives NaN (None).
   */
  function ParseInt(s: string): (r: Option<int>)
    ensures r.None? <==> DigitRunLength(Unsigned(TrimStart(s))) == 0
  {
    ParseSigned(TrimStart(s))
  }

  /** One optional sign, then the longest run of decimal digits. */
  function ParseSigned(t: string): (r: Option<int>)
    ensures r.None? <==> DigitRunLength(Unsigned(t)) == 0
  {
    var body := Unsigned(t);
    var n := DigitRunLength(body);
    if n == 0 then None
    else if |t| > 0 && t[0] == '-' then Some(-(DigitsValue(body[..n]) as int))
    else Some(DigitsValue(body[..n]))
  }

  /** `t` without one leading `+` or `-`. */
  function Unsigned(t: string): (r: string)
    ensures r == t || (|t| > 0 && (t[0] == '+' || t[0] == '-') && r == t[1..])
  {
    if |t| > 0 && (t[0] == '+' || t[0] == '-') then t[1..] else t
  }

  /** `10^k`. */
  function Pow10(k: nat): (p: nat)
    ensures p >= 1
  {
    if k == 0 then 1 else 10 * Pow10(k - 1)
  }

  lemma {:induction false} Pow10Monotone(a: nat, b: nat)
    requires a <= b
    ensures Pow10(a) <= Pow10(b)
    decreases b
  {
    if a < b {
      Pow10Monotone(a, b - 1);
    }
  }

  /** Decimal digits as a rendering writes them: at least one, and no leading zero except in "0". */
  predicate CanonicalDigits(d: string)
  {
    |d| > 0 && AllDigits(d) && (d[0] == '0' ==> |d| == 1)
  }

  /** An integer as a rendering writes it: canonical digits, after a '-' only for a non-zero value. */
  predicate CanonicalInt(s: string)
  {
    if |s| > 0 && s[0] == '-' then CanonicalDigits(s[1..]) && s[1..][0] != '0'
    else CanonicalDigits(s)
  }

  /** The decimal digits of `n`, without leading zeros. */
  function NatToString(n: nat): (r: string)
    ensures CanonicalDigits(r)
    ensures DigitsValue(r) == n
    ensures r[0] == '0' ==> n == 0
  {
    if n < 10 then [DigitChar(n)]
    else
      var r := NatToString(n / 10) + [DigitChar(n % 10)];
      assert r[..|r|-1] == NatToString(n / 10);
      r
  }

  /** A positive number has `k` digits exactly when it lies in [10^(k-1), 10^k). */
  lemma {:induction false} NatToStringLength(n: nat)
    requires n >= 1
    ensures Pow10(|NatToString(n)| - 1) <= n < Pow10(|NatToString(n)|)
    decreases n
  {
    if n >= 10 {
      NatToStringLength(n / 10);
      var k := |NatToString(n / 10)|;
      assert |NatToString(n)| == k + 1;
      assert Pow10(k) == 10 * Pow10(k - 1);
      assert Pow10(k + 1) == 10 * Pow10(k);
    }
  }

  /** A digit string whose first digit is not 0 has a value of at least 1. */
  lemma {:induction false} LeadingDigitBound(d: string)
    requires |d| > 0 && AllDigits(d) && d[0] != '0'
    ensures DigitsValue(d) >= 1
    decreases |d|
  {
    if |d| > 1 {
      LeadingDigitBound(d[..|d|-1]);
    }
  }

  /** Canonical digits are the rendering of their own value. */
  lemma {:induction false} NatToStringOfDigits(d: string)
    requires CanonicalDigits(d)
    ensures NatToString(DigitsValue(d)) == d
    decreases |d|
  {
    var n := DigitsValue(d);
    var last := d[|d|-1];
    if |d| == 1 {
      var none := d[..|d|-1];
      assert |none| == 0;
      assert DigitsValue(none) == 0;
      assert n == DigitValue(last);
      assert DigitChar(n) == last;
    } else {
      var init := d[..|d|-1];
      LeadingDigitBound(init);
      NatToStringOfDigits(init);
      assert n == DigitsValue(init) * 10 + DigitValue(last);
      assert n / 10 == DigitsValue(init) && n % 10 == DigitValue(last);
      assert DigitChar(n % 10) == last;
      assert d == init + [last];
    }
  }

  /**
    `Number.prototype.toString()` of an integer: the decimal digits, after
    a '-' when the integer is negative. Past 10^21 in magnitude JavaScript
    switches to exponent notation instead, which callers handle themselves.
   */
  function IntToString(n: int): (r: string)
    ensures |r| > 0
    ensures n < 0 <==> r[0] == '-'
    ensures n >= 0 ==> AllDigits(r)
    ensures forall i :: 0 < i < |r| ==> IsDigit(r[i])
    ensures CanonicalInt(r)
  {
    if n < 0 then AfterSign(NatToString(-n)); "-" + NatToString(-n)
    else NatToString(n)
  }

  lemma AfterSign(d: string)
    ensures ("-" + d)[1..] == d && ("-" + d)[0] == '-'
  {
  }

  /**
    The rendering of an integer is the only canonical text that `parseInt`
    reads as that integer: no other sign, leading zero or "-0" qualifies.
   */
  lemma CanonicalIntIsIntToString(s: string, n: int)
    requires CanonicalInt(s) && ParseInt(s) == Some(n)
    ensures s == IntToString(n)
  {
    var m := CanonicalValue(s);
    RenderCanonicalValue(s);
    assert IntToString(m) + "" == s;
    ParseIntReadsIntToString(m, "");
  }

  /** The integer a canonical text writes. */
  function CanonicalValue(s: string): int
    requires CanonicalInt(s)
  {
    if s[0] == '-' then -(DigitsValue(s[1..]) as int) else DigitsValue(s)
  }

  /** A canonical text is the rendering of the integer it writes. */
  lemma RenderCanonicalValue(s: string)
    requires CanonicalInt(s)
    ensures IntToString(CanonicalValue(s)) == s
  {
    if s[0] == '-' {
      var d := s[1..];
      NatToStringOfDigits(d);
      LeadingDigitBound(d);
      assert s == "-" + d;
    } else {
      NatToStringOfDigits(s);
    }
  }

  /**
    `parseInt` reads back the decimal rendering of any integer, and stops at
    the first character after it that is not a digit.
   */
  lemma ParseIntReadsIntToString(n: int, rest: string)
    requires |rest| == 0 || !IsDigit(rest[0])
    ensures ParseInt(IntToString(n) + rest) == Some(n)
  {
    var s := IntToString(n) + rest;
    var digits := NatToString(if n < 0 then -n else n);
    assert !IsStrWhiteSpace(s[0]);
    assert TrimStart(s) == s;
    var body := Unsigned(s);
    assert body == digits + rest;
    DigitRunOfDigits(digits, rest);
    assert body[..|digits|] == digits;
  }

  /** The digit run of a digit string followed by a non-digit is that digit string. */
  lemma {:induction false} DigitRunOfDigits(digits: string, rest: string)
    requires AllDigits(digits)
    requires |rest| == 0 || !IsDigit(rest[0])
    ensures DigitRunLength(digits + rest) == |digits|
    decreases |digits|
  {
    if |digits| > 0 {
      assert (digits + rest)[1..] == digits[1..] + rest;
      DigitRunOfDigits(digits[1..], rest);
    } else {
      assert digits + rest == rest;
    }
  }

  /** Leading white space never changes what `parseInt` reads. */
  lemma {:induction false} ParseIntSkipsWhiteSpace(ws: string, s: string)
    requires forall i :: 0 <= i < |ws| ==> IsStrWhiteSpace(ws[i])
    ensures ParseInt(ws + s) == ParseInt(s)
  {
    TrimStartSkips(ws, s);
  }

  lemma {:induction false} TrimStartSkips(ws: string, s: string)
    requires forall i :: 0 <= i < |ws| ==> IsStrWhiteSpace(ws[i])
    ensures TrimStart(ws + s) == TrimStart(s)
    decreases |ws|
  {
    if |ws| > 0 {
      assert (ws + s)[1..] == ws[1..] + s;
      TrimStartSkips(ws[1..], s);
    } else {
      assert ws + s == s;
    }
  }
}
