/**
 Integers as decimal text: what `str` writes and what `int` reads. An optional sign, then digits.
 */
module Decimal {
  import opened Basics

  predicate IsDigit(c: char) {
    '0' <= c <= '9'
  }

  predicate AllDigits(s: string) {
    forall i :: 0 <= i < |s| ==> IsDigit(s[i])
  }

  function DigitOf(d: nat): (c: char)
    requires d < 10
    ensures IsDigit(c) && c as int == '0' as int + d
  {
    ('0' as int + d) as char
  }

  function ValueOf(c: char): (d: nat)
    requires IsDigit(c)
    ensures d < 10
  {
    c as int - '0' as int
  }

  /** The digits of `n`, most significant first. */
  function Digits(n: nat): string {
    if n < 10 then [DigitOf(n)] else Digits(n / 10) + [DigitOf(n % 10)]
  }

  function Value(s: string): nat
    requires AllDigits(s)
  {
    if s == "" then 0 else 10 * Value(s[..|s| - 1]) + ValueOf(s[|s| - 1])
  }

  function ToText(n: int): string {
    if n < 0 then "-" + Digits(-n) else Digits(n)
  }

  function Unsigned(s: string): Option<nat> {
    if s != "" && AllDigits(s) then Some(Value(s)) else None
  }

  function FromText(s: string): Option<int> {
    if s != "" && (s[0] == '-' || s[0] == '+') then
      var u := Unsigned(s[1..]);
      if u.None? then None else
        var n: int := u.value;
        Some(if s[0] == '-' then -n else n)
    else
      var u := Unsigned(s);
      if u.None? then None else Some(u.value)
  }

  lemma {:induction false} DigitsReadBack(n: nat)
    ensures Digits(n) != "" && AllDigits(Digits(n)) && Value(Digits(n)) == n
    ensures Digits(n)[0] == '0' <==> n == 0
  {
    var s := Digits(n);
    if n < 10 {
      assert s[..0] == "";
    } else {
      DigitsReadBack(n / 10);
      assert s[..|s| - 1] == Digits(n / 10);
    }
  }

  /** Ten to the number of digits. */
  function Power(n: nat): (p: nat)
    ensures p > 0
  {
    if n == 0 then 1 else 10 * Power(n - 1)
  }

  lemma TenTimes(a: nat, b: nat)
    ensures 10 * (a * b) == a * (10 * b)
  {
  }

  /** Digits count by place: those in front are worth ten for each one behind them. */
  lemma {:induction false} PlaceValue(s: string, t: string)
    requires AllDigits(s) && AllDigits(t)
    ensures Value(s + t) == Value(s) * Power(|t|) + Value(t)
    ensures |s| == 1 ==> Value(s) == s[0] as int - '0' as int
    decreases |t|
  {
    assert |s| == 1 ==> s[..0] == "";
    if t == "" {
      assert s + t == s;
    } else {
      var n := |t| - 1;
      assert (s + t)[..|s + t| - 1] == s + t[..n];
      PlaceValue(s, t[..n]);
      TenTimes(Value(s), Power(n));
      assert Value(s + t) == 10 * Value(s + t[..n]) + ValueOf(t[n]);
      hide Value;
    }
  }

  /** A minus sign negates and a plus sign changes nothing. */
  lemma SignsRead(s: string)
    requires s != "" && AllDigits(s)
    ensures FromText(s) == Some(Value(s)) && FromText("+" + s) == Some(Value(s))
    ensures FromText("-" + s).Some? && FromText("-" + s).value == -(Value(s) as int)
  {
    var p, m := "+" + s, "-" + s;
    assert p[0] == '+' && p[1..] == s && m[0] == '-' && m[1..] == s;
    assert IsDigit(s[0]);
    hide Value, AllDigits;
  }

  /** Only negative integers are written with a sign. */
  lemma SignIsWritten(n: int)
    ensures ToText(n) != "" && (n < 0 <==> ToText(n)[0] == '-')
  {
    DigitsReadBack(if n < 0 then -n else n);
    assert n >= 0 ==> IsDigit(Digits(n)[0]);
    hide Value, Digits;
  }

  /** Every integer, negative ones included, survives being written and read. */
  lemma TextRoundTrip(n: int)
    ensures FromText(ToText(n)) == Some(n)
  {
    var m: nat := if n < 0 then -n else n;
    DigitsReadBack(m);
    SignsRead(Digits(m));
    hide FromText, Digits, Value, AllDigits;
  }

  predicate NoLeadingZero(s: string) {
    s != "" && AllDigits(s) && (s[0] == '0' ==> |s| == 1)
  }

  /** Text as it is written: no plus sign, no leading zero, no minus zero. */
  predicate Canonical(s: string) {
    NoLeadingZero(s) || (s != "" && s[0] == '-' && NoLeadingZero(s[1..]) && s[1] != '0')
  }

  lemma DigitsNext(n: nat, d: nat)
    requires n > 0 && d < 10
    ensures Digits(10 * n + d) == Digits(n) + [DigitOf(d)]
  {
    assert (10 * n + d) / 10 == n && (10 * n + d) % 10 == d;
  }

  lemma {:induction false} DigitsOfValue(s: string)
    requires NoLeadingZero(s)
    ensures Digits(Value(s)) == s
    ensures s[0] != '0' ==> Value(s) > 0
  {
    var n := |s| - 1;
    if n == 0 {
      assert s[..0] == "";
      assert s == [s[0]];
    } else {
      assert s[..n][0] == s[0];
      DigitsOfValue(s[..n]);
      DigitsNext(Value(s[..n]), ValueOf(s[n]));
      assert s == s[..n] + [s[n]];
      hide Digits;
    }
  }

  lemma DigitsLead(n: nat)
    ensures NoLeadingZero(Digits(n)) && (n > 0 ==> Digits(n)[0] != '0')
  {
    DigitsReadBack(n);
    if n >= 10 {
      DigitsReadBack(n / 10);
    }
  }

  lemma WrittenIsCanonical(n: int)
    ensures Canonical(ToText(n))
  {
    DigitsLead(if n < 0 then -n else n);
    if n < 0 {
      assert ToText(n)[1..] == Digits(-n);
    }
  }

  lemma CanonicalWritesBack(s: string)
    requires Canonical(s)
    ensures FromText(s).Some? && ToText(FromText(s).value) == s
  {
    if NoLeadingZero(s) {
      assert IsDigit(s[0]);
      DigitsOfValue(s);
    } else {
      DigitsOfValue(s[1..]);
      assert s == "-" + s[1..];
    }
    hide Digits, Value;
  }

  /** Reading is undone by writing on exactly the canonical texts. */
  lemma WritesBackIffCanonical(s: string)
    requires FromText(s).Some?
    ensures ToText(FromText(s).value) == s <==> Canonical(s)
  {
    if Canonical(s) {
      CanonicalWritesBack(s);
    }
    WrittenIsCanonical(FromText(s).value);
    hide ToText, FromText, Canonical;
  }
}
