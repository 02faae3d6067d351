/**
 Decimal text of amounts: Parse, ParseSigned and Amount (internal/domain/money/money.go).
 */
module MoneyText {
  import opened Basics
  import opened Moneys

  predicate IsDigit(c: char) {
    '0' <= c <= '9'
  }

  predicate AllDigits(s: string) {
    forall i :: 0 <= i < |s| ==> IsDigit(s[i])
  }

  /** The number a string of digits denotes. */
  function Value(s: string): nat
    requires AllDigits(s)
  {
    if s == "" then 0 else 10 * Value(s[..|s| - 1]) + (s[|s| - 1] as int - '0' as int)
  }

  /** strings.Cut(s, "."): the part before the first point and the part after it. */
  function Cut(s: string): (r: (string, string, bool))
    ensures r.2 ==> s == r.0 + "." + r.1
    ensures !r.2 ==> r == (s, "", false)
    ensures forall i :: 0 <= i < |r.0| ==> r.0[i] != '.'
  {
    if s == "" then ("", "", false)
    else if s[0] == '.' then
      assert s == "" + "." + s[1..];
      ("", s[1..], true)
    else
      var (whole, frac, found) := Cut(s[1..]);
      assert found ==> s == ([s[0]] + whole) + "." + frac;
      assert !found ==> s == [s[0]] + whole;
      ([s[0]] + whole, frac, found)
  }

  /** amountPattern: digits, optionally a point and one or two digits. */
  predicate MatchesAmount(s: string) {
    var (whole, frac, found) := Cut(s);
    && whole != "" && AllDigits(whole) && AllDigits(frac)
    && (found ==> 1 <= |frac| <= 2)
  }

  function PadFraction(frac: string): (r: string)
    ensures |frac| <= 2 ==> |r| == 2
    ensures AllDigits(frac) ==> AllDigits(r)
    decreases 2 - |frac|
  {
    if |frac| < 2 then PadFraction(frac + "0") else frac
  }

  /** The denoted value in hundredths: what a matching amount is worth in minor units. */
  function Hundredths(s: string): nat
    requires MatchesAmount(s)
  {
    var (whole, frac, _) := Cut(s);
    Value(whole) * 100 + (if frac == "" then 0 else if |frac| == 1 then 10 * Value(frac) else Value(frac))
  }

  function TrimLeftZeros(s: string): (r: string)
    ensures |r| <= |s|
    ensures r != "" ==> r[0] != '0'
    ensures AllDigits(s) ==> AllDigits(r)
  {
    if s != "" && s[0] == '0' then TrimLeftZeros(s[1..]) else s
  }

  /** strconv.ParseInt(s, 10, 64) on a string of digits. */
  function ParseInt(s: string): Result<Int64>
    requires AllDigits(s)
  {
    if s == "" || Value(s) > MAX_INT64 then Err(InvalidAmount) else Ok(Value(s))
  }

  function ParseMinorSpec(amount: string): Result<Int64> {
    if amount == "" then Err(InvalidAmount)
    else if amount[0] == '-' && MatchesAmount(amount[1..]) then Err(NegativeAmount)
    else if !MatchesAmount(amount) then Err(InvalidAmount)
    else
      var (whole, frac, _) := Cut(amount);
      if |TrimLeftZeros(whole)| > 17 then Err(Overflow)
      else
        var major :- ParseInt(whole);
        var cents :- ParseInt(PadFraction(frac));
        if major > (MAX_INT64 - cents) / 100 then Err(Overflow)
        else Ok(major * 100 + cents)
  }

  method ParseMinor(amount: string) returns (r: Result<Int64>)
    ensures r == ParseMinorSpec(amount)
  {
    if amount == "" {
      return Err(InvalidAmount);
    }
    if amount[0] == '-' && MatchesAmount(amount[1..]) {
      return Err(NegativeAmount);
    }
    if !MatchesAmount(amount) {
      return Err(InvalidAmount);
    }
    var (whole, frac, _) := Cut(amount);
    var padded := frac;
    while |padded| < 2
      invariant AllDigits(padded)
      invariant PadFraction(padded) == PadFraction(frac)
      decreases 2 - |padded|
    {
      padded := padded + "0";
    }
    var trimmed := TrimLeftZeros(whole);
    if |trimmed| > 17 {
      return Err(Overflow);
    }
    var major := ParseInt(whole);
    if major.Err? {
      return Err(InvalidAmount);
    }
    var cents := ParseInt(padded);
    if cents.Err? {
      return Err(InvalidAmount);
    }
    if major.value > (MAX_INT64 - cents.value) / 100 {
      return Err(Overflow);
    }
    var minor: Int64 := major.value * 100 + cents.value;
    return Ok(minor);
  }

  function Parse(amount: string, currency: string): Result<Money> {
    if !ValidCurrency(currency) then Err(InvalidCurrency)
    else
      var minor :- ParseMinorSpec(amount);
      Ok(Money(minor, currency, true))
  }

  function ParseSigned(amount: string, currency: string): Result<Money> {
    if amount != "" && amount[0] == '-' then
      var m :- Parse(amount[1..], currency);
      m.Negate()
    else Parse(amount, currency)
  }

  function Digit(n: nat): char
    requires n < 10
  {
    ('0' as int + n) as char
  }

  /** fmt's %d of a non-negative number. */
  function Decimal(n: nat): (s: string)
    ensures s != "" && AllDigits(s) && Value(s) == n
  {
    if n < 10 then [Digit(n)] else Decimal(n / 10) + [Digit(n % 10)]
  }

  function TwoDigits(n: nat): string
    requires n < 100
  {
    [Digit(n / 10), Digit(n % 10)]
  }

  function Unsigned(u: nat): string {
    Decimal(u / 100) + "." + TwoDigits(u % 100)
  }

  /** Amount renders two fractional digits; the magnitude of a negative value goes through -(v+1), which cannot overflow. */
  function Amount(v: Int64): string {
    if v < 0 then
      var flipped: Int64 := 0 - (v + 1);
      "-" + Unsigned(flipped + 1)
    else Unsigned(v)
  }

  function Pow10(n: nat): nat {
    if n == 0 then 1 else 10 * Pow10(n - 1)
  }

  lemma {:induction false} ValueBounds(s: string)
    requires AllDigits(s)
    ensures Value(s) < Pow10(|s|)
    ensures s != "" && s[0] != '0' ==> Value(s) >= Pow10(|s| - 1)
  {
    if |s| > 1 {
      ValueBounds(s[..|s| - 1]);
    } else if |s| == 1 {
      assert s[..0] == "";
    }
  }

  lemma {:induction false} TrimKeepsValue(s: string)
    requires AllDigits(s)
    ensures Value(TrimLeftZeros(s)) == Value(s)
  {
    if s != "" && s[0] == '0' {
      TrimKeepsValue(s[1..]);
      LeadingZero(s);
    }
  }

  lemma {:induction false} LeadingZero(s: string)
    requires AllDigits(s) && s != "" && s[0] == '0'
    ensures Value(s) == Value(s[1..])
  {
    if |s| == 1 {
      assert s[..0] == "" && s[1..] == "";
    } else {
      LeadingZero(s[..|s| - 1]);
      assert s[1..][..|s| - 2] == s[..|s| - 1][1..];
    }
  }

  lemma {:induction false} Pow10Grows(m: nat, n: nat)
    requires m <= n
    ensures 1 <= Pow10(m) <= Pow10(n)
  {
    if n == 0 {
    } else if m == n {
      Pow10Grows(n - 1, n - 1);
    } else {
      Pow10Grows(m, n - 1);
    }
  }

  lemma Pow10At17()
    ensures Pow10(17) == 100_000_000_000_000_000
  {
    assert Pow10(4) == 10_000;
    assert Pow10(8) == 100_000_000;
    assert Pow10(12) == 1_000_000_000_000;
    assert Pow10(16) == 10_000_000_000_000_000;
  }

  lemma PaddedValue(frac: string)
    requires AllDigits(frac) && |frac| <= 2
    ensures Value(PadFraction(frac)) == (if frac == "" then 0 else if |frac| == 1 then 10 * Value(frac) else Value(frac))
    ensures Value(PadFraction(frac)) < 100
  {
    if frac == "" {
      assert frac + "0" == "0" && "0" + "0" == "00";
      assert PadFraction("0") == PadFraction("00") == "00";
      assert "00"[..1] == "0" && "0"[..0] == "";
    } else if |frac| == 1 {
      assert PadFraction(frac) == frac + "0";
      assert (frac + "0")[..1] == frac;
    }
    ValueBounds(PadFraction(frac));
    assert Pow10(2) == 100;
  }

  /** The whole part has more than 17 significant digits exactly when it is at least 10^17. */
  lemma SignificantDigits(whole: string)
    requires AllDigits(whole)
    ensures |TrimLeftZeros(whole)| > 17 <==> Value(whole) >= 100_000_000_000_000_000
  {
    TrimKeepsValue(whole);
    var trimmed := TrimLeftZeros(whole);
    ValueBounds(trimmed);
    Pow10At17();
    if |trimmed| > 17 {
      Pow10Grows(17, |trimmed| - 1);
    } else {
      Pow10Grows(|trimmed|, 17);
    }
  }

  lemma MatchingParses(s: string)
    requires MatchesAmount(s)
    ensures ParseMinorSpec(s) == if Hundredths(s) <= MAX_INT64 then Ok(Hundredths(s)) else Err(Overflow)
  {
    hide Value, TrimLeftZeros, PadFraction;
    var (whole, frac, found) := Cut(s);
    assert s[0] == whole[0];
    PaddedValue(frac);
    SignificantDigits(whole);
  }

  /**
   Parsing is exact: a matching amount yields its value in hundredths when that fits int64
   and overflow otherwise; every other text is refused, with its own error after a minus sign.
   */
  lemma ParseIsExact(s: string)
    ensures MatchesAmount(s) ==>
              ParseMinorSpec(s) == if Hundredths(s) <= MAX_INT64 then Ok(Hundredths(s)) else Err(Overflow)
    ensures !MatchesAmount(s) ==>
              ParseMinorSpec(s) == Err(if s != "" && s[0] == '-' && MatchesAmount(s[1..]) then NegativeAmount else InvalidAmount)
  {
    if MatchesAmount(s) {
      MatchingParses(s);
    }
  }

  /** A text that reads as an amount: digits, and at most a point with one or two more. */
  predicate ReadsAs(s: string, whole: string, frac: string) {
    && whole != "" && (forall i :: 0 <= i < |whole| ==> '0' <= whole[i] <= '9') && (forall i :: 0 <= i < |frac| ==> '0' <= frac[i] <= '9')
    && ((s == whole && frac == "") || (s == whole + "." + frac && (|frac| == 1 || |frac| == 2)))
  }

  lemma {:induction false} CutNoPoint(s: string)
    requires forall i :: 0 <= i < |s| ==> s[i] != '.'
    ensures Cut(s) == (s, "", false)
  {
    if s != "" {
      CutNoPoint(s[1..]);
    }
  }

  lemma ReadsAsIsCut(s: string, whole: string, frac: string)
    requires ReadsAs(s, whole, frac)
    ensures Cut(s) == (whole, frac, frac != "")
  {
    if frac == "" {
      CutNoPoint(s);
    } else {
      CutAtPoint(whole, frac);
    }
  }

  /** The amount pattern, and what a text that matches it is worth: its whole part and its tenths and hundredths. */
  lemma AmountTextsExactly(s: string)
    ensures MatchesAmount(s) <==> exists whole, frac :: ReadsAs(s, whole, frac)
    ensures forall whole, frac :: ReadsAs(s, whole, frac) ==>
              && MatchesAmount(s) && AllDigits(whole)
              && Hundredths(s) == 100 * Value(whole) + (if |frac| == 0 then 0 else 10 * (frac[0] as int - '0' as int))
                                  + (if |frac| < 2 then 0 else frac[1] as int - '0' as int)
  {
    if MatchesAmount(s) {
      var (whole, frac, found) := Cut(s);
      assert ReadsAs(s, whole, frac);
    }
    forall whole, frac | ReadsAs(s, whole, frac)
      ensures MatchesAmount(s) && AllDigits(whole)
      ensures Hundredths(s) == 100 * Value(whole) + (if |frac| == 0 then 0 else 10 * (frac[0] as int - '0' as int))
                               + (if |frac| < 2 then 0 else frac[1] as int - '0' as int)
    {
      ReadsAsIsCut(s, whole, frac);
      FractionValue(frac);
    }
  }

  lemma FractionValue(frac: string)
    requires AllDigits(frac) && |frac| <= 2
    ensures |frac| == 1 ==> Value(frac) == frac[0] as int - '0' as int
    ensures |frac| == 2 ==> Value(frac) == 10 * (frac[0] as int - '0' as int) + (frac[1] as int - '0' as int)
  {
    if |frac| >= 1 {
      assert frac[..1][..0] == "" && Value(frac[..1]) == frac[0] as int - '0' as int;
    }
    if |frac| == 1 {
      assert frac[..1] == frac;
    }
  }

  lemma TwoDigitsValue(n: nat)
    requires n < 100
    ensures AllDigits(TwoDigits(n)) && Value(TwoDigits(n)) == n
  {
    var s := TwoDigits(n);
    assert s[..1] == [Digit(n / 10)] && s[..1][..0] == "";
    assert Value(s[..1]) == n / 10;
  }

  /** Cut finds the point that Unsigned wrote. */
  lemma {:induction false} CutAtPoint(whole: string, frac: string)
    requires forall i :: 0 <= i < |whole| ==> whole[i] != '.'
    ensures Cut(whole + "." + frac) == (whole, frac, true)
  {
    var s := whole + "." + frac;
    if whole == "" {
      assert s[0] == '.' && s[1..] == frac;
    } else {
      CutAtPoint(whole[1..], frac);
      assert s[0] == whole[0] && s[1..] == whole[1..] + "." + frac;
      assert [whole[0]] + whole[1..] == whole;
    }
  }

  lemma UnsignedDenotes(u: nat)
    ensures MatchesAmount(Unsigned(u)) && Hundredths(Unsigned(u)) == u
    ensures Unsigned(u)[0] != '-'
  {
    CutAtPoint(Decimal(u / 100), TwoDigits(u % 100));
    TwoDigitsValue(u % 100);
    assert Unsigned(u)[0] == Decimal(u / 100)[0];
  }

  /**
   Printing and parsing are inverse: for non-negative amounts through Parse, and for every
   int64 except the smallest through ParseSigned, which refuses that one with overflow.
   */
  lemma AmountRoundTrip(m: Money)
    requires m.valid
    ensures Parse(Amount(m.minor), m.currency) == if m.minor >= 0 then Ok(m) else Err(NegativeAmount)
    ensures ParseSigned(Amount(m.minor), m.currency) == Ok(m) <==> m.minor != MIN_INT64
    ensures m.minor == MIN_INT64 ==> ParseSigned(Amount(m.minor), m.currency) == Err(Overflow)
  {
    var s := Amount(m.minor);
    if m.minor >= 0 {
      UnsignedDenotes(m.minor);
      ParseIsExact(s);
    } else {
      UnsignedDenotes(0 - m.minor);
      assert s[1..] == Unsigned(0 - m.minor);
      ParseIsExact(s[1..]);
      assert !MatchesAmount(s) by {
        var (whole, _, _) := Cut(s);
        assert whole == "" || whole[0] == '-';
      }
    }
  }

  /** Equal text means equal value, so the text can stand for the amount in the payload hash. */
  lemma AmountIsInjective(a: Int64, b: Int64)
    requires Amount(a) == Amount(b)
    ensures a == b
  {
    UnsignedDenotes(if a < 0 then 0 - a else a);
    UnsignedDenotes(if b < 0 then 0 - b else b);
    if a < 0 {
      assert Amount(a)[0] == '-' && Amount(a)[1..] == Unsigned(0 - a);
    }
    if b < 0 {
      assert Amount(b)[0] == '-' && Amount(b)[1..] == Unsigned(0 - b);
    }
  }

  /** Re-normalising is idempotent: equivalent texts of one value print alike. */
  lemma EquivalentTextsPrintAlike(s: string, t: string, currency: string)
    requires Parse(s, currency).Ok? && Parse(t, currency).Ok?
    ensures Amount(Parse(s, currency).value.minor) == Amount(Parse(t, currency).value.minor) <==> Hundredths(s) == Hundredths(t)
  {
    ParseIsExact(s);
    ParseIsExact(t);
    if Amount(Parse(s, currency).value.minor) == Amount(Parse(t, currency).value.minor) {
      AmountIsInjective(Parse(s, currency).value.minor, Parse(t, currency).value.minor);
    }
  }
}
