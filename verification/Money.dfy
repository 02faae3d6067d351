/**
 Amounts in minor units bound to a currency (internal/domain/money/money.go).
 The arithmetic is int64 arithmetic: every intermediate value below is an Int64,
 so the verifier checks that the guards themselves cannot wrap around.
 */
module Moneys {
  import opened Basics

  /** currencyPattern: three upper-case ASCII letters. */
  predicate ValidCurrency(code: string) {
    |code| == 3 && 'A' <= code[0] <= 'Z' && 'A' <= code[1] <= 'Z' && 'A' <= code[2] <= 'Z'
  }

  /** The fields are private in Go: a value is the zero value, which every operation refuses, or went through a constructor. */
  type Money = m: MoneyValue | if m.valid then ValidCurrency(m.currency) else m == Money(0, "", false) witness Money(0, "", false)

  datatype MoneyValue = Money(minor: Int64, currency: string, valid: bool) {

    predicate IsZero() { minor == 0 }

    predicate IsNegative() { minor < 0 }

    predicate IsPositive() { minor > 0 }

    function Check(o: MoneyValue): Option<Error> {
      if !valid || !o.valid then Some(Uninitialized)
      else if currency != o.currency then Some(CurrencyMismatch)
      else None
    }

    /** Fails exactly when the true sum leaves int64; no intermediate value does. */
    function Add(o: MoneyValue): (r: Result<MoneyValue>)
      ensures Check(o).None? ==>
                r == if FitsInt64(minor + o.minor) then Ok(Money(minor + o.minor, currency, true)) else Err(Overflow)
    {
      if Check(o).Some? then Err(Check(o).value)
      else if o.minor > 0 && (var limit: Int64 := MAX_INT64 - o.minor; minor > limit) then Err(Overflow)
      else if o.minor < 0 && (var limit: Int64 := MIN_INT64 - o.minor; minor < limit) then Err(Overflow)
      else Ok(Money(minor + o.minor, currency, true))
    }

    /** Fails exactly when the true difference leaves int64; no intermediate value does. */
    function Sub(o: MoneyValue): (r: Result<MoneyValue>)
      ensures Check(o).None? ==>
                r == if FitsInt64(minor - o.minor) then Ok(Money(minor - o.minor, currency, true)) else Err(Overflow)
    {
      if Check(o).Some? then Err(Check(o).value)
      else if o.minor < 0 && (var limit: Int64 := MAX_INT64 + o.minor; minor > limit) then Err(Overflow)
      else if o.minor > 0 && (var limit: Int64 := MIN_INT64 + o.minor; minor < limit) then Err(Overflow)
      else Ok(Money(minor - o.minor, currency, true))
    }

    function Negate(): (r: Result<MoneyValue>)
      ensures valid ==> r == if FitsInt64(0 - minor) then Ok(Money(0 - minor, currency, true)) else Err(Overflow)
    {
      if !valid then Err(Uninitialized)
      else if minor == MIN_INT64 then Err(Overflow)
      else Ok(Money(-minor, currency, true))
    }

    function Compare(o: MoneyValue): Result<int> {
      if Check(o).Some? then Err(Check(o).value)
      else if minor < o.minor then Ok(-1)
      else if minor > o.minor then Ok(1)
      else Ok(0)
    }

    predicate Equal(o: MoneyValue) {
      valid && o.valid && currency == o.currency && minor == o.minor
    }

    predicate SameCurrency(o: MoneyValue) {
      valid && o.valid && currency == o.currency
    }
  }

  function FromMinor(minor: Int64, currency: string): Result<Money> {
    if ValidCurrency(currency) then Ok(Money(minor, currency, true)) else Err(InvalidCurrency)
  }

  function Zero(currency: string): Result<Money> {
    FromMinor(0, currency)
  }

  /** Adding and then subtracting the same amount gives the amount back. */
  lemma SubUndoesAdd(m: Money, o: Money)
    requires m.Add(o).Ok?
    ensures m.Add(o).value.Sub(o) == Ok(m)
    ensures o.Add(m) == m.Add(o)
  {}
}
