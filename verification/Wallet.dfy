/**
 The wallet aggregate and its ledger entries (internal/domain/wallet/wallet.go).
 The functions specify one operation on the wallet's state; the class updates its
 fields in place as the source does and is proved against them.
 */
module Wallets {
  import opened Basics
  import opened Moneys

  datatype Direction = Debit | Credit

  datatype LedgerEntry = LedgerEntry(
    id: Uuid,
    walletId: Uuid,
    transactionId: Uuid,
    direction: Direction,
    amount: Money,
    balanceBefore: Money,
    balanceAfter: Money)
  {
    /** The effect of the entry on the balance. */
    function Signed(): int {
      if direction == Credit then amount.minor else 0 - amount.minor
    }
  }

  /** balanceAfter = balanceBefore plus or minus amount, with everything in one currency and no negative balance. */
  predicate WellFormedEntry(e: LedgerEntry) {
    && e.id != NIL && e.walletId != NIL && e.transactionId != NIL
    && e.amount.SameCurrency(e.balanceBefore) && e.amount.SameCurrency(e.balanceAfter)
    && e.amount.IsPositive()
    && !e.balanceBefore.IsNegative() && !e.balanceAfter.IsNegative()
    && e.balanceAfter.minor == e.balanceBefore.minor + e.Signed()
  }

  function NewLedgerEntry(id: Uuid, walletId: Uuid, transactionId: Uuid, dir: Direction,
                          amount: Money, before: Money, after: Money): (r: Result<LedgerEntry>)
    ensures r.Ok? <==> WellFormedEntry(LedgerEntry(id, walletId, transactionId, dir, amount, before, after))
    ensures r.Ok? ==> r.value == LedgerEntry(id, walletId, transactionId, dir, amount, before, after)
    ensures r.Err? ==> r.error == InvalidLedger
  {
    if id == NIL || walletId == NIL || transactionId == NIL then Err(InvalidLedger)
    else if !amount.valid || !before.valid || !after.valid then Err(InvalidLedger)
    else if !amount.SameCurrency(before) || !amount.SameCurrency(after) then Err(InvalidLedger)
    else if !amount.IsPositive() then Err(InvalidLedger)
    else if before.IsNegative() || after.IsNegative() then Err(InvalidLedger)
    else
      var expected := if dir == Credit then before.Add(amount) else before.Sub(amount);
      if expected.Err? then Err(InvalidLedger)
      else if !expected.value.Equal(after) then Err(InvalidLedger)
      else Ok(LedgerEntry(id, walletId, transactionId, dir, amount, before, after))
  }

  datatype WalletState = WalletState(id: Uuid, playerId: Uuid, currency: string, balance: Money, version: int)

  predicate ValidWallet(s: WalletState) {
    && s.id != NIL && s.playerId != NIL
    && s.balance.valid && s.balance.currency == s.currency && ValidCurrency(s.currency)
    && !s.balance.IsNegative()
    && s.version >= 1
  }

  function Open(id: Uuid, playerId: Uuid, initial: Money): Result<WalletState> {
    if id == NIL || playerId == NIL then Err(InvalidWallet)
    else if !initial.valid then Err(InvalidWallet)
    else if initial.IsNegative() then Err(InvalidWallet)
    else Ok(WalletState(id, playerId, initial.currency, initial, 1))
  }

  function Rehydrate(id: Uuid, playerId: Uuid, balance: Money, version: int): Result<WalletState> {
    if id == NIL || playerId == NIL then Err(InvalidWallet)
    else if !balance.valid || balance.IsNegative() then Err(InvalidWallet)
    else if version < 1 then Err(InvalidWallet)
    else Ok(WalletState(id, playerId, balance.currency, balance, version))
  }

  function ValidateMovement(s: WalletState, amount: Money): Option<Error> {
    if !amount.valid then Some(Uninitialized)
    else if amount.currency != s.currency then Some(WalletCurrencyMismatch)
    else if !amount.IsPositive() then Some(NonPositiveAmount)
    else None
  }

  datatype Movement = Movement(wallet: WalletState, entry: LedgerEntry)

  function Moved(s: WalletState, after: Money): WalletState {
    s.(balance := after, version := s.version + 1)
  }

  function DebitSpec(s: WalletState, entryId: Uuid, transactionId: Uuid, amount: Money): Result<Movement> {
    if ValidateMovement(s, amount).Some? then Err(ValidateMovement(s, amount).value)
    else
      var after :- s.balance.Sub(amount);
      if after.IsNegative() then Err(InsufficientFunds)
      else
        var entry :- NewLedgerEntry(entryId, s.id, transactionId, Debit, amount, s.balance, after);
        Ok(Movement(Moved(s, after), entry))
  }

  function CreditSpec(s: WalletState, entryId: Uuid, transactionId: Uuid, amount: Money): Result<Movement> {
    if ValidateMovement(s, amount).Some? then Err(ValidateMovement(s, amount).value)
    else
      var after :- s.balance.Add(amount);
      var entry :- NewLedgerEntry(entryId, s.id, transactionId, Credit, amount, s.balance, after);
      Ok(Movement(Moved(s, after), entry))
  }

  /**
   A positive debit in the wallet's currency succeeds exactly when the balance covers it
   and fails with InsufficientFunds otherwise, never with an overflow.
   */
  lemma DebitOutcome(s: WalletState, entryId: Uuid, transactionId: Uuid, amount: Money)
    requires ValidWallet(s) && entryId != NIL && transactionId != NIL
    requires amount.valid && amount.currency == s.currency && amount.IsPositive()
    ensures DebitSpec(s, entryId, transactionId, amount).Ok? <==> amount.minor <= s.balance.minor
    ensures DebitSpec(s, entryId, transactionId, amount).Err? ==> DebitSpec(s, entryId, transactionId, amount).error == InsufficientFunds
  {}

  /** A positive credit in the wallet's currency succeeds exactly when the new balance fits int64. */
  lemma CreditOutcome(s: WalletState, entryId: Uuid, transactionId: Uuid, amount: Money)
    requires ValidWallet(s) && entryId != NIL && transactionId != NIL
    requires amount.valid && amount.currency == s.currency && amount.IsPositive()
    ensures CreditSpec(s, entryId, transactionId, amount).Ok? <==> FitsInt64(s.balance.minor + amount.minor)
    ensures CreditSpec(s, entryId, transactionId, amount).Err? ==> CreditSpec(s, entryId, transactionId, amount).error == Overflow
  {}

  /** What every successful movement keeps: a valid wallet, one version step, and an entry that explains the new balance. */
  ghost predicate Explains(before: WalletState, m: Movement, entryId: Uuid, transactionId: Uuid, amount: Money,
                           dir: Direction) {
    && ValidWallet(m.wallet)
    && m.wallet == before.(balance := m.entry.balanceAfter, version := before.version + 1)
    && WellFormedEntry(m.entry)
    && m.entry.id == entryId && m.entry.walletId == before.id && m.entry.transactionId == transactionId
    && m.entry.amount == amount && m.entry.direction == dir
    && m.entry.balanceBefore == before.balance
  }

  lemma MovementsExplainTheBalance(s: WalletState, entryId: Uuid, transactionId: Uuid, amount: Money)
    requires ValidWallet(s)
    ensures DebitSpec(s, entryId, transactionId, amount).Ok? ==>
              Explains(s, DebitSpec(s, entryId, transactionId, amount).value, entryId, transactionId, amount, Debit)
    ensures CreditSpec(s, entryId, transactionId, amount).Ok? ==>
              Explains(s, CreditSpec(s, entryId, transactionId, amount).value, entryId, transactionId, amount, Credit)
  {}

  /** Debiting what was just credited restores the balance and shows in two ledger entries. */
  lemma DebitUndoesCredit(s: WalletState, e1: Uuid, t1: Uuid, e2: Uuid, t2: Uuid, amount: Money)
    requires ValidWallet(s) && e2 != NIL && t2 != NIL
    requires CreditSpec(s, e1, t1, amount).Ok?
    ensures var credited := CreditSpec(s, e1, t1, amount).value;
            var r := DebitSpec(credited.wallet, e2, t2, amount);
            && r.Ok?
            && r.value.wallet == s.(version := s.version + 2)
            && r.value.entry.balanceBefore == credited.entry.balanceAfter
            && r.value.entry.balanceAfter == credited.entry.balanceBefore
  {
    MovementsExplainTheBalance(s, e1, t1, amount);
    var credited := CreditSpec(s, e1, t1, amount).value;
    DebitOutcome(credited.wallet, e2, t2, amount);
    SubUndoesAdd(s.balance, amount);
  }

  /** The aggregate root: balance and version change only in Debit and Credit. */
  class Wallet {
    const id: Uuid
    const playerId: Uuid
    const currency: string
    var balance: Money
    var version: int

    function State(): WalletState
      reads this
    {
      WalletState(id, playerId, currency, balance, version)
    }

    constructor (s: WalletState)
      ensures State() == s
    {
      id, playerId, currency := s.id, s.playerId, s.currency;
      balance, version := s.balance, s.version;
    }

    method Apply(after: Money)
      modifies this
      ensures State() == Moved(old(State()), after)
    {
      balance := after;
      version := version + 1;
    }

    method DebitAmount(entryId: Uuid, transactionId: Uuid, amount: Money) returns (r: Result<LedgerEntry>)
      modifies this
      ensures var spec := DebitSpec(old(State()), entryId, transactionId, amount);
              if spec.Ok? then r == Ok(spec.value.entry) && State() == spec.value.wallet
              else r == Err(spec.error) && State() == old(State())
    {
      var invalid := ValidateMovement(State(), amount);
      if invalid.Some? {
        return Err(invalid.value);
      }
      var after := balance.Sub(amount);
      if after.Err? {
        return Err(after.error);
      }
      if after.value.IsNegative() {
        return Err(InsufficientFunds);
      }
      r := NewLedgerEntry(entryId, id, transactionId, Debit, amount, balance, after.value);
      if r.Ok? {
        Apply(after.value);
      }
    }

    method CreditAmount(entryId: Uuid, transactionId: Uuid, amount: Money) returns (r: Result<LedgerEntry>)
      modifies this
      ensures var spec := CreditSpec(old(State()), entryId, transactionId, amount);
              if spec.Ok? then r == Ok(spec.value.entry) && State() == spec.value.wallet
              else r == Err(spec.error) && State() == old(State())
    {
      var invalid := ValidateMovement(State(), amount);
      if invalid.Some? {
        return Err(invalid.value);
      }
      var after := balance.Add(amount);
      if after.Err? {
        return Err(after.error);
      }
      r := NewLedgerEntry(entryId, id, transactionId, Credit, amount, balance, after.value);
      if r.Ok? {
        Apply(after.value);
      }
    }

    /** CanDebit agrees with what a debit would do. */
    method CanDebit(amount: Money) returns (r: Result<bool>)
      requires ValidWallet(State())
      ensures r.Ok? <==> ValidateMovement(State(), amount).None?
      ensures r.Ok? ==> (r.value <==> DebitSpec(State(), 1, 1, amount).Ok?)
    {
      var invalid := ValidateMovement(State(), amount);
      if invalid.Some? {
        return Err(invalid.value);
      }
      var c := balance.Compare(amount);
      DebitOutcome(State(), 1, 1, amount);
      return match c case Ok(v) => Ok(v >= 0) case Err(e) => Err(e);
    }
  }
}
