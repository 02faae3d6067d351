/**
 Types shared by every module: optional values, results that carry one of the
 program's error values, Go's int64, and identifiers.
 */
module Basics {

  datatype Option<+T> = None | Some(value: T)

  /** The errors the modelled code tells apart with errors.Is. */
  datatype Error =
    // internal/domain/money
    | InvalidAmount | InvalidCurrency | NegativeAmount | Overflow | CurrencyMismatch | Uninitialized
    // internal/domain/wallet
    | InvalidWallet | InsufficientFunds | WalletCurrencyMismatch | NonPositiveAmount | InvalidLedger
    // internal/domain/wagering
    | Validation | InvalidTransition | Terminal
    // internal/domain/events
    | InvalidEvent
    // internal/app
    | WalletNotFound | WalletExists | TransactionNotFound | IdempotencyConflict | ExternalIdConflict
    | DuplicateTransaction | ConcurrentModification | InvalidCursor
    // any other statement error: a CHECK, foreign key, primary key or trigger of the schema
    | ConstraintViolation

  datatype Result<+T> = Ok(value: T) | Err(error: Error) {
    predicate IsFailure() {
      Err?
    }

    function PropagateFailure<U>(): Result<U>
      requires Err?
    {
      Err(error)
    }

    function Extract(): T
      requires Ok?
    {
      value
    }
  }

  const MIN_INT64: int := -0x8000_0000_0000_0000
  const MAX_INT64: int := 0x7fff_ffff_ffff_ffff

  type Int64 = x: int | MIN_INT64 <= x <= MAX_INT64

  predicate FitsInt64(x: int) {
    MIN_INT64 <= x <= MAX_INT64
  }

  /** A 128-bit identifier as a number; 0 is uuid.Nil. */
  const UUID_LIMIT: nat := 0x1_0000_0000_0000_0000_0000_0000_0000_0000

  type Uuid = x: nat | x < UUID_LIMIT

  const NIL: Uuid := 0

  /** What a BIGSERIAL hands out. */
  type SeqNo = n: nat | n >= 1 witness 1

  /** Instants on one clock. */
  type Time = int
}
