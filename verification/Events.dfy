/**
 Integration events (internal/domain/events/events.go). The transport fields that follow
 from the type (aggregate type, version, causation) and the JSON rendering are left out.
 */
module Events {
  import opened Basics
  import opened Moneys
  import opened Wallets
  import opened Wagering

  datatype EventBody =
    | BalanceChanged(walletId: Uuid, transactionId: Uuid, direction: Direction, amount: Money,
                     balanceBefore: Money, balanceAfter: Money, walletVersion: int)
    | TransactionProcessed(transactionId: Uuid, req: ExternalRequest, balance: Money, referenceId: Option<Uuid>, processedAt: Time)
    | TransactionRejected(transactionId: Uuid, req: ExternalRequest, failure: FailureCode, rejectedAt: Time)
    | TransactionParked(transactionId: Uuid, req: ExternalRequest, attempt: nat, nextRetry: Time)

  datatype Event = Event(id: Uuid, body: EventBody)

  function AggregateId(b: EventBody): Uuid {
    if b.BalanceChanged? then b.walletId else b.transactionId
  }

  function NewEvent(id: Uuid, body: EventBody): Result<Event> {
    if AggregateId(body) == NIL then Err(InvalidEvent) else Ok(Event(id, body))
  }

  function ChangeOf(e: LedgerEntry, walletVersion: int): EventBody {
    BalanceChanged(e.walletId, e.transactionId, e.direction, e.amount, e.balanceBefore, e.balanceAfter, walletVersion)
  }

  function NewWalletBalanceChanged(id: Uuid, e: LedgerEntry, walletVersion: int): Result<Event> {
    if walletVersion < 1 then Err(InvalidEvent) else NewEvent(id, ChangeOf(e, walletVersion))
  }

  function NewTransactionProcessed(id: Uuid, tx: Snapshot): Result<Event> {
    if !tx.status.Processed? || tx.resultBalance.None? || tx.processedAt.None? then Err(InvalidEvent)
    else NewEvent(id, TransactionProcessed(tx.id, tx.req, tx.resultBalance.value, tx.referenceId, tx.processedAt.value))
  }

  function NewTransactionRejected(id: Uuid, tx: Snapshot): Result<Event> {
    if !tx.status.Rejected? || tx.processedAt.None? then Err(InvalidEvent)
    else NewEvent(id, TransactionRejected(tx.id, tx.req, tx.failure, tx.processedAt.value))
  }

  function NewTransactionParked(id: Uuid, tx: Snapshot): Result<Event> {
    if !tx.status.PendingReference? || tx.nextRetry.None? then Err(InvalidEvent)
    else NewEvent(id, TransactionParked(tx.id, tx.req, tx.attempts, tx.nextRetry.value))
  }

  /** The final events a transaction in this state has caused. */
  function FinalBodies(tx: Snapshot): seq<EventBody> {
    if tx.status.Processed? && tx.resultBalance.Some? && tx.processedAt.Some? then
      [TransactionProcessed(tx.id, tx.req, tx.resultBalance.value, tx.referenceId, tx.processedAt.value)]
    else if tx.status.Rejected? && tx.processedAt.Some? then
      [TransactionRejected(tx.id, tx.req, tx.failure, tx.processedAt.value)]
    else []
  }
}
