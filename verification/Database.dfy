/**
 The tables, the statements that write them, and the constraints the schema puts on each
 statement (migrations/000001_init.up.sql and internal/adapters/postgres).
 */
module Database {
  import opened Basics
  import opened Moneys
  import opened Wallets
  import opened Wagering
  import opened Events
  import opened Rules

  /** A wager_transactions row. A NULL text column stands for "", as nullStr and derefStr map them. */
  datatype TxRow = TxRow(
    id: Uuid,
    origin: Origin,
    req: ExternalRequest,
    key: string,
    hash: string,
    correlationId: string,
    referenceId: Option<Uuid>,
    status: Status,
    failure: FailureCode,
    result: Option<Int64>,
    attempts: nat,
    nextRetry: Option<Time>,
    processedAt: Option<Time>)

  /** Insert and Update keep only the minor units of the result balance. */
  function ToRow(s: Snapshot): TxRow {
    TxRow(s.id, s.origin, s.req, s.key, s.hash, s.correlationId, s.referenceId, s.status, s.failure,
          if s.resultBalance.Some? then Some(s.resultBalance.value.minor) else None,
          s.attempts, s.nextRetry, s.processedAt)
  }

  /** scan reads the result balance back in the transaction's own currency. */
  function FromRow(r: TxRow): Snapshot
    requires r.req.money.valid
  {
    Snapshot(r.id, r.origin, r.req, r.key, r.hash, r.correlationId, r.referenceId, r.status, r.failure,
             if r.result.Some? then Some(Money(r.result.value, r.req.money.currency, true)) else None,
             r.attempts, r.nextRetry, r.processedAt)
  }

  /** Storing and reading back is the identity exactly when the result balance, if any, is in the transaction's currency. */
  lemma RowRoundTrip(s: Snapshot)
    requires s.req.money.valid
    ensures FromRow(ToRow(s)) == s <==>
            (s.resultBalance.Some? ==> s.resultBalance.value.valid && s.resultBalance.value.currency == s.req.money.currency)
  {}

  datatype LedgerRecord = LedgerRecord(seqNo: SeqNo, entry: LedgerEntry)

  datatype InboxKey = InboxKey(consumer: string, messageId: string)

  /** Tables in commit order where the order matters. */
  datatype DB = DB(
    wallets: map<Uuid, WalletState>,
    txs: map<Uuid, TxRow>,
    ledger: seq<LedgerRecord>,
    outbox: seq<Event>,
    inbox: map<InboxKey, string>)

  const EMPTY: DB := DB(map[], map[], [], [], map[])

  // ---- queries ----

  predicate HasKey(r: TxRow, provider: string, key: string) {
    r.origin.External? && r.req.providerId == provider && r.key == key
  }

  predicate HasExternalId(r: TxRow, provider: string, externalId: string) {
    r.origin.External? && r.req.providerId == provider && r.req.externalId == externalId
  }

  ghost predicate KeyTaken(txs: map<Uuid, TxRow>, provider: string, key: string) {
    exists id :: id in txs && HasKey(txs[id], provider, key)
  }

  ghost predicate ExternalIdTaken(txs: map<Uuid, TxRow>, provider: string, externalId: string) {
    exists id :: id in txs && HasExternalId(txs[id], provider, externalId)
  }

  ghost function FindByKey(txs: map<Uuid, TxRow>, provider: string, key: string): (r: Option<TxRow>)
    ensures r.Some? <==> KeyTaken(txs, provider, key)
    ensures r.Some? ==> exists id :: id in txs && txs[id] == r.value && HasKey(txs[id], provider, key)
  {
    if KeyTaken(txs, provider, key) then
      var id :| id in txs && HasKey(txs[id], provider, key);
      Some(txs[id])
    else None
  }

  ghost function FindByExternalId(txs: map<Uuid, TxRow>, provider: string, externalId: string): (r: Option<TxRow>)
    ensures r.Some? <==> ExternalIdTaken(txs, provider, externalId)
    ensures r.Some? ==> exists id :: id in txs && txs[id] == r.value && HasExternalId(txs[id], provider, externalId)
  {
    if ExternalIdTaken(txs, provider, externalId) then
      var id :| id in txs && HasExternalId(txs[id], provider, externalId);
      Some(txs[id])
    else None
  }

  predicate IsProcessedReversalOf(r: TxRow, reference: Uuid) {
    r.referenceId == Some(reference) && r.status.Processed? && r.req.kind.IsReversal()
  }

  ghost predicate HasProcessedReversal(txs: map<Uuid, TxRow>, reference: Uuid) {
    exists id :: id in txs && IsProcessedReversalOf(txs[id], reference)
  }

  /** The transaction a lookup of the reference returns. */
  ghost function ReferenceOf(txs: map<Uuid, TxRow>, tx: Snapshot): Option<Snapshot> {
    var found := FindByExternalId(txs, tx.req.providerId, tx.req.reference);
    if found.Some? && found.value.req.money.valid then Some(FromRow(found.value)) else None
  }

  predicate Due(r: TxRow, now: Time) {
    r.status.PendingReference? && r.nextRetry.Some? && r.nextRetry.value <= now
  }

  /** Every waiting transaction has its next retry still ahead. */
  ghost predicate NothingDue(txs: map<Uuid, TxRow>, now: Time) {
    forall id :: id in txs && txs[id].status == PendingReference && txs[id].nextRetry.Some? ==> now < txs[id].nextRetry.value
  }

  /** A due transaction that no other due one precedes. */
  ghost predicate EarliestDue(txs: map<Uuid, TxRow>, id: Uuid, claimAt: Time) {
    && id in txs && txs[id].status == PendingReference && txs[id].nextRetry.Some? && txs[id].nextRetry.value <= claimAt
    && forall other :: other in txs && txs[other].status == PendingReference && txs[other].nextRetry.Some? ==>
                         txs[id].nextRetry.value <= txs[other].nextRetry.value
  }

  /** The rows of one wallet in commit order. */
  function OfWallet(ledger: seq<LedgerRecord>, walletId: Uuid): seq<LedgerRecord> {
    if ledger == [] then []
    else
      var last := ledger[|ledger| - 1];
      OfWallet(ledger[..|ledger| - 1], walletId) + (if last.entry.walletId == walletId then [last] else [])
  }

  // ---- constraints ----

  /** The CHECK constraints of wager_transactions. */
  predicate RowChecks(r: TxRow) {
    && r.req.money.valid && r.req.money.minor >= 0
    && (r.result.Some? ==> r.result.value >= 0)
    && (r.origin.Internal? <==> r.req.kind.Opening?)
    && (if r.origin.External? then
          r.req.providerId != "" && r.req.externalId != "" && r.key != "" && r.hash != "" && r.req.roundId != "" && r.req.gameId != ""
        else
          r.req.providerId == "" && r.req.externalId == "" && r.key == "" && r.hash == "" && r.req.roundId == "" && r.req.gameId == ""
          && r.req.reference == "" && r.referenceId.None?)
    && (if r.req.kind.Loss? then r.req.money.minor == 0 else r.req.money.minor > 0)
    && (r.req.kind.IsReversal() ==> r.req.reference != "")
    && TerminalShape(r)
  }

  predicate TerminalShape(r: TxRow) {
    match r.status
    case Processed => r.result.Some? && r.failure.NoFailure? && r.processedAt.Some?
    case Rejected => !r.failure.NoFailure? && r.processedAt.Some?
    case Failed => !r.failure.NoFailure? && r.processedAt.Some?
    case PendingReference => r.nextRetry.Some? && r.attempts > 0
    case Pending => true
  }

  /** The CHECK constraints of wallet_ledger_entries. */
  predicate EntryChecks(e: LedgerEntry) {
    && e.amount.minor > 0 && e.balanceBefore.minor >= 0 && e.balanceAfter.minor >= 0
    && e.balanceAfter.minor == e.balanceBefore.minor + e.Signed()
  }

  predicate WalletChecks(w: WalletState) {
    w.balance.minor >= 0 && w.version >= 1
  }

  ghost predicate OwnerTaken(wallets: map<Uuid, WalletState>, playerId: Uuid, currency: string) {
    exists id :: id in wallets && wallets[id].playerId == playerId && wallets[id].currency == currency
  }

  /** The foreign keys of a transaction row, which a row inserted by the same SQL transaction also satisfies. */
  predicate ReferencesExist(db: DB, r: TxRow) {
    && r.req.walletId in db.wallets
    && (r.referenceId.Some? ==> r.referenceId.value in db.txs)
  }

  /** wager_transactions_single_reversal: some other processed reversal has the same reference. */
  ghost predicate ReversalClash(db: DB, r: TxRow) {
    && r.referenceId.Some? && r.status.Processed? && r.req.kind.IsReversal()
    && exists id :: id in db.txs && id != r.id && IsProcessedReversalOf(db.txs[id], r.referenceId.value)
  }

  /** wager_transactions_opening_unique. */
  ghost predicate OpeningClash(db: DB, r: TxRow) {
    && r.req.kind.Opening?
    && exists id :: id in db.txs && id != r.id && db.txs[id].req.kind.Opening? && db.txs[id].req.walletId == r.req.walletId
  }

  /** wager_transactions_guard: terminal rows and identity fields are frozen. */
  predicate GuardAllows(before: TxRow, after: TxRow) {
    && !before.status.IsTerminal()
    && after.id == before.id && after.origin == before.origin && after.req.kind == before.req.kind
    && after.req.walletId == before.req.walletId && after.req.money == before.req.money
    && after.req.providerId == before.req.providerId && after.req.externalId == before.req.externalId
    && after.key == before.key && after.hash == before.hash
  }

  // ---- statements ----

  /**
   One step of a write statement. An INSERT into a table with contended unique indexes takes the
   index entries one by one, in the order the indexes were created, before the row counts as inserted.
   */
  datatype Write =
    | ReserveOwner(playerId: Uuid, currency: string)
    | CreateWallet(wallet: WalletState)
    | ReserveKey(provider: string, key: string)
    | ReserveExternalId(provider: string, externalId: string)
    | InsertTx(row: TxRow)
    | UpdateTx(row: TxRow)
    | AppendLedger(entry: LedgerEntry)
    | UpdateWallet(wallet: WalletState, expectedVersion: int)
    | AddEvent(event: Result<Event>)

  /** The columns an UPDATE of a transaction sets. */
  function Updated(before: TxRow, r: TxRow): TxRow {
    before.(referenceId := r.referenceId, status := r.status, failure := r.failure, result := r.result,
            attempts := r.attempts, nextRetry := r.nextRetry, processedAt := r.processedAt)
  }

  /** The error a write reports against the rows it sees; None when it succeeds. */
  ghost function Violation(db: DB, w: Write): Option<Error> {
    match w
    case ReserveOwner(playerId, currency) =>
      if OwnerTaken(db.wallets, playerId, currency) then Some(WalletExists) else None
    case CreateWallet(wallet) =>
      if wallet.id in db.wallets || !WalletChecks(wallet) then Some(ConstraintViolation) else None
    case ReserveKey(provider, key) =>
      if KeyTaken(db.txs, provider, key) then Some(DuplicateTransaction) else None
    case ReserveExternalId(provider, externalId) =>
      if ExternalIdTaken(db.txs, provider, externalId) then Some(DuplicateTransaction) else None
    case InsertTx(row) =>
      if !RowChecks(row) || !ReferencesExist(db, row) then Some(ConstraintViolation)
      else if row.id in db.txs || OpeningClash(db, row) || ReversalClash(db, row) then Some(DuplicateTransaction)
      else None
    case UpdateTx(row) =>
      if row.id !in db.txs then Some(TransactionNotFound)
      else if !GuardAllows(db.txs[row.id], Updated(db.txs[row.id], row)) || !RowChecks(Updated(db.txs[row.id], row))
              || !ReferencesExist(db, Updated(db.txs[row.id], row)) then Some(ConstraintViolation)
      else if ReversalClash(db, Updated(db.txs[row.id], row)) then Some(DuplicateTransaction)
      else None
    case AppendLedger(entry) =>
      if !EntryChecks(entry) || entry.walletId !in db.wallets || entry.transactionId !in db.txs then Some(ConstraintViolation)
      else if exists k :: 0 <= k < |db.ledger| && (db.ledger[k].entry.id == entry.id
                || (db.ledger[k].entry.walletId == entry.walletId && db.ledger[k].entry.transactionId == entry.transactionId))
      then Some(DuplicateTransaction)
      else None
    case UpdateWallet(wallet, expected) =>
      if wallet.id !in db.wallets || db.wallets[wallet.id].version != expected then Some(ConcurrentModification)
      else if !WalletChecks(wallet) then Some(ConstraintViolation)
      else None
    case AddEvent(event) =>
      if event.Err? then Some(event.error)
      else if exists k :: 0 <= k < |db.outbox| && db.outbox[k].id == event.value.id then Some(ConstraintViolation)
      else None
  }

  /** The rows after a write that succeeded; seqNo is the number the ledger's sequence handed out. */
  function ApplyWrite(db: DB, w: Write, seqNo: SeqNo): DB {
    match w
    case ReserveOwner(_, _) => db
    case CreateWallet(wallet) => db.(wallets := db.wallets[wallet.id := wallet])
    case ReserveKey(_, _) => db
    case ReserveExternalId(_, _) => db
    case InsertTx(row) => db.(txs := db.txs[row.id := row])
    case UpdateTx(row) =>
      if row.id in db.txs then db.(txs := db.txs[row.id := Updated(db.txs[row.id], row)]) else db
    case AppendLedger(entry) => db.(ledger := db.ledger + [LedgerRecord(seqNo, entry)])
    case UpdateWallet(wallet, _) =>
      if wallet.id in db.wallets then
        db.(wallets := db.wallets[wallet.id := db.wallets[wallet.id].(balance := wallet.balance, version := wallet.version)])
      else db
    case AddEvent(event) => if event.Ok? then db.(outbox := db.outbox + [event.value]) else db
  }

  function ApplyAll(db: DB, ws: seq<Write>, seqNo: SeqNo): DB {
    if ws == [] then db else ApplyWrite(ApplyAll(db, ws[..|ws| - 1], seqNo), ws[|ws| - 1], seqNo)
  }

  // ---- the statements of one use case ----

  /** Identifiers drawn for one operation. */
  datatype Ids = Ids(tx: Uuid, entry: Uuid, change: Uuid, final: Uuid)

  /** persistOutcome: ledger, wallet and outbox writes for the final state of the transaction. */
  function PersistWrites(out: Outcome, ids: Ids): seq<Write> {
    match out.tx.status
    case Processed =>
      (if out.entry.Some? then
         [AppendLedger(out.entry.value), UpdateWallet(out.wallet, out.wallet.version - 1),
          AddEvent(NewWalletBalanceChanged(ids.change, out.entry.value, out.wallet.version))]
       else [])
      + [AddEvent(NewTransactionProcessed(ids.final, out.tx))]
    case Rejected => [AddEvent(NewTransactionRejected(ids.final, out.tx))]
    case PendingReference =>
      if out.tx.attempts == 1 then [AddEvent(NewTransactionParked(ids.final, out.tx))] else []
    case _ => [AddEvent(Err(InvalidTransition))]
  }

  /** ProcessIn inserts the decided transaction; the pending worker updates the one it claimed. */
  function TxWrites(out: Outcome, isNew: bool): seq<Write> {
    if isNew then
      [ReserveKey(out.tx.req.providerId, out.tx.key), ReserveExternalId(out.tx.req.providerId, out.tx.req.externalId),
       InsertTx(ToRow(out.tx))]
    else [UpdateTx(ToRow(out.tx))]
  }

  function BodyWrites(out: Outcome, isNew: bool, ids: Ids): seq<Write> {
    TxWrites(out, isNew) + PersistWrites(out, ids)
  }

  /** OpenWallet's opening transaction, already processed, and its ledger entry. */
  datatype OpeningParts = OpeningParts(tx: Snapshot, entry: LedgerEntry)

  function NewOpeningParts(w: WalletState, ids: Ids, correlationId: string, now: Time): Result<OpeningParts> {
    var tx :- NewOpening(ids.tx, w.id, w.playerId, w.balance, correlationId);
    var done :- MarkProcessed(tx, w.balance, now);
    var zero :- Zero(w.currency);
    var entry :- NewLedgerEntry(ids.entry, w.id, done.id, Credit, w.balance, zero, w.balance);
    Ok(OpeningParts(done, entry))
  }

  function OpenWrites(w: WalletState, parts: Option<OpeningParts>, ids: Ids): seq<Write> {
    [ReserveOwner(w.playerId, w.currency), CreateWallet(w)]
    + (if parts.None? then []
       else [InsertTx(ToRow(parts.value.tx)), AppendLedger(parts.value.entry),
             AddEvent(NewTransactionProcessed(ids.final, parts.value.tx)),
             AddEvent(NewWalletBalanceChanged(ids.change, parts.value.entry, w.version))])
  }
}
