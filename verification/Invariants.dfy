/**
 What every reachable committed state of the database satisfies.
 */
module Invariants {
  import opened Basics
  import opened Wallets
  import opened Wagering
  import opened Events
  import opened Rules
  import opened Database
  import PayloadHash

  // ---- wallets ----

  ghost predicate WalletsOk(wallets: map<Uuid, WalletState>) {
    forall id :: id in wallets ==> ValidWallet(wallets[id]) && wallets[id].id == id
  }

  /** One wallet per player and currency. */
  ghost predicate OwnersUnique(wallets: map<Uuid, WalletState>) {
    forall a, b | a in wallets && b in wallets && wallets[a].playerId == wallets[b].playerId :: wallets[a].currency == wallets[b].currency ==> a == b
  }

  // ---- transactions ----

  /** A committed row: schema-conforming, rehydratable, and in a state the use cases leave behind. */
  ghost predicate RowOk(id: Uuid, r: TxRow) {
    && r.id == id && id != NIL
    && RowChecks(r)
    && r.req.playerId != NIL && r.req.walletId != NIL
    && (r.status.Processed? || r.status.Rejected? || r.status.PendingReference?)
    && (r.origin.External? ==> ValidRequest(r.req) && r.hash == PayloadHash.Preimage(r.req))
    && (r.origin.Internal? ==> r.status.Processed?)
    && Coherent(FromRow(r))
    && (r.status.IsTerminal() ==> r.result.Some?)
  }

  ghost predicate TxsOk(txs: map<Uuid, TxRow>, wallets: map<Uuid, WalletState>) {
    forall id :: id in txs ==> RowOk(id, txs[id]) && txs[id].req.walletId in wallets
  }

  ghost predicate KeysUnique(txs: map<Uuid, TxRow>) {
    forall a, b :: a in txs && b in txs && HasKey(txs[a], txs[b].req.providerId, txs[b].key) && txs[b].origin.External? ==> a == b
  }

  ghost predicate ExternalIdsUnique(txs: map<Uuid, TxRow>) {
    forall a, b :: a in txs && b in txs && HasExternalId(txs[a], txs[b].req.providerId, txs[b].req.externalId) && txs[b].origin.External? ==> a == b
  }

  ghost predicate OpeningsUnique(txs: map<Uuid, TxRow>) {
    forall a, b | a in txs && b in txs && txs[a].req.kind.Opening? && txs[b].req.kind.Opening? ::
      txs[a].req.walletId == txs[b].req.walletId ==> a == b
  }

  // ---- references ----

  /** The resolved reference of a processed row. */
  ghost predicate SoundRow(r: TxRow, ref: TxRow) {
    && ref.status.Processed?
    && AllowedReference(r.req.kind, ref.req.kind)
    && HasExternalId(ref, r.req.providerId, r.req.reference)
    && ref.req.playerId == r.req.playerId && ref.req.walletId == r.req.walletId
    && ref.req.roundId == r.req.roundId && ref.req.money.currency == r.req.money.currency
    && (r.req.kind.IsReversal() ==> ref.req.money.minor == r.req.money.minor)
  }

  ghost predicate ReferenceOk(txs: map<Uuid, TxRow>, r: TxRow) {
    && (r.referenceId.Some? ==> r.referenceId.value in txs && txs[r.referenceId.value].status.Processed?)
    && (r.status.Processed? && r.req.kind.IsReversal() ==> r.referenceId.Some?)
    && (r.status.Processed? && r.referenceId.Some? ==> SoundRow(r, txs[r.referenceId.value]))
  }

  ghost predicate ReferencesOk(txs: map<Uuid, TxRow>) {
    forall id :: id in txs ==> ReferenceOk(txs, txs[id])
  }

  /** At most one processed reversal per referenced transaction. */
  ghost predicate ReversalsUnique(txs: map<Uuid, TxRow>) {
    forall a, b | a in txs && b in txs && txs[b].referenceId.Some? && IsProcessedReversalOf(txs[b], txs[b].referenceId.value) ::
      IsProcessedReversalOf(txs[a], txs[b].referenceId.value) ==> a == b
  }

  // ---- ledger ----

  function RowDirection(txs: map<Uuid, TxRow>, r: TxRow): Direction {
    MoneyDirection(r.req.kind,
                   if r.referenceId.Some? && r.referenceId.value in txs then Some(txs[r.referenceId.value].req.kind) else None)
  }

  predicate MovesMoney(r: TxRow) {
    r.status.Processed? && !r.req.kind.Loss?
  }

  /** A ledger entry belongs to the processed transaction it names and records its money and result. */
  ghost predicate EntryOk(txs: map<Uuid, TxRow>, e: LedgerEntry) {
    && WellFormedEntry(e)
    && e.transactionId in txs
    && var r := txs[e.transactionId];
       && MovesMoney(r)
       && r.req.walletId == e.walletId && r.req.money == e.amount
       && r.result == Some(e.balanceAfter.minor)
       && e.direction == RowDirection(txs, r)
  }

  ghost predicate EntriesOk(txs: map<Uuid, TxRow>, ledger: seq<LedgerRecord>) {
    forall k :: 0 <= k < |ledger| ==> EntryOk(txs, ledger[k].entry)
  }

  ghost predicate EntriesDistinct(ledger: seq<LedgerRecord>) {
    forall i, j :: 0 <= i < j < |ledger| ==>
                     ledger[i].entry.transactionId != ledger[j].entry.transactionId && ledger[i].entry.id != ledger[j].entry.id
  }

  ghost predicate HasEntry(ledger: seq<LedgerRecord>, txId: Uuid) {
    exists k :: 0 <= k < |ledger| && ledger[k].entry.transactionId == txId
  }

  ghost predicate EntriesComplete(txs: map<Uuid, TxRow>, ledger: seq<LedgerRecord>) {
    forall id :: id in txs && MovesMoney(txs[id]) ==> HasEntry(ledger, id)
  }

  /** The entry of a referenced transaction comes before the entry of the one that refers to it. */
  ghost predicate ReferencesPrecede(txs: map<Uuid, TxRow>, ledger: seq<LedgerRecord>) {
    forall k :: 0 <= k < |ledger| && ledger[k].entry.transactionId in txs && txs[ledger[k].entry.transactionId].referenceId.Some? ==>
                  HasEntry(ledger[..k], txs[ledger[k].entry.transactionId].referenceId.value)
  }

  /** Entries of one wallet: from zero, each taking over the balance the previous one left, up to the stored balance. */
  ghost predicate Chained(rows: seq<LedgerRecord>, balance: int) {
    && (rows == [] ==> balance == 0)
    && (rows != [] ==> rows[0].entry.balanceBefore.minor == 0 && rows[|rows| - 1].entry.balanceAfter.minor == balance)
    && (forall i :: 0 < i < |rows| ==> rows[i].entry.balanceBefore.minor == rows[i - 1].entry.balanceAfter.minor)
  }

  ghost predicate SeqIncreasing(rows: seq<LedgerRecord>) {
    forall i, j :: 0 <= i < j < |rows| ==> rows[i].seqNo < rows[j].seqNo
  }

  predicate IsOpeningEntry(txs: map<Uuid, TxRow>, e: LedgerEntry) {
    e.transactionId in txs && txs[e.transactionId].req.kind.Opening?
  }

  /** 0 when the wallet was opened with money, so that its first entry is at version 1; otherwise 1. */
  function VersionOffset(txs: map<Uuid, TxRow>, rows: seq<LedgerRecord>): nat {
    if rows != [] && IsOpeningEntry(txs, rows[0].entry) then 0 else 1
  }

  ghost predicate WalletLedgerOk(txs: map<Uuid, TxRow>, rows: seq<LedgerRecord>, w: WalletState) {
    && Chained(rows, w.balance.minor)
    && SeqIncreasing(rows)
    && (forall i :: 0 <= i < |rows| ==> rows[i].entry.walletId == w.id && rows[i].entry.amount.currency == w.currency)
    && (forall i :: 0 < i < |rows| ==> !IsOpeningEntry(txs, rows[i].entry))
    && w.version == |rows| + VersionOffset(txs, rows)
  }

  ghost predicate LedgersOk(db: DB) {
    forall id :: id in db.wallets ==> WalletLedgerOk(db.txs, OfWallet(db.ledger, id), db.wallets[id])
  }

  // ---- outbox ----

  /** The balance changes announced for a wallet, in commit order. */
  function ChangesOf(outbox: seq<Event>, walletId: Uuid): seq<EventBody> {
    if outbox == [] then []
    else
      var last := outbox[|outbox| - 1].body;
      ChangesOf(outbox[..|outbox| - 1], walletId) + (if last.BalanceChanged? && last.walletId == walletId then [last] else [])
  }

  predicate IsFinalOf(b: EventBody, txId: Uuid) {
    (b.TransactionProcessed? || b.TransactionRejected?) && b.transactionId == txId
  }

  /** The processed and rejected events of a transaction. */
  function FinalsOf(outbox: seq<Event>, txId: Uuid): seq<EventBody> {
    if outbox == [] then []
    else
      var last := outbox[|outbox| - 1].body;
      FinalsOf(outbox[..|outbox| - 1], txId) + (if IsFinalOf(last, txId) then [last] else [])
  }

  function ParkedOf(outbox: seq<Event>, txId: Uuid): seq<EventBody> {
    if outbox == [] then []
    else
      var last := outbox[|outbox| - 1].body;
      ParkedOf(outbox[..|outbox| - 1], txId) + (if last.TransactionParked? && last.transactionId == txId then [last] else [])
  }

  /** One announcement per ledger entry, with contiguous wallet versions. */
  ghost predicate ChangesMatch(changes: seq<EventBody>, rows: seq<LedgerRecord>, offset: nat) {
    && |changes| == |rows|
    && forall i :: 0 <= i < |rows| ==> changes[i] == ChangeOf(rows[i].entry, i + 1 + offset)
  }

  ghost predicate ChangesOk(db: DB) {
    forall id :: id in db.wallets ==>
                   ChangesMatch(ChangesOf(db.outbox, id), OfWallet(db.ledger, id), VersionOffset(db.txs, OfWallet(db.ledger, id)))
  }

  ghost predicate NothingWithoutWallet(db: DB) {
    forall id {:trigger OfWallet(db.ledger, id)} {:trigger ChangesOf(db.outbox, id)} ::
      id !in db.wallets ==> OfWallet(db.ledger, id) == [] && ChangesOf(db.outbox, id) == []
  }

  /** Exactly one final event for a terminal transaction, saying what the row says; none for any other. */
  ghost predicate FinalsMatch(txs: map<Uuid, TxRow>, finals: seq<EventBody>, txId: Uuid) {
    finals == if txId in txs && txs[txId].req.money.valid then FinalBodies(FromRow(txs[txId])) else []
  }

  ghost predicate FinalsOk(db: DB) {
    forall id :: FinalsMatch(db.txs, FinalsOf(db.outbox, id), id)
  }

  /** Exactly one parking event, the first attempt's, for a transaction that was ever parked. */
  ghost predicate ParkedMatches(txs: map<Uuid, TxRow>, parked: seq<EventBody>, txId: Uuid) {
    if txId in txs && txs[txId].attempts > 0 then
      |parked| == 1 && parked[0].TransactionParked? && parked[0].attempt == 1 && parked[0].req == txs[txId].req
    else parked == []
  }

  ghost predicate ParkedOk(db: DB) {
    forall id :: ParkedMatches(db.txs, ParkedOf(db.outbox, id), id)
  }

  // ---- inbox ----

  /** Some committed transaction has the key and payload that this inbox hash was computed from. */
  ghost predicate Answered(txs: map<Uuid, TxRow>, hash: string) {
    exists id :: id in txs && txs[id].origin.External? && txs[id].hash + "|" + txs[id].key == hash
  }

  ghost predicate InboxOk(db: DB) {
    forall k :: k in db.inbox ==> Answered(db.txs, db.inbox[k])
  }

  // ---- all of it ----

  ghost predicate TablesOk(db: DB) {
    && WalletsOk(db.wallets) && OwnersUnique(db.wallets)
    && TxsOk(db.txs, db.wallets)
    && KeysUnique(db.txs) && ExternalIdsUnique(db.txs) && OpeningsUnique(db.txs)
    && ReferencesOk(db.txs) && ReversalsUnique(db.txs)
  }

  ghost predicate LedgerOk(db: DB) {
    && EntriesOk(db.txs, db.ledger) && EntriesDistinct(db.ledger) && EntriesComplete(db.txs, db.ledger)
    && ReferencesPrecede(db.txs, db.ledger)
    && LedgersOk(db)
  }

  ghost predicate EventsOk(db: DB) {
    ChangesOk(db) && FinalsOk(db) && ParkedOk(db)
  }

  ghost predicate DbInv(db: DB) {
    TablesOk(db) && LedgerOk(db) && NothingWithoutWallet(db) && EventsOk(db) && InboxOk(db)
  }

  lemma EmptyDatabaseIsOk()
    ensures DbInv(EMPTY)
  {}
}
