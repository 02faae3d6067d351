/**
 What the schema guarantees on its own (migrations/000001_init.up.sql): whatever program runs a statement, a
 statement that is not refused keeps all of this. Only the unique indexes whose entries are taken one by one
 before the row are not among it; they are asked for where a row is inserted.
 */
module Schema {
  import opened Basics
  import opened Wallets
  import opened Wagering
  import opened Database

  predicate HasShape(r: TxRow) {
    match r.status
    case Pending => true
    case PendingReference => r.nextRetry.Some? && r.attempts > 0
    case Processed => r.result.Some? && r.failure == NoFailure && r.processedAt.Some?
    case Rejected => r.failure != NoFailure && r.processedAt.Some?
    case Failed => r.failure != NoFailure && r.processedAt.Some?
  }

  /** Metadata are there for a provider's operation and absent for an opening. */
  predicate HasMetadata(r: TxRow) {
    if r.origin == External then
      r.req.kind != Opening && r.req.providerId != "" && r.req.externalId != "" && r.key != "" && r.hash != "" && r.req.roundId != ""
      && r.req.gameId != ""
    else
      r.req.kind == Opening && r.req.providerId == "" && r.req.externalId == "" && r.key == "" && r.hash == "" && r.req.roundId == ""
      && r.req.gameId == "" && r.req.reference == "" && r.referenceId == None
  }

  predicate RowHolds(r: TxRow) {
    && HasShape(r) && HasMetadata(r)
    && (if r.req.kind == Loss then r.req.money.minor == 0 else r.req.money.minor > 0)
    && (r.req.kind == Refund || r.req.kind == Rollback ==> r.req.reference != "")
    && (r.result.Some? ==> r.result.value >= 0)
  }

  predicate IsReversal(r: TxRow) {
    r.status == Processed && (r.req.kind == Refund || r.req.kind == Rollback) && r.referenceId.Some?
  }

  /** One opening to a wallet, one processed reversal to a transaction. */
  ghost predicate RowsHold(db: DB) {
    && (forall id :: id in db.txs ==> db.txs[id].id == id && RowHolds(db.txs[id]) && db.txs[id].req.walletId in db.wallets)
    && (forall id :: id in db.txs && db.txs[id].referenceId.Some? ==> db.txs[id].referenceId.value in db.txs)
    && (forall a, b | a in db.txs && b in db.txs && a != b && db.txs[a].req.kind == Opening && db.txs[b].req.kind == Opening ::
          db.txs[a].req.walletId != db.txs[b].req.walletId)
    && (forall a, b | a in db.txs && b in db.txs && a != b && IsReversal(db.txs[a]) && IsReversal(db.txs[b]) ::
          db.txs[a].referenceId != db.txs[b].referenceId)
  }

  predicate EntryHolds(e: LedgerEntry) {
    && e.amount.minor > 0 && e.balanceBefore.minor >= 0 && e.balanceAfter.minor >= 0
    && (e.direction == Credit ==> e.balanceAfter.minor == e.balanceBefore.minor + e.amount.minor)
    && (e.direction == Debit ==> e.balanceAfter.minor == e.balanceBefore.minor - e.amount.minor)
  }

  /** One entry to a transaction of a wallet. */
  ghost predicate EntriesHold(db: DB) {
    && (forall k :: 0 <= k < |db.ledger| ==> EntryHolds(db.ledger[k].entry) && db.ledger[k].entry.walletId in db.wallets
                                             && db.ledger[k].entry.transactionId in db.txs)
    && (forall j, k :: 0 <= j < k < |db.ledger| ==>
          && db.ledger[j].entry.id != db.ledger[k].entry.id
          && (db.ledger[j].entry.walletId == db.ledger[k].entry.walletId ==>
                db.ledger[j].entry.transactionId != db.ledger[k].entry.transactionId))
  }

  ghost predicate OthersHold(db: DB) {
    && (forall id :: id in db.wallets ==> db.wallets[id].balance.minor >= 0 && db.wallets[id].version >= 1)
    && (forall j, k :: 0 <= j < k < |db.outbox| ==> db.outbox[j].id != db.outbox[k].id)
  }

  ghost predicate SchemaHolds(db: DB) {
    RowsHold(db) && EntriesHold(db) && OthersHold(db)
  }

  /** Finished transactions stay, identities stay, and the ledger and the outbox only grow. */
  ghost predicate OnlyAdds(db: DB, db': DB) {
    && (forall id :: id in db.txs ==>
          && id in db'.txs && db'.txs[id].origin == db.txs[id].origin && db'.txs[id].req == db.txs[id].req
          && db'.txs[id].key == db.txs[id].key && db'.txs[id].hash == db.txs[id].hash
          && (db.txs[id].status == Processed || db.txs[id].status == Rejected || db.txs[id].status == Failed ==>
                db'.txs[id] == db.txs[id]))
    && (forall id :: id in db.wallets ==> id in db'.wallets && db'.wallets[id].playerId == db.wallets[id].playerId
                                          && db'.wallets[id].currency == db.wallets[id].currency)
    && db.ledger <= db'.ledger && db.outbox <= db'.outbox && db'.inbox == db.inbox
  }

  lemma UpdateOnlyAdds(db: DB, r: TxRow, seqNo: SeqNo)
    requires r.id in db.txs && db.txs[r.id].id == r.id && GuardAllows(db.txs[r.id], Updated(db.txs[r.id], r))
    ensures OnlyAdds(db, ApplyWrite(db, UpdateTx(r), seqNo))
  {
    assert db.txs[r.id].status != Processed && db.txs[r.id].status != Rejected && db.txs[r.id].status != Failed;
  }

  lemma InsertOnlyAdds(db: DB, r: TxRow)
    requires r.id !in db.txs
    ensures OnlyAdds(db, db.(txs := db.txs[r.id := r]))
  {}

  lemma WalletOnlyAdds(db: DB, w: Write, seqNo: SeqNo)
    requires (w.CreateWallet? && w.wallet.id !in db.wallets) || w.UpdateWallet?
    ensures OnlyAdds(db, ApplyWrite(db, w, seqNo))
  {}

  lemma AppendOnlyAdds(db: DB, w: Write, seqNo: SeqNo)
    requires w.ReserveOwner? || w.ReserveKey? || w.ReserveExternalId? || w.AppendLedger? || w.AddEvent?
    ensures OnlyAdds(db, ApplyWrite(db, w, seqNo))
  {}

  lemma StatementsOnlyAdd(db: DB, w: Write, seqNo: SeqNo)
    requires RowsHold(db) && Violation(db, w) == None
    ensures OnlyAdds(db, ApplyWrite(db, w, seqNo))
  {
    hide RowHolds, RowChecks, EntryChecks, ReversalClash, OpeningClash, GuardAllows, WalletChecks, KeyTaken, ExternalIdTaken,
      OwnerTaken, OnlyAdds, IsReversal;
    match w
    case UpdateTx(r) => UpdateOnlyAdds(db, r, seqNo);
    case InsertTx(r) => InsertOnlyAdds(db, r);
    case CreateWallet(_) => WalletOnlyAdds(db, w, seqNo);
    case UpdateWallet(_, _) => WalletOnlyAdds(db, w, seqNo);
    case _ => AppendOnlyAdds(db, w, seqNo);
  }

  lemma ChecksHold(r: TxRow)
    requires RowChecks(r)
    ensures RowHolds(r)
  {}

  /** A row put into the table. */
  lemma RowPut(db: DB, r: TxRow)
    requires RowsHold(db) && RowHolds(r) && ReferencesExist(db, r) && !ReversalClash(db, r)
    requires r.req.kind == Opening ==>
               forall id :: id in db.txs && id != r.id && db.txs[id].req.kind == Opening ==> db.txs[id].req.walletId != r.req.walletId
    ensures RowsHold(db.(txs := db.txs[r.id := r]))
  {
    hide RowHolds;
    forall id | id in db.txs && id != r.id && IsReversal(db.txs[id]) && IsReversal(r) ensures db.txs[id].referenceId != r.referenceId {
      assert !IsProcessedReversalOf(db.txs[id], r.referenceId.value);
    }
  }

  lemma InsertKeepsRows(db: DB, r: TxRow)
    requires RowsHold(db) && Violation(db, InsertTx(r)) == None
    ensures RowsHold(db.(txs := db.txs[r.id := r]))
  {
    hide RowHolds, RowChecks, ReversalClash, RowsHold;
    ChecksHold(r);
    RowPut(db, r);
  }

  lemma UpdateKeepsRows(db: DB, r: TxRow)
    requires RowsHold(db) && Violation(db, UpdateTx(r)) == None
    ensures RowsHold(db.(txs := db.txs[r.id := Updated(db.txs[r.id], r)]))
  {
    hide RowHolds, RowChecks, ReversalClash, IsReversal;
    ChecksHold(Updated(db.txs[r.id], r));
    RowPut(db, Updated(db.txs[r.id], r));
  }

  lemma RowsStay(db: DB, w: Write, seqNo: SeqNo)
    requires RowsHold(db) && Violation(db, w) == None
    ensures RowsHold(ApplyWrite(db, w, seqNo))
  {
    if w.InsertTx? {
      hide Violation, RowsHold;
      InsertKeepsRows(db, w.row);
    } else if w.UpdateTx? {
      UpdateKeepsRows(db, w.row);
    } else {
      OtherStatementsKeepRows(db, w, seqNo);
    }
  }

  lemma OtherStatementsKeepRows(db: DB, w: Write, seqNo: SeqNo)
    requires RowsHold(db) && !w.InsertTx? && !w.UpdateTx?
    ensures RowsHold(ApplyWrite(db, w, seqNo))
  {
    hide RowHolds, IsReversal;
  }

  lemma EntriesStay(db: DB, w: Write, seqNo: SeqNo)
    requires EntriesHold(db) && Violation(db, w) == None
    ensures EntriesHold(ApplyWrite(db, w, seqNo))
  {
    hide RowChecks, WalletChecks, ReferencesExist;
  }

  lemma OthersStay(db: DB, w: Write, seqNo: SeqNo)
    requires OthersHold(db) && Violation(db, w) == None
    ensures OthersHold(ApplyWrite(db, w, seqNo))
  {
    hide RowChecks, EntryChecks, ReferencesExist;
  }

  /** Any statement the schema lets through, on any tables, whoever runs it. */
  lemma StatementsKeepSchema(db: DB, w: Write, seqNo: SeqNo)
    requires SchemaHolds(db) && Violation(db, w) == None
    ensures SchemaHolds(ApplyWrite(db, w, seqNo)) && OnlyAdds(db, ApplyWrite(db, w, seqNo))
  {
    hide RowsHold, EntriesHold, OthersHold, Violation, ApplyWrite;
    RowsStay(db, w, seqNo);
    EntriesStay(db, w, seqNo);
    OthersStay(db, w, seqNo);
    StatementsOnlyAdd(db, w, seqNo);
  }

  /** The optimistic lock: a wallet is updated only by whoever knows its stored version. */
  lemma StaleUpdatesAreRefused(db: DB, wallet: WalletState, expected: int)
    ensures Violation(db, UpdateWallet(wallet, expected)) == Some(ConcurrentModification) <==>
              !(wallet.id in db.wallets && db.wallets[wallet.id].version == expected)
  {}
}
