/**
 Committing one decided operation keeps every invariant of the database.
 */
module Commit {
  import opened Basics
  import opened Wallets
  import opened Wagering
  import opened Events
  import opened Rules
  import opened Database
  import opened Invariants
  import PayloadHash

  // ---- what a commit writes ----

  function OutEvents(out: Outcome, ids: Ids): seq<Event> {
    (if out.entry.Some? then [Event(ids.change, ChangeOf(out.entry.value, out.wallet.version))] else [])
    + (if FinalBodies(out.tx) != [] then [Event(ids.final, FinalBodies(out.tx)[0])]
       else if out.tx.status.PendingReference? && out.tx.attempts == 1 && out.tx.nextRetry.Some? then
         [Event(ids.final, TransactionParked(out.tx.id, out.tx.req, out.tx.attempts, out.tx.nextRetry.value))]
       else [])
  }

  function NewRecords(out: Outcome, seqNo: SeqNo): seq<LedgerRecord> {
    if out.entry.Some? then [LedgerRecord(seqNo, out.entry.value)] else []
  }

  function After(db: DB, out: Outcome, ids: Ids, seqNo: SeqNo): DB {
    DB(db.wallets[out.wallet.id := out.wallet],
       db.txs[out.tx.id := ToRow(out.tx)],
       db.ledger + NewRecords(out, seqNo),
       db.outbox + OutEvents(out, ids),
       db.inbox)
  }

  // ---- what the operation knows when it commits ----

  /** The row the operation replaces: none for a new one, the claimed waiting row for the pending worker. */
  ghost predicate RowBefore(txs: map<Uuid, TxRow>, tx: Snapshot, isNew: bool) {
    if isNew then
      && tx.id !in txs && tx.attempts == 0
      && tx.hash == PayloadHash.Preimage(tx.req)
      && tx.key != "" && tx.referenceId.None?
      && !KeyTaken(txs, tx.req.providerId, tx.key)
      && !ExternalIdTaken(txs, tx.req.providerId, tx.req.externalId)
    else
      tx.id in txs && txs[tx.id].req.money.valid && tx == FromRow(txs[tx.id]) && txs[tx.id].status.PendingReference?
  }

  /** The reference the operation resolved is still what it read. */
  ghost predicate ReferenceHeld(txs: map<Uuid, TxRow>, tx: Snapshot, base: WalletState, ref: Option<Snapshot>,
                                out: Outcome) {
    out.tx.referenceId != tx.referenceId || (out.tx.status.Processed? && ReadsReference(tx, base)) ==>
      && ref.Some? && ref.value.id in txs && txs[ref.value.id] == ToRow(ref.value)
      && HasExternalId(txs[ref.value.id], tx.req.providerId, tx.req.reference)
      && (out.tx.status.Processed? && tx.req.kind.IsReversal() ==> !HasProcessedReversal(txs, ref.value.id))
  }

  ghost predicate IdsUnused(db: DB, ids: Ids) {
    && ids.entry != NIL && ids.change != ids.final
    && (forall k :: 0 <= k < |db.ledger| ==> db.ledger[k].entry.id != ids.entry)
    && (forall k :: 0 <= k < |db.outbox| ==> db.outbox[k].id != ids.change && db.outbox[k].id != ids.final)
  }

  ghost predicate SeqAbove(rows: seq<LedgerRecord>, seqNo: SeqNo) {
    forall k :: 0 <= k < |rows| ==> rows[k].seqNo < seqNo
  }

  ghost predicate Ready(db: DB, base: WalletState, tx: Snapshot, ref: Option<Snapshot>, reversed: bool, out: Outcome,
                        ids: Ids, isNew: bool, seqNo: SeqNo)
  {
    && base.id in db.wallets && db.wallets[base.id] == base && tx.req.walletId == base.id
    && Undecided(tx)
    && SoundOutcome(tx, base, ref, reversed, ids.entry, out)
    && RowBefore(db.txs, tx, isNew)
    && ReferenceHeld(db.txs, tx, base, ref, out)
    && IdsUnused(db, ids)
    && (out.entry.Some? ==> SeqAbove(OfWallet(db.ledger, base.id), seqNo))
  }

  // ---- filters over appended rows ----

  lemma OfWalletAppend(ledger: seq<LedgerRecord>, out: Outcome, seqNo: SeqNo, id: Uuid)
    ensures OfWallet(ledger + NewRecords(out, seqNo), id)
         == OfWallet(ledger, id) + (if out.entry.Some? && out.entry.value.walletId == id then NewRecords(out, seqNo) else [])
  {
    if out.entry.Some? {
      assert (ledger + NewRecords(out, seqNo))[..|ledger|] == ledger;
    } else {
      assert ledger + NewRecords(out, seqNo) == ledger;
    }
  }

  /** How the three event filters see one more event. */
  lemma FiltersStep(outbox: seq<Event>, e: Event, id: Uuid)
    ensures ChangesOf(outbox + [e], id) == ChangesOf(outbox, id) + (if e.body.BalanceChanged? && e.body.walletId == id then [e.body] else [])
    ensures FinalsOf(outbox + [e], id) == FinalsOf(outbox, id) + (if IsFinalOf(e.body, id) then [e.body] else [])
    ensures ParkedOf(outbox + [e], id) == ParkedOf(outbox, id) + (if e.body.TransactionParked? && e.body.transactionId == id then [e.body] else [])
  {
    assert (outbox + [e])[..|outbox|] == outbox;
  }

  function ChangeBodies(out: Outcome, id: Uuid): seq<EventBody> {
    if out.entry.Some? && out.entry.value.walletId == id then [ChangeOf(out.entry.value, out.wallet.version)] else []
  }

  function ParkedBodies(out: Outcome): seq<EventBody> {
    if out.tx.status.PendingReference? && out.tx.attempts == 1 && out.tx.nextRetry.Some? then
      [TransactionParked(out.tx.id, out.tx.req, out.tx.attempts, out.tx.nextRetry.value)]
    else []
  }

  lemma FiltersAppend(outbox: seq<Event>, out: Outcome, ids: Ids, id: Uuid)
    ensures ChangesOf(outbox + OutEvents(out, ids), id) == ChangesOf(outbox, id) + ChangeBodies(out, id)
    ensures FinalsOf(outbox + OutEvents(out, ids), id) == FinalsOf(outbox, id) + (if out.tx.id == id then FinalBodies(out.tx) else [])
    ensures ParkedOf(outbox + OutEvents(out, ids), id) == ParkedOf(outbox, id) + (if out.tx.id == id then ParkedBodies(out) else [])
  {
    var mid := if out.entry.Some? then outbox + [Event(ids.change, ChangeOf(out.entry.value, out.wallet.version))] else outbox;
    if out.entry.Some? {
      FiltersStep(outbox, Event(ids.change, ChangeOf(out.entry.value, out.wallet.version)), id);
    }
    if FinalBodies(out.tx) != [] {
      var last := Event(ids.final, FinalBodies(out.tx)[0]);
      FiltersStep(mid, last, id);
      assert outbox + OutEvents(out, ids) == mid + [last];
    } else if ParkedBodies(out) != [] {
      var last := Event(ids.final, ParkedBodies(out)[0]);
      FiltersStep(mid, last, id);
      assert outbox + OutEvents(out, ids) == mid + [last];
    } else {
      assert outbox + OutEvents(out, ids) == mid;
    }
  }

  // ---- the invariants, one group at a time ----

  /** The row the commit leaves is a good row. */
  lemma NewRowOk(tx: Snapshot, base: WalletState, ref: Option<Snapshot>, reversed: bool, out: Outcome, entryId: Uuid)
    requires Undecided(tx) && ValidWallet(base) && tx.req.walletId == base.id
    requires SoundOutcome(tx, base, ref, reversed, entryId, out)
    requires tx.key != "" && tx.hash != "" && tx.hash == PayloadHash.Preimage(tx.req)
    ensures RowOk(out.tx.id, ToRow(out.tx))
  {
    assert ValidWallet(out.wallet);
    assert FromRow(ToRow(out.tx)).status == out.tx.status;
  }

  /** What the commit lemmas need of the operation's own transaction. */
  lemma OwnTransaction(txs: map<Uuid, TxRow>, wallets: map<Uuid, WalletState>, tx: Snapshot, isNew: bool)
    requires TxsOk(txs, wallets) && RowBefore(txs, tx, isNew) && tx.origin.External?
    ensures tx.key != "" && tx.hash != "" && tx.hash == PayloadHash.Preimage(tx.req)
    ensures tx.id in txs <==> !isNew
    ensures tx.id in txs ==> txs[tx.id] == ToRow(tx) && txs[tx.id].status.PendingReference?
  {
    if !isNew {
      assert RowOk(tx.id, txs[tx.id]);
    }
  }

  lemma WalletsKept(db: DB, base: WalletState, out: Outcome)
    requires WalletsOk(db.wallets) && OwnersUnique(db.wallets)
    requires base.id in db.wallets && db.wallets[base.id] == base
    requires out.wallet == base || (ValidWallet(out.wallet) && out.wallet == base.(balance := out.wallet.balance, version := out.wallet.version))
    ensures WalletsOk(db.wallets[out.wallet.id := out.wallet]) && OwnersUnique(db.wallets[out.wallet.id := out.wallet])
  {}

  lemma RowsKept(txs: map<Uuid, TxRow>, wallets: map<Uuid, WalletState>, wallets': map<Uuid, WalletState>, row: TxRow)
    requires TxsOk(txs, wallets) && RowOk(row.id, row)
    requires row.req.walletId in wallets && wallets'.Keys == wallets.Keys
    ensures TxsOk(txs[row.id := row], wallets')
  {}

  lemma UniquenessKept(txs: map<Uuid, TxRow>, row: TxRow)
    requires KeysUnique(txs) && ExternalIdsUnique(txs) && OpeningsUnique(txs)
    requires row.origin.External? && !row.req.kind.Opening?
    requires if row.id in txs then
               txs[row.id].origin == row.origin && txs[row.id].req == row.req && txs[row.id].key == row.key
             else !KeyTaken(txs, row.req.providerId, row.key) && !ExternalIdTaken(txs, row.req.providerId, row.req.externalId)
    ensures KeysUnique(txs[row.id := row]) && ExternalIdsUnique(txs[row.id := row]) && OpeningsUnique(txs[row.id := row])
  {}

  lemma ReferencesKept(txs: map<Uuid, TxRow>, row: TxRow)
    requires ReferencesOk(txs)
    requires row.id in txs ==> txs[row.id].status.PendingReference?
    requires ReferenceOk(txs, row)
    ensures ReferencesOk(txs[row.id := row])
  {
    var txs' := txs[row.id := row];
    forall id | id in txs' ensures ReferenceOk(txs', txs'[id]) {
      if id != row.id {
        assert ReferenceOk(txs, txs[id]);
      }
    }
  }

  lemma ReversalsKept(txs: map<Uuid, TxRow>, row: TxRow)
    requires ReversalsUnique(txs)
    requires row.id in txs ==> txs[row.id].status.PendingReference?
    requires row.status.Processed? && row.req.kind.IsReversal() && row.referenceId.Some? ==> !HasProcessedReversal(txs, row.referenceId.value)
    ensures ReversalsUnique(txs[row.id := row])
  {}

  lemma NewReferenceOk(db: DB, base: WalletState, tx: Snapshot, ref: Option<Snapshot>, reversed: bool, out: Outcome,
                       ids: Ids, isNew: bool, seqNo: SeqNo)
    requires TxsOk(db.txs, db.wallets) && ReferencesOk(db.txs)
    requires Ready(db, base, tx, ref, reversed, out, ids, isNew, seqNo)
    ensures ReferenceOk(db.txs, ToRow(out.tx))
    ensures var row := ToRow(out.tx);
            row.status.Processed? && row.req.kind.IsReversal() && row.referenceId.Some? ==> !HasProcessedReversal(db.txs, row.referenceId.value)
  {
    if out.tx.referenceId == tx.referenceId && !isNew {
      assert ReferenceOk(db.txs, db.txs[tx.id]);
    }
    if out.tx.status.Processed? && !ReadsReference(tx, base) {
      assert !tx.req.kind.IsReversal();
    }
  }

  /** The parts of Ready that the table lemmas share. */
  ghost predicate Decided(db: DB, base: WalletState, tx: Snapshot, out: Outcome, isNew: bool) {
    && base.id in db.wallets && db.wallets[base.id] == base && tx.req.walletId == base.id
    && SameIdentity(tx, out.tx) && tx.origin.External? && !tx.req.kind.Opening?
    && (out.wallet == base || (ValidWallet(out.wallet) && out.wallet == base.(balance := out.wallet.balance, version := out.wallet.version)))
    && RowBefore(db.txs, tx, isNew)
    && (tx.id in db.txs ==> db.txs[tx.id] == ToRow(tx) && tx.status.PendingReference?)
  }

  lemma ReadyIsDecided(db: DB, base: WalletState, tx: Snapshot, ref: Option<Snapshot>, reversed: bool, out: Outcome,
                       ids: Ids, isNew: bool, seqNo: SeqNo)
    requires TxsOk(db.txs, db.wallets) && WalletsOk(db.wallets)
    requires Ready(db, base, tx, ref, reversed, out, ids, isNew, seqNo)
    ensures Decided(db, base, tx, out, isNew)
    ensures RowOk(out.tx.id, ToRow(out.tx))
  {
    OwnTransaction(db.txs, db.wallets, tx, isNew);
    NewRowOk(tx, base, ref, reversed, out, ids.entry);
  }

  lemma TablesKept(db: DB, base: WalletState, tx: Snapshot, out: Outcome, ids: Ids, isNew: bool, seqNo: SeqNo)
    requires TablesOk(db)
    requires Decided(db, base, tx, out, isNew) && RowOk(out.tx.id, ToRow(out.tx))
    requires ReferenceOk(db.txs, ToRow(out.tx))
    requires var row := ToRow(out.tx);
             row.status.Processed? && row.req.kind.IsReversal() && row.referenceId.Some? ==> !HasProcessedReversal(db.txs, row.referenceId.value)
    ensures TablesOk(After(db, out, ids, seqNo))
  {
    hide Coherent, RowChecks;
    var row := ToRow(out.tx);
    WalletsKept(db, base, out);
    RowsKept(db.txs, db.wallets, db.wallets[out.wallet.id := out.wallet], row);
    UniquenessKept(db.txs, row);
    ReferencesKept(db.txs, row);
    ReversalsKept(db.txs, row);
  }

  // ---- ledger ----

  /** Every entry belongs to a processed transaction and, when listed for a wallet, to that wallet. */
  ghost predicate ListedOk(txs: map<Uuid, TxRow>, rows: seq<LedgerRecord>, id: Uuid) {
    forall i :: 0 <= i < |rows| ==> EntryOk(txs, rows[i].entry) && rows[i].entry.walletId == id
  }

  lemma {:induction false} OfWalletEntries(txs: map<Uuid, TxRow>, ledger: seq<LedgerRecord>, id: Uuid)
    requires EntriesOk(txs, ledger)
    ensures ListedOk(txs, OfWallet(ledger, id), id)
  {
    if ledger != [] {
      var n := |ledger| - 1;
      OfWalletEntries(txs, ledger[..n], id);
      assert EntryOk(txs, ledger[n].entry);
      var before := OfWallet(ledger[..n], id);
      var rows := OfWallet(ledger, id);
      forall i | 0 <= i < |rows| ensures EntryOk(txs, rows[i].entry) && rows[i].entry.walletId == id {
        if i < |before| {
          assert rows[i] == before[i];
        }
      }
    }
  }

  /** A row that may be replaced: absent or waiting. */
  ghost predicate NotFinal(txs: map<Uuid, TxRow>, id: Uuid) {
    id in txs ==> txs[id].status.PendingReference?
  }

  lemma EntryKept(txs: map<Uuid, TxRow>, row: TxRow, e: LedgerEntry)
    requires ReferencesOk(txs) && NotFinal(txs, row.id) && EntryOk(txs, e)
    ensures EntryOk(txs[row.id := row], e)
    ensures e.transactionId != row.id
    ensures IsOpeningEntry(txs[row.id := row], e) == IsOpeningEntry(txs, e)
  {
    assert ReferenceOk(txs, txs[e.transactionId]);
  }

  /** What is known about the entry of a decided operation. */
  ghost predicate EntryMatchesRow(txs: map<Uuid, TxRow>, row: TxRow, out: Outcome) {
    && row == ToRow(out.tx)
    && (out.entry.Some? <==> MovesMoney(row))
    && (out.entry.Some? ==> EntryOk(txs[row.id := row], out.entry.value) && out.entry.value.transactionId == row.id)
  }

  lemma NewEntryMatches(txs: map<Uuid, TxRow>, base: WalletState, tx: Snapshot, ref: Option<Snapshot>,
                        reversed: bool, out: Outcome, entryId: Uuid)
    requires ValidWallet(base) && tx.req.walletId == base.id
    requires SoundOutcome(tx, base, ref, reversed, entryId, out)
    requires ReferenceHeld(txs, tx, base, ref, out)
    requires NotFinal(txs, tx.id)
    ensures EntryMatchesRow(txs, ToRow(out.tx), out)
  {
    var row := ToRow(out.tx);
    if out.entry.Some? && ReadsReference(tx, base) {
      assert ref.value.id != tx.id;
      assert row.referenceId == Some(ref.value.id);
    }
  }

  lemma EntriesKept(txs: map<Uuid, TxRow>, ledger: seq<LedgerRecord>, row: TxRow, out: Outcome, seqNo: SeqNo)
    requires ReferencesOk(txs) && NotFinal(txs, row.id) && EntryMatchesRow(txs, row, out)
    requires EntriesOk(txs, ledger) && EntriesDistinct(ledger) && EntriesComplete(txs, ledger)
    requires out.entry.Some? ==> forall k :: 0 <= k < |ledger| ==> ledger[k].entry.id != out.entry.value.id
    ensures EntriesOk(txs[row.id := row], ledger + NewRecords(out, seqNo))
    ensures EntriesDistinct(ledger + NewRecords(out, seqNo))
    ensures EntriesComplete(txs[row.id := row], ledger + NewRecords(out, seqNo))
  {
    var txs', ledger' := txs[row.id := row], ledger + NewRecords(out, seqNo);
    forall k | 0 <= k < |ledger| ensures EntryOk(txs', ledger[k].entry) && ledger[k].entry.transactionId != row.id {
      EntryKept(txs, row, ledger[k].entry);
    }
    forall id | id in txs' && MovesMoney(txs'[id]) ensures HasEntry(ledger', id) {
      if id == row.id {
        assert ledger'[|ledger|].entry.transactionId == id;
      } else {
        assert id in txs && MovesMoney(txs[id]);
        var k :| 0 <= k < |ledger| && ledger[k].entry.transactionId == id;
        assert ledger'[k].entry.transactionId == id;
      }
    }
  }

  lemma PrecedenceKept(txs: map<Uuid, TxRow>, ledger: seq<LedgerRecord>, row: TxRow, out: Outcome, seqNo: SeqNo)
    requires NotFinal(txs, row.id) && EntryMatchesRow(txs, row, out)
    requires EntriesOk(txs, ledger) && EntriesComplete(txs, ledger) && ReferencesPrecede(txs, ledger)
    requires ReferenceOk(txs, row)
    ensures ReferencesPrecede(txs[row.id := row], ledger + NewRecords(out, seqNo))
  {
    var txs', ledger' := txs[row.id := row], ledger + NewRecords(out, seqNo);
    forall k | 0 <= k < |ledger'| && ledger'[k].entry.transactionId in txs' && txs'[ledger'[k].entry.transactionId].referenceId.Some?
      ensures HasEntry(ledger'[..k], txs'[ledger'[k].entry.transactionId].referenceId.value)
    {
      if k < |ledger| {
        assert ledger'[..k] == ledger[..k];
        assert EntryOk(txs, ledger[k].entry);
        assert ledger'[k] == ledger[k];
      } else {
        assert ledger'[..k] == ledger;
        var r := row.referenceId.value;
        assert SoundRow(row, txs[r]);
        assert MovesMoney(txs[r]);
      }
    }
  }

  lemma ChainExtends(txs: map<Uuid, TxRow>, rows: seq<LedgerRecord>, base: WalletState, wallet: WalletState,
                     rec: LedgerRecord)
    requires WalletLedgerOk(txs, rows, base)
    requires rec.entry.walletId == base.id && rec.entry.amount.currency == base.currency
    requires rec.entry.balanceBefore == base.balance
    requires wallet == base.(balance := rec.entry.balanceAfter, version := base.version + 1)
    requires !IsOpeningEntry(txs, rec.entry) && SeqAbove(rows, rec.seqNo)
    ensures WalletLedgerOk(txs, rows + [rec], wallet)
    ensures VersionOffset(txs, rows + [rec]) == VersionOffset(txs, rows)
    ensures wallet.version == |rows| + 1 + VersionOffset(txs, rows)
  {}

  lemma ChangesExtend(changes: seq<EventBody>, rows: seq<LedgerRecord>, offset: nat, rec: LedgerRecord)
    requires ChangesMatch(changes, rows, offset)
    ensures ChangesMatch(changes + [ChangeOf(rec.entry, |rows| + 1 + offset)], rows + [rec], offset)
  {}

  /** Replacing a waiting row changes nothing about the chain of finished entries. */
  lemma ChainKept(txs: map<Uuid, TxRow>, rows: seq<LedgerRecord>, w: WalletState, row: TxRow)
    requires ReferencesOk(txs) && NotFinal(txs, row.id)
    requires ListedOk(txs, rows, w.id)
    ensures WalletLedgerOk(txs, rows, w) ==> WalletLedgerOk(txs[row.id := row], rows, w)
    ensures VersionOffset(txs[row.id := row], rows) == VersionOffset(txs, rows)
  {
    forall i | 0 <= i < |rows| ensures IsOpeningEntry(txs[row.id := row], rows[i].entry) == IsOpeningEntry(txs, rows[i].entry) {
      EntryKept(txs, row, rows[i].entry);
    }
  }

  /** The ledger and the announcements of one wallet after the commit. */
  lemma WalletLedgerKept(db: DB, base: WalletState, row: TxRow, out: Outcome, ids: Ids, seqNo: SeqNo, id: Uuid)
    requires ReferencesOk(db.txs) && NotFinal(db.txs, row.id) && EntryMatchesRow(db.txs, row, out) && !row.req.kind.Opening?
    requires EntriesOk(db.txs, db.ledger)
    requires base.id in db.wallets && db.wallets[base.id] == base && out.wallet.id == base.id
    requires id in db.wallets && db.wallets[id].id == id
    requires WalletLedgerOk(db.txs, OfWallet(db.ledger, id), db.wallets[id])
    requires ChangesMatch(ChangesOf(db.outbox, id), OfWallet(db.ledger, id), VersionOffset(db.txs, OfWallet(db.ledger, id)))
    requires out.entry.None? ==> out.wallet == base
    requires out.entry.Some? ==>
               && out.entry.value.walletId == base.id && out.entry.value.amount.currency == base.currency
               && out.entry.value.balanceBefore == base.balance
               && out.wallet == base.(balance := out.entry.value.balanceAfter, version := base.version + 1)
               && SeqAbove(OfWallet(db.ledger, base.id), seqNo)
    ensures var db' := After(db, out, ids, seqNo);
            && row == ToRow(out.tx)
            && WalletLedgerOk(db'.txs, OfWallet(db'.ledger, id), db'.wallets[id])
            && ChangesMatch(ChangesOf(db'.outbox, id), OfWallet(db'.ledger, id), VersionOffset(db'.txs, OfWallet(db'.ledger, id)))
  {
    hide EntryOk, ReferencesOk, FinalsOf, ParkedOf, FinalBodies, OfWallet, ChangesOf, WalletLedgerOk, ChangesMatch,
      VersionOffset, SeqAbove, OutEvents, EntriesOk;
    var txs' := db.txs[row.id := row];
    var rows, changes := OfWallet(db.ledger, id), ChangesOf(db.outbox, id);
    OfWalletEntries(db.txs, db.ledger, id);
    ChainKept(db.txs, rows, db.wallets[id], row);
    OfWalletAppend(db.ledger, out, seqNo, id);
    FiltersAppend(db.outbox, out, ids, id);
    if out.entry.Some? && id == base.id {
      var rec := LedgerRecord(seqNo, out.entry.value);
      NotAnOpening(txs', row, out);
      ChainExtends(txs', rows, base, out.wallet, rec);
      ChangesExtend(changes, rows, VersionOffset(txs', rows), rec);
    } else {
      assert rows + [] == rows && changes + [] == changes;
    }
  }

  lemma NotAnOpening(txs: map<Uuid, TxRow>, row: TxRow, out: Outcome)
    requires out.entry.Some? && out.entry.value.transactionId == row.id && row.id in txs && txs[row.id] == row && !row.req.kind.Opening?
    ensures !IsOpeningEntry(txs, out.entry.value)
  {}

  // ---- events and inbox ----

  lemma FinalsKept(txs: map<Uuid, TxRow>, outbox: seq<Event>, out: Outcome, ids: Ids, id: Uuid)
    requires FinalsMatch(txs, FinalsOf(outbox, id), id)
    requires NotFinal(txs, out.tx.id) && out.tx.req.money.valid && Coherent(out.tx)
    ensures FinalsMatch(txs[out.tx.id := ToRow(out.tx)], FinalsOf(outbox + OutEvents(out, ids), id), id)
  {
    FiltersAppend(outbox, out, ids, id);
    if id == out.tx.id {
      assert FinalsOf(outbox, id) == [];
      if out.tx.status.Processed? {
        RowRoundTrip(out.tx);
      }
      assert FinalBodies(FromRow(ToRow(out.tx))) == FinalBodies(out.tx);
    }
  }

  lemma ParkedKept(txs: map<Uuid, TxRow>, outbox: seq<Event>, tx: Snapshot, out: Outcome, ids: Ids, id: Uuid)
    requires ParkedMatches(txs, ParkedOf(outbox, id), id)
    requires out.tx.id == tx.id && out.tx.req == tx.req && Coherent(out.tx)
    requires if tx.id in txs then txs[tx.id] == ToRow(tx) && tx.attempts > 0 else tx.attempts == 0
    requires out.tx.attempts == if out.tx.status.PendingReference? then tx.attempts + 1 else tx.attempts
    ensures ParkedMatches(txs[out.tx.id := ToRow(out.tx)], ParkedOf(outbox + OutEvents(out, ids), id), id)
  {
    FiltersAppend(outbox, out, ids, id);
  }

  lemma AnsweredKept(txs: map<Uuid, TxRow>, row: TxRow, hash: string)
    requires Answered(txs, hash)
    requires row.id in txs ==> txs[row.id].origin == row.origin && txs[row.id].hash == row.hash && txs[row.id].key == row.key
    ensures Answered(txs[row.id := row], hash)
  {
    var id :| id in txs && txs[id].origin.External? && txs[id].hash + "|" + txs[id].key == hash;
    var txs' := txs[row.id := row];
    assert id in txs' && txs'[id].origin.External? && txs'[id].hash + "|" + txs'[id].key == hash;
  }

  // ---- all of it ----

  /** The movement of a decided operation starts from the locked wallet. */
  ghost predicate MovesFrom(base: WalletState, out: Outcome) {
    && out.wallet.id == base.id
    && (out.entry.None? ==> out.wallet == base)
    && (out.entry.Some? ==>
          && out.entry.value.walletId == base.id && out.entry.value.amount.currency == base.currency
          && out.entry.value.balanceBefore == base.balance
          && out.wallet == base.(balance := out.entry.value.balanceAfter, version := base.version + 1))
  }

  lemma LedgerKept(db: DB, base: WalletState, out: Outcome, ids: Ids, seqNo: SeqNo)
    requires ReferencesOk(db.txs) && LedgerOk(db) && ChangesOk(db) && WalletsOk(db.wallets)
    requires base.id in db.wallets && db.wallets[base.id] == base
    requires MovesFrom(base, out)
    requires out.entry.Some? ==> SeqAbove(OfWallet(db.ledger, base.id), seqNo)
    requires var row := ToRow(out.tx);
             NotFinal(db.txs, row.id) && EntryMatchesRow(db.txs, row, out) && ReferenceOk(db.txs, row) && !row.req.kind.Opening?
    requires out.entry.Some? ==> forall k :: 0 <= k < |db.ledger| ==> db.ledger[k].entry.id != out.entry.value.id
    ensures LedgerOk(After(db, out, ids, seqNo)) && ChangesOk(After(db, out, ids, seqNo))
  {
    var row := ToRow(out.tx);
    var db' := After(db, out, ids, seqNo);
    EntriesKept(db.txs, db.ledger, row, out, seqNo);
    PrecedenceKept(db.txs, db.ledger, row, out, seqNo);
    forall id | id in db'.wallets
      ensures WalletLedgerOk(db'.txs, OfWallet(db'.ledger, id), db'.wallets[id])
      ensures ChangesMatch(ChangesOf(db'.outbox, id), OfWallet(db'.ledger, id), VersionOffset(db'.txs, OfWallet(db'.ledger, id)))
    {
      WalletLedgerKept(db, base, row, out, ids, seqNo, id);
    }
  }

  lemma EventsKept(db: DB, base: WalletState, tx: Snapshot, out: Outcome, ids: Ids, isNew: bool, seqNo: SeqNo)
    requires NothingWithoutWallet(db) && FinalsOk(db) && ParkedOk(db) && InboxOk(db)
    requires Decided(db, base, tx, out, isNew) && RowOk(out.tx.id, ToRow(out.tx)) && Coherent(out.tx)
    requires NotFinal(db.txs, out.tx.id)
    requires out.tx.attempts == if out.tx.status.PendingReference? then tx.attempts + 1 else tx.attempts
    requires tx.id in db.txs ==> tx.attempts > 0
    requires out.entry.Some? ==> out.entry.value.walletId == base.id
    ensures var db' := After(db, out, ids, seqNo);
            NothingWithoutWallet(db') && FinalsOk(db') && ParkedOk(db') && InboxOk(db')
  {
    var db' := After(db, out, ids, seqNo);
    forall id ensures FinalsMatch(db'.txs, FinalsOf(db'.outbox, id), id) {
      FinalsKept(db.txs, db.outbox, out, ids, id);
    }
    forall id ensures ParkedMatches(db'.txs, ParkedOf(db'.outbox, id), id) {
      ParkedKept(db.txs, db.outbox, tx, out, ids, id);
    }
    forall id ensures id !in db'.wallets ==> OfWallet(db'.ledger, id) == [] && ChangesOf(db'.outbox, id) == [] {
      OfWalletAppend(db.ledger, out, seqNo, id);
      FiltersAppend(db.outbox, out, ids, id);
    }
    forall k | k in db'.inbox ensures Answered(db'.txs, db'.inbox[k]) {
      AnsweredKept(db.txs, ToRow(out.tx), db.inbox[k]);
    }
  }

  /** Committing a decided operation keeps every invariant. */
  lemma CommitKeepsInvariant(db: DB, base: WalletState, tx: Snapshot, ref: Option<Snapshot>, reversed: bool,
                             out: Outcome,
                             ids: Ids, isNew: bool, seqNo: SeqNo)
    requires DbInv(db) && Ready(db, base, tx, ref, reversed, out, ids, isNew, seqNo)
    ensures DbInv(After(db, out, ids, seqNo))
  {
    ReadyIsDecided(db, base, tx, ref, reversed, out, ids, isNew, seqNo);
    NewReferenceOk(db, base, tx, ref, reversed, out, ids, isNew, seqNo);
    TablesKept(db, base, tx, out, ids, isNew, seqNo);
    NewEntryMatches(db.txs, base, tx, ref, reversed, out, ids.entry);
    LedgerKept(db, base, out, ids, seqNo);
    EventsKept(db, base, tx, out, ids, isNew, seqNo);
  }
}
