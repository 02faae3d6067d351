/**
 OpenWallet (internal/app/wallets.go): the wallet row, and for a positive balance the OPENING
 transaction with its ledger entry and events, in one commit.
 */
module Opening {
  import opened Basics
  import opened Moneys
  import opened Wallets
  import opened Wagering
  import opened Events
  import opened Rules
  import opened Database
  import opened Invariants
  import opened Commit
  import opened Statements

  /** The OPENING transaction and its entry for the positive initial balance of w. */
  ghost predicate OpeningFor(w: WalletState, parts: OpeningParts, ids: Ids, correlationId: string) {
    && w.balance.IsPositive() && ValidCurrency(w.currency)
    && parts.tx.id == ids.tx && parts.tx.origin.Internal?
    && parts.tx.req == OpeningRequest(w.id, w.playerId, w.balance)
    && parts.tx.key == "" && parts.tx.hash == "" && parts.tx.correlationId == correlationId
    && parts.tx.referenceId.None? && parts.tx.attempts == 0
    && parts.tx.status.Processed? && Coherent(parts.tx) && parts.tx.resultBalance == Some(w.balance)
    && WellFormedEntry(parts.entry)
    && parts.entry == LedgerEntry(ids.entry, w.id, ids.tx, Credit, w.balance, Money(0, w.currency, true), w.balance)
  }

  /** Building the opening of a freshly opened wallet fails exactly when there is no money to open it with. */
  lemma OpeningPartsAre(w: WalletState, ids: Ids, correlationId: string, now: Time)
    requires ValidWallet(w) && w.version == 1 && ids.tx != NIL && ids.entry != NIL
    ensures var r := NewOpeningParts(w, ids, correlationId, now);
            && (r.Ok? <==> w.balance.IsPositive())
            && (r.Ok? ==> OpeningFor(w, r.value, ids, correlationId))
  {}

  function OpenRecords(parts: Option<OpeningParts>, seqNo: SeqNo): seq<LedgerRecord> {
    if parts.None? then [] else [LedgerRecord(seqNo, parts.value.entry)]
  }

  function OpenEvents(w: WalletState, parts: Option<OpeningParts>, ids: Ids): seq<Event> {
    if parts.None? || parts.value.tx.resultBalance.None? || parts.value.tx.processedAt.None? then []
    else
      var tx := parts.value.tx;
      [Event(ids.final, TransactionProcessed(tx.id, tx.req, tx.resultBalance.value, tx.referenceId, tx.processedAt.value)),
       Event(ids.change, ChangeOf(parts.value.entry, w.version))]
  }

  function AfterOpening(db: DB, w: WalletState, parts: Option<OpeningParts>, ids: Ids, seqNo: SeqNo): DB {
    DB(db.wallets[w.id := w],
       if parts.None? then db.txs else db.txs[parts.value.tx.id := ToRow(parts.value.tx)],
       db.ledger + OpenRecords(parts, seqNo),
       db.outbox + OpenEvents(w, parts, ids),
       db.inbox)
  }

  ghost predicate OpenReady(db: DB, w: WalletState, parts: Option<OpeningParts>, ids: Ids, correlationId: string) {
    && ValidWallet(w) && w.version == 1 && w.id !in db.wallets
    && ids.tx != NIL && ids.tx !in db.txs && IdsUnused(db, ids)
    && (if parts.Some? then OpeningFor(w, parts.value, ids, correlationId) else w.balance.IsZero())
  }

  lemma OpenEventsAre(w: WalletState, parts: Option<OpeningParts>, ids: Ids, correlationId: string, db: DB)
    requires OpenReady(db, w, parts, ids, correlationId)
    ensures var ws, es := OpenWrites(w, parts, ids), OpenEvents(w, parts, ids);
            parts.Some? ==> |es| == 2 && ws[4] == AddEvent(Ok(es[0])) && ws[5] == AddEvent(Ok(es[1]))
  {
    hide WellFormedEntry, IdsUnused;
  }

  lemma OpenStage(db: DB, w: WalletState, parts: Option<OpeningParts>, ids: Ids, correlationId: string, seqNo: SeqNo)
    requires OpenReady(db, w, parts, ids, correlationId)
    ensures var ws := OpenWrites(w, parts, ids);
            var es := OpenEvents(w, parts, ids);
            var v2 := db.(wallets := db.wallets[w.id := w]);
            && |ws| == (if parts.None? then 2 else 6)
            && ApplyAll(db, ws[..1], seqNo) == db && ApplyAll(db, ws[..2], seqNo) == v2
            && (parts.Some? ==>
                  var v3 := v2.(txs := db.txs[parts.value.tx.id := ToRow(parts.value.tx)]);
                  var v4 := v3.(ledger := db.ledger + OpenRecords(parts, seqNo));
                  && |es| == 2
                  && ws[4] == AddEvent(Ok(es[0])) && ws[5] == AddEvent(Ok(es[1]))
                  && ApplyAll(db, ws[..3], seqNo) == v3
                  && ApplyAll(db, ws[..4], seqNo) == v4
                  && ApplyAll(db, ws[..5], seqNo) == v4.(outbox := db.outbox + [es[0]])
                  && ApplyAll(db, ws[..6], seqNo) == v4.(outbox := db.outbox + [es[0]] + [es[1]]))
  {
    hide WellFormedEntry, OpenReady, OpeningFor, OpenEvents, NewTransactionProcessed, NewWalletBalanceChanged;
    OpenEventsAre(w, parts, ids, correlationId, db);
    var ws := OpenWrites(w, parts, ids);
    assert ApplyAll(db, ws[..0], seqNo) == db;
    ApplyOneMore(db, ws, 0, seqNo);
    ApplyOneMore(db, ws, 1, seqNo);
    if parts.Some? {
      ApplyOneMore(db, ws, 2, seqNo);
      ApplyOneMore(db, ws, 3, seqNo);
      ApplyOneMore(db, ws, 4, seqNo);
      ApplyOneMore(db, ws, 5, seqNo);
    }
  }

  lemma OpeningAmountsTo(db: DB, w: WalletState, parts: Option<OpeningParts>, ids: Ids, correlationId: string,
                         seqNo: SeqNo)
    requires OpenReady(db, w, parts, ids, correlationId)
    ensures ApplyAll(db, OpenWrites(w, parts, ids), seqNo) == AfterOpening(db, w, parts, ids, seqNo)
  {
    OpenStage(db, w, parts, ids, correlationId, seqNo);
    var ws, es := OpenWrites(w, parts, ids), OpenEvents(w, parts, ids);
    assert ws[..|ws|] == ws;
    if parts.None? {
      assert db.ledger + OpenRecords(parts, seqNo) == db.ledger && db.outbox + es == db.outbox;
    } else {
      assert db.outbox + es == db.outbox + [es[0]] + [es[1]];
    }
  }

  lemma OpenInsertSucceeds(db: DB, w: WalletState, parts: OpeningParts, ids: Ids, correlationId: string)
    requires OpenReady(db, w, Some(parts), ids, correlationId) && TxsOk(db.txs, db.wallets)
    ensures Violation(db.(wallets := db.wallets[w.id := w]), InsertTx(ToRow(parts.tx))) == None
  {
    hide ValidRequest;
    var row := ToRow(parts.tx);
    assert RowChecks(row);
    assert forall id :: id in db.txs ==> db.txs[id].req.walletId != w.id;
  }

  lemma OpenAppendSucceeds(db: DB, view: DB, w: WalletState, parts: OpeningParts, ids: Ids, correlationId: string)
    requires OpenReady(db, w, Some(parts), ids, correlationId) && EntriesOk(db.txs, db.ledger)
    requires view.ledger == db.ledger && w.id in view.wallets && parts.tx.id in view.txs
    ensures Violation(view, AppendLedger(parts.entry)) == None
  {
    forall k | 0 <= k < |db.ledger| ensures db.ledger[k].entry.id != ids.entry && db.ledger[k].entry.transactionId != ids.tx {
      assert EntryOk(db.txs, db.ledger[k].entry);
    }
  }

  lemma OpenEventsSucceed(db: DB, view: DB, w: WalletState, parts: OpeningParts, ids: Ids, correlationId: string)
    requires OpenReady(db, w, Some(parts), ids, correlationId)
    ensures var es := OpenEvents(w, Some(parts), ids);
            && |es| == 2
            && (view.outbox == db.outbox ==> Violation(view, AddEvent(Ok(es[0]))) == None)
            && (view.outbox == db.outbox + [es[0]] ==> Violation(view, AddEvent(Ok(es[1]))) == None)
  {
    var es := OpenEvents(w, Some(parts), ids);
    if view.outbox == db.outbox + [es[0]] {
      forall k | 0 <= k < |view.outbox| ensures view.outbox[k].id != ids.change {
        if k < |db.outbox| {
          assert view.outbox[k] == db.outbox[k];
        }
      }
    }
  }

  /** After the owner is reserved no statement of the opening can be refused. */
  lemma OpeningNeverFails(db: DB, w: WalletState, parts: Option<OpeningParts>, ids: Ids, correlationId: string,
                          seqNo: SeqNo, at: nat)
    requires OpenReady(db, w, parts, ids, correlationId)
    requires TxsOk(db.txs, db.wallets) && EntriesOk(db.txs, db.ledger)
    requires 1 <= at < |OpenWrites(w, parts, ids)|
    ensures Violation(ApplyAll(db, OpenWrites(w, parts, ids)[..at], seqNo), OpenWrites(w, parts, ids)[at]) == None
  {
    hide TxsOk, EntriesOk, OpenReady, OpenEvents, ApplyAll, NewTransactionProcessed, NewWalletBalanceChanged;
    OpenStage(db, w, parts, ids, correlationId, seqNo);
    var ws := OpenWrites(w, parts, ids);
    if at == 1 {
      OpenCreateSucceeds(db, w, parts, ids, correlationId);
    } else if at == 2 {
      OpenInsertSucceeds(db, w, parts.value, ids, correlationId);
    } else if at == 3 {
      OpenAppendSucceeds(db, ApplyAll(db, ws[..3], seqNo), w, parts.value, ids, correlationId);
    } else {
      OpenEventsSucceed(db, ApplyAll(db, ws[..at], seqNo), w, parts.value, ids, correlationId);
    }
  }

  lemma OpenCreateSucceeds(db: DB, w: WalletState, parts: Option<OpeningParts>, ids: Ids, correlationId: string)
    requires OpenReady(db, w, parts, ids, correlationId)
    ensures Violation(db, CreateWallet(w)) == None
  {}

  // ---- the invariants ----

  lemma OpenWalletsKept(wallets: map<Uuid, WalletState>, txs: map<Uuid, TxRow>, w: WalletState)
    requires WalletsOk(wallets) && OwnersUnique(wallets) && TxsOk(txs, wallets)
    requires ValidWallet(w) && w.id !in wallets && !OwnerTaken(wallets, w.playerId, w.currency)
    ensures WalletsOk(wallets[w.id := w]) && OwnersUnique(wallets[w.id := w]) && TxsOk(txs, wallets[w.id := w])
  {}

  lemma OpenRowOk(tx: Snapshot, w: WalletState)
    requires tx.id != NIL && tx.origin.Internal? && tx.req == OpeningRequest(w.id, w.playerId, w.balance)
    requires ValidWallet(w) && w.balance.IsPositive()
    requires tx.key == "" && tx.hash == "" && tx.referenceId.None? && tx.status.Processed? && Coherent(tx)
    requires tx.resultBalance == Some(w.balance)
    ensures RowOk(tx.id, ToRow(tx))
  {
    RowRoundTrip(tx);
  }

  lemma OpenRowUnique(txs: map<Uuid, TxRow>, row: TxRow)
    requires KeysUnique(txs) && ExternalIdsUnique(txs) && OpeningsUnique(txs)
    requires row.origin.Internal? && row.id !in txs
    requires forall id :: id in txs ==> txs[id].req.walletId != row.req.walletId
    ensures KeysUnique(txs[row.id := row]) && ExternalIdsUnique(txs[row.id := row]) && OpeningsUnique(txs[row.id := row])
  {}

  lemma OpenTablesKept(db: DB, w: WalletState, parts: OpeningParts, ids: Ids, correlationId: string, seqNo: SeqNo)
    requires OpenReady(db, w, Some(parts), ids, correlationId) && TablesOk(db)
    requires !OwnerTaken(db.wallets, w.playerId, w.currency)
    ensures TablesOk(AfterOpening(db, w, Some(parts), ids, seqNo))
  {
    var row := ToRow(parts.tx);
    assert forall id :: id in db.txs ==> db.txs[id].req.walletId in db.wallets;
    OpenWalletsKept(db.wallets, db.txs, w);
    OpenRowOk(parts.tx, w);
    RowsKept(db.txs, db.wallets[w.id := w], db.wallets[w.id := w], row);
    OpenRowUnique(db.txs, row);
    ReferencesKept(db.txs, row);
    ReversalsKept(db.txs, row);
  }

  lemma OpenLedgerKept(db: DB, w: WalletState, parts: OpeningParts, ids: Ids, correlationId: string, seqNo: SeqNo)
    requires OpenReady(db, w, Some(parts), ids, correlationId)
    requires ReferencesOk(db.txs) && EntriesOk(db.txs, db.ledger) && EntriesDistinct(db.ledger) && EntriesComplete(db.txs, db.ledger)
    requires ReferencesPrecede(db.txs, db.ledger)
    ensures var txs' := db.txs[parts.tx.id := ToRow(parts.tx)];
            var ledger' := db.ledger + OpenRecords(Some(parts), seqNo);
            EntriesOk(txs', ledger') && EntriesDistinct(ledger') && EntriesComplete(txs', ledger') && ReferencesPrecede(txs', ledger')
  {
    var row := ToRow(parts.tx);
    var out := Outcome(parts.tx, w, Some(parts.entry));
    assert NewRecords(out, seqNo) == OpenRecords(Some(parts), seqNo);
    EntriesKept(db.txs, db.ledger, row, out, seqNo);
    PrecedenceKept(db.txs, db.ledger, row, out, seqNo);
  }

  lemma OpenFilters(db: DB, w: WalletState, parts: OpeningParts, ids: Ids, correlationId: string, id: Uuid)
    requires OpenReady(db, w, Some(parts), ids, correlationId)
    ensures var outbox' := db.outbox + OpenEvents(w, Some(parts), ids);
            && ChangesOf(outbox', id) == ChangesOf(db.outbox, id) + (if id == w.id then [ChangeOf(parts.entry, 1)] else [])
            && FinalsOf(outbox', id) == FinalsOf(db.outbox, id) + (if id == ids.tx then FinalBodies(parts.tx) else [])
            && ParkedOf(outbox', id) == ParkedOf(db.outbox, id)
  {
    var es := OpenEvents(w, Some(parts), ids);
    FiltersStep(db.outbox, es[0], id);
    FiltersStep(db.outbox + [es[0]], es[1], id);
    assert db.outbox + es == db.outbox + [es[0]] + [es[1]];
    assert ParkedOf(db.outbox, id) + [] + [] == ParkedOf(db.outbox, id);
  }

  /** The first entry of a wallet opened with money. */
  lemma FirstEntry(txs: map<Uuid, TxRow>, w: WalletState, rec: LedgerRecord)
    requires w.version == 1 && rec.entry.walletId == w.id && rec.entry.amount.currency == w.currency
    requires rec.entry.balanceBefore.minor == 0 && rec.entry.balanceAfter == w.balance && IsOpeningEntry(txs, rec.entry)
    ensures WalletLedgerOk(txs, [rec], w) && VersionOffset(txs, [rec]) == 0
    ensures ChangesMatch([ChangeOf(rec.entry, 1)], [rec], 0)
  {}

  /** The rows of one wallet and its announcements after an opening with money. */
  lemma OpenWalletLedger(db: DB, w: WalletState, parts: OpeningParts, ids: Ids, correlationId: string, seqNo: SeqNo,
                         id: Uuid)
    requires OpenReady(db, w, Some(parts), ids, correlationId)
    requires ReferencesOk(db.txs) && EntriesOk(db.txs, db.ledger)
    requires id in db.wallets ==> id == db.wallets[id].id && WalletLedgerOk(db.txs, OfWallet(db.ledger, id), db.wallets[id])
    requires id in db.wallets ==> ChangesMatch(ChangesOf(db.outbox, id), OfWallet(db.ledger, id), VersionOffset(db.txs, OfWallet(db.ledger, id)))
    requires id !in db.wallets ==> OfWallet(db.ledger, id) == [] && ChangesOf(db.outbox, id) == []
    ensures var db' := AfterOpening(db, w, Some(parts), ids, seqNo);
            && (id in db'.wallets ==>
                  && WalletLedgerOk(db'.txs, OfWallet(db'.ledger, id), db'.wallets[id])
                  && ChangesMatch(ChangesOf(db'.outbox, id), OfWallet(db'.ledger, id), VersionOffset(db'.txs, OfWallet(db'.ledger, id))))
            && (id !in db'.wallets ==> OfWallet(db'.ledger, id) == [] && ChangesOf(db'.outbox, id) == [])
  {
    hide OfWallet, ChangesOf, FinalsOf, ParkedOf, WalletLedgerOk, ChangesMatch, VersionOffset, OpenEvents, EntriesOk,
      ReferencesOk, FinalBodies, WellFormedEntry, IdsUnused, IsOpeningEntry;
    var rec := LedgerRecord(seqNo, parts.entry);
    var db' := AfterOpening(db, w, Some(parts), ids, seqNo);
    var rows, changes := OfWallet(db.ledger, id), ChangesOf(db.outbox, id);
    OfWalletAppend(db.ledger, Outcome(parts.tx, w, Some(parts.entry)), seqNo, id);
    OpenFilters(db, w, parts, ids, correlationId, id);
    if id == w.id {
      assert OfWallet(db'.ledger, id) == [rec] && ChangesOf(db'.outbox, id) == [ChangeOf(parts.entry, 1)];
      IsOpening(db'.txs, parts);
      FirstEntry(db'.txs, w, rec);
    } else {
      assert OfWallet(db'.ledger, id) == rows && ChangesOf(db'.outbox, id) == changes;
      if id in db.wallets {
        OfWalletEntries(db.txs, db.ledger, id);
        ChainKept(db.txs, rows, db.wallets[id], ToRow(parts.tx));
      }
    }
  }

  lemma IsOpening(txs: map<Uuid, TxRow>, parts: OpeningParts)
    requires parts.tx.id in txs && txs[parts.tx.id] == ToRow(parts.tx) && parts.entry.transactionId == parts.tx.id && parts.tx.req.kind.Opening?
    ensures IsOpeningEntry(txs, parts.entry)
  {}

  lemma OpenEventsKept(db: DB, w: WalletState, parts: OpeningParts, ids: Ids, correlationId: string, seqNo: SeqNo)
    requires OpenReady(db, w, Some(parts), ids, correlationId)
    requires FinalsOk(db) && ParkedOk(db) && InboxOk(db)
    ensures var db' := AfterOpening(db, w, Some(parts), ids, seqNo);
            FinalsOk(db') && ParkedOk(db') && InboxOk(db')
  {
    hide FinalsMatch, ParkedMatches, OfWallet, FinalsOf, ParkedOf, ChangesOf, OpenEvents;
    var db' := AfterOpening(db, w, Some(parts), ids, seqNo);
    forall id ensures FinalsMatch(db'.txs, FinalsOf(db'.outbox, id), id) && ParkedMatches(db'.txs, ParkedOf(db'.outbox, id), id) {
      OpenEventsOf(db, w, parts, ids, correlationId, id);
    }
    forall k | k in db'.inbox ensures Answered(db'.txs, db'.inbox[k]) {
      AnsweredKept(db.txs, ToRow(parts.tx), db.inbox[k]);
    }
  }

  lemma OpenEventsOf(db: DB, w: WalletState, parts: OpeningParts, ids: Ids, correlationId: string, id: Uuid)
    requires OpenReady(db, w, Some(parts), ids, correlationId)
    requires FinalsMatch(db.txs, FinalsOf(db.outbox, id), id) && ParkedMatches(db.txs, ParkedOf(db.outbox, id), id)
    ensures var txs', outbox' := db.txs[parts.tx.id := ToRow(parts.tx)], db.outbox + OpenEvents(w, Some(parts), ids);
            FinalsMatch(txs', FinalsOf(outbox', id), id) && ParkedMatches(txs', ParkedOf(outbox', id), id)
  {
    hide FinalsOf, ParkedOf, ChangesOf, OpenEvents, WellFormedEntry, IdsUnused;
    RowRoundTrip(parts.tx);
    OpenFilters(db, w, parts, ids, correlationId, id);
    assert FinalsOf(db.outbox, id) + [] == FinalsOf(db.outbox, id);
  }

  lemma BareLedgersKept(db: DB, w: WalletState)
    requires WalletsOk(db.wallets) && LedgersOk(db) && ChangesOk(db) && NothingWithoutWallet(db)
    requires w.version == 1 && w.balance.IsZero() && w.id !in db.wallets
    ensures var db' := db.(wallets := db.wallets[w.id := w]);
            LedgersOk(db') && ChangesOk(db') && NothingWithoutWallet(db')
  {
    var db' := db.(wallets := db.wallets[w.id := w]);
    assert OfWallet(db.ledger, w.id) == [] && ChangesOf(db.outbox, w.id) == [];
    forall id | id in db'.wallets
      ensures WalletLedgerOk(db'.txs, OfWallet(db'.ledger, id), db'.wallets[id])
      ensures ChangesMatch(ChangesOf(db'.outbox, id), OfWallet(db'.ledger, id), VersionOffset(db'.txs, OfWallet(db'.ledger, id)))
    {
      if id != w.id {
        assert id in db.wallets;
      }
    }
  }

  /** Adding a wallet without money adds no rows anywhere else. */
  lemma BareOpeningKeeps(db: DB, w: WalletState)
    requires DbInv(db) && ValidWallet(w) && w.version == 1 && w.balance.IsZero()
    requires w.id !in db.wallets && !OwnerTaken(db.wallets, w.playerId, w.currency)
    ensures DbInv(db.(wallets := db.wallets[w.id := w]))
  {
    hide TxsOk, WalletsOk, OwnersUnique, OwnerTaken, ReferencesOk, ReversalsUnique, KeysUnique, ExternalIdsUnique,
      OpeningsUnique, EntriesOk, EntriesDistinct, EntriesComplete, ReferencesPrecede, LedgersOk, ChangesOk,
      NothingWithoutWallet, ValidWallet;
    OpenWalletsKept(db.wallets, db.txs, w);
    BareLedgersKept(db, w);
  }

  /** Committing an opening keeps every invariant. */
  lemma OpeningKeepsInvariant(db: DB, w: WalletState, parts: Option<OpeningParts>, ids: Ids, correlationId: string,
                              seqNo: SeqNo)
    requires OpenReady(db, w, parts, ids, correlationId) && DbInv(db)
    requires !OwnerTaken(db.wallets, w.playerId, w.currency)
    ensures DbInv(AfterOpening(db, w, parts, ids, seqNo))
  {
    if parts.None? {
      BareOpeningKeeps(db, w);
      assert db.ledger + OpenRecords(parts, seqNo) == db.ledger && db.outbox + OpenEvents(w, parts, ids) == db.outbox;
    } else {
      OpeningWithMoneyKeeps(db, w, parts.value, ids, correlationId, seqNo);
    }
  }

  lemma OpeningWithMoneyKeeps(db: DB, w: WalletState, parts: OpeningParts, ids: Ids, correlationId: string,
                              seqNo: SeqNo)
    requires OpenReady(db, w, Some(parts), ids, correlationId) && DbInv(db)
    requires !OwnerTaken(db.wallets, w.playerId, w.currency)
    ensures DbInv(AfterOpening(db, w, Some(parts), ids, seqNo))
  {
    OpenTablesKept(db, w, parts, ids, correlationId, seqNo);
    OpenLedgerKept(db, w, parts, ids, correlationId, seqNo);
    OpenEventsKept(db, w, parts, ids, correlationId, seqNo);
    var db' := AfterOpening(db, w, Some(parts), ids, seqNo);
    forall id
      ensures id in db'.wallets ==> WalletLedgerOk(db'.txs, OfWallet(db'.ledger, id), db'.wallets[id])
      ensures id in db'.wallets ==>
                ChangesMatch(ChangesOf(db'.outbox, id), OfWallet(db'.ledger, id), VersionOffset(db'.txs, OfWallet(db'.ledger, id)))
      ensures id !in db'.wallets ==> OfWallet(db'.ledger, id) == [] && ChangesOf(db'.outbox, id) == []
    {
      OpenWalletLedger(db, w, parts, ids, correlationId, seqNo, id);
    }
  }
}
