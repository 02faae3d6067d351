/**
 The repositories bound to one SQL transaction (internal/app/ports.go), as an object whose tables the
 statements update in place. Each method is one repository call and is proved against the statements
 of Database.
 */
module Stores {
  import opened Basics
  import opened Moneys
  import opened Wallets
  import opened Wagering
  import opened Events
  import opened Database
  import opened UseCases
  import opened Invariants
  import opened Processes
  import opened Audit
  import opened Paging

  /** What Rehydrate accepts of every stored row. */
  ghost predicate Readable(db: DB) {
    && WalletsOk(db.wallets)
    && (forall id :: id in db.txs ==> db.txs[id].id == id && db.txs[id].req.money.valid && Rehydratable(FromRow(db.txs[id])))
    && KeysUnique(db.txs) && ExternalIdsUnique(db.txs)
  }

  /** What scanning a wallet row makes of its columns. */
  function ReadBack(row: WalletState): Result<WalletState> {
    var balance :- FromMinor(row.balance.minor, row.currency);
    Rehydrate(row.id, row.playerId, balance, row.version)
  }

  lemma WalletReadsBack(w: WalletState)
    ensures ReadBack(w) == Ok(w) <==> ValidWallet(w)
  {}

  lemma StoredRow(db: DB, id: Uuid)
    requires Readable(db) && id in db.txs
    ensures db.txs[id].id == id && db.txs[id].req.money.valid
  {}

  lemma ReadsId(r: TxRow)
    requires r.req.money.valid
    ensures FromRow(r).id == r.id
  {}

  /** Insert's statements. */
  function InsertWrites(row: TxRow): seq<Write> {
    if row.origin.External? then
      [ReserveKey(row.req.providerId, row.key), ReserveExternalId(row.req.providerId, row.req.externalId), InsertTx(row)]
    else [InsertTx(row)]
  }

  /** A call that runs these statements: it reports the first refusal and then changes nothing. */
  ghost predicate Ran(before: DB, ws: seq<Write>, seqNo: SeqNo, e: Option<Error>, after: DB) {
    var r := RunWrites(before, ws, seqNo);
    if r.Ok? then e.None? && after == r.value else e == Some(r.error) && after == before
  }

  /** A call that runs one statement. */
  ghost predicate Did(before: DB, w: Write, seqNo: SeqNo, e: Option<Error>, after: DB) {
    e == Violation(before, w) && after == if e.None? then ApplyWrite(before, w, seqNo) else before
  }

  lemma RunsOne(db: DB, w: Write, seqNo: SeqNo)
    ensures RunWrites(db, [w], seqNo) == if Violation(db, w).Some? then Err(Violation(db, w).value) else Ok(ApplyWrite(db, w, seqNo))
  {
    assert [w][..0] == [];
    assert RunWrites(db, [w][..0], seqNo) == Ok(db);
  }

  lemma RunsInsert(db: DB, row: TxRow, seqNo: SeqNo)
    requires row.origin.External?
    ensures var r := RunWrites(db, InsertWrites(row), seqNo);
            r == if KeyTaken(db.txs, row.req.providerId, row.key) || ExternalIdTaken(db.txs, row.req.providerId, row.req.externalId) then
                   Err(DuplicateTransaction)
                 else if Violation(db, InsertTx(row)).Some? then Err(Violation(db, InsertTx(row)).value)
                 else Ok(ApplyWrite(db, InsertTx(row), seqNo))
  {
    hide KeyTaken, ExternalIdTaken, RowChecks, ReferencesExist, OpeningClash, ReversalClash;
    var ws := InsertWrites(row);
    assert ws[..2] == [ws[0], ws[1]] && ws[..2][..1] == [ws[0]] && [ws[0]][..0] == [];
    RunsOne(db, ws[0], seqNo);
    assert RunWrites(db, ws[..2], seqNo) == if KeyTaken(db.txs, row.req.providerId, row.key) || ExternalIdTaken(db.txs, row.req.providerId, row.req.externalId)
                                            then Err(DuplicateTransaction) else Ok(db);
  }

  class Store {
    var wallets: map<Uuid, WalletState>
    var txs: map<Uuid, TxRow>
    var ledger: seq<LedgerRecord>
    var outbox: seq<Event>
    var inbox: map<InboxKey, string>
    var nextSeq: SeqNo

    constructor ()
      ensures State() == EMPTY && nextSeq == 1 && Valid()
    {
      wallets, txs, ledger, outbox, inbox, nextSeq := map[], map[], [], [], map[], 1;
    }

    function State(): DB
      reads this
    {
      DB(wallets, txs, ledger, outbox, inbox)
    }

    ghost predicate Valid()
      reads this
    {
      Readable(State())
    }

    /** Rollback of UnitOfWork.run: the rows as they were when the transaction began; sequence numbers stay drawn. */
    method Rollback(backup: DB)
      modifies this
      ensures State() == backup && nextSeq == old(nextSeq)
    {
      wallets, txs, ledger, outbox, inbox := backup.wallets, backup.txs, backup.ledger, backup.outbox, backup.inbox;
    }

    // ---- wallets ----

    /** A stored wallet reads back as it was written; a row that Rehydrate refuses would be an error. */
    method GetWallet(id: Uuid) returns (r: Result<Wallet>)
      ensures r.Ok? ==> id in wallets && fresh(r.value) && ReadBack(wallets[id]) == Ok(r.value.State())
      ensures r.Err? ==> if id in wallets then ReadBack(wallets[id]) == Err(r.error) else r.error == WalletNotFound
      ensures Valid() ==> (r.Ok? <==> id in wallets)
      ensures Valid() && r.Ok? ==> r.value.State() == wallets[id]
    {
      if id !in wallets {
        return Err(WalletNotFound);
      }
      WalletReadsBack(wallets[id]);
      var state :- ReadBack(wallets[id]);
      var w := new Wallet(state);
      return Ok(w);
    }

    method OwnerHasWallet(playerId: Uuid, currency: string) returns (b: bool)
      ensures b == OwnerTaken(wallets, playerId, currency)
    {
      var rest := wallets.Keys;
      while rest != {}
        invariant rest <= wallets.Keys
        invariant forall id :: id in wallets && wallets[id].playerId == playerId && wallets[id].currency == currency ==> id in rest
        decreases |rest|
      {
        var id :| id in rest;
        if wallets[id].playerId == playerId && wallets[id].currency == currency {
          return true;
        }
        rest := rest - {id};
      }
      return false;
    }

    method CreateWallet(w: Wallet) returns (e: Option<Error>)
      requires Valid() && ValidWallet(w.State())
      modifies this
      ensures Valid() && nextSeq == old(nextSeq)
      ensures Ran(old(State()), [ReserveOwner(w.playerId, w.currency), Write.CreateWallet(w.State())], 1, e, State())
    {
      var s := w.State();
      ghost var ws := [ReserveOwner(w.playerId, w.currency), Write.CreateWallet(s)];
      assert ws[..1] == [ws[0]];
      RunsOne(State(), ws[0], 1);
      var taken := OwnerHasWallet(w.playerId, w.currency);
      if taken {
        return Some(WalletExists);
      }
      if w.id in wallets || !WalletChecks(s) {
        return Some(ConstraintViolation);
      }
      wallets := wallets[w.id := s];
      return None;
    }

    /** The version-checked UPDATE of WalletRepo: no row matches when another version is stored. */
    method UpdateWallet(w: Wallet, expected: int) returns (e: Option<Error>)
      requires Valid() && ValidWallet(w.State())
      requires w.id in wallets ==> wallets[w.id].currency == w.currency
      modifies this
      ensures Valid() && nextSeq == old(nextSeq)
      ensures Did(old(State()), Write.UpdateWallet(w.State(), expected), 1, e, State())
    {
      if w.id !in wallets || wallets[w.id].version != expected {
        return Some(ConcurrentModification);
      }
      if !WalletChecks(w.State()) {
        return Some(ConstraintViolation);
      }
      wallets := wallets[w.id := wallets[w.id].(balance := w.balance, version := w.version)];
      return None;
    }

    // ---- transactions ----

    method FindByKey(provider: string, key: string) returns (r: Result<Transaction>)
      requires Valid()
      ensures var found := Database.FindByKey(txs, provider, key);
              if found.Some? then r.Ok? && fresh(r.value) && found.value.req.money.valid && r.value.State() == FromRow(found.value)
              else r == Err(TransactionNotFound)
    {
      var rest := txs.Keys;
      while rest != {}
        invariant rest <= txs.Keys
        invariant forall id :: id in txs && HasKey(txs[id], provider, key) ==> id in rest
        decreases |rest|
      {
        var id :| id in rest;
        if HasKey(txs[id], provider, key) {
          FoundByKey(txs, id, provider, key);
          var t := new Transaction(FromRow(txs[id]));
          return Ok(t);
        }
        rest := rest - {id};
      }
      return Err(TransactionNotFound);
    }

    method FindByExternalId(provider: string, externalId: string) returns (r: Result<Transaction>)
      requires Valid()
      ensures var found := Database.FindByExternalId(txs, provider, externalId);
              if found.Some? then r.Ok? && fresh(r.value) && found.value.req.money.valid && r.value.State() == FromRow(found.value)
              else r == Err(TransactionNotFound)
    {
      var rest := txs.Keys;
      while rest != {}
        invariant rest <= txs.Keys
        invariant forall id :: id in txs && HasExternalId(txs[id], provider, externalId) ==> id in rest
        decreases |rest|
      {
        var id :| id in rest;
        if HasExternalId(txs[id], provider, externalId) {
          FoundByExternalId(txs, id, provider, externalId);
          var t := new Transaction(FromRow(txs[id]));
          return Ok(t);
        }
        rest := rest - {id};
      }
      return Err(TransactionNotFound);
    }

    method HasProcessedReversal(reference: Uuid) returns (b: bool)
      ensures b == Database.HasProcessedReversal(txs, reference)
    {
      var rest := txs.Keys;
      while rest != {}
        invariant rest <= txs.Keys
        invariant forall id :: id in txs && IsProcessedReversalOf(txs[id], reference) ==> id in rest
        decreases |rest|
      {
        var id :| id in rest;
        if IsProcessedReversalOf(txs[id], reference) {
          return true;
        }
        rest := rest - {id};
      }
      return false;
    }

    /** wager_transactions_opening_unique. */
    method OpeningClashes(row: TxRow) returns (b: bool)
      ensures b == OpeningClash(State(), row)
    {
      var rest := txs.Keys;
      while rest != {}
        invariant rest <= txs.Keys
        invariant OpeningClash(State(), row) ==>
                    exists id :: id in rest && id != row.id && txs[id].req.kind.Opening? && txs[id].req.walletId == row.req.walletId
        decreases |rest|
      {
        var id :| id in rest;
        if id != row.id && row.req.kind.Opening? && txs[id].req.kind.Opening? && txs[id].req.walletId == row.req.walletId {
          return true;
        }
        rest := rest - {id};
      }
      return false;
    }

    /** wager_transactions_single_reversal. */
    method ReversalClashes(row: TxRow) returns (b: bool)
      ensures b == ReversalClash(State(), row)
    {
      if row.referenceId.None? || !row.status.Processed? || !row.req.kind.IsReversal() {
        return false;
      }
      var rest := txs.Keys;
      while rest != {}
        invariant rest <= txs.Keys
        invariant ReversalClash(State(), row) ==>
                    exists id :: id in rest && id != row.id && IsProcessedReversalOf(txs[id], row.referenceId.value)
        decreases |rest|
      {
        var id :| id in rest;
        if id != row.id && IsProcessedReversalOf(txs[id], row.referenceId.value) {
          return true;
        }
        rest := rest - {id};
      }
      return false;
    }

    method KeyInUse(provider: string, key: string) returns (b: bool)
      requires Valid()
      ensures b == KeyTaken(txs, provider, key)
    {
      var found := FindByKey(provider, key);
      return found.Ok?;
    }

    method ExternalIdInUse(provider: string, externalId: string) returns (b: bool)
      requires Valid()
      ensures b == ExternalIdTaken(txs, provider, externalId)
    {
      var found := FindByExternalId(provider, externalId);
      return found.Ok?;
    }

    method Insert(tx: Transaction) returns (e: Option<Error>)
      requires Valid() && Rehydratable(tx.State())
      modifies this
      ensures Valid() && nextSeq == old(nextSeq)
      ensures Ran(old(State()), InsertWrites(ToRow(tx.State())), 1, e, State())
    {
      var row := ToRow(tx.State());
      if row.origin.External? {
        RunsInsert(State(), row, 1);
        var keyTaken := KeyInUse(row.req.providerId, row.key);
        if keyTaken {
          return Some(DuplicateTransaction);
        }
        var externalIdTaken := ExternalIdInUse(row.req.providerId, row.req.externalId);
        if externalIdTaken {
          return Some(DuplicateTransaction);
        }
      } else {
        RunsOne(State(), InsertTx(row), 1);
      }
      if !RowChecks(row) || !ReferencesExist(State(), row) {
        return Some(ConstraintViolation);
      }
      var openedTwice := OpeningClashes(row);
      var reversed := ReversalClashes(row);
      if row.id in txs || openedTwice || reversed {
        return Some(DuplicateTransaction);
      }
      StaysReadable(State(), row);
      txs := txs[row.id := row];
      return None;
    }

    method Update(tx: Transaction) returns (e: Option<Error>)
      requires Valid()
      modifies this
      ensures Valid() && nextSeq == old(nextSeq)
      ensures Did(old(State()), UpdateTx(ToRow(tx.State())), 1, e, State())
    {
      var row := ToRow(tx.State());
      if row.id !in txs {
        return Some(TransactionNotFound);
      }
      var after := Updated(txs[row.id], row);
      if !GuardAllows(txs[row.id], after) || !RowChecks(after) || !ReferencesExist(State(), after) {
        return Some(ConstraintViolation);
      }
      var reversed := ReversalClashes(after);
      if reversed {
        return Some(DuplicateTransaction);
      }
      UpdateStaysReadable(State(), row);
      txs := txs[row.id := after];
      return None;
    }

    /** The earliest due transaction; in one SQL transaction at a time no row is locked by another. */
    method ClaimDuePendingReference(now: Time) returns (r: Result<Transaction>)
      requires Valid()
      ensures r.Ok? ==> fresh(r.value) && r.value.id in txs && txs[r.value.id].req.money.valid
                        && r.value.State() == FromRow(txs[r.value.id]) && EarliestDue(txs, r.value.id, now)
      ensures r.Err? ==> r.error == TransactionNotFound && NothingDue(txs, now)
    {
      hide Readable, FromRow;
      var rest := txs.Keys;
      var best: Option<Uuid> := None;
      while rest != {}
        invariant rest <= txs.Keys
        invariant best.Some? ==> best.value in txs && Due(txs[best.value], now)
        invariant forall id :: id in txs && id !in rest && Due(txs[id], now) ==>
                                 best.Some? && txs[best.value].nextRetry.value <= txs[id].nextRetry.value
        decreases |rest|
      {
        var id :| id in rest;
        if Due(txs[id], now) && (best.None? || txs[id].nextRetry.value < txs[best.value].nextRetry.value) {
          best := Some(id);
        }
        rest := rest - {id};
      }
      if best.None? {
        return Err(TransactionNotFound);
      }
      StoredRow(State(), best.value);
      var t := new Transaction(FromRow(txs[best.value]));
      ReadsId(txs[best.value]);
      return Ok(t);
    }

    // ---- ledger, outbox, inbox ----

    method Append(entry: LedgerEntry) returns (e: Option<Error>)
      requires Valid()
      modifies this
      ensures Valid() && nextSeq == old(nextSeq) + 1
      ensures Did(old(State()), AppendLedger(entry), old(nextSeq), e, State())
    {
      var seqNo := nextSeq;
      nextSeq := nextSeq + 1;
      if !EntryChecks(entry) || entry.walletId !in wallets || entry.transactionId !in txs {
        return Some(ConstraintViolation);
      }
      for k := 0 to |ledger|
        invariant forall j :: 0 <= j < k ==>
                                ledger[j].entry.id != entry.id
                                && !(ledger[j].entry.walletId == entry.walletId && ledger[j].entry.transactionId == entry.transactionId)
      {
        if ledger[k].entry.id == entry.id
           || (ledger[k].entry.walletId == entry.walletId && ledger[k].entry.transactionId == entry.transactionId) {
          return Some(DuplicateTransaction);
        }
      }
      ledger := ledger + [LedgerRecord(seqNo, entry)];
      return None;
    }

    method Add(event: Result<Event>) returns (e: Option<Error>)
      requires Valid()
      modifies this
      ensures Valid() && nextSeq == old(nextSeq)
      ensures Did(old(State()), AddEvent(event), 1, e, State())
    {
      if event.Err? {
        return Some(event.error);
      }
      for k := 0 to |outbox|
        invariant forall j :: 0 <= j < k ==> outbox[j].id != event.value.id
      {
        if outbox[k].id == event.value.id {
          return Some(ConstraintViolation);
        }
      }
      outbox := outbox + [event.value];
      return None;
    }

    /** INSERT … ON CONFLICT DO NOTHING: the stored hash when the message is already recorded. */
    method Record(key: InboxKey, hash: string) returns (existing: Option<string>)
      requires Valid()
      modifies this
      ensures Valid() && nextSeq == old(nextSeq)
      ensures key in old(inbox) ==> existing == Some(old(inbox[key])) && State() == old(State())
      ensures key !in old(inbox) ==> existing.None? && State() == old(State()).(inbox := old(inbox)[key := hash])
    {
      if key in inbox {
        return Some(inbox[key]);
      }
      inbox := inbox[key := hash];
      return None;
    }

    /** The rows after a sequence number, in order, at most limit of them. */
    method List(walletId: Uuid, after: nat, limit: nat) returns (rows: seq<LedgerRecord>)
      ensures rows == Limited(Beyond(OfWallet(ledger, walletId), after), limit)
    {
      rows := [];
      for k := 0 to |ledger|
        invariant rows == Limited(Beyond(OfWallet(ledger[..k], walletId), after), limit)
      {
        ListStep(ledger, k, walletId, after, limit);
        if ledger[k].entry.walletId == walletId && ledger[k].seqNo > after && |rows| < limit {
          rows := rows + [ledger[k]];
        }
      }
      assert ledger[..|ledger|] == ledger;
    }

    method Totals(walletId: Uuid) returns (r: Result<Audit.Totals>)
      ensures r == TotalsOf(OfWallet(ledger, walletId))
    {
      hide Summed, OfWallet;
      var credits, debits, count := 0, 0, 0;
      NothingSummed(walletId);
      for k := 0 to |ledger|
        invariant Audit.Totals(credits, debits, count) == Summed(OfWallet(ledger[..k], walletId))
      {
        TotalsStep(ledger, k, walletId);
        var e := ledger[k].entry;
        if e.walletId == walletId {
          count := count + 1;
          if e.direction == Credit {
            credits := credits + e.amount.minor;
          } else {
            debits := debits + e.amount.minor;
          }
        }
      }
      assert ledger[..|ledger|] == ledger;
      return InBigint(Audit.Totals(credits, debits, count));
    }
  }

  lemma NothingSummed(walletId: Uuid)
    ensures Summed(OfWallet([], walletId)) == Audit.Totals(0, 0, 0)
  {}

  lemma OfWalletStep(ledger: seq<LedgerRecord>, k: nat, walletId: Uuid)
    requires k < |ledger|
    ensures OfWallet(ledger[..k + 1], walletId)
         == OfWallet(ledger[..k], walletId) + (if ledger[k].entry.walletId == walletId then [ledger[k]] else [])
  {
    assert ledger[..k + 1][..k] == ledger[..k];
  }

  lemma TotalsStep(ledger: seq<LedgerRecord>, k: nat, walletId: Uuid)
    requires k < |ledger|
    ensures var before := Summed(OfWallet(ledger[..k], walletId));
            var e := ledger[k].entry;
            Summed(OfWallet(ledger[..k + 1], walletId))
            == if e.walletId != walletId then before
               else if e.direction == Credit then Audit.Totals(before.credits + e.amount.minor, before.debits, before.count + 1)
               else Audit.Totals(before.credits, before.debits + e.amount.minor, before.count + 1)
  {
    hide OfWallet;
    OfWalletStep(ledger, k, walletId);
    var rows := OfWallet(ledger[..k], walletId);
    assert (rows + [ledger[k]])[..|rows|] == rows;
    assert rows + [] == rows;
  }

  lemma ListStep(ledger: seq<LedgerRecord>, k: nat, walletId: Uuid, after: nat, limit: nat)
    requires k < |ledger|
    ensures var rows := Limited(Beyond(OfWallet(ledger[..k], walletId), after), limit);
            var e := ledger[k].entry;
            Limited(Beyond(OfWallet(ledger[..k + 1], walletId), after), limit)
            == if e.walletId == walletId && ledger[k].seqNo > after && |rows| < limit then rows + [ledger[k]] else rows
  {
    hide OfWallet;
    OfWalletStep(ledger, k, walletId);
    BeyondStep(OfWallet(ledger[..k], walletId), ledger[k], after);
  }

  lemma StaysReadable(db: DB, row: TxRow)
    requires Readable(db) && row.id !in db.txs && row.req.money.valid && Rehydratable(FromRow(row))
    requires row.origin.External? ==> !KeyTaken(db.txs, row.req.providerId, row.key)
                                      && !ExternalIdTaken(db.txs, row.req.providerId, row.req.externalId)
    ensures Readable(db.(txs := db.txs[row.id := row]))
  {}

  lemma UpdateStaysReadable(db: DB, row: TxRow)
    requires Readable(db) && row.id in db.txs
    ensures Readable(db.(txs := db.txs[row.id := Updated(db.txs[row.id], row)]))
  {}
}
