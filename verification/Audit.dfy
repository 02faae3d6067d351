/**
 Rebuilding a wallet from what was written about it: Reconcile (internal/app/wallets.go) from the
 ledger, and a consumer of the outbox from the announced balance changes.
 */
module Audit {
  import opened Basics
  import opened Moneys
  import opened Wallets
  import opened Events
  import opened Database
  import opened Invariants
  import opened Commit

  // ---- reconciliation ----

  datatype Totals = Totals(credits: int, debits: int, count: nat)

  /** The sums of LedgerRepo.Totals, before the cast to BIGINT. */
  function Summed(rows: seq<LedgerRecord>): Totals {
    if rows == [] then Totals(0, 0, 0)
    else
      var t := Summed(rows[..|rows| - 1]);
      var e := rows[|rows| - 1].entry;
      if e.direction == Credit then Totals(t.credits + e.amount.minor, t.debits, t.count + 1)
      else Totals(t.credits, t.debits + e.amount.minor, t.count + 1)
  }

  /** A sum beyond BIGINT makes the statement fail. */
  function InBigint(t: Totals): (r: Result<Totals>)
    ensures r.Ok? ==> r.value == t && FitsInt64(t.credits) && FitsInt64(t.debits)
  {
    if FitsInt64(t.credits) && FitsInt64(t.debits) then Ok(t) else Err(ConstraintViolation)
  }

  function TotalsOf(rows: seq<LedgerRecord>): Result<Totals> {
    InBigint(Summed(rows))
  }

  datatype Reconciliation = Reconciliation(walletId: Uuid, stored: Money, calculated: Money, difference: Money, consistent: bool, checked: nat)

  function Reconcile(db: DB, walletId: Uuid): Result<Reconciliation> {
    if walletId !in db.wallets then Err(WalletNotFound)
    else
      var t :- TotalsOf(OfWallet(db.ledger, walletId));
      Compared(db.wallets[walletId], t)
  }

  function Compared(w: WalletState, t: Totals): Result<Reconciliation> {
    if !FitsInt64(t.credits) || !FitsInt64(t.debits) then Err(ConstraintViolation)
    else
      var credits :- FromMinor(t.credits, w.currency);
      var debits :- FromMinor(t.debits, w.currency);
      var calculated :- credits.Sub(debits);
      var diff :- w.balance.Sub(calculated);
      Ok(Reconciliation(w.id, w.balance, calculated, diff, diff.IsZero(), t.count))
  }

  /**
   On any wallet and totals, good or not: the comparison reports what it was given and consistency exactly when
   credits minus debits is the stored balance.
   */
  lemma ComparesExactly(w: WalletState, t: Totals)
    requires ValidWallet(w)
    ensures var r := Compared(w, t);
            r.Ok? ==>
              && r.value.walletId == w.id && r.value.stored == w.balance && r.value.checked == t.count
              && r.value.calculated.minor == t.credits - t.debits
              && r.value.difference.minor == w.balance.minor - (t.credits - t.debits)
              && (r.value.consistent <==> w.balance.minor == t.credits - t.debits)
    ensures Compared(w, t).Ok? <==>
              && MIN_INT64 <= t.credits <= MAX_INT64 && MIN_INT64 <= t.debits <= MAX_INT64
              && MIN_INT64 <= t.credits - t.debits <= MAX_INT64
              && MIN_INT64 <= w.balance.minor - (t.credits - t.debits) <= MAX_INT64
  {}

  /** Totals whose difference is the balance compare as consistent. */
  lemma ComparedIsConsistent(w: WalletState, t: Totals)
    requires ValidWallet(w) && FitsInt64(t.credits) && FitsInt64(t.debits) && t.credits - t.debits == w.balance.minor
    ensures Compared(w, t) == Ok(Reconciliation(w.id, w.balance, w.balance, Money(0, w.currency, true), true, t.count))
  {}

  /** Credits minus debits telescopes along a chained ledger. */
  lemma {:induction false} TotalsTelescope(rows: seq<LedgerRecord>)
    requires forall i :: 0 <= i < |rows| ==> WellFormedEntry(rows[i].entry)
    requires rows != [] ==> rows[0].entry.balanceBefore.minor == 0
    requires forall i :: 0 < i < |rows| ==> rows[i].entry.balanceBefore.minor == rows[i - 1].entry.balanceAfter.minor
    ensures Summed(rows).credits - Summed(rows).debits == if rows == [] then 0 else rows[|rows| - 1].entry.balanceAfter.minor
    ensures Summed(rows).count == |rows| && Summed(rows).credits >= 0 && Summed(rows).debits >= 0
  {
    if rows != [] {
      var front := rows[..|rows| - 1];
      TotalsTelescope(front);
      assert WellFormedEntry(rows[|rows| - 1].entry);
    }
  }

  /**
   In every state with the invariant, reconciliation of an existing wallet reports consistency with zero
   difference and counts every entry, exactly when the lifetime totals fit int64; otherwise it fails.
   */
  lemma ReconcileIsConsistent(db: DB, id: Uuid)
    requires DbInv(db) && id in db.wallets
    ensures var t := Summed(OfWallet(db.ledger, id));
            var r := Reconcile(db, id);
            && (r.Ok? <==> FitsInt64(t.credits) && FitsInt64(t.debits))
            && (r.Ok? ==> r.value.consistent && r.value.difference.minor == 0 && r.value.calculated == r.value.stored == db.wallets[id].balance
                          && r.value.checked == |OfWallet(db.ledger, id)|)
            && (r.Err? ==> r.error == ConstraintViolation)
  {
    hide EntryOk, RowOk, FinalsOk, ParkedOk, ChangesOk, InboxOk, NothingWithoutWallet, EntriesComplete,
      ReferencesPrecede, EntriesDistinct, OwnersUnique, TxsOk, KeysUnique, ExternalIdsUnique, OpeningsUnique,
      ReferencesOk, ReversalsUnique, OfWallet, Summed, Compared, ValidWallet, WellFormedEntry;
    var rows := OfWallet(db.ledger, id);
    EntriesAreWellFormed(db.txs, db.ledger, id);
    assert WalletLedgerOk(db.txs, rows, db.wallets[id]);
    TotalsTelescope(rows);
    assert ValidWallet(db.wallets[id]);
    if TotalsOf(rows).Ok? {
      ComparedIsConsistent(db.wallets[id], Summed(rows));
    }
  }

  lemma EntriesAreWellFormed(txs: map<Uuid, TxRow>, ledger: seq<LedgerRecord>, id: Uuid)
    requires EntriesOk(txs, ledger)
    ensures forall i :: 0 <= i < |OfWallet(ledger, id)| ==> WellFormedEntry(OfWallet(ledger, id)[i].entry)
  {
    OfWalletEntries(txs, ledger, id);
    var rows := OfWallet(ledger, id);
    forall i | 0 <= i < |rows| ensures WellFormedEntry(rows[i].entry) {
      assert EntryOk(txs, rows[i].entry);
    }
  }

  // ---- the chain ----

  function CountMovements(txs: map<Uuid, TxRow>, rows: seq<LedgerRecord>): nat {
    if rows == [] then 0
    else CountMovements(txs, rows[..|rows| - 1]) + (if !IsOpeningEntry(txs, rows[|rows| - 1].entry) then 1 else 0)
  }

  lemma {:induction false} OnlyTheFirstOpens(txs: map<Uuid, TxRow>, rows: seq<LedgerRecord>)
    requires forall i :: 0 < i < |rows| ==> !IsOpeningEntry(txs, rows[i].entry)
    ensures CountMovements(txs, rows) == |rows| + VersionOffset(txs, rows) - 1
  {
    if |rows| == 1 {
      assert CountMovements(txs, rows[..0]) == 0;
    } else if |rows| > 1 {
      OnlyTheFirstOpens(txs, rows[..|rows| - 1]);
    }
  }

  /**
   The ledger chain of a wallet: it starts from zero, every entry takes over where the previous one
   stopped, it ends at the stored balance, and the version counts the entries that are not the opening.
   */
  lemma LedgerExplainsWallet(db: DB, id: Uuid)
    requires DbInv(db) && id in db.wallets
    ensures var rows, w := OfWallet(db.ledger, id), db.wallets[id];
            && w.balance.minor >= 0
            && w.version == 1 + CountMovements(db.txs, rows)
            && (rows != [] ==> rows[0].entry.balanceBefore.minor == 0)
            && (forall i :: 0 < i < |rows| ==> rows[i].entry.balanceBefore.minor == rows[i - 1].entry.balanceAfter.minor)
            && w.balance.minor == (if rows == [] then 0 else rows[|rows| - 1].entry.balanceAfter.minor)
  {
    hide EntryOk, RowOk, FinalsOk, ParkedOk, ChangesOk, InboxOk, NothingWithoutWallet, EntriesComplete,
      ReferencesPrecede, EntriesDistinct, OwnersUnique, TxsOk, KeysUnique, ExternalIdsUnique, OpeningsUnique,
      ReferencesOk, ReversalsUnique, OfWallet;
    assert WalletLedgerOk(db.txs, OfWallet(db.ledger, id), db.wallets[id]);
    assert ValidWallet(db.wallets[id]);
    OnlyTheFirstOpens(db.txs, OfWallet(db.ledger, id));
  }

  // ---- a reader of the outbox ----

  /** What a consumer that applies balance changes in version order knows of a wallet. */
  datatype Replica = Replica(balance: int, version: int)

  /** The replica after the changes, or nothing when one does not fit the one before. */
  function Follow(changes: seq<EventBody>, start: Replica): Option<Replica>
    requires forall i :: 0 <= i < |changes| ==> changes[i].BalanceChanged?
  {
    if changes == [] then Some(start)
    else
      var before := Follow(changes[..|changes| - 1], start);
      var c := changes[|changes| - 1];
      if before.Some? && c.balanceBefore.minor == before.value.balance
         && (c.walletVersion == before.value.version + 1)
         && c.balanceAfter.minor == before.value.balance + (if c.direction == Credit then c.amount.minor else 0 - c.amount.minor) then
        Some(Replica(c.balanceAfter.minor, c.walletVersion))
      else None
  }

  lemma {:induction false} FollowChain(changes: seq<EventBody>, rows: seq<LedgerRecord>, offset: nat)
    requires ChangesMatch(changes, rows, offset)
    requires forall i :: 0 <= i < |rows| ==> WellFormedEntry(rows[i].entry)
    requires rows != [] ==> rows[0].entry.balanceBefore.minor == 0
    requires forall i :: 0 < i < |rows| ==> rows[i].entry.balanceBefore.minor == rows[i - 1].entry.balanceAfter.minor
    ensures forall i :: 0 <= i < |changes| ==> changes[i].BalanceChanged?
    ensures Follow(changes, Replica(0, offset))
         == Some(Replica(if rows == [] then 0 else rows[|rows| - 1].entry.balanceAfter.minor, |rows| + offset))
  {
    if rows != [] {
      var n := |rows| - 1;
      FollowChain(changes[..n], rows[..n], offset);
      assert WellFormedEntry(rows[n].entry);
    }
  }

  /**
   Following a wallet's announced changes from nothing, in the order of their contiguous versions,
   rebuilds its balance and version: no change is missing, doubled, or out of place.
   */
  lemma ChangesRebuildWallet(db: DB, id: Uuid)
    requires DbInv(db) && id in db.wallets
    ensures var changes := ChangesOf(db.outbox, id);
            var offset := VersionOffset(db.txs, OfWallet(db.ledger, id));
            && |changes| == |OfWallet(db.ledger, id)|
            && (forall i :: 0 <= i < |changes| ==>
                              changes[i] == ChangeOf(OfWallet(db.ledger, id)[i].entry, i + 1 + offset))
            && Follow(changes, Replica(0, offset)) == Some(Replica(db.wallets[id].balance.minor, db.wallets[id].version))
  {
    hide EntryOk, RowOk, FinalsOk, ParkedOk, InboxOk, NothingWithoutWallet, EntriesComplete, ReferencesPrecede,
      EntriesDistinct, OwnersUnique, TxsOk, KeysUnique, ExternalIdsUnique, OpeningsUnique, ReferencesOk,
      ReversalsUnique, OfWallet, ChangesOf;
    var rows := OfWallet(db.ledger, id);
    assert WalletLedgerOk(db.txs, rows, db.wallets[id]);
    assert ChangesMatch(ChangesOf(db.outbox, id), rows, VersionOffset(db.txs, rows));
    EntriesAreWellFormed(db.txs, db.ledger, id);
    FollowChain(ChangesOf(db.outbox, id), rows, VersionOffset(db.txs, rows));
  }

  /**
   Every finished transaction has exactly one final event, and it says what the row says; a transaction
   that is not finished has none; one that ever waited has exactly one parking event.
   */
  lemma FinalEventsAreUnique(db: DB, id: Uuid)
    requires DbInv(db)
    ensures |FinalsOf(db.outbox, id)| == if id in db.txs && db.txs[id].status.IsTerminal() then 1 else 0
    ensures id in db.txs && db.txs[id].status.Processed? ==>
              var r := db.txs[id];
              r.result.Some? && r.processedAt.Some? && r.req.money.valid
              && FinalsOf(db.outbox, id)
                 == [TransactionProcessed(id, r.req, Money(r.result.value, r.req.money.currency, true), r.referenceId, r.processedAt.value)]
    ensures id in db.txs && db.txs[id].status.Rejected? ==>
              var r := db.txs[id];
              r.processedAt.Some? && FinalsOf(db.outbox, id) == [TransactionRejected(id, r.req, r.failure, r.processedAt.value)]
    ensures |ParkedOf(db.outbox, id)| == if id in db.txs && db.txs[id].attempts > 0 then 1 else 0
  {
    hide EntriesOk, ChangesOk, InboxOk, NothingWithoutWallet, EntriesComplete, ReferencesPrecede, EntriesDistinct,
      LedgersOk, OwnersUnique, KeysUnique, ExternalIdsUnique, OpeningsUnique, ReferencesOk, ReversalsUnique;
    assert FinalsMatch(db.txs, FinalsOf(db.outbox, id), id);
    assert ParkedMatches(db.txs, ParkedOf(db.outbox, id), id);
    if id in db.txs {
      assert RowOk(id, db.txs[id]);
    }
  }
}
