/**
 The wallet use cases as the program runs them (internal/app/wallets.go).
 */
module WalletServices {
  import opened Basics
  import opened Moneys
  import opened Wallets
  import opened Wagering
  import opened Events
  import opened Database
  import opened UseCases
  import opened Invariants
  import opened Commit
  import opened Opening
  import opened Engine
  import opened Worlds
  import opened Sequential
  import opened Audit
  import opened Paging
  import opened Stores
  import opened Services
  import Cursor

  datatype Opened = Opened(db: DB, wallet: WalletState)

  /** OpenWallet in its own SQL transaction. */
  ghost function OpenNow(db: DB, seqNo: SeqNo, walletId: Uuid, playerId: Uuid, initial: Money, correlationId: string,
                         ids: Ids, now: Time): Result<Opened> {
    var w :- Open(walletId, playerId, initial);
    if w.balance.IsZero() then
      var db' :- RunWrites(db, OpenWrites(w, None, ids), seqNo);
      Ok(Opened(db', w))
    else
      var db1 :- RunWrites(db, OpenWrites(w, None, ids), seqNo);
      var parts :- NewOpeningParts(w, ids, correlationId, now);
      var db' :- RunWrites(db1, OpenWrites(w, Some(parts), ids)[2..], seqNo);
      Ok(Opened(db', w))
  }

  class WalletService {
    const store: Store

    constructor (store: Store)
      ensures this.store == store
    {
      this.store := store;
    }

    method InsertOpening(w: Wallet, ids: Ids, correlationId: string, now: Time) returns (e: Option<Error>)
      requires store.Valid()
      modifies store
      ensures store.Valid()
      ensures var parts := NewOpeningParts(w.State(), ids, correlationId, now);
              if parts.Err? then e == Some(parts.error) && store.State() == old(store.State())
              else
                var spec := RunWrites(old(store.State()), OpenWrites(w.State(), Some(parts.value), ids)[2..], old(store.nextSeq));
                if spec.Ok? then e.None? && store.State() == spec.value else e == Some(spec.error)
    {
      hide Violation, RunWrites, ApplyWrite, Stores.Readable, Rehydratable;
      var created := NewOpening(ids.tx, w.id, w.playerId, w.balance, correlationId);
      if created.Err? {
        return Some(created.error);
      }
      var tx := new Transaction(created.value);
      e := tx.Process(w.balance, now);
      if e.Some? {
        return;
      }
      var zero := Zero(w.currency);
      if zero.Err? {
        return Some(zero.error);
      }
      var entry := NewLedgerEntry(ids.entry, w.id, tx.id, Credit, w.balance, zero.value, w.balance);
      if entry.Err? {
        return Some(entry.error);
      }
      ghost var before, seqNo := store.State(), store.nextSeq;
      var row := ToRow(tx.State());
      var processed := AddEvent(NewTransactionProcessed(ids.final, tx.State()));
      var changed := AddEvent(NewWalletBalanceChanged(ids.change, entry.value, w.version));
      ghost var rest := [AppendLedger(entry.value)] + ([processed] + ([changed] + []));
      assert OpenWrites(w.State(), Some(OpeningParts(tx.State(), entry.value)), ids)[2..] == [InsertTx(row)] + rest;
      OpeningIsRehydratable(tx.State(), w.State(), ids, correlationId);
      e := store.Insert(tx);
      RunsOne(before, InsertTx(row), 1);
      FirstStatement(before, InsertTx(row), rest, seqNo);
      SeqNoOnlyNumbersEntries(before, InsertTx(row), 1, seqNo);
      if e.Some? {
        return;
      }
      before := store.State();
      e := store.Append(entry.value);
      AfterStatement(before, AppendLedger(entry.value), seqNo, e, store.State(), [processed] + ([changed] + []), seqNo);
      if e.Some? {
        return;
      }
      before := store.State();
      e := store.Add(processed.event);
      AfterStatement(before, processed, 1, e, store.State(), [changed] + [], seqNo);
      if e.Some? {
        return;
      }
      before := store.State();
      e := store.Add(changed.event);
      AfterStatement(before, changed, 1, e, store.State(), [], seqNo);
      NoStatements(store.State(), seqNo);
    }

    method OpenWallet(walletId: Uuid, playerId: Uuid, initial: Money, correlationId: string, ids: Ids, now: Time)
      returns (r: Result<Wallet>)
      requires store.Valid()
      modifies store
      ensures store.Valid()
      ensures var spec := OpenNow(old(store.State()), old(store.nextSeq), walletId, playerId, initial, correlationId, ids, now);
              if spec.Ok? then r.Ok? && fresh(r.value) && r.value.State() == spec.value.wallet && store.State() == spec.value.db
              else r == Err(spec.error) && store.State() == old(store.State())
    {
      hide Violation, RunWrites, ApplyWrite, Stores.Readable, NewOpeningParts, ValidWallet;
      var state := Wallets.Open(walletId, playerId, initial);
      if state.Err? {
        return Err(state.error);
      }
      var backup := store.State();
      ghost var seqNo := store.nextSeq;
      var w := new Wallet(state.value);
      OpenedIsValid(walletId, playerId, initial);
      assert OpenWrites(state.value, None, ids) == [ReserveOwner(w.playerId, w.currency), Write.CreateWallet(w.State())];
      var e := store.CreateWallet(w);
      NoEntryNoNumber(backup, state.value, ids, seqNo);
      if e.Some? {
        return Err(e.value);
      }
      if w.balance.IsZero() {
        return Ok(w);
      }
      e := InsertOpening(w, ids, correlationId, now);
      if e.Some? {
        store.Rollback(backup);
        return Err(e.value);
      }
      return Ok(w);
    }

    method ListLedger(walletId: Uuid, cursor: string, limit: int) returns (r: Result<Page>)
      requires store.Valid()
      ensures r == Paging.ListLedger(store.State(), walletId, cursor, limit)
      ensures r.Ok? ==> |r.value.entries| <= if 1 <= limit <= 200 then limit else 50
    {
      hide OfWallet, Beyond, Cursor.DecodeCursor, Cursor.EncodeCursor, Stores.Readable;
      var size := limit;
      if limit <= 0 || limit > 200 {
        size := 50;
      }
      var after := Cursor.DecodeCursor(cursor);
      if after.Err? {
        return Err(after.error);
      }
      var w := store.GetWallet(walletId);
      if w.Err? {
        return Err(w.error);
      }
      var records := store.List(walletId, after.value, size + 1);
      var next := "";
      if |records| > size {
        next := Cursor.EncodeCursor(records[size - 1].seqNo);
        records := records[..size];
      }
      var entries: seq<LedgerEntry> := [];
      for k := 0 to |records|
        invariant entries == EntriesOf(records[..k])
      {
        entries := entries + [records[k].entry];
      }
      assert records[..|records|] == records;
      return Ok(Page(entries, next));
    }

    method Reconcile(walletId: Uuid) returns (r: Result<Reconciliation>)
      requires store.Valid()
      ensures r == Audit.Reconcile(store.State(), walletId)
    {
      var w := store.GetWallet(walletId);
      if w.Err? {
        return Err(w.error);
      }
      var totals := store.Totals(walletId);
      if totals.Err? {
        return Err(totals.error);
      }
      return Compared(w.value.State(), totals.value);
    }
  }

  lemma OpenedIsValid(walletId: Uuid, playerId: Uuid, initial: Money)
    requires Wallets.Open(walletId, playerId, initial).Ok?
    ensures ValidWallet(Wallets.Open(walletId, playerId, initial).value)
  {}

  lemma OpeningIsRehydratable(tx: Snapshot, w: WalletState, ids: Ids, correlationId: string)
    requires NewOpening(ids.tx, w.id, w.playerId, w.balance, correlationId).Ok?
    requires SameIdentity(NewOpening(ids.tx, w.id, w.playerId, w.balance, correlationId).value, tx)
    ensures Rehydratable(tx)
  {}

  lemma NoEntryNoNumber(db: DB, w: WalletState, ids: Ids, seqNo: SeqNo)
    ensures RunWrites(db, OpenWrites(w, None, ids), seqNo) == RunWrites(db, OpenWrites(w, None, ids), 1)
  {
    var ws := OpenWrites(w, None, ids);
    assert ws == [ws[0]] + ([ws[1]] + []);
    FirstStatement(db, ws[0], [ws[1]] + [], seqNo);
    FirstStatement(db, ws[0], [ws[1]] + [], 1);
    FirstStatement(db, ws[1], [], seqNo);
    FirstStatement(db, ws[1], [], 1);
  }

  // ---- on good tables ----

  /**
   Opening a wallet on good tables with fresh identifiers fails only for a refused request or a second
   wallet of the player in the currency; otherwise the wallet is there with its opening recorded, and the
   tables stay right.
   */
  lemma OpenIsClean(db: DB, seqNo: SeqNo, walletId: Uuid, playerId: Uuid, initial: Money, correlationId: string,
                    ids: Ids, now: Time)
    requires DbInv(db) && FreshFor(db, ids) && walletId !in db.wallets
    ensures var r := OpenNow(db, seqNo, walletId, playerId, initial, correlationId, ids, now);
            && (r.Ok? ==> DbInv(r.value.db) && walletId in r.value.db.wallets && r.value.db.wallets[walletId] == r.value.wallet
                          && r.value.wallet == WalletState(walletId, playerId, initial.currency, initial, 1))
            && (r.Err? ==> r.error in {InvalidWallet, WalletExists})
            && (r == Err(InvalidWallet) <==> walletId == 0 || playerId == 0 || !initial.valid || initial.minor < 0)
            && (r == Err(WalletExists) <==>
                  && walletId != 0 && playerId != 0 && initial.valid && initial.minor >= 0
                  && exists id :: id in db.wallets && db.wallets[id].playerId == playerId && db.wallets[id].currency == initial.currency)
            && (r == Err(WalletExists) <==> Wallets.Open(walletId, playerId, initial).Ok? && OwnerTaken(db.wallets, playerId, initial.currency))
  {
    hide DbInv, OpenReady, OpenWrites, RunWrites, AfterOpening, NewOpeningParts, OwnerTaken, ValidWallet, FreshFor;
    TakenExactly(db.wallets, playerId, initial.currency);
    var w := Wallets.Open(walletId, playerId, initial);
    if w.Ok? {
      OpenedIsValid(walletId, playerId, initial);
      FreshIsReady(db, w.value, ids, correlationId, now);
      if w.value.balance.IsZero() {
        OpenRuns(db, w.value, None, ids, correlationId, seqNo);
      } else {
        var parts := NewOpeningParts(w.value, ids, correlationId, now);
        OpenRuns(db, w.value, Some(parts.value), ids, correlationId, seqNo);
        OpenInTwoParts(db, w.value, parts.value, ids, seqNo);
      }
    }
  }

  lemma TakenExactly(wallets: map<Uuid, WalletState>, playerId: Uuid, currency: string)
    ensures OwnerTaken(wallets, playerId, currency) <==>
              exists id :: id in wallets && wallets[id].playerId == playerId && wallets[id].currency == currency
  {}

  lemma OpenInTwoParts(db: DB, w: WalletState, parts: OpeningParts, ids: Ids, seqNo: SeqNo)
    ensures RunWrites(db, OpenWrites(w, Some(parts), ids), seqNo)
         == var first := RunWrites(db, OpenWrites(w, None, ids), seqNo);
            if first.Err? then first else RunWrites(first.value, OpenWrites(w, Some(parts), ids)[2..], seqNo)
  {
    hide RunWrites;
    assert OpenWrites(w, Some(parts), ids) == OpenWrites(w, None, ids) + OpenWrites(w, Some(parts), ids)[2..];
    RunsInParts(db, OpenWrites(w, None, ids), OpenWrites(w, Some(parts), ids)[2..], seqNo);
  }

  lemma FreshIsReady(db: DB, w: WalletState, ids: Ids, correlationId: string, now: Time)
    requires FreshFor(db, ids) && w.id !in db.wallets && ValidWallet(w) && w.version == 1
    ensures w.balance.IsZero() ==> OpenReady(db, w, None, ids, correlationId)
    ensures !w.balance.IsZero() ==>
              NewOpeningParts(w, ids, correlationId, now).Ok?
              && OpenReady(db, w, Some(NewOpeningParts(w, ids, correlationId, now).value), ids, correlationId)
  {
    hide NewOpeningParts, OpeningFor;
    assert ids.tx in IdSet(ids) && ids.entry in IdSet(ids) && ids.change in IdSet(ids) && ids.final in IdSet(ids);
    assert Unknown(db, ids.tx) && Unknown(db, ids.entry) && Unknown(db, ids.change) && Unknown(db, ids.final);
    assert IdsUnused(db, ids);
    OpeningPartsAre(w, ids, correlationId, now);
  }

  lemma OpenRuns(db: DB, w: WalletState, parts: Option<OpeningParts>, ids: Ids, correlationId: string, seqNo: SeqNo)
    requires DbInv(db) && OpenReady(db, w, parts, ids, correlationId)
    ensures OwnerTaken(db.wallets, w.playerId, w.currency) ==>
              RunWrites(db, OpenWrites(w, parts, ids), seqNo) == Err(WalletExists)
    ensures !OwnerTaken(db.wallets, w.playerId, w.currency) ==>
              && RunWrites(db, OpenWrites(w, parts, ids), seqNo) == Ok(AfterOpening(db, w, parts, ids, seqNo))
              && DbInv(AfterOpening(db, w, parts, ids, seqNo))
              && w.id in AfterOpening(db, w, parts, ids, seqNo).wallets && AfterOpening(db, w, parts, ids, seqNo).wallets[w.id] == w
  {
    hide RunWrites, OpenReady, LedgersOk, EventsOk, InboxOk, NothingWithoutWallet, EntriesDistinct, EntriesComplete,
      ReferencesPrecede, TxsOk, EntriesOk, OwnersUnique, KeysUnique, ExternalIdsUnique, OpeningsUnique, ReferencesOk,
      ReversalsUnique, OwnerTaken, ApplyAll, OpenRecords, OpenEvents;
    var ws := OpenWrites(w, parts, ids);
    assert ws == [ws[0]] + ws[1..];
    FirstStatement(db, ws[0], ws[1..], seqNo);
    if !OwnerTaken(db.wallets, w.playerId, w.currency) {
      forall at | 0 <= at < |ws| ensures Violation(ApplyAll(db, ws[..at], seqNo), ws[at]) == None {
        if at == 0 {
          NothingApplied(db, seqNo);
          assert ws[..0] == [];
        } else {
          OpeningNeverFails(db, w, parts, ids, correlationId, seqNo, at);
        }
      }
      UnrefusedRun(db, ws, seqNo);
      OpeningAmountsTo(db, w, parts, ids, correlationId, seqNo);
      OpeningKeepsInvariant(db, w, parts, ids, correlationId, seqNo);
    }
  }

  lemma NothingApplied(db: DB, seqNo: SeqNo)
    ensures ApplyAll(db, [], seqNo) == db
  {}
}
