/**
 What a user of the ledger may rely on at every moment of every run.
 */
module Guarantees {
  import opened Basics
  import opened Wallets
  import opened Events
  import opened Rules
  import opened Database
  import opened Invariants
  import opened Engine
  import opened Reach
  import opened History
  import opened Audit
  import opened Conservation
  import opened Replays
  import opened Sums

  /**
   A wallet's entries start from zero, each takes over the balance the one before left, they end at the stored
   balance, which is never negative, and the version counts the entries that are not the opening.
   */
  lemma LedgersAlwaysExplainWallets(cfg: Config, worlds: seq<World>, actions: seq<Action>, i: nat, id: Uuid)
    requires IsRun(cfg, worlds, actions) && i < |worlds| && id in worlds[i].db.wallets
    ensures var db := worlds[i].db;
            var rows, w := OfWallet(db.ledger, id), db.wallets[id];
            && w.balance.minor >= 0
            && w.version == 1 + CountMovements(db.txs, rows)
            && (rows != [] ==> rows[0].entry.balanceBefore.minor == 0)
            && (forall k :: 0 < k < |rows| ==> rows[k].entry.balanceBefore.minor == rows[k - 1].entry.balanceAfter.minor)
            && w.balance.minor == (if rows == [] then 0 else rows[|rows| - 1].entry.balanceAfter.minor)
  {
    hide IsRun, DbInv, OfWallet, CountMovements;
    TablesAreAlwaysRight(cfg, worlds, actions, i);
    LedgerExplainsWallet(worlds[i].db, id);
  }

  /** Reconciliation never finds a divergence: it is consistent, or it fails because lifetime totals left int64. */
  lemma ReconciliationNeverDiverges(cfg: Config, worlds: seq<World>, actions: seq<Action>, i: nat, id: Uuid)
    requires IsRun(cfg, worlds, actions) && i < |worlds| && id in worlds[i].db.wallets
    ensures var db := worlds[i].db;
            var t, r := Summed(OfWallet(db.ledger, id)), Reconcile(db, id);
            && (r.Ok? <==> FitsInt64(t.credits) && FitsInt64(t.debits))
            && (r.Ok? ==> r.value.consistent && r.value.difference.minor == 0 && r.value.calculated == db.wallets[id].balance
                          && r.value.checked == |OfWallet(db.ledger, id)|)
  {
    hide IsRun, DbInv, OfWallet, Summed, Reconcile;
    TablesAreAlwaysRight(cfg, worlds, actions, i);
    ReconcileIsConsistent(worlds[i].db, id);
  }

  /** Following the announced changes of a wallet in the order of their contiguous versions rebuilds its balance and version. */
  lemma ChangesAlwaysRebuildWallets(cfg: Config, worlds: seq<World>, actions: seq<Action>, i: nat, id: Uuid)
    requires IsRun(cfg, worlds, actions) && i < |worlds| && id in worlds[i].db.wallets
    ensures var db := worlds[i].db;
            var changes := ChangesOf(db.outbox, id);
            var offset := VersionOffset(db.txs, OfWallet(db.ledger, id));
            && |changes| == |OfWallet(db.ledger, id)|
            && (forall k :: 0 <= k < |changes| ==> changes[k] == ChangeOf(OfWallet(db.ledger, id)[k].entry, k + 1 + offset))
            && Follow(changes, Replica(0, offset)) == Some(Replica(db.wallets[id].balance.minor, db.wallets[id].version))
  {
    hide IsRun, DbInv, OfWallet, ChangesOf, VersionOffset, Follow;
    TablesAreAlwaysRight(cfg, worlds, actions, i);
    ChangesRebuildWallet(worlds[i].db, id);
  }

  /** Exactly one final event per finished transaction, none before, and one parking event per transaction that ever waited. */
  lemma EventsAreAlwaysUnique(cfg: Config, worlds: seq<World>, actions: seq<Action>, i: nat, id: Uuid)
    requires IsRun(cfg, worlds, actions) && i < |worlds|
    ensures var db := worlds[i].db;
            && |FinalsOf(db.outbox, id)| == (if id in db.txs && db.txs[id].status.IsTerminal() then 1 else 0)
            && |ParkedOf(db.outbox, id)| == (if id in db.txs && db.txs[id].attempts > 0 then 1 else 0)
  {
    hide IsRun, DbInv, FinalsOf, ParkedOf;
    TablesAreAlwaysRight(cfg, worlds, actions, i);
    FinalEventsAreUnique(worlds[i].db, id);
  }

  /** Money moves exactly once per processed transaction other than LOSS, and each has its key and external id to itself. */
  lemma MoneyAlwaysMovesOnce(cfg: Config, worlds: seq<World>, actions: seq<Action>, i: nat, id: Uuid)
    requires IsRun(cfg, worlds, actions) && i < |worlds|
    ensures var db := worlds[i].db;
            && CountEntries(db.ledger, id)
               == (if id in db.txs && db.txs[id].status.Processed? && !db.txs[id].req.kind.Loss? then 1 else 0)
            && (id in db.txs && db.txs[id].origin.External? ==>
                  forall other | other in db.txs && other != id ::
                    !HasKey(db.txs[other], db.txs[id].req.providerId, db.txs[id].key)
                    && !HasExternalId(db.txs[other], db.txs[id].req.providerId, db.txs[id].req.externalId))
  {
    hide IsRun, DbInv, CountEntries, HasKey, HasExternalId;
    TablesAreAlwaysRight(cfg, worlds, actions, i);
    MoneyMovesExactlyOnce(worlds[i].db, id);
  }

  /** No stake is returned twice and no prize taken back twice; resolved references never form a cycle. */
  lemma ChainsAlwaysNet(cfg: Config, worlds: seq<World>, actions: seq<Action>, i: nat, id: Uuid, path: seq<Uuid>)
    requires IsRun(cfg, worlds, actions) && i < |worlds|
    requires id in worlds[i].db.txs && MovesMoney(worlds[i].db.txs[id])
    requires ReferencePath(worlds[i].db, path)
    ensures ChainsOk(worlds[i].db.txs)
    ensures var txs := worlds[i].db.txs;
            var a := txs[id].req.money.minor;
            && (txs[id].req.kind.Bet? ==> Net(txs, id) == if Returned(txs, id) then 0 else 0 - a)
            && (txs[id].req.kind.Win? ==> Net(txs, id) == if HasProcessedReversal(txs, id) then 0 else a)
    ensures forall j, k :: 0 <= j < k < |path| ==> path[j] != path[k]
  {
    hide IsRun, DbInv, ChainsOk, Net, Returned, HasProcessedReversal, ReferencePath;
    TablesAreAlwaysRight(cfg, worlds, actions, i);
    RightTables(worlds[i].db);
    TablesHaveChains(worlds[i].db);
    ChainNets(worlds[i].db.txs, id);
    ReferencesAreWellFounded(worlds[i].db, path);
  }

  lemma RightTables(db: DB)
    requires DbInv(db)
    ensures TablesOk(db)
  {}

  /** A balance is what the wallet was opened with plus the net of all its bets and wins. */
  lemma BalancesAreAlwaysSums(cfg: Config, worlds: seq<World>, actions: seq<Action>, i: nat, id: Uuid)
    requires IsRun(cfg, worlds, actions) && i < |worlds| && id in worlds[i].db.wallets
    ensures ChainsOk(worlds[i].db.txs)
    ensures worlds[i].db.wallets[id].balance.minor == Sum(Roots(worlds[i].db.txs, id), Nets(worlds[i].db.txs))
  {
    hide IsRun, DbInv, ChainsOk, Net, Roots, Sum;
    TablesAreAlwaysRight(cfg, worlds, actions, i);
    BalanceIsSumOfChains(worlds[i].db, id);
  }

  /**
   From the moment a transaction is finished, every lookup of its key with its payload, by whichever process and
   however much has moved since, replays the very row of that moment; and a lookup with another payload conflicts.
   */
  lemma FinishedIsReplayedForever(cfg: Config, worlds: seq<World>, actions: seq<Action>, i: nat, j: nat, id: Uuid,
                                  pid: Pid, ctx: Ctx, locked: Option<WalletState>)
    requires IsRun(cfg, worlds, actions) && i <= j < |worlds|
    requires id in worlds[i].db.txs && worlds[i].db.txs[id].status.IsTerminal()
    requires HasKey(worlds[i].db.txs[id], ctx.cmd.req.providerId, ctx.cmd.key)
    ensures worlds[i].db.txs[id].req.money.valid
    ensures StepLookUpKey(worlds[j], pid, ctx, locked)
         == if worlds[i].db.txs[id].req == ctx.cmd.req then Become(worlds[j], pid, Replaying(ctx, FromRow(worlds[i].db.txs[id])))
            else Fail(worlds[j], pid, ctx, IdempotencyConflict)
  {
    hide IsRun, TxsOk, KeysUnique, StepLookUpKey, LedgerOk, EventsOk, InboxOk, NothingWithoutWallet, WalletsOk;
    FinishedRowsAreFrozen(cfg, worlds, actions, i, j);
    TablesAreAlwaysRight(cfg, worlds, actions, j);
    FinishedRowsAreReplayed(worlds[j], pid, ctx, locked, id);
  }

  /** At every moment a recorded result is the balance the transaction's own entry left. */
  lemma ResultsAreAlwaysEntryBalances(cfg: Config, worlds: seq<World>, actions: seq<Action>, i: nat, k: nat)
    requires IsRun(cfg, worlds, actions) && i < |worlds| && k < |worlds[i].db.ledger|
    ensures var db := worlds[i].db;
            var e := db.ledger[k].entry;
            e.transactionId in db.txs && db.txs[e.transactionId].result == Some(e.balanceAfter.minor)
  {
    hide IsRun, DbInv;
    TablesAreAlwaysRight(cfg, worlds, actions, i);
    ResultIsEntryBalance(worlds[i].db, k);
  }
}
