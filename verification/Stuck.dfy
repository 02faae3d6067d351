/**
 When the pending worker cannot go on: a waiting credit that its wallet cannot take makes every attempt at it
 fail, leaves it first in line, and is released by nothing but a movement of that wallet.
 */
module Stuck {
  import opened Basics
  import opened Wallets
  import opened Wagering
  import opened Rules
  import opened Database
  import opened Invariants
  import opened UseCases
  import opened Commit
  import opened Opening
  import opened Engine
  import opened Processes
  import opened Worlds
  import opened Reach
  import opened History
  import opened Sequential
  import opened Serial
  import opened Waiting
  import opened Worker

  // ---- a round of the worker ----

  /** A round fails exactly when the earliest due transaction is a credit that its wallet cannot take. */
  lemma RoundFailsExactly(cfg: Config, db: DB, seqNo: SeqNo, id: Uuid, claimAt: Time, ids: Ids, now: Time, e: Error)
    requires DbInv(db) && FreshFor(db, ids) && SeqFits(db, seqNo) && EarliestDue(db.txs, id, claimAt)
    ensures db.txs[id].req.money.valid
    ensures FailedEarliest(cfg, db, seqNo, id, claimAt, ids, now, e) <==>
              e == Overflow && CreditDoesNotFit(db, FromRow(db.txs[id]))
  {
    hide DbInv, FreshFor, SeqFits, CreditDoesNotFit, Retry;
    RetryIsClean(cfg, db, seqNo, id, ids, now);
  }

  /**
   It is then first in line at every later instant as well, and fails again whatever identifiers, clock and
   sequence number the next attempt draws: until the tables change no round gets past it, except by way of
   transactions that share its retry time.
   */
  lemma ComesFirstAgain(cfg: Config, db: DB, id: Uuid, claimAt: Time, later: Time, seqNo: SeqNo, ids: Ids, now: Time)
    requires DbInv(db) && EarliestDue(db.txs, id, claimAt) && claimAt <= later
    requires db.txs[id].req.money.valid && CreditDoesNotFit(db, FromRow(db.txs[id]))
    requires FreshFor(db, ids) && SeqFits(db, seqNo)
    ensures FailedEarliest(cfg, db, seqNo, id, later, ids, now, Overflow)
    ensures forall other :: EarliestDue(db.txs, other, later) ==> db.txs[other].nextRetry == db.txs[id].nextRetry
  {
    hide DbInv, FreshFor, SeqFits, CreditDoesNotFit, Retry;
    assert EarliestDue(db.txs, id, later);
    RoundFailsExactly(cfg, db, seqNo, id, later, ids, now, Overflow);
  }

  // ---- over whole runs ----

  /** A waiting transaction whose credit its wallet cannot take. */
  ghost predicate IsStuck(db: DB, id: Uuid) {
    && id in db.txs && db.txs[id].status.PendingReference? && db.txs[id].req.money.valid
    && CreditDoesNotFit(db, FromRow(db.txs[id]))
  }

  /** A wallet's version moves on with every change of the wallet. */
  ghost predicate SameOrNext(a: WalletState, b: WalletState) {
    b == a || b.version == a.version + 1
  }

  lemma BodyMovesOnce(w: World, p: Proc, id: Uuid)
    requires WriterOk(w, p) && id in w.db.wallets
    ensures var wallets' := After(w.db, p.out, p.body.ids, p.seqNo).wallets;
            && id in wallets' && SameOrNext(w.db.wallets[id], wallets'[id])
            && (p.out.entry.Some? && id == p.body.base.id ==> wallets'[id] != w.db.wallets[id])
  {
    hide ProgressOk, ReferenceHeld, Coherent, ReadsReference, SoundReference, WellFormedEntry, OutEvents, NewRecords;
  }

  /** What one action does to the committed tables, as far as wallets and transactions go. */
  ghost predicate Moved(w: World, a: Action, db': DB) {
    || (db'.wallets == w.db.wallets && db'.txs == w.db.txs)
    || (a.Advance? && a.pid in w.procs && w.procs[a.pid].Writing? && WriterOk(w, w.procs[a.pid])
        && var p := w.procs[a.pid];
           db'.wallets == w.db.wallets[p.out.wallet.id := p.out.wallet] && db'.txs == w.db.txs[p.out.tx.id := ToRow(p.out.tx)])
    || (a.Advance? && a.pid in w.procs && w.procs[a.pid].OpeningWallet?
        && var p := w.procs[a.pid];
           OpenReady(w.db, p.wallet, p.parts, p.ids, p.correlationId)
           && db'.wallets == AfterOpening(w.db, p.wallet, p.parts, p.ids, p.seqNo).wallets
           && db'.txs == AfterOpening(w.db, p.wallet, p.parts, p.ids, p.seqNo).txs)
  }

  lemma InboxAside(db: DB, ctx: Ctx)
    ensures WithInbox(db, ctx).wallets == db.wallets && WithInbox(db, ctx).txs == db.txs
  {}

  lemma ActionMoves(cfg: Config, w: World, a: Action)
    requires Inv(cfg, w) && Enabled(w, a)
    ensures Moved(w, a, Perform(cfg, w, a).db)
  {
    hide Inv, Blocked, FreshIds, ClaimOk, Opened, Delivered, Advanced, BodyStatements, OpenWrites, ProcOk, StepWrite,
      StepOpen, AfterOpening, OpenReady, Evolves, Holds, WithInbox, WriterOk, OutEvents, NewRecords;
    if a.Advance? {
      var p := w.procs[a.pid];
      CommittingSteps(cfg, w, a.pid, a.choice);
      InvParts(cfg, w, a.pid);
      if p.Writing? && p.at >= |BodyStatements(p.body, p.out)| {
        WritingIsBounded(cfg, w, p);
        BodyCommitChanges(cfg, w, a.pid);
        WriterFacts(cfg, w, a.pid);
        if p.body.ctx.Some? {
          InboxAside(After(w.db, p.out, p.body.ids, p.seqNo), p.body.ctx.value);
        }
      } else if p.OpeningWallet? && p.at >= |OpenWrites(p.wallet, p.parts, p.ids)| {
        OpeningIsBounded(cfg, w, p);
        OpenCommitChanges(cfg, w, a.pid);
      } else if p.Replaying? {
        InboxAside(w.db, p.ctx);
      } else {
        NoCommitNoChange(cfg, w, a.pid, a.choice);
      }
    } else {
      ArrivalsWriteNothing(cfg, w, a);
    }
  }

  lemma MovedOnce(w: World, a: Action, db': DB, id: Uuid)
    requires Moved(w, a, db') && id in w.db.wallets
    ensures id in db'.wallets && SameOrNext(w.db.wallets[id], db'.wallets[id])
  {
    hide WriterOk, SameOrNext;
    if a.Advance? && a.pid in w.procs && w.procs[a.pid].Writing? && WriterOk(w, w.procs[a.pid]) {
      BodyMovesOnce(w, w.procs[a.pid], id);
    }
    StaysTheSame(w.db.wallets[id]);
  }

  lemma StaysTheSame(s: WalletState)
    ensures SameOrNext(s, s)
  {}

  /** As long as a wallet stays as it is, no transaction of it is reversed. */
  lemma NoNewReversal(w: World, a: Action, db': DB, reference: Uuid)
    requires Moved(w, a, db') && ReferencesOk(db'.txs) && reference in w.db.txs && w.db.txs[reference].req.walletId in w.db.wallets
    requires reference in db'.txs && db'.txs[reference] == w.db.txs[reference]
    requires var id := w.db.txs[reference].req.walletId; id in db'.wallets && db'.wallets[id] == w.db.wallets[id]
    requires !HasProcessedReversal(w.db.txs, reference)
    ensures !HasProcessedReversal(db'.txs, reference)
  {
    hide WriterOk;
    if HasProcessedReversal(db'.txs, reference) {
      var x :| x in db'.txs && IsProcessedReversalOf(db'.txs[x], reference);
      assert ReferenceOk(db'.txs, db'.txs[x]);
      if a.Advance? && a.pid in w.procs && w.procs[a.pid].Writing? && WriterOk(w, w.procs[a.pid]) && x == w.procs[a.pid].out.tx.id {
        var p := w.procs[a.pid];
        BodyMovesOnce(w, p, w.db.txs[reference].req.walletId);
        ReversalMoves(w, p);
      }
    }
  }

  lemma ReversalMoves(w: World, p: Proc)
    requires WriterOk(w, p) && p.out.tx.status.Processed? && p.out.tx.req.kind.IsReversal()
    ensures p.out.entry.Some? && p.out.tx.req.walletId == p.body.base.id
  {
    hide ProgressOk, ReferenceHeld;
  }

  /** The reference of a stuck credit, if it has one: a processed row of the same wallet. */
  lemma StuckReference(db: DB, tx: Snapshot) returns (id: Uuid)
    requires TxsOk(db.txs, db.wallets) && ExternalIdsUnique(db.txs)
    requires CreditDoesNotFit(db, tx) && ReadsReference(tx, db.wallets[tx.req.walletId])
    ensures id in db.txs && HasExternalId(db.txs[id], tx.req.providerId, tx.req.reference)
    ensures db.txs[id].status.Processed? && db.txs[id].req.walletId == tx.req.walletId && db.txs[id].id == id
    ensures db.txs[id].req.money.valid && ReferenceOf(db.txs, tx) == Some(FromRow(db.txs[id]))
  {
    hide TxsOk, ExternalIdsUnique, FindByExternalId;
    id :| id in db.txs && HasExternalId(db.txs[id], tx.req.providerId, tx.req.reference);
    ReferenceIs(db.txs, db.wallets, id, tx);
    RowHasId(db, id);
  }

  lemma RowHasId(db: DB, id: Uuid)
    requires TxsOk(db.txs, db.wallets) && id in db.txs
    ensures db.txs[id].id == id && db.txs[id].req.walletId in db.wallets && RowOk(id, db.txs[id])
  {
    hide RowOk;
    RowIdOf(db, id);
  }

  lemma RowIdOf(db: DB, id: Uuid)
    requires TxsOk(db.txs, db.wallets) && id in db.txs
    ensures db.txs[id].id == id
  {
    assert RowOk(id, db.txs[id]);
  }

  /** What decides about a stuck credit does not change without its wallet. */
  lemma StillDoesNotFit(w: World, a: Action, db': DB, tx: Snapshot)
    requires TablesOk(w.db) && TablesOk(db') && Moved(w, a, db') && RowsKeep(w.db.txs, db'.txs)
    requires CreditDoesNotFit(w.db, tx)
    requires tx.req.walletId in db'.wallets && db'.wallets[tx.req.walletId] == w.db.wallets[tx.req.walletId]
    ensures CreditDoesNotFit(db', tx)
  {
    hide Moved, TxsOk, ExternalIdsUnique, ReferencesOk, OwnersUnique, KeysUnique, OpeningsUnique, ReversalsUnique, WalletsOk,
      HasProcessedReversal, ReferenceOf, HasExternalId;
    var base := w.db.wallets[tx.req.walletId];
    if ReadsReference(tx, base) {
      var id := StuckReference(w.db, tx);
      SameExternalId(w.db.txs[id], db'.txs[id], tx);
      ReferenceIs(db'.txs, db'.wallets, id, tx);
      if tx.req.kind.IsReversal() {
        NoNewReversal(w, a, db', id);
      }
    }
  }

  lemma SameExternalId(r: TxRow, r': TxRow, tx: Snapshot)
    requires r' == r && HasExternalId(r, tx.req.providerId, tx.req.reference)
    ensures HasExternalId(r', tx.req.providerId, tx.req.reference)
  {}

  /** No attempt at a stuck credit commits. */
  lemma StuckIsNotCommitted(cfg: Config, w: World, a: Action, id: Uuid)
    requires Inv(cfg, w) && IsStuck(w.db, id)
    ensures !AttemptCommits(w, a, id)
  {
    hide Inv, BodyOk, DecidedOk, ProgressOk, AtOnce, CreditDoesNotFit, OvertakenReference, ReferenceNow;
    if AttemptCommits(w, a, id) {
      var p := w.procs[a.pid];
      InvParts(cfg, w, a.pid);
      CommitEqualsAtOnce(cfg, w.db, w.sent, p.body, p.ref, p.reversed, p.out);
      ClaimedBody(w.db, w.sent, p.body);
      ReferenceIsUsable(w.db, p.body);
      DecideNowErrs(cfg, w.db, w.sent, p.body);
      AtOnceIsDecided(cfg, w.db, p.body);
    }
  }

  lemma AtOnceIsDecided(cfg: Config, db: DB, b: Body)
    ensures AtOnce(cfg, db, b) == DecideNow(cfg, db, b.tx, b.base, b.ids.entry, b.now)
  {}

  lemma ClaimedBody(db: DB, sent: map<Handle, Message>, b: Body)
    requires WalletsOk(db.wallets) && BodyOk(db, sent, b) && b.ctx.None?
    ensures b.tx.id in db.txs && db.txs[b.tx.id].req.money.valid && b.tx == FromRow(db.txs[b.tx.id]) && ValidWallet(b.base)
  {
    hide Undecided;
  }

  lemma StepKeepsStuck(cfg: Config, w: World, a: Action, id: Uuid)
    requires Inv(cfg, w) && Enabled(w, a) && IsStuck(w.db, id)
    requires var db', wallet := Perform(cfg, w, a).db, w.db.txs[id].req.walletId;
             wallet in db'.wallets && db'.wallets[wallet] == w.db.wallets[wallet]
    ensures var db' := Perform(cfg, w, a).db; id in db'.txs && db'.txs[id] == w.db.txs[id] && IsStuck(db', id)
    ensures !AttemptCommits(w, a, id)
  {
    hide Inv, Enabled, Perform, CreditDoesNotFit, Moved, RowsKeep, AttemptCommits;
    StuckIsNotCommitted(cfg, w, a, id);
    ActionUsesUp(cfg, w, a, id);
    ActionMoves(cfg, w, a);
    ActionKeepsRows(cfg, w, a);
    ActionKeeps(cfg, w, a);
    GoodTables(cfg, w);
    GoodTables(cfg, Perform(cfg, w, a));
    StillDoesNotFit(w, a, Perform(cfg, w, a).db, FromRow(w.db.txs[id]));
  }

  lemma GoodTables(cfg: Config, w: World)
    requires Inv(cfg, w)
    ensures TablesOk(w.db)
  {
    hide TablesOk, LedgerOk, EventsOk, InboxOk, NothingWithoutWallet, ProcsOk, LocksExclude, IdsOk, MailOk, RepliesOk, SeqsOk;
  }

  /** A wallet's version never goes back, and stands still only with the wallet. */
  lemma {:induction false} VersionsGrow(cfg: Config, worlds: seq<World>, actions: seq<Action>, i: nat, j: nat, id: Uuid)
    requires IsRun(cfg, worlds, actions) && i <= j < |worlds| && id in worlds[i].db.wallets
    ensures id in worlds[j].db.wallets && worlds[i].db.wallets[id].version <= worlds[j].db.wallets[id].version
    ensures worlds[i].db.wallets[id].version == worlds[j].db.wallets[id].version ==> worlds[i].db.wallets[id] == worlds[j].db.wallets[id]
    decreases j
  {
    hide Inv, Enabled, Perform, Moved;
    if i < j {
      VersionsGrow(cfg, worlds, actions, i, j - 1, id);
      RunsAreSafe(cfg, worlds, actions, j - 1);
      ActionMoves(cfg, worlds[j - 1], actions[j - 1]);
      MovedOnce(worlds[j - 1], actions[j - 1], worlds[j].db, id);
    }
  }

  /**
   Over every run, whatever any number of workers do: as long as the wallet has not moved, a stuck credit stays
   as it is, no attempt at it commits, and it uses up none of its attempts, so it never becomes final.
   */
  lemma {:induction false} StuckWhileWalletStands(cfg: Config, worlds: seq<World>, actions: seq<Action>, id: Uuid, i: nat, j: nat)
    requires IsRun(cfg, worlds, actions) && i <= j < |worlds| && IsStuck(worlds[i].db, id)
    requires var wallet := worlds[i].db.txs[id].req.walletId;
             wallet in worlds[i].db.wallets && wallet in worlds[j].db.wallets
             && worlds[j].db.wallets[wallet] == worlds[i].db.wallets[wallet]
    ensures id in worlds[j].db.txs && worlds[j].db.txs[id] == worlds[i].db.txs[id] && IsStuck(worlds[j].db, id)
    ensures Attempts(worlds, actions, id, i, j) == 0
    decreases j
  {
    hide Inv, Enabled, Perform, CreditDoesNotFit, AttemptCommits;
    if i < j {
      var wallet := worlds[i].db.txs[id].req.walletId;
      VersionsGrow(cfg, worlds, actions, i, j - 1, wallet);
      VersionsGrow(cfg, worlds, actions, j - 1, j, wallet);
      StuckWhileWalletStands(cfg, worlds, actions, id, i, j - 1);
      RunsAreSafe(cfg, worlds, actions, j - 1);
      StepKeepsStuck(cfg, worlds[j - 1], actions[j - 1], id);
    }
  }
}
