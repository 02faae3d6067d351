/**
 Idempotency over whole runs: one transaction per key, one ledger entry per moved amount, one answer
 to every submission of the same operation, and a retry that always settles.
 */
module Replays {
  import opened Basics
  import opened Moneys
  import opened Wallets
  import opened Wagering
  import opened Rules
  import opened Database
  import opened UseCases
  import opened Invariants
  import opened Commit
  import opened Engine
  import opened Processes
  import opened Worlds
  import opened Reach
  import opened History
  import opened Requests
  import PayloadHash

  // ---- exactly-once money ----

  /** How many entries a transaction has. */
  function CountEntries(ledger: seq<LedgerRecord>, txId: Uuid): nat {
    if ledger == [] then 0
    else CountEntries(ledger[..|ledger| - 1], txId) + (if ledger[|ledger| - 1].entry.transactionId == txId then 1 else 0)
  }

  lemma {:induction false} CountsOnce(ledger: seq<LedgerRecord>, txId: Uuid)
    requires forall i, j :: 0 <= i < j < |ledger| ==> ledger[i].entry.transactionId != ledger[j].entry.transactionId
    ensures CountEntries(ledger, txId) == if HasEntry(ledger, txId) then 1 else 0
  {
    if ledger != [] {
      var n := |ledger| - 1;
      CountsOnce(ledger[..n], txId);
      if HasEntry(ledger[..n], txId) {
        var k :| 0 <= k < n && ledger[..n][k].entry.transactionId == txId;
        assert ledger[k].entry.transactionId == txId;
      }
      if HasEntry(ledger, txId) {
        var k :| 0 <= k < |ledger| && ledger[k].entry.transactionId == txId;
        if k < n {
          assert ledger[..n][k].entry.transactionId == txId;
        }
      }
    }
  }

  /**
   A transaction has exactly one ledger entry when it is processed and not a LOSS, and none otherwise;
   and it is the only transaction of its provider with its key, and with its external id.
   */
  lemma MoneyMovesExactlyOnce(db: DB, id: Uuid)
    requires DbInv(db)
    ensures CountEntries(db.ledger, id) == if id in db.txs && db.txs[id].status.Processed? && !db.txs[id].req.kind.Loss? then 1 else 0
    ensures id in db.txs && db.txs[id].origin.External? ==>
              forall other | other in db.txs && other != id ::
                !HasKey(db.txs[other], db.txs[id].req.providerId, db.txs[id].key)
                && !HasExternalId(db.txs[other], db.txs[id].req.providerId, db.txs[id].req.externalId)
  {
    hide EventsOk, InboxOk, NothingWithoutWallet, LedgersOk, ReferencesPrecede, TxsOk, WalletsOk;
    CountsOnce(db.ledger, id);
    if HasEntry(db.ledger, id) {
      var k :| 0 <= k < |db.ledger| && db.ledger[k].entry.transactionId == id;
      assert EntryOk(db.txs, db.ledger[k].entry);
    }
  }

  // ---- one answer per key ----

  /** Two answers to one key report one transaction for one payload, and agree in everything stored once both are final. */
  lemma AnswersAgree(txs: map<Uuid, TxRow>, c1: Command, t1: Snapshot, c2: Command, t2: Snapshot)
    requires KeysUnique(txs) && ReplayOk(txs, c1, t1) && ReplayOk(txs, c2, t2)
    requires c1.req.providerId == c2.req.providerId && c1.key == c2.key
    ensures t1.id == t2.id && c1.req == c2.req
    ensures t1.status.IsTerminal() && t2.status.IsTerminal() ==> ToRow(t1) == ToRow(t2)
  {
    hide PayloadHash.Preimage;
    assert HasKey(txs[t1.id], txs[t2.id].req.providerId, txs[t2.id].key);
    PayloadHash.PreimageIsInjective(c1.req, c2.req);
  }

  /**
   Over every run: all successful answers to submissions of one provider and key, from HTTP or the
   queue, first or replayed, are about one transaction with one payload; final ones agree in status,
   failure code and result balance.
   */
  lemma OneAnswerPerKey(cfg: Config, worlds: seq<World>, actions: seq<Action>, i: nat, a: nat, b: nat)
    requires IsRun(cfg, worlds, actions) && i < |worlds|
    requires a < |worlds[i].replies| && b < |worlds[i].replies|
    requires worlds[i].replies[a].result.Ok? && worlds[i].replies[b].result.Ok?
    requires worlds[i].replies[a].cmd.key == worlds[i].replies[b].cmd.key
    requires worlds[i].replies[a].cmd.req.providerId == worlds[i].replies[b].cmd.req.providerId
    ensures var x, y := worlds[i].replies[a], worlds[i].replies[b];
            && x.cmd.req == y.cmd.req && x.result.value.id == y.result.value.id
            && (x.result.value.status.IsTerminal() && y.result.value.status.IsTerminal() ==>
                  x.result.value.status == y.result.value.status && x.result.value.failure == y.result.value.failure
                  && ToRow(x.result.value) == ToRow(y.result.value))
  {
    hide IsRun, ReplayOk, LedgerOk, EventsOk, InboxOk, NothingWithoutWallet, ProcsOk, LocksExclude, IdsOk, MailOk,
      SeqsOk;
    RunsAreSafe(cfg, worlds, actions, i);
    var x, y := worlds[i].replies[a], worlds[i].replies[b];
    AnswersAgree(worlds[i].db.txs, x.cmd, x.result.value, y.cmd, y.result.value);
  }

  /** A lookup that finds the finished transaction of its key and payload answers with that row, and conflicts on another payload. */
  lemma FinishedRowsAreReplayed(w: World, pid: Pid, ctx: Ctx, locked: Option<WalletState>, id: Uuid)
    requires TxsOk(w.db.txs, w.db.wallets) && KeysUnique(w.db.txs)
    requires id in w.db.txs && HasKey(w.db.txs[id], ctx.cmd.req.providerId, ctx.cmd.key)
    ensures w.db.txs[id].req.money.valid
    ensures StepLookUpKey(w, pid, ctx, locked)
         == if w.db.txs[id].req == ctx.cmd.req then Become(w, pid, Replaying(ctx, FromRow(w.db.txs[id])))
            else Fail(w, pid, ctx, IdempotencyConflict)
  {
    hide PayloadHash.Preimage, Coherent, TerminalShape, FindByKey;
    FoundByKey(w.db.txs, id, ctx.cmd.req.providerId, ctx.cmd.key);
    assert RowOk(id, w.db.txs[id]);
    PayloadHash.PreimageIsInjective(w.db.txs[id].req, ctx.cmd.req);
  }

  /** A lookup that finds the external id under another key conflicts; under the same key it is the same operation or another payload. */
  lemma ExternalIdsAreTakenOnce(w: World, pid: Pid, ctx: Ctx, locked: Option<WalletState>, c: Choice, id: Uuid)
    requires TxsOk(w.db.txs, w.db.wallets) && ExternalIdsUnique(w.db.txs) && id in w.db.txs
    requires w.db.txs[id].origin == External && w.db.txs[id].req.providerId == ctx.cmd.req.providerId
    requires w.db.txs[id].req.externalId == ctx.cmd.req.externalId
    ensures w.db.txs[id].req.money.valid
    ensures StepLookUpExternalId(w, pid, ctx, locked, c)
         == if w.db.txs[id].key != ctx.cmd.key then Fail(w, pid, ctx, ExternalIdConflict)
            else if w.db.txs[id].req == ctx.cmd.req then Become(w, pid, Replaying(ctx, FromRow(w.db.txs[id])))
            else Fail(w, pid, ctx, IdempotencyConflict)
  {
    hide PayloadHash.Preimage, Coherent, TerminalShape, FindByExternalId;
    assert HasExternalId(w.db.txs[id], ctx.cmd.req.providerId, ctx.cmd.req.externalId);
    FoundByExternalId(w.db.txs, id, ctx.cmd.req.providerId, ctx.cmd.req.externalId);
    assert RowOk(id, w.db.txs[id]);
    PayloadHash.PreimageIsInjective(w.db.txs[id].req, ctx.cmd.req);
  }

  /** With key and external id unused the operation goes on to lock its wallet, and then to be decided if it is well-formed. */
  lemma NewOperationsGoOn(w: World, pid: Pid, ctx: Ctx, locked: Option<WalletState>, c: Choice)
    requires forall id :: id in w.db.txs && w.db.txs[id].origin == External && w.db.txs[id].req.providerId == ctx.cmd.req.providerId ==>
                            w.db.txs[id].key != ctx.cmd.key && w.db.txs[id].req.externalId != ctx.cmd.req.externalId
    ensures StepLookUpKey(w, pid, ctx, locked) == Become(w, pid, LookingUpExternalId(ctx, locked))
    ensures locked.None? ==> StepLookUpExternalId(w, pid, ctx, locked, c) == Become(w, pid, LockingWallet(ctx))
    ensures locked.Some? ==>
              var w' := StepLookUpExternalId(w, pid, ctx, locked, c);
              if c.ids.tx != 0 && Trimmed256(ctx.cmd.key) && WellFormedRequest(ctx.cmd.req) then
                && pid in w'.procs && w'.procs[pid].ReadingReference? && w'.procs[pid].body.tx.req == ctx.cmd.req
                && w'.procs[pid].body.base == locked.value
              else w' == Fail(w, pid, ctx, Validation)
    ensures StepLockWallet(w, pid, ctx)
         == if ctx.cmd.req.walletId in w.db.wallets then Become(w, pid, LookingUpKey(ctx, Some(w.db.wallets[ctx.cmd.req.walletId])))
            else Fail(w, pid, ctx, WalletNotFound)
  {
    hide PayloadHash.Preimage, NewExternal, Trimmed256, WellFormedRequest, FromRow, Fail;
    AcceptedExactly(c.ids.tx, ctx.cmd.req, ctx.cmd.key, PayloadHash.Preimage(ctx.cmd.req), ctx.cmd.correlationId);
  }

  /** What a replay returns is what the first answer returned, exactly when the result balance is in the transaction's currency. */
  lemma ReplayIsFaithful(tx: Snapshot, base: WalletState, ref: Option<Snapshot>, reversed: bool, entryId: Uuid,
                         out: Outcome)
    requires ValidWallet(base) && Undecided(tx) && SoundOutcome(tx, base, ref, reversed, entryId, out)
    requires out.tx.status.IsTerminal()
    ensures FromRow(ToRow(out.tx)) == out.tx <==> base.currency == tx.req.money.currency
  {
    RowRoundTrip(out.tx);
    assert out.wallet.currency == base.currency;
  }

  /** An operation whose currency is not its wallet's, as it is refused. */
  function RefusedForCurrency(tx: Snapshot, base: WalletState, now: Time): Snapshot {
    tx.(status := Rejected, failure := CurrencyMismatchCode, resultBalance := Some(base.balance), nextRetry := None,
        processedAt := Some(now))
  }

  /** Every such operation is decided, soundly, and its replay names another currency than its first answer. */
  lemma OtherCurrencyIsRefused(tx: Snapshot, base: WalletState, entryId: Uuid, now: Time, cfg: Config)
    requires ValidWallet(base) && Undecided(tx) && tx.req.walletId == base.id && entryId != NIL
    requires base.playerId == tx.req.playerId && base.currency != tx.req.money.currency
    ensures var out := Outcome(RefusedForCurrency(tx, base, now), base, None);
            && Decide(tx, base, None, false, entryId, now, cfg) == Ok(out)
            && SoundOutcome(tx, base, None, false, entryId, out)
            && out.tx.resultBalance == Some(Money(base.balance.minor, base.currency, true))
            && FromRow(ToRow(out.tx)) == out.tx.(resultBalance := Some(Money(base.balance.minor, tx.req.money.currency, true)))
            && FromRow(ToRow(out.tx)) != out.tx
  {
    hide ValidRequest;
    DecideIsSound(tx, base, None, false, entryId, now, cfg);
    RequestIsValid(tx);
  }

  lemma RequestIsValid(tx: Snapshot)
    requires Undecided(tx)
    ensures tx.req.money.valid
  {}

  lemma OneLetter(v: string)
    requires |v| == 1 && 'a' <= v[0] <= 'z'
    ensures ValidIdentifier(v)
  {}

  /** For one: a bet of 5.00 USD on a wallet that holds 7.00 BRL is answered with 7.00 BRL and replayed with 7.00 USD. */
  lemma DollarsForReais() returns (tx: Snapshot, base: WalletState, out: Outcome)
    ensures ValidWallet(base) && base.balance == Money(700, "BRL", true)
    ensures Undecided(tx) && ValidRequest(tx.req) && tx.req.money == Money(500, "USD", true)
    ensures Decide(tx, base, None, false, 4, 0, Config(1, 1, 1)) == Ok(out) && SoundOutcome(tx, base, None, false, 4, out)
    ensures out.tx.status.Rejected? && out.tx.failure == CurrencyMismatchCode
    ensures out.tx.resultBalance == Some(Money(700, "BRL", true))
    ensures FromRow(ToRow(out.tx)).resultBalance == Some(Money(700, "USD", true))
  {
    hide PayloadHash.Preimage, ValidIdentifier, Decide, SoundOutcome, FromRow;
    OneLetter("p");
    OneLetter("e");
    OneLetter("r");
    OneLetter("g");
    var req := ExternalRequest("p", "e", 1, 2, "r", "g", Bet, Money(500, "USD", true), "");
    tx := Snapshot(3, External, req, "k", PayloadHash.Preimage(req), "c", None, Pending, NoFailure, None, 0, None, None);
    base := WalletState(2, 1, "BRL", Money(700, "BRL", true), 1);
    OtherCurrencyIsRefused(tx, base, 4, 0, Config(1, 1, 1));
    out := Outcome(RefusedForCurrency(tx, base, 0), base, None);
  }

  // ---- results ----

  /** The stored result of a transaction is the balance its own entry left, whatever moved since. */
  lemma ResultIsEntryBalance(db: DB, k: nat)
    requires DbInv(db) && k < |db.ledger|
    ensures var e := db.ledger[k].entry;
            e.transactionId in db.txs && db.txs[e.transactionId].result == Some(e.balanceAfter.minor)
  {
    hide EventsOk, InboxOk, NothingWithoutWallet, LedgersOk, ReferencesPrecede, TablesOk, EntriesComplete,
      EntriesDistinct;
    assert EntryOk(db.txs, db.ledger[k].entry);
  }

  /** A transaction that becomes final records the balance of its wallet in the very commit, still under the lock. */
  lemma ResultIsBalanceUnderLock(cfg: Config, w: World, pid: Pid)
    requires Inv(cfg, w) && pid in w.procs && w.procs[pid].Writing?
    requires w.procs[pid].at == |BodyStatements(w.procs[pid].body, w.procs[pid].out)|
    requires w.procs[pid].out.tx.status.IsTerminal()
    ensures var p := w.procs[pid];
            var db' := StepWrite(w, pid, p).db;
            && p.out.tx.id in db'.txs && p.body.base.id in db'.wallets
            && db'.txs[p.out.tx.id].result == Some(db'.wallets[p.body.base.id].balance.minor)
            && (p.out.entry.None? ==> db'.wallets == w.db.wallets)
  {
    hide DbInv, Evolves, BodyStatements, BodyOk, ReferenceHeld, ProgressOk, StepWrite, Coherent;
    InvParts(cfg, w, pid);
    WriterFacts(cfg, w, pid);
    BodyCommitChanges(cfg, w, pid);
    BaseIsHeld(w, w.procs[pid]);
  }

  lemma BaseIsHeld(w: World, p: Proc)
    requires p.Writing? && BodyOk(w.db, w.sent, p.body)
    ensures WalletHeld(w.db, p.body.base)
  {}

  // ---- the retry ----

  predicate Settled(r: Reply) {
    if r.result.Ok? then r.replay
    else r.result.error.IdempotencyConflict? || r.result.error.ExternalIdConflict?
  }

  /** Every answer of a second attempt is a replay or a conflict. */
  ghost predicate RetriesSettled(replies: seq<Reply>) {
    forall i :: 0 <= i < |replies| && replies[i].source == Http(2) ==> Settled(replies[i])
  }

  /**
   A request from HTTP whose reservation lost its race starts over, once, from its lookups; any other failure of a
   request is answered with its error, and a claimed transaction is let go.
   */
  lemma LostRacesStartOver(w: World, pid: Pid, b: Body, e: Error)
    ensures var w' := FailBody(w, pid, b, e);
            && w'.db == w.db && w'.queue == w.queue
            && (b.ctx.None? ==> w' == w.(procs := w.procs - {pid}))
            && (b.ctx.Some? && e == DuplicateTransaction && b.ctx.value.source == Http(1) ==>
                  w' == w.(procs := w.procs[pid := LookingUpKey(b.ctx.value.(source := Http(2)), None)]))
            && (b.ctx.Some? && !(e == DuplicateTransaction && b.ctx.value.source == Http(1)) ==>
                  w'.replies == w.replies + [Reply(b.ctx.value.source, b.ctx.value.cmd, Err(e), false)])
  {}

  /** A second attempt only looks up and replays. */
  lemma RetryStates(cfg: Config, w: World, p: Proc)
    requires ProcOk(cfg, w, p)
    ensures p.LockingWallet? ==> p.ctx.source != Http(2)
    ensures (p.ReadingReference? || p.ReadingReversal? || p.Writing?) && p.body.ctx.Some? ==> p.body.ctx.value.source != Http(2)
    ensures p.RecordingInbox? ==> p.ctx.source.Queue?
    ensures p.LookingUpKey? && p.ctx.source == Http(2) ==>
              Conflicting(w.db.txs, p.ctx.cmd) && p.locked.None?
    ensures p.LookingUpExternalId? && p.ctx.source == Http(2) ==>
              ExternalIdTaken(w.db.txs, p.ctx.cmd.req.providerId, p.ctx.cmd.req.externalId)
  {
    hide DecidedOk, ProgressOk, Undecided, ClaimHeld, CtxOk, ReplayOk;
  }

  lemma AdvanceSettles(cfg: Config, w: World, pid: Pid, c: Choice)
    requires pid in w.procs && ProcOk(cfg, w, w.procs[pid]) && RetriesSettled(w.replies)
    requires TxsOk(w.db.txs, w.db.wallets)
    ensures RetriesSettled(Advanced(cfg, w, pid, c).replies)
  {
    hide ProcOk, Conflicting, Decide, Violation, View, ApplyAll, BodyWrites, OpenWrites, NewExternal, ReadsReference,
      ReadsReversal, RowOk, PayloadHash.Preimage, ReferenceOf, FindByKey, Conclude;
    RetryStates(cfg, w, w.procs[pid]);
    match w.procs[pid]
    case LookingUpKey(ctx, locked) =>
      FoundRowsAreValid(w.db.txs, w.db.wallets, ctx.cmd);
    case LookingUpExternalId(ctx, locked) =>
      FoundRowsAreValid(w.db.txs, w.db.wallets, ctx.cmd);
    case ReadingReference(b) => ConcludeSettles(cfg, w, pid, b);
    case ReadingReversal(b, found) => ConcludeSettles(cfg, w, pid, b);
    case _ =>
  }

  lemma ConcludeSettles(cfg: Config, w: World, pid: Pid, b: Body)
    requires RetriesSettled(w.replies) && (b.ctx.Some? ==> b.ctx.value.source != Http(2))
    ensures forall ref, reversed :: RetriesSettled(Conclude(cfg, w, pid, b, ref, reversed).replies)
  {
    hide Decide;
  }

  lemma FoundRowsAreValid(txs: map<Uuid, TxRow>, wallets: map<Uuid, WalletState>, cmd: Command)
    requires TxsOk(txs, wallets)
    ensures var r := FindByKey(txs, cmd.req.providerId, cmd.key); r.Some? ==> r.value.req.money.valid
    ensures var r := FindByExternalId(txs, cmd.req.providerId, cmd.req.externalId); r.Some? ==> r.value.req.money.valid
  {
    hide Coherent, TerminalShape, ValidRequest;
    var r := FindByKey(txs, cmd.req.providerId, cmd.key);
    if r.Some? {
      var id :| id in txs && txs[id] == r.value;
      assert RowOk(id, txs[id]);
    }
    var s := FindByExternalId(txs, cmd.req.providerId, cmd.req.externalId);
    if s.Some? {
      var id :| id in txs && txs[id] == s.value;
      assert RowOk(id, txs[id]);
    }
  }

  lemma ActionSettles(cfg: Config, w: World, a: Action)
    requires Inv(cfg, w) && Enabled(w, a) && RetriesSettled(w.replies)
    ensures RetriesSettled(Perform(cfg, w, a).replies)
  {
    hide Inv, Advanced, Blocked, FreshIds, ClaimOk, NewOpeningParts, Acceptable;
    if a.Advance? {
      InvParts(cfg, w, a.pid);
      AdvanceSettles(cfg, w, a.pid, a.choice);
    }
  }

  /** Whose request a process works on, unless it works on none. */
  function CtxOf(p: Proc): Option<Ctx> {
    match p
    case RecordingInbox(ctx) => Some(ctx)
    case LookingUpKey(ctx, _) => Some(ctx)
    case LookingUpExternalId(ctx, _) => Some(ctx)
    case LockingWallet(ctx) => Some(ctx)
    case ReadingReference(b) => b.ctx
    case ReadingReversal(b, _) => b.ctx
    case Writing(b, _, _, _, _, _) => b.ctx
    case Replaying(ctx, _) => Some(ctx)
    case _ => None
  }

  /** A statement of a second attempt. */
  predicate RetryStep(w: World, a: Action) {
    a.Advance? && a.pid in w.procs && CtxOf(w.procs[a.pid]).Some? && CtxOf(w.procs[a.pid]).value.source == Http(2)
  }

  lemma RetryWritesNothing(cfg: Config, w: World, pid: Pid, c: Choice)
    requires pid in w.procs && ProcOk(cfg, w, w.procs[pid]) && RetryStep(w, Advance(pid, c))
    ensures Advanced(cfg, w, pid, c).db == w.db
  {
    hide Conflicting, NewExternal, RowOk, PayloadHash.Preimage, FindByKey, FindByExternalId, ReplayOk, LockedOk;
    RetryStates(cfg, w, w.procs[pid]);
  }

  /**
   Over every run: a request that lost the race for its key or external id and was retried is answered
   with the replay or with a conflict, never with another lost race, and no statement of the retry changes the tables.
   */
  lemma {:induction false} RetriesAlwaysSettle(cfg: Config, worlds: seq<World>, actions: seq<Action>, i: nat)
    requires IsRun(cfg, worlds, actions) && i < |worlds|
    ensures RetriesSettled(worlds[i].replies)
    ensures i < |actions| && RetryStep(worlds[i], actions[i]) ==> worlds[i + 1].db == worlds[i].db
  {
    hide Inv, Advanced, FreshIds, Blocked, ClaimOk;
    if i > 0 {
      RetriesAlwaysSettle(cfg, worlds, actions, i - 1);
      RunsAreSafe(cfg, worlds, actions, i - 1);
      ActionSettles(cfg, worlds[i - 1], actions[i - 1]);
    }
    if i < |actions| && RetryStep(worlds[i], actions[i]) {
      RunsAreSafe(cfg, worlds, actions, i);
      InvParts(cfg, worlds[i], actions[i].pid);
      RetryWritesNothing(cfg, worlds[i], actions[i].pid, actions[i].choice);
    }
  }
}
