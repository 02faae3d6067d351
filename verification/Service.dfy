/**
 The use cases as the program runs them (internal/app/process.go): the aggregates and the tables are
 updated in place, step by step, and each method is proved against its functional specification.
 Identifiers and instants drawn by a call are its parameters.
 */
module Services {
  import opened Basics
  import opened Wallets
  import opened Wagering
  import opened Events
  import opened Rules
  import opened Database
  import opened Invariants
  import opened UseCases
  import opened Stores
  import opened Worker
  import Backoff
  import PayloadHash

  // ---- statements in sequence ----

  lemma {:induction false} RunsInParts(db: DB, a: seq<Write>, b: seq<Write>, seqNo: SeqNo)
    ensures RunWrites(db, a + b, seqNo)
         == var first := RunWrites(db, a, seqNo); if first.Err? then first else RunWrites(first.value, b, seqNo)
  {
    hide Violation, ApplyWrite;
    if b == [] {
      assert a + b == a;
    } else {
      assert (a + b)[..|a + b| - 1] == a + b[..|b| - 1];
      RunsInParts(db, a, b[..|b| - 1], seqNo);
    }
  }

  lemma FirstStatement(db: DB, w: Write, rest: seq<Write>, seqNo: SeqNo)
    ensures RunWrites(db, [w] + rest, seqNo)
         == if Violation(db, w).Some? then Err(Violation(db, w).value) else RunWrites(ApplyWrite(db, w, seqNo), rest, seqNo)
  {
    hide Violation, ApplyWrite;
    RunsOne(db, w, seqNo);
    RunsInParts(db, [w], rest, seqNo);
  }

  lemma NoStatements(db: DB, seqNo: SeqNo)
    ensures RunWrites(db, [], seqNo) == Ok(db)
  {}

  lemma SeqNoOnlyNumbersEntries(db: DB, w: Write, s: SeqNo, t: SeqNo)
    requires !w.AppendLedger?
    ensures ApplyWrite(db, w, s) == ApplyWrite(db, w, t)
  {}

  /** A statement that Did what it should, seen as the first of a sequence. */
  lemma AfterStatement(before: DB, w: Write, drawn: SeqNo, e: Option<Error>, after: DB, rest: seq<Write>, seqNo: SeqNo)
    requires Did(before, w, drawn, e, after) && (w.AppendLedger? ==> drawn == seqNo)
    ensures RunWrites(before, [w] + rest, seqNo) == if e.Some? then Err(e.value) else RunWrites(after, rest, seqNo)
  {
    hide Violation;
    FirstStatement(before, w, rest, seqNo);
    if !w.AppendLedger? {
      SeqNoOnlyNumbersEntries(before, w, drawn, seqNo);
    }
  }

  // ---- the aggregates after a decision ----

  /** A decided operation leaves a valid wallet of the same owner. */
  lemma DecideKeepsWallet(cfg: Config, tx: Snapshot, w: WalletState, ref: Option<Snapshot>, reversed: bool,
                          entryId: Uuid, now: Time)
    requires ValidWallet(w) && Decide(tx, w, ref, reversed, entryId, now, cfg).Ok?
    ensures var s := Decide(tx, w, ref, reversed, entryId, now, cfg).value.wallet;
            ValidWallet(s) && s.id == w.id && s.playerId == w.playerId && s.currency == w.currency
  {
    hide Resolve, DebitSpec, CreditSpec, ValidWallet;
    var r := Resolve(tx, w, ref, reversed, now, cfg);
    var t := if r.Ok? then r.value.tx else tx;
    FinishKeepsWallet(tx, tx, w, Some(InsufficientFundsCode), entryId, now);
    FinishKeepsWallet(t, tx, w, Some(ReversalInsufficientFunds), entryId, now);
    FinishKeepsWallet(tx, tx, w, None, entryId, now);
    FinishKeepsWallet(t, tx, w, None, entryId, now);
  }

  lemma FinishKeepsWallet(t: Snapshot, tx: Snapshot, w: WalletState, shortfall: Option<FailureCode>, entryId: Uuid,
                          now: Time)
    requires ValidWallet(w)
    ensures forall moved | moved in {DebitSpec(w, entryId, tx.id, tx.req.money), CreditSpec(w, entryId, tx.id, tx.req.money)} ::
              var r := Finish(t, w, moved, shortfall, now);
              r.Ok? ==> ValidWallet(r.value.wallet) && r.value.wallet.id == w.id && r.value.wallet.playerId == w.playerId
                        && r.value.wallet.currency == w.currency
  {
    hide DebitSpec, CreditSpec, WellFormedEntry;
    MovementsExplainTheBalance(w, entryId, tx.id, tx.req.money);
  }

  class Service {
    const store: Store
    const cfg: Config

    /** Non-positive settings fall back to the defaults. */
    constructor (store: Store, cfg: Config)
      ensures this.store == store && this.cfg == Effective(cfg) && ValidConfig(this.cfg)
      ensures this.cfg.base == (if cfg.base > 0 then cfg.base else 1_000_000_000)
      ensures this.cfg.max == (if cfg.max > 0 then cfg.max else 60_000_000_000)
      ensures this.cfg.maxAttempts == (if cfg.maxAttempts > 0 then cfg.maxAttempts else 10)
    {
      this.store := store;
      this.cfg := Effective(cfg);
    }

    method Park(tx: Transaction, w: Wallet, now: Time) returns (e: Option<Error>)
      modifies tx
      ensures var spec := Rules.Park(old(tx.State()), w.State().balance, now, cfg);
              if spec.Ok? then e.None? && tx.State() == spec.value else e == Some(spec.error) && tx.State() == old(tx.State())
    {
      if tx.attempts >= cfg.maxAttempts {
        e := tx.Reject(ReferenceNotFound, w.balance, now);
      } else {
        var delay := Backoff.Compute(cfg.base, cfg.max, tx.attempts + 1);
        e := tx.Await(now + delay);
      }
    }

    /** Some(ref) lets apply go on; None means tx was parked or rejected. */
    method ResolveReferenceTx(tx: Transaction, w: Wallet, now: Time) returns (r: Result<Option<Transaction>>)
      requires store.Valid()
      modifies tx
      ensures var ref := ReferenceOf(store.txs, old(tx.State()));
              var reversed := ReadsReversal(old(tx.State()), ref) && HasProcessedReversal(store.txs, ref.value.id);
              var spec := Resolve(old(tx.State()), w.State(), ref, reversed, now, cfg);
              && (spec.Err? ==> r == Err(spec.error))
              && (spec.Ok? ==> r.Ok? && tx.State() == spec.value.tx && (r.value.Some? <==> spec.value.Go?))
              && (spec.Ok? && spec.value.Go? ==> fresh(r.value.value) && r.value.value.State() == spec.value.ref)
    {
      var found := store.FindByExternalId(tx.req.providerId, tx.req.reference);
      if found.Err? {
        var parked := Park(tx, w, now);
        return if parked.Some? then Err(parked.value) else Ok(None);
      }
      var ref := found.value;
      var code := NoFailure;
      if ref.status.Pending? || ref.status.PendingReference? {
        var parked := Park(tx, w, now);
        return if parked.Some? then Err(parked.value) else Ok(None);
      }
      if !ref.status.Processed? {
        code := ReferenceNotProcessed;
      } else if !AllowedReference(tx.req.kind, ref.req.kind) {
        code := ReferenceKindMismatch;
      } else if ref.req.playerId != tx.req.playerId || ref.req.walletId != tx.req.walletId || ref.req.roundId != tx.req.roundId
                || ref.req.money.currency != tx.req.money.currency {
        code := ReferenceMismatch;
      } else if tx.req.kind.IsReversal() {
        if !ref.req.money.Equal(tx.req.money) {
          code := ReferenceAmountMismatch;
        } else {
          var reversed := store.HasProcessedReversal(ref.id);
          if reversed {
            code := ReferenceAlreadyReversed;
          }
        }
      }
      if !code.NoFailure? {
        var rejected := tx.Reject(code, w.balance, now);
        return if rejected.Some? then Err(rejected.value) else Ok(None);
      }
      var resolved := tx.Resolve(ref.id);
      return if resolved.Some? then Err(resolved.value) else Ok(Some(ref));
    }

    /** The business rules on the locked wallet; the ledger entry when the balance changed. */
    method Apply(tx: Transaction, w: Wallet, entryId: Uuid, now: Time) returns (r: Result<Option<LedgerEntry>>)
      requires store.Valid()
      modifies tx, w
      ensures var spec := DecideNow(cfg, store.State(), old(tx.State()), old(w.State()), entryId, now);
              if spec.Ok? then r == Ok(spec.value.entry) && tx.State() == spec.value.tx && w.State() == spec.value.wallet
              else r == Err(spec.error)
    {
      hide DebitSpec, CreditSpec, Resolve, MarkRejected, MarkProcessed, Stores.Readable, ReferenceOf,
        HasProcessedReversal, ReadsReversal;
      if w.playerId != tx.req.playerId {
        var e := tx.Reject(WalletPlayerMismatch, w.balance, now);
        return if e.Some? then Err(e.value) else Ok(None);
      }
      if w.currency != tx.req.money.currency {
        var e := tx.Reject(CurrencyMismatchCode, w.balance, now);
        return if e.Some? then Err(e.value) else Ok(None);
      }
      var moved: Result<LedgerEntry>;
      match tx.req.kind {
        case Bet =>
          moved := w.DebitAmount(entryId, tx.id, tx.req.money);
          if moved.Err? && moved.error.InsufficientFunds? {
            var e := tx.Reject(InsufficientFundsCode, w.balance, now);
            return if e.Some? then Err(e.value) else Ok(None);
          }
        case Loss =>
          var e := tx.Process(w.balance, now);
          return if e.Some? then Err(e.value) else Ok(None);
        case Win =>
          if tx.req.reference != "" {
            var ref := ResolveReferenceTx(tx, w, now);
            if ref.Err? {
              return Err(ref.error);
            }
            if ref.value.None? {
              return Ok(None);
            }
          }
          moved := w.CreditAmount(entryId, tx.id, tx.req.money);
        case Refund =>
          var ref := ResolveReferenceTx(tx, w, now);
          if ref.Err? {
            return Err(ref.error);
          }
          if ref.value.None? {
            return Ok(None);
          }
          moved := w.CreditAmount(entryId, tx.id, tx.req.money);
        case Rollback =>
          var ref := ResolveReferenceTx(tx, w, now);
          if ref.Err? {
            return Err(ref.error);
          }
          if ref.value.None? {
            return Ok(None);
          }
          if ref.value.value.req.kind.Bet? {
            moved := w.CreditAmount(entryId, tx.id, tx.req.money);
          } else {
            moved := w.DebitAmount(entryId, tx.id, tx.req.money);
            if moved.Err? && moved.error.InsufficientFunds? {
              var e := tx.Reject(ReversalInsufficientFunds, w.balance, now);
              return if e.Some? then Err(e.value) else Ok(None);
            }
          }
        case Opening =>
          return Err(Validation);
      }
      if moved.Err? {
        return Err(moved.error);
      }
      var e := tx.Process(w.balance, now);
      return if e.Some? then Err(e.value) else Ok(Some(moved.value));
    }

    /** Ledger, wallet and outbox rows for the state tx has reached; its own row is already there. */
    method PersistOutcome(tx: Transaction, w: Wallet, entry: Option<LedgerEntry>, ids: Ids) returns (e: Option<Error>)
      requires store.Valid() && ValidWallet(w.State())
      requires w.id in store.wallets ==> store.wallets[w.id].currency == w.currency
      modifies store
      ensures store.Valid() && old(store.nextSeq) <= store.nextSeq
      ensures var ws := PersistWrites(Outcome(tx.State(), w.State(), entry), ids);
              var spec := RunWrites(old(store.State()), ws, old(store.nextSeq));
              if spec.Ok? then e.None? && store.State() == spec.value else e == Some(spec.error)
    {
      hide Violation, RunWrites, ApplyWrite;
      ghost var seqNo := store.nextSeq;
      ghost var before := store.State();
      NoStatements(before, seqNo);
      match tx.status {
        case Processed =>
          var final := AddEvent(NewTransactionProcessed(ids.final, tx.State()));
          if entry.Some? {
            var change := AddEvent(NewWalletBalanceChanged(ids.change, entry.value, w.version));
            var update := Write.UpdateWallet(w.State(), w.version - 1);
            assert PersistWrites(Outcome(tx.State(), w.State(), entry), ids)
                == [AppendLedger(entry.value)] + ([update] + ([change] + ([final] + [])));
            e := store.Append(entry.value);
            AfterStatement(before, AppendLedger(entry.value), seqNo, e, store.State(), [update] + ([change] + ([final] + [])), seqNo);
            if e.Some? {
              return;
            }
            AppendKeepsWallets(before, entry.value, seqNo);
            before := store.State();
            e := store.UpdateWallet(w, w.version - 1);
            AfterStatement(before, update, 1, e, store.State(), [change] + ([final] + []), seqNo);
            if e.Some? {
              return;
            }
            before := store.State();
            e := store.Add(change.event);
            AfterStatement(before, change, 1, e, store.State(), [final] + [], seqNo);
            if e.Some? {
              return;
            }
          } else {
            assert PersistWrites(Outcome(tx.State(), w.State(), entry), ids) == [final] + [];
          }
          before := store.State();
          e := store.Add(final.event);
          AfterStatement(before, final, 1, e, store.State(), [], seqNo);
        case Rejected =>
          var final := AddEvent(NewTransactionRejected(ids.final, tx.State()));
          assert PersistWrites(Outcome(tx.State(), w.State(), entry), ids) == [final] + [];
          e := store.Add(final.event);
          AfterStatement(before, final, 1, e, store.State(), [], seqNo);
        case PendingReference =>
          if tx.attempts == 1 {
            var parked := AddEvent(NewTransactionParked(ids.final, tx.State()));
            assert PersistWrites(Outcome(tx.State(), w.State(), entry), ids) == [parked] + [];
            e := store.Add(parked.event);
            AfterStatement(before, parked, 1, e, store.State(), [], seqNo);
          } else {
            assert PersistWrites(Outcome(tx.State(), w.State(), entry), ids) == [];
            e := None;
          }
        case _ =>
          assert PersistWrites(Outcome(tx.State(), w.State(), entry), ids) == [AddEvent(Err(InvalidTransition))] + [];
          UnexpectedStatus(before, seqNo);
          e := Some(InvalidTransition);
      }
      NoStatements(store.State(), seqNo);
    }

    /** The transaction to replay, nothing for a new operation, or a conflict. */
    method LookUpExisting(cmd: Command, hash: string) returns (r: Result<Option<Snapshot>>)
      requires store.Valid() && hash == PayloadHash.Preimage(cmd.req)
      ensures r == LookUp(store.State(), cmd)
    {
      hide PayloadHash.Preimage, Stores.Readable;
      var byKey := store.FindByKey(cmd.req.providerId, cmd.key);
      if byKey.Ok? {
        return if byKey.value.hash != hash then Err(IdempotencyConflict) else Ok(Some(byKey.value.State()));
      }
      var byExternalId := store.FindByExternalId(cmd.req.providerId, cmd.req.externalId);
      if byExternalId.Err? {
        return Ok(None);
      }
      var existing := byExternalId.value.State();
      if existing.key != cmd.key {
        return Err(ExternalIdConflict);
      }
      return if existing.hash != hash then Err(IdempotencyConflict) else Ok(Some(existing));
    }

    /** The operation inside an open transaction: HTTP and queue share it. */
    method ProcessIn(cmd: Command, ids: Ids, now: Time) returns (r: Result<Answer>)
      requires store.Valid()
      modifies store
      ensures store.Valid() && old(store.nextSeq) <= store.nextSeq
      ensures var spec := Attempt(cfg, old(store.State()), old(store.nextSeq), cmd, ids, now);
              if spec.Ok? then r == Ok(spec.value.answer) && store.State() == spec.value.db else r == Err(spec.error)
    {
      hide PayloadHash.Preimage, Stores.Readable, RunWrites, LookUp, DecideNow, Violation, ApplyWrite, PersistWrites,
        Rehydratable;
      var hash := PayloadHash.Preimage(cmd.req);
      if cmd.key == "" {
        return Err(Validation);
      }
      var found := LookUpExisting(cmd, hash);
      match found {
        case Err(e) => return Err(e);
        case Ok(Some(existing)) => return Ok(Answer(existing, true));
        case Ok(None) =>
      }
      var w := store.GetWallet(cmd.req.walletId);
      if w.Err? {
        return Err(w.error);
      }
      found := LookUpExisting(cmd, hash);
      match found {
        case Err(e) => return Err(e);
        case Ok(Some(existing)) => return Ok(Answer(existing, true));
        case Ok(None) =>
      }
      var created := NewExternal(ids.tx, cmd.req, cmd.key, hash, cmd.correlationId);
      if created.Err? {
        return Err(created.error);
      }
      var tx := new Transaction(created.value);
      ghost var before, base := store.State(), w.value.State();
      StoredWalletIsValid(before, cmd.req.walletId);
      var entry := Apply(tx, w.value, ids.entry, now);
      if entry.Err? {
        return Err(entry.error);
      }
      ghost var out := Outcome(tx.State(), w.value.State(), entry.value);
      DecidedAggregates(cfg, before, created.value, base, ids.entry, now, hash, cmd);
      var e := store.Insert(tx);
      RunsInParts(before, InsertWrites(ToRow(out.tx)), PersistWrites(out, ids), store.nextSeq);
      InsertRuns(before, ToRow(out.tx), store.nextSeq);
      assert BodyWrites(out, true, ids) == InsertWrites(ToRow(out.tx)) + PersistWrites(out, ids);
      if e.Some? {
        return Err(e.value);
      }
      InsertKeepsWallets(before, ToRow(out.tx), store.nextSeq);
      e := PersistOutcome(tx, w.value, entry.value, ids);
      if e.Some? {
        return Err(e.value);
      }
      return Ok(Answer(tx.State(), false));
    }

    /** ProcessIn in its own transaction; a lost race on the unique indexes is retried once. */
    method Process(cmd: Command, ids: Ids, now: Time, retryIds: Ids, retryNow: Time) returns (r: Result<Answer>,
                   ghost retrySeq: SeqNo)
      requires store.Valid()
      modifies store
      ensures store.Valid() && old(store.nextSeq) <= retrySeq <= store.nextSeq
      ensures var first := Attempt(cfg, old(store.State()), old(store.nextSeq), cmd, ids, now);
              var spec := if first == Err(DuplicateTransaction) then Attempt(cfg, old(store.State()), retrySeq, cmd, retryIds, retryNow)
                          else first;
              if spec.Ok? then r == Ok(spec.value.answer) && store.State() == spec.value.db
              else r == Err(spec.error) && store.State() == old(store.State())
    {
      hide Attempt, Stores.Readable;
      var backup := store.State();
      r := ProcessIn(cmd, ids, now);
      if r.Err? {
        store.Rollback(backup);
      }
      retrySeq := store.nextSeq;
      if r.Err? && r.error.DuplicateTransaction? {
        r := ProcessIn(cmd, retryIds, retryNow);
        if r.Err? {
          store.Rollback(backup);
        }
      }
    }

    /** One round of the worker, in its own transaction: false when nothing is due. */
    method RetryOne(claimAt: Time, ids: Ids, now: Time) returns (r: Result<bool>, ghost id: Uuid)
      requires store.Valid()
      modifies store
      ensures store.Valid()
      ensures r == Ok(false) ==> store.State() == old(store.State()) && NothingDue(store.txs, claimAt)
      ensures r == Ok(false) && TxsOk(store.txs, store.wallets) ==>
                forall x :: x in store.txs && store.txs[x].status == PendingReference ==>
                              store.txs[x].nextRetry.Some? && store.txs[x].nextRetry.value > claimAt
      ensures r == Ok(true) ==> AttemptedEarliest(cfg, old(store.State()), store.State(), id, claimAt, ids, now)
      ensures r.Err? ==> store.State() == old(store.State())
                         && FailedEarliest(cfg, old(store.State()), old(store.nextSeq), id, claimAt, ids, now, r.error)
    {
      hide Stores.Readable, RunWrites, DecideNow, Violation, ApplyWrite, PersistWrites, Rehydratable, Due;
      var backup := store.State();
      id := NIL;
      var claimed := store.ClaimDuePendingReference(claimAt);
      if claimed.Err? {
        WaitingHasRetry(store.txs, store.wallets, claimAt);
        return Ok(false), id;
      }
      var tx := claimed.value;
      ghost var row := store.txs[tx.id];
      id := tx.id;
      ClaimedRow(backup, id);
      var w := store.GetWallet(tx.req.walletId);
      if w.Err? {
        return Err(w.error), id;
      }
      ghost var before, base, waiting, seqNo := store.State(), w.value.State(), tx.State(), store.nextSeq;
      StoredWalletIsValid(before, tx.req.walletId);
      var entry := Apply(tx, w.value, ids.entry, now);
      if entry.Err? {
        return Err(entry.error), id;
      }
      ghost var out := Outcome(tx.State(), w.value.State(), entry.value);
      DecidedNow(cfg, before, waiting, base, ids.entry, now);
      DecideKeepsWallet(cfg, waiting, base, ReferenceNow(before, waiting, base), ReversedNow(before, waiting, base), ids.entry, now);
      var e := store.Update(tx);
      AfterStatement(before, UpdateTx(ToRow(out.tx)), 1, e, store.State(), PersistWrites(out, ids), seqNo);
      UpdateKeepsWallets(before, ToRow(out.tx));
      assert BodyWrites(out, false, ids) == [UpdateTx(ToRow(out.tx))] + PersistWrites(out, ids);
      if e.Some? {
        return Err(e.value), id;
      }
      e := PersistOutcome(tx, w.value, entry.value, ids);
      if e.Some? {
        store.Rollback(backup);
        return Err(e.value), id;
      }
      assert Retry(cfg, before, seqNo, waiting, ids, now) == Ok(store.State());
      return Ok(true), id;
    }

    /**
     Retries due transactions until none is due, the context ends, or a round fails. Whatever the clock
     does it stops after at most as many rounds as attempts remain in the table; at a standing clock it
     visits every due transaction exactly once.
     */
    method ResolvePendingReferences(clock: nat -> Time, deciding: nat -> Time, ids: nat -> Ids, cancelled: nat -> bool)
      returns (handled: nat, e: Option<Error>, stopped: bool, ghost failed: Uuid, ghost seqNo: SeqNo)
      requires store.Valid()
      modifies store
      ensures store.Valid()
      ensures e.Some? ==> FailedEarliest(cfg, store.State(), seqNo, failed, clock(handled), ids(handled), deciding(handled), e.value)
      ensures handled + TotalRemaining(cfg, store.txs) <= TotalRemaining(cfg, old(store.txs))
      ensures e.None? && !stopped ==> NothingDue(store.txs, clock(handled))
      ensures e.None? && !stopped && TxsOk(store.txs, store.wallets) ==>
                forall x :: x in store.txs && store.txs[x].status == PendingReference ==>
                              store.txs[x].nextRetry.Some? && store.txs[x].nextRetry.value > clock(handled)
      ensures StandingClock(clock, deciding) && ValidConfig(cfg) && Backoff.NeverWraps(cfg.base, cfg.max) ==>
                && |DueSet(store.txs, clock(0))| + handled == |DueSet(old(store.txs), clock(0))|
                && (e.None? && !stopped ==> handled == |DueSet(old(store.txs), clock(0))|)
    {
      hide Backoff.NeverWraps, Due, Retry, Stores.Readable, TotalRemaining, ValidConfig;
      handled, e, stopped, failed, seqNo := 0, None, false, NIL, store.nextSeq;
      while true
        invariant store.Valid()
        invariant handled + TotalRemaining(cfg, store.txs) <= TotalRemaining(cfg, old(store.txs))
        invariant StandingClock(clock, deciding) && ValidConfig(cfg) && Backoff.NeverWraps(cfg.base, cfg.max) ==>
                    |DueSet(store.txs, clock(0))| + handled == |DueSet(old(store.txs), clock(0))|
        decreases TotalRemaining(cfg, store.txs)
      {
        if cancelled(handled) {
          stopped := true;
          return;
        }
        ghost var before := store.State();
        seqNo := store.nextSeq;
        var found, id := RetryOne(clock(handled), ids(handled), deciding(handled));
        if found.Err? {
          e, failed := Some(found.error), id;
          return;
        }
        if !found.value {
          NobodyDue(store.txs, clock(handled));
          return;
        }
        ClaimedRow(before, id);
        RoundProgresses(cfg, before, store.State(), id, clock(handled), ids(handled), deciding(handled));
        if StandingClock(clock, deciding) && ValidConfig(cfg) && Backoff.NeverWraps(cfg.base, cfg.max) {
          RoundVisitsOne(cfg, before, store.State(), id, clock(handled), ids(handled), deciding(handled));
        }
        handled := handled + 1;
      }
    }
  }

  /** Good tables know when a waiting transaction is due. */
  lemma WaitingHasRetry(txs: map<Uuid, TxRow>, wallets: map<Uuid, WalletState>, now: Time)
    requires NothingDue(txs, now)
    ensures TxsOk(txs, wallets) ==>
              forall id :: id in txs && txs[id].status == PendingReference ==> txs[id].nextRetry.Some? && txs[id].nextRetry.value > now
  {
    hide ValidRequest;
    if TxsOk(txs, wallets) {
      forall id | id in txs && txs[id].status == PendingReference
        ensures txs[id].nextRetry.Some? && txs[id].nextRetry.value > now
      {
        assert RowOk(id, txs[id]);
      }
    }
  }

  lemma ClaimedRow(db: DB, id: Uuid)
    requires Stores.Readable(db) && id in db.txs
    ensures db.txs[id].id == id && db.txs[id].req.money.valid
  {}

  lemma DecidedNow(cfg: Config, db: DB, tx: Snapshot, base: WalletState, entryId: Uuid, now: Time)
    ensures DecideNow(cfg, db, tx, base, entryId, now)
         == Decide(tx, base, ReferenceNow(db, tx, base), ReversedNow(db, tx, base), entryId, now, cfg)
  {}

  lemma UpdateKeepsWallets(db: DB, row: TxRow)
    ensures ApplyWrite(db, UpdateTx(row), 1).wallets == db.wallets
  {}

  lemma StoredWalletIsValid(db: DB, id: Uuid)
    requires Stores.Readable(db) && id in db.wallets
    ensures ValidWallet(db.wallets[id]) && db.wallets[id].id == id
  {}

  /** What the decided aggregates carry over from the new transaction and the locked wallet. */
  lemma DecidedAggregates(cfg: Config, db: DB, tx: Snapshot, base: WalletState, entryId: Uuid, now: Time,
                          hash: string, cmd: Command)
    requires ValidWallet(base) && DecideNow(cfg, db, tx, base, entryId, now).Ok?
    requires NewExternal(tx.id, cmd.req, cmd.key, hash, cmd.correlationId) == Ok(tx)
    ensures var out := DecideNow(cfg, db, tx, base, entryId, now).value;
            && ValidWallet(out.wallet) && out.wallet.id == base.id && out.wallet.currency == base.currency
            && Rehydratable(out.tx) && out.tx.origin.External?
  {
    hide Decide, ValidWallet;
    DecideKeepsWallet(cfg, tx, base, ReferenceNow(db, tx, base), ReversedNow(db, tx, base), entryId, now);
    DecideKeepsIdentity(cfg, tx, base, ReferenceNow(db, tx, base), ReversedNow(db, tx, base), entryId, now);
  }

  lemma ResolveKeepsIdentity(cfg: Config, tx: Snapshot, w: WalletState, ref: Option<Snapshot>, reversed: bool,
                             now: Time)
    ensures Resolve(tx, w, ref, reversed, now, cfg).Ok? ==> SameIdentity(tx, Resolve(tx, w, ref, reversed, now, cfg).value.tx)
  {
    hide SameRound, AllowedReference;
  }

  lemma FinishKeepsIdentity(tx: Snapshot, w: WalletState, moved: Result<Movement>, shortfall: Option<FailureCode>,
                            now: Time)
    ensures Finish(tx, w, moved, shortfall, now).Ok? ==> SameIdentity(tx, Finish(tx, w, moved, shortfall, now).value.tx)
  {}

  lemma DecideKeepsIdentity(cfg: Config, tx: Snapshot, w: WalletState, ref: Option<Snapshot>, reversed: bool,
                            entryId: Uuid, now: Time)
    requires Decide(tx, w, ref, reversed, entryId, now, cfg).Ok?
    ensures SameIdentity(tx, Decide(tx, w, ref, reversed, entryId, now, cfg).value.tx)
  {
    hide DebitSpec, CreditSpec, Resolve, Finish;
    ResolveKeepsIdentity(cfg, tx, w, ref, reversed, now);
    var r := Resolve(tx, w, ref, reversed, now, cfg);
    var t := if r.Ok? then r.value.tx else tx;
    var credit, debit := CreditSpec(w, entryId, tx.id, tx.req.money), DebitSpec(w, entryId, tx.id, tx.req.money);
    FinishKeepsIdentity(tx, w, credit, None, now);
    FinishKeepsIdentity(t, w, credit, None, now);
    FinishKeepsIdentity(tx, w, debit, Some(InsufficientFundsCode), now);
    FinishKeepsIdentity(t, w, debit, Some(ReversalInsufficientFunds), now);
  }

  /** The sequence number plays no part in an insert. */
  lemma InsertRuns(db: DB, row: TxRow, seqNo: SeqNo)
    ensures RunWrites(db, InsertWrites(row), seqNo) == RunWrites(db, InsertWrites(row), 1)
  {
    if row.origin.External? {
      RunsInsert(db, row, seqNo);
      RunsInsert(db, row, 1);
    } else {
      RunsOne(db, InsertTx(row), seqNo);
      RunsOne(db, InsertTx(row), 1);
    }
  }

  lemma InsertKeepsWallets(db: DB, row: TxRow, seqNo: SeqNo)
    requires row.origin.External?
    ensures RunWrites(db, InsertWrites(row), seqNo).Ok? ==> RunWrites(db, InsertWrites(row), seqNo).value.wallets == db.wallets
  {
    RunsInsert(db, row, seqNo);
  }

  lemma AppendKeepsWallets(db: DB, entry: LedgerEntry, seqNo: SeqNo)
    ensures ApplyWrite(db, AppendLedger(entry), seqNo).wallets == db.wallets
  {}

  lemma UnexpectedStatus(db: DB, seqNo: SeqNo)
    ensures RunWrites(db, [AddEvent(Err(InvalidTransition))] + [], seqNo) == Err(InvalidTransition)
  {
    FirstStatement(db, AddEvent(Err(InvalidTransition)), [], seqNo);
  }
}
