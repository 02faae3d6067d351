/**
 A use case run at once on tables that satisfy the invariant: no statement is refused and the
 invariant is kept.
 */
module Sequential {
  import opened Basics
  import opened Wallets
  import opened Wagering
  import opened Rules
  import opened Outcomes
  import opened Database
  import opened UseCases
  import opened Invariants
  import opened Commit
  import opened Statements
  import opened Engine
  import opened Processes
  import opened Worlds
  import opened Commits
  import opened Requests
  import opened Lookups
  import PayloadHash

  /** Identifiers not used in the tables. */
  ghost predicate FreshFor(db: DB, ids: Ids) {
    && ids.tx != NIL && ids.entry != NIL && ids.change != ids.final
    && forall id :: id in IdSet(ids) ==> Unknown(db, id)
  }

  /** The sequence is past every entry. */
  ghost predicate SeqFits(db: DB, seqNo: SeqNo) {
    forall k :: 0 <= k < |db.ledger| ==> db.ledger[k].seqNo < seqNo
  }

  lemma {:induction false} UnrefusedRun(db: DB, ws: seq<Write>, seqNo: SeqNo)
    requires forall at :: 0 <= at < |ws| ==> Violation(ApplyAll(db, ws[..at], seqNo), ws[at]) == None
    ensures RunWrites(db, ws, seqNo) == Ok(ApplyAll(db, ws, seqNo))
  {
    hide Violation, ApplyWrite;
    if ws != [] {
      var front := ws[..|ws| - 1];
      forall at | 0 <= at < |front| ensures Violation(ApplyAll(db, front[..at], seqNo), front[at]) == None {
        assert front[..at] == ws[..at];
      }
      UnrefusedRun(db, front, seqNo);
    }
  }

  /** A body decided on the tables as they are is ready to commit. */
  lemma DecidedNowIsReady(cfg: Config, db: DB, sent: map<Handle, Message>, b: Body, out: Outcome, seqNo: SeqNo)
    requires TablesOk(db) && BodyOk(db, sent, b)
    requires forall id :: id in IdSet(b.ids) ==> Unknown(db, id)
    requires out.entry.Some? ==> SeqAbove(OfWallet(db.ledger, b.base.id), seqNo)
    requires DecideNow(cfg, db, b.tx, b.base, b.ids.entry, b.now) == Ok(out)
    requires b.ctx.Some? ==> !KeyTaken(db.txs, b.tx.req.providerId, b.tx.key)
                             && !ExternalIdTaken(db.txs, b.tx.req.providerId, b.tx.req.externalId)
    ensures Ready(db, b.base, b.tx, ReferenceNow(db, b.tx, b.base), ReversedNow(db, b.tx, b.base), out, b.ids, b.ctx.Some?, seqNo)
  {
    hide RowOk, Decide, Ready, OwnersUnique, KeysUnique, ExternalIdsUnique, OpeningsUnique, ReferencesOk,
      ReversalsUnique, SoundOutcome, ReferenceHeld, Undecided, CtxOk, ClaimHeld, KeyTaken, ExternalIdTaken;
    var ref, reversed := ReferenceNow(db, b.tx, b.base), ReversedNow(db, b.tx, b.base);
    assert DecidedOk(cfg, db, b, ref, reversed, out);
    OutcomeSound(cfg, db, sent, b, ref, reversed, out);
    HeldReference(cfg, db, sent, b, ref, reversed, out);
    SoundKeepsRequest(b, ref, reversed, out);
    WriterIsReady(db, sent, b, ref, reversed, out, seqNo);
  }

  lemma SoundKeepsRequest(b: Body, ref: Option<Snapshot>, reversed: bool, out: Outcome)
    requires SoundOutcome(b.tx, b.base, ref, reversed, b.ids.entry, out)
    ensures out.tx.req == b.tx.req && out.tx.key == b.tx.key
  {}

  /** Such a body's statements all succeed, and the tables stay right. */
  lemma ReadyRuns(db: DB, base: WalletState, tx: Snapshot, ref: Option<Snapshot>, reversed: bool, out: Outcome,
                  ids: Ids, isNew: bool, seqNo: SeqNo)
    requires DbInv(db) && Ready(db, base, tx, ref, reversed, out, ids, isNew, seqNo)
    ensures RunWrites(db, BodyWrites(out, isNew, ids), seqNo) == Ok(After(db, out, ids, seqNo))
    ensures DbInv(After(db, out, ids, seqNo))
  {
    hide Violation, ApplyAll, Ready, BodyWrites, After, EventsOk, InboxOk, NothingWithoutWallet, LedgersOk,
      EntriesDistinct, EntriesComplete, ReferencesPrecede, TablesOk, EntriesOk;
    var ws := BodyWrites(out, isNew, ids);
    ReadyCommits(db, base, tx, ref, reversed, out, ids, isNew, seqNo);
    forall at | 0 <= at < |ws| ensures Violation(ApplyAll(db, ws[..at], seqNo), ws[at]) == None {
      if isNew && at < 2 {
        FreshReservations(db, tx, base, ref, reversed, out, ids, seqNo, at);
      } else {
        BodyNeverFails(db, base, tx, ref, reversed, out, ids, isNew, seqNo, at);
      }
    }
    UnrefusedRun(db, ws, seqNo);
  }

  lemma FreshReservations(db: DB, tx: Snapshot, base: WalletState, ref: Option<Snapshot>, reversed: bool,
                          out: Outcome, ids: Ids,
                          seqNo: SeqNo, at: nat)
    requires Ready(db, base, tx, ref, reversed, out, ids, true, seqNo) && at < 2
    ensures |BodyWrites(out, true, ids)| >= 3
    ensures Violation(ApplyAll(db, BodyWrites(out, true, ids)[..at], seqNo), BodyWrites(out, true, ids)[at]) == None
  {
    var ws := BodyWrites(out, true, ids);
    assert ws[..0] == [];
    ApplyOneMore(db, ws, 0, seqNo);
  }

  /** What lookupExisting rules out. */
  lemma NothingFound(db: DB, cmd: Command)
    requires LookUp(db, cmd) == Ok(None)
    ensures !KeyTaken(db.txs, cmd.req.providerId, cmd.key) && !ExternalIdTaken(db.txs, cmd.req.providerId, cmd.req.externalId)
  {
    hide KeyTaken, ExternalIdTaken, PayloadHash.Preimage;
  }

  // ---- which answer a command gets ----

  predicate IsWellFormed(cmd: Command) {
    Trimmed256(cmd.key) && WellFormedRequest(cmd.req)
  }

  /** Which answer a command gets on good tables, for each answer there is. */
  ghost predicate AnswersExactly(db: DB, cmd: Command, ids: Ids, r: Result<Success>) {
    && (r == Err(Validation) <==>
          cmd.key == "" || (IsNew(db, cmd) && cmd.req.walletId in db.wallets && !IsWellFormed(cmd)))
    && (r == Err(IdempotencyConflict) <==> cmd.key != "" && KeyUsedFor(db, cmd, false))
    && (r == Err(ExternalIdConflict) <==> cmd.key != "" && !KeyUsed(db, cmd) && ExternalIdUsed(db, cmd))
    && (r == Err(WalletNotFound) <==> cmd.key != "" && IsNew(db, cmd) && cmd.req.walletId !in db.wallets)
    && (r.Ok? && r.value.answer.replay <==> cmd.key != "" && KeyUsedFor(db, cmd, true))
    && (r == Err(Overflow) <==>
          && IsNew(db, cmd) && cmd.req.walletId in db.wallets && IsWellFormed(cmd)
          && CreditDoesNotFit(db, NewTransaction(cmd, ids)))
  }

  function NewTransaction(cmd: Command, ids: Ids): Snapshot {
    Snapshot(ids.tx, External, cmd.req, cmd.key, PayloadHash.Preimage(cmd.req), cmd.correlationId,
             None, Pending, NoFailure, None, 0, None, None)
  }

  lemma LooksUpOnGood(db: DB, cmd: Command)
    requires DbInv(db)
    ensures LookUp(db, cmd) == Ok(None) <==> !KeyUsed(db, cmd) && !ExternalIdUsed(db, cmd)
    ensures LookUp(db, cmd) == Err(IdempotencyConflict) <==> KeyUsedFor(db, cmd, false)
    ensures LookUp(db, cmd) == Err(ExternalIdConflict) <==> !KeyUsed(db, cmd) && ExternalIdUsed(db, cmd)
    ensures LookUp(db, cmd).Ok? && LookUp(db, cmd).value.Some? <==> KeyUsedFor(db, cmd, true)
    ensures LookUp(db, cmd).Err? ==> LookUp(db, cmd).error in {IdempotencyConflict, ExternalIdConflict}
  {
    hide LedgerOk, EventsOk, InboxOk, NothingWithoutWallet, TxsOk, KeysUnique, KeyUsed, ExternalIdUsed, KeyUsedFor,
      PayloadHash.Preimage, FindByKey, FindByExternalId, FromRow;
    LooksUpExactly(db, cmd);
  }

  lemma MadeAsNew(cmd: Command, ids: Ids)
    ensures var r := NewExternal(ids.tx, cmd.req, cmd.key, PayloadHash.Preimage(cmd.req), cmd.correlationId);
            r.Ok? ==> r.value == NewTransaction(cmd, ids)
  {
    hide PayloadHash.Preimage, ValidIdentifier, ValidRequest;
  }

  lemma NewErrs(cfg: Config, db: DB, seqNo: SeqNo, cmd: Command, ids: Ids, now: Time)
    requires DbInv(db) && FreshFor(db, ids) && SeqFits(db, seqNo)
    requires cmd.key != "" && LookUp(db, cmd) == Ok(None) && cmd.req.walletId in db.wallets
    requires NewExternal(ids.tx, cmd.req, cmd.key, PayloadHash.Preimage(cmd.req), cmd.correlationId) == Ok(NewTransaction(cmd, ids))
    ensures Attempt(cfg, db, seqNo, cmd, ids, now) == Err(Overflow) <==> CreditDoesNotFit(db, NewTransaction(cmd, ids))
    ensures Attempt(cfg, db, seqNo, cmd, ids, now).Ok? <==> !CreditDoesNotFit(db, NewTransaction(cmd, ids))
  {
    hide LedgerOk, EventsOk, InboxOk, NothingWithoutWallet, TxsOk, OwnersUnique, KeysUnique, ExternalIdsUnique,
      OpeningsUnique, ReferencesOk, ReversalsUnique, Decide, NewExternal, BodyWrites, ReferenceNow, ReversedNow,
      PayloadHash.Preimage, LookUp, CreditDoesNotFit, Unknown, Ready;
    var base := db.wallets[cmd.req.walletId];
    var tx := NewTransaction(cmd, ids);
    var b := Body(Some(Ctx(Http(1), cmd, None)), tx, base, ids, now);
    NothingFound(db, cmd);
    NewBodyOk(db, cmd, ids, now);
    ReferenceIsUsable(db, b);
    DecideNowErrs(cfg, db, map[], b);
    var out := DecideNow(cfg, db, tx, base, ids.entry, now);
    if out.Ok? {
      NewKeepsKey(cmd, ids);
      OfWalletBelow(db.ledger, base.id, seqNo);
      DecidedNowIsReady(cfg, db, map[], b, out.value, seqNo);
      ReadyRuns(db, base, tx, ReferenceNow(db, tx, base), ReversedNow(db, tx, base), out.value, ids, true, seqNo);
    }
  }

  /** What an attempt leaves, and the errors there are. */
  lemma AttemptSettles(cfg: Config, db: DB, seqNo: SeqNo, cmd: Command, ids: Ids, now: Time)
    requires DbInv(db) && FreshFor(db, ids) && SeqFits(db, seqNo)
    ensures var r := Attempt(cfg, db, seqNo, cmd, ids, now);
            && (r.Ok? ==> DbInv(r.value.db) && (r.value.answer.replay ==> r.value.db == db)
                          && (!r.value.answer.replay ==> r.value.answer.tx.id == ids.tx && ids.tx in r.value.db.txs
                                                         && r.value.db.txs[ids.tx] == ToRow(r.value.answer.tx)))
            && (r.Err? ==> r.error in {Validation, IdempotencyConflict, ExternalIdConflict, WalletNotFound, Overflow})
  {
    hide LedgerOk, EventsOk, InboxOk, NothingWithoutWallet, TxsOk, OwnersUnique, KeysUnique, ExternalIdsUnique,
      OpeningsUnique, ReferencesOk, ReversalsUnique, Decide, NewExternal, BodyWrites, ReferenceNow, ReversedNow,
      PayloadHash.Preimage, FindByKey, FindByExternalId, Ready, SoundOutcome, Unknown;
    if cmd.key != "" && LookUp(db, cmd) == Ok(None) && cmd.req.walletId in db.wallets {
      var base := db.wallets[cmd.req.walletId];
      var tx := NewExternal(ids.tx, cmd.req, cmd.key, PayloadHash.Preimage(cmd.req), cmd.correlationId);
      if tx.Ok? {
        NothingFound(db, cmd);
        var b := Body(Some(Ctx(Http(1), cmd, None)), tx.value, base, ids, now);
        NewBodyOk(db, cmd, ids, now);
        ReferenceIsUsable(db, b);
        DecideNowErrs(cfg, db, map[], b);
        var out := DecideNow(cfg, db, tx.value, base, ids.entry, now);
        if out.Ok? {
          NewKeepsKey(cmd, ids);
          OfWalletBelow(db.ledger, base.id, seqNo);
          DecidedNowIsReady(cfg, db, map[], b, out.value, seqNo);
          ReadyRuns(db, base, tx.value, ReferenceNow(db, b.tx, base), ReversedNow(db, b.tx, base), out.value, ids, true, seqNo);
          ReadyKeepsId(db, base, tx.value, ReferenceNow(db, b.tx, base), ReversedNow(db, b.tx, base), out.value, ids, true, seqNo);
        }
      }
    }
  }

  /**
   ProcessIn run at once on good tables with fresh identifiers: it replays without writing, or commits
   exactly the decided operation, and the tables stay right; the only errors are a malformed operation, a
   conflict, an unknown wallet, and a credit that would overflow the balance, each in exactly its case.
   */
  lemma AttemptIsClean(cfg: Config, db: DB, seqNo: SeqNo, cmd: Command, ids: Ids, now: Time)
    requires DbInv(db) && FreshFor(db, ids) && SeqFits(db, seqNo)
    ensures var r := Attempt(cfg, db, seqNo, cmd, ids, now);
            && (r.Ok? ==> DbInv(r.value.db) && (r.value.answer.replay ==> r.value.db == db)
                          && (!r.value.answer.replay ==> r.value.answer.tx.id == ids.tx && ids.tx in r.value.db.txs
                                                         && r.value.db.txs[ids.tx] == ToRow(r.value.answer.tx)))
            && (r.Err? ==> r.error in {Validation, IdempotencyConflict, ExternalIdConflict, WalletNotFound, Overflow})
            && AnswersExactly(db, cmd, ids, r)
  {
    hide DbInv, LookUp, NewExternal, DecideNow, RunWrites, KeyUsed, ExternalIdUsed, KeyUsedFor, Trimmed256,
      WellFormedRequest, PayloadHash.Preimage, CreditDoesNotFit, BodyWrites, Unknown, SeqFits;
    AttemptSettles(cfg, db, seqNo, cmd, ids, now);
    LooksUpOnGood(db, cmd);
    BlankIsRefused();
    AcceptedExactly(ids.tx, cmd.req, cmd.key, PayloadHash.Preimage(cmd.req), cmd.correlationId);
    MadeAsNew(cmd, ids);
    if LookUp(db, cmd) == Ok(None) && cmd.req.walletId in db.wallets && IsWellFormed(cmd) {
      NewErrs(cfg, db, seqNo, cmd, ids, now);
    }
  }

  lemma ReadyKeepsId(db: DB, base: WalletState, tx: Snapshot, ref: Option<Snapshot>, reversed: bool, out: Outcome,
                     ids: Ids, isNew: bool, seqNo: SeqNo)
    requires Ready(db, base, tx, ref, reversed, out, ids, isNew, seqNo)
    ensures out.tx.id == tx.id
  {}

  lemma NewKeepsKey(cmd: Command, ids: Ids)
    requires NewExternal(ids.tx, cmd.req, cmd.key, PayloadHash.Preimage(cmd.req), cmd.correlationId).Ok?
    ensures var tx := NewExternal(ids.tx, cmd.req, cmd.key, PayloadHash.Preimage(cmd.req), cmd.correlationId).value;
            tx.req == cmd.req && tx.key == cmd.key && tx.id == ids.tx
  {}

  lemma NewBodyOk(db: DB, cmd: Command, ids: Ids, now: Time)
    requires WalletsOk(db.wallets) && FreshFor(db, ids) && cmd.key != "" && cmd.req.walletId in db.wallets
    requires NewExternal(ids.tx, cmd.req, cmd.key, PayloadHash.Preimage(cmd.req), cmd.correlationId).Ok?
    ensures var tx := NewExternal(ids.tx, cmd.req, cmd.key, PayloadHash.Preimage(cmd.req), cmd.correlationId).value;
            var b := Body(Some(Ctx(Http(1), cmd, None)), tx, db.wallets[cmd.req.walletId], ids, now);
            BodyOk(db, map[], b) && ValidWallet(b.base)
  {
    hide Unknown, PayloadHash.Preimage;
  }

  lemma ReferenceIsUsable(db: DB, b: Body)
    requires TxsOk(db.txs, db.wallets)
    ensures var ref := ReferenceNow(db, b.tx, b.base); ref.Some? ==> ref.value.id != NIL && ref.value.req.money.valid
  {
    hide RowOk, ReferenceOf, ReadsReference;
    SeenReferenceOk(db.txs, db.wallets, b, ReferenceOf(db.txs, b.tx));
    ReferenceIsRead(db.txs, b.tx);
  }

  lemma ReferenceIsRead(txs: map<Uuid, TxRow>, tx: Snapshot)
    ensures var ref := ReferenceOf(txs, tx); ref.Some? ==> ref.value.req.money.valid
  {}

  /**
   What the tables hold makes the operation a credit that its wallet cannot take: everything is as the rules
   demand, and the new balance leaves int64.
   */
  ghost predicate CreditDoesNotFit(db: DB, tx: Snapshot) {
    && tx.req.walletId in db.wallets
    && var base := db.wallets[tx.req.walletId];
       var ref := ReferenceNow(db, tx, base);
       && Eligible(tx, base, ref, ReversedNow(db, tx, base)) && !tx.req.kind.Loss? && DirectionOf(tx, ref) == Credit
       && !FitsInt64(base.balance.minor + tx.req.money.minor)
  }

  lemma DecideNowErrs(cfg: Config, db: DB, sent: map<Handle, Message>, b: Body)
    requires BodyOk(db, sent, b) && ValidWallet(b.base)
    requires var ref := ReferenceNow(db, b.tx, b.base); ref.Some? ==> ref.value.id != NIL && ref.value.req.money.valid
    ensures DecideNow(cfg, db, b.tx, b.base, b.ids.entry, b.now).Err? <==> CreditDoesNotFit(db, b.tx)
    ensures DecideNow(cfg, db, b.tx, b.base, b.ids.entry, b.now).Err? ==>
              DecideNow(cfg, db, b.tx, b.base, b.ids.entry, b.now).error == Overflow
              && !FitsInt64(b.base.balance.minor + b.tx.req.money.minor)
  {
    hide Decide, Undecided, ReferenceOf, ReversedNow, ReadsReference, SoundOutcome, CtxOk, ClaimHeld, NewExternal, ValidWallet, Eligible;
    DecideIsSound(b.tx, b.base, ReferenceNow(db, b.tx, b.base), ReversedNow(db, b.tx, b.base), b.ids.entry, b.now, cfg);
    OutcomesAreTabulated(b.tx, b.base, ReferenceNow(db, b.tx, b.base), ReversedNow(db, b.tx, b.base), b.ids.entry, b.now, cfg);
  }

  /**
   One attempt at a waiting transaction on good tables: it commits and keeps the tables right, unless it is
   a credit that its wallet cannot take, on which it fails.
   */
  lemma RetryIsClean(cfg: Config, db: DB, seqNo: SeqNo, id: Uuid, ids: Ids, now: Time)
    requires DbInv(db) && FreshFor(db, ids) && SeqFits(db, seqNo)
    requires id in db.txs && db.txs[id].status.PendingReference?
    ensures db.txs[id].req.money.valid
    ensures var r := Retry(cfg, db, seqNo, FromRow(db.txs[id]), ids, now);
            && (r.Ok? ==> DbInv(r.value))
            && (r.Err? <==> CreditDoesNotFit(db, FromRow(db.txs[id])))
            && (r.Err? ==> r.error == Overflow)
  {
    hide LedgerOk, EventsOk, InboxOk, NothingWithoutWallet, OwnersUnique, KeysUnique, ExternalIdsUnique,
      OpeningsUnique, ReferencesOk, ReversalsUnique, Decide, BodyWrites, ReferenceNow, ReversedNow, FindByKey,
      FindByExternalId, Ready, SoundOutcome, Unknown, RowOk, ValidWallet;
    assert RowOk(id, db.txs[id]);
    ClaimedFacts(db.txs, id);
    var tx := FromRow(db.txs[id]);
    var base := db.wallets[tx.req.walletId];
    var b := Body(None, tx, base, ids, now);
    assert BodyOk(db, map[], b);
    ReferenceIsUsable(db, b);
    DecideNowErrs(cfg, db, map[], b);
    var out := DecideNow(cfg, db, tx, base, ids.entry, now);
    if out.Ok? {
      OfWalletBelow(db.ledger, base.id, seqNo);
      DecidedNowIsReady(cfg, db, map[], b, out.value, seqNo);
      ReadyRuns(db, base, tx, ReferenceNow(db, tx, base), ReversedNow(db, tx, base), out.value, ids, false, seqNo);
    }
  }

  lemma ClaimedFacts(txs: map<Uuid, TxRow>, id: Uuid)
    requires id in txs && RowOk(id, txs[id]) && txs[id].status.PendingReference?
    ensures txs[id].req.money.valid && Undecided(FromRow(txs[id])) && ToRow(FromRow(txs[id])) == txs[id] && txs[id].id == id
  {}
}
