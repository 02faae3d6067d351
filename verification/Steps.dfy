/**
 Every statement that does not commit keeps the invariant.
 */
module Steps {
  import opened Basics
  import opened Wallets
  import opened Wagering
  import opened Rules
  import opened Database
  import opened Invariants
  import opened Engine
  import opened Processes
  import opened Worlds
  import PayloadHash

  /** Only the process pid moves, and the tables stay. */
  ghost predicate Local(w: World, w': World, pid: Pid) {
    && w'.db == w.db && w.nextSeq <= w'.nextSeq && w.dlq <= w'.dlq && w.used <= w'.used
    && (forall h :: h in w.sent ==> h in w'.sent && w'.sent[h] == w.sent[h])
    && (forall q :: q != pid ==> (q in w.procs <==> q in w'.procs))
    && (forall q :: q != pid && q in w.procs ==> w'.procs[q] == w.procs[q])
  }

  ghost predicate HoldsApart(w: World, pid: Pid, held: set<Resource>) {
    forall q :: q in w.procs && q != pid ==> held !! Holds(w.procs[q])
  }

  ghost predicate IdsFit(w: World, w': World, pid: Pid, ids: set<Uuid>) {
    || ids == {}
    || (pid in w.procs && ids == IdsOf(w.procs[pid]))
    || (ids <= w'.used && ids !! w.used)
  }

  /** The process's new state is right, and takes nothing from the others. */
  ghost predicate Fits(cfg: Config, w: World, w': World, pid: Pid) {
    && Local(w, w', pid) && RepliesOk(w') && MailOk(w')
    && (pid in w'.procs ==>
          && ProcOk(cfg, w', w'.procs[pid])
          && HoldsApart(w, pid, Holds(w'.procs[pid]))
          && IdsFit(w, w', pid, IdsOf(w'.procs[pid])))
  }

  lemma NoChangeEvolves(db: DB)
    ensures Evolves(db, db, {})
  {}

  lemma OthersKeepIds(w: World, w': World, pid: Pid)
    requires IdsOk(w) && Local(w, w', pid)
    requires pid in w'.procs ==> IdsFit(w, w', pid, IdsOf(w'.procs[pid]))
    ensures IdsOk(w')
  {
    hide Unknown, IdsOf;
    forall p | p in w'.procs ensures DrawnUnknown(w', w'.procs[p]) {
      if p in w.procs {
        assert DrawnUnknown(w, w.procs[p]);
      }
    }
    forall p, q | p in w'.procs && q in w'.procs && p != q ensures IdsOf(w'.procs[p]) !! IdsOf(w'.procs[q]) {
      if p != pid && q != pid {
        assert IdsOf(w.procs[p]) !! IdsOf(w.procs[q]);
      } else {
        var other := if p == pid then q else p;
        assert DrawnUnknown(w, w.procs[other]);
        assert pid in w.procs ==> IdsOf(w.procs[other]) !! IdsOf(w.procs[pid]);
      }
    }
  }

  lemma OtherStays(cfg: Config, w: World, w': World, pid: Pid, q: Pid)
    requires Local(w, w', pid) && IdsOk(w) && TablesOk(w.db)
    requires q in w.procs && q != pid && ProcOk(cfg, w, w.procs[q])
    ensures ProcOk(cfg, w', w.procs[q])
  {
    hide TablesOk, ProcOk;
    NoChangeEvolves(w.db);
    if w.procs[q].OpeningWallet? {
      assert DrawnUnknown(w, w.procs[q]);
      assert w.procs[q].wallet.id in IdsOf(w.procs[q]);
    }
    ProcStays(cfg, w, w', {}, w.procs[q]);
  }

  lemma OthersKeepLocks(w: World, w': World, pid: Pid)
    requires LocksExclude(w.procs) && Local(w, w', pid)
    requires pid in w'.procs ==> HoldsApart(w, pid, Holds(w'.procs[pid]))
    ensures LocksExclude(w'.procs)
  {
    forall p, q | p in w'.procs && q in w'.procs && p != q ensures Holds(w'.procs[p]) !! Holds(w'.procs[q]) {
      if p != pid && q != pid {
        assert Holds(w.procs[p]) !! Holds(w.procs[q]);
      }
    }
  }

  lemma FittingStepKeeps(cfg: Config, w: World, w': World, pid: Pid)
    requires Inv(cfg, w) && Fits(cfg, w, w', pid)
    ensures Inv(cfg, w')
  {
    hide ProcOk, TablesOk, LedgerOk, EventsOk, NothingWithoutWallet, InboxOk, LocksExclude, IdsOk, MailOk, RepliesOk,
      IdsFit, HoldsApart;
    forall q | q in w'.procs ensures ProcOk(cfg, w', w'.procs[q]) {
      if q != pid {
        assert ProcOk(cfg, w, w.procs[q]);
        OtherStays(cfg, w, w', pid, q);
      }
    }
    OthersKeepIds(w, w', pid);
    OthersKeepLocks(w, w', pid);
  }

  /** Locks already held, and the one the statement waited for, are nobody else's. */
  lemma Unblocked(w: World, pid: Pid, held: set<Resource>)
    requires LocksExclude(w.procs) && pid in w.procs && !Blocked(w.procs, pid)
    requires held <= Holds(w.procs[pid]) + (if Wants(w.procs[pid]).Some? then {Wants(w.procs[pid]).value} else {})
    ensures HoldsApart(w, pid, held)
  {
    forall q | q in w.procs && q != pid ensures held !! Holds(w.procs[q]) {
      assert !WaitsFor(w.procs, pid, q);
      assert Holds(w.procs[pid]) !! Holds(w.procs[q]);
    }
  }

  // ---- the steps of one process ----

  lemma BecomeFits(cfg: Config, w: World, pid: Pid, p: Proc, used': set<Uuid>)
    requires RepliesOk(w) && MailOk(w) && w.used <= used'
    requires ProcOk(cfg, w, p) && HoldsApart(w, pid, Holds(p))
    requires IdsOf(p) == {} || (pid in w.procs && IdsOf(p) == IdsOf(w.procs[pid])) || (IdsOf(p) <= used' && IdsOf(p) !! w.used)
    ensures Fits(cfg, w, Become(w, pid, p).(used := used'), pid)
  {
    var w' := Become(w, pid, p).(used := used');
    SameFacts(cfg, w, w', p);
  }

  /** What a process knows does not depend on the list of processes or on drawn identifiers. */
  lemma SameFacts(cfg: Config, w: World, w': World, p: Proc)
    requires w'.db == w.db && w'.sent == w.sent && w'.nextSeq == w.nextSeq && w'.dlq == w.dlq
    ensures ProcOk(cfg, w, p) == ProcOk(cfg, w', p)
  {}

  lemma FinishedFits(cfg: Config, w: World, pid: Pid)
    requires RepliesOk(w) && MailOk(w)
    ensures Fits(cfg, w, Finished(w, pid), pid)
  {}

  lemma FailFits(cfg: Config, w: World, pid: Pid, ctx: Ctx, e: Error)
    requires RepliesOk(w) && MailOk(w) && SourceOk(w.sent, ctx)
    ensures Fits(cfg, w, Fail(w, pid, ctx, e), pid)
  {
    hide ReplayOk, Absorbed;
  }

  /** The facts about a committed row that lookups need. */
  lemma RowFacts(txs: map<Uuid, TxRow>, wallets: map<Uuid, WalletState>, r: TxRow)
    requires TxsOk(txs, wallets) && exists id :: id in txs && txs[id] == r
    ensures r.id in txs && txs[r.id] == r && r.id != NIL && r.req.money.valid && ToRow(FromRow(r)) == r
    ensures r.status.PendingReference? ==> r.origin.Internal? || Undecided(FromRow(r))
    ensures r.status.PendingReference? ==> r.origin.External?
  {
    var id :| id in txs && txs[id] == r;
    assert RowOk(id, r);
  }

  /** A message whose inbox row is already there only has to be deleted. */
  lemma BecomeDeletingFits(cfg: Config, w: World, pid: Pid, ctx: Ctx)
    requires RepliesOk(w) && MailOk(w) && SourceOk(w.sent, ctx)
    requires InboxKeyOf(ctx) in w.db.inbox
    ensures ctx.source.Queue? && w.db.inbox[InboxKeyOf(ctx)] == InboxHashOf(ctx) ==>
              Fits(cfg, w, Become(w, pid, Deleting(ctx.source.handle)), pid)
  {
    hide Fits, RepliesOk, MailOk;
    if ctx.source.Queue? && w.db.inbox[InboxKeyOf(ctx)] == InboxHashOf(ctx) {
      BecomeFits(cfg, w, pid, Deleting(ctx.source.handle), w.used);
    }
  }

  lemma RecordInboxFits(cfg: Config, w: World, pid: Pid, ctx: Ctx)
    requires RepliesOk(w) && MailOk(w) && LocksExclude(w.procs)
    requires pid in w.procs && w.procs[pid] == RecordingInbox(ctx) && ProcOk(cfg, w, w.procs[pid]) && !Blocked(w.procs, pid)
    ensures Fits(cfg, w, StepRecordInbox(w, pid, ctx), pid)
  {
    hide Fits, RepliesOk, MailOk, LocksExclude, Blocked, Fail, HoldsApart;
    var k := InboxKeyOf(ctx);
    if k in w.db.inbox {
      FailFits(cfg, w, pid, ctx, Validation);
      BecomeDeletingFits(cfg, w, pid, ctx);
    } else {
      Unblocked(w, pid, {InboxEntry(k)});
      BecomeFits(cfg, w, pid, LookingUpKey(ctx.(inbox := Some(k)), None), w.used);
    }
  }

  lemma ReplayFits(cfg: Config, w: World, pid: Pid, ctx: Ctx, r: TxRow)
    requires RepliesOk(w) && MailOk(w) && TxsOk(w.db.txs, w.db.wallets)
    requires exists id :: id in w.db.txs && w.db.txs[id] == r
    requires CtxOk(w.db, w.sent, ctx) && HoldsApart(w, pid, HeldByCtx(ctx))
    requires HasKey(r, ctx.cmd.req.providerId, ctx.cmd.key) && r.hash == PayloadHash.Preimage(ctx.cmd.req)
    ensures r.req.money.valid && Fits(cfg, w, Become(w, pid, Replaying(ctx, FromRow(r))), pid)
  {
    RowFacts(w.db.txs, w.db.wallets, r);
    BecomeFits(cfg, w, pid, Replaying(ctx, FromRow(r)), w.used);
  }

  lemma LookUpKeyFits(cfg: Config, w: World, pid: Pid, ctx: Ctx, locked: Option<WalletState>)
    requires RepliesOk(w) && MailOk(w) && LocksExclude(w.procs) && TxsOk(w.db.txs, w.db.wallets)
    requires pid in w.procs && w.procs[pid] == LookingUpKey(ctx, locked) && ProcOk(cfg, w, w.procs[pid]) && !Blocked(w.procs, pid)
    ensures Fits(cfg, w, StepLookUpKey(w, pid, ctx, locked), pid)
  {
    var found := FindByKey(w.db.txs, ctx.cmd.req.providerId, ctx.cmd.key);
    if found.None? {
      Unblocked(w, pid, Holds(w.procs[pid]));
      BecomeFits(cfg, w, pid, LookingUpExternalId(ctx, locked), w.used);
    } else if found.value.hash == PayloadHash.Preimage(ctx.cmd.req) {
      Unblocked(w, pid, HeldByCtx(ctx));
      ReplayFits(cfg, w, pid, ctx, found.value);
    } else {
      FailFits(cfg, w, pid, ctx, IdempotencyConflict);
    }
  }

  /** A new operation under its wallet's lock. */
  lemma BodyStarts(w: World, ctx: Ctx, locked: WalletState, tx: Snapshot, ids: Ids, now: Time)
    requires CtxOk(w.db, w.sent, ctx) && LockedOk(w.db, ctx, Some(locked)) && FreshIds(w.used, ids)
    requires NewExternal(ids.tx, ctx.cmd.req, ctx.cmd.key, PayloadHash.Preimage(ctx.cmd.req), ctx.cmd.correlationId) == Ok(tx)
    ensures BodyOk(w.db, w.sent, Body(Some(ctx), tx, locked, ids, now))
  {}

  lemma LookUpExternalIdFits(cfg: Config, w: World, pid: Pid, ctx: Ctx, locked: Option<WalletState>, c: Choice)
    requires RepliesOk(w) && MailOk(w) && LocksExclude(w.procs) && TxsOk(w.db.txs, w.db.wallets)
    requires pid in w.procs && w.procs[pid] == LookingUpExternalId(ctx, locked) && ProcOk(cfg, w, w.procs[pid]) && !Blocked(w.procs, pid)
    requires FreshIds(w.used, c.ids)
    ensures Fits(cfg, w, StepLookUpExternalId(w, pid, ctx, locked, c), pid)
  {
    hide RepliesOk, MailOk, LocksExclude, TxsOk, Fits, Blocked, KeyTaken, ExternalIdTaken;
    var found := FindByExternalId(w.db.txs, ctx.cmd.req.providerId, ctx.cmd.req.externalId);
    if found.Some? {
      if found.value.key != ctx.cmd.key {
        FailFits(cfg, w, pid, ctx, ExternalIdConflict);
      } else if found.value.hash == PayloadHash.Preimage(ctx.cmd.req) {
        Unblocked(w, pid, HeldByCtx(ctx));
        ReplayFits(cfg, w, pid, ctx, found.value);
      } else {
        FailFits(cfg, w, pid, ctx, IdempotencyConflict);
      }
    } else if locked.None? {
      Unblocked(w, pid, HeldByCtx(ctx));
      BecomeFits(cfg, w, pid, LockingWallet(ctx), w.used);
    } else {
      var tx := NewExternal(c.ids.tx, ctx.cmd.req, ctx.cmd.key, PayloadHash.Preimage(ctx.cmd.req), ctx.cmd.correlationId);
      if tx.Err? {
        FailFits(cfg, w, pid, ctx, tx.error);
      } else {
        BodyStarts(w, ctx, locked.value, tx.value, c.ids, c.now);
        Unblocked(w, pid, Holds(w.procs[pid]));
        var p := ReadingReference(Body(Some(ctx), tx.value, locked.value, c.ids, c.now));
        assert Holds(p) == Holds(w.procs[pid]);
        BecomeFits(cfg, w, pid, p, w.used + IdSet(c.ids));
      }
    }
  }

  lemma CtxSource(w: World, ctx: Ctx)
    requires CtxOk(w.db, w.sent, ctx)
    ensures SourceOk(w.sent, ctx)
  {}

  lemma LockWalletFits(cfg: Config, w: World, pid: Pid, ctx: Ctx)
    requires RepliesOk(w) && MailOk(w) && LocksExclude(w.procs) && WalletsOk(w.db.wallets)
    requires pid in w.procs && w.procs[pid] == LockingWallet(ctx) && ProcOk(cfg, w, w.procs[pid]) && !Blocked(w.procs, pid)
    ensures Fits(cfg, w, StepLockWallet(w, pid, ctx), pid)
  {
    hide Fits, RepliesOk, MailOk, LocksExclude, Blocked, HoldsApart, Fail, CtxOk, ValidWallet;
    if ctx.cmd.req.walletId in w.db.wallets {
      Unblocked(w, pid, HeldByCtx(ctx) + {WalletRow(ctx.cmd.req.walletId)});
      BecomeFits(cfg, w, pid, LookingUpKey(ctx, Some(w.db.wallets[ctx.cmd.req.walletId])), w.used);
    } else {
      CtxSource(w, ctx);
      FailFits(cfg, w, pid, ctx, WalletNotFound);
    }
  }

  lemma ClaimFits(cfg: Config, w: World, pid: Pid, c: Choice)
    requires RepliesOk(w) && MailOk(w) && TxsOk(w.db.txs, w.db.wallets)
    requires pid in w.procs && w.procs[pid].Claiming? && ClaimOk(w, c)
    ensures Fits(cfg, w, StepClaim(w, pid, c), pid)
  {
    hide RepliesOk, MailOk, Fits;
    if c.claim.Some? {
      var r := w.db.txs[c.claim.value];
      RowFacts(w.db.txs, w.db.wallets, r);
      assert r.id == c.claim.value by {
        assert RowOk(c.claim.value, r);
      }
      BecomeFits(cfg, w, pid, LockingForClaim(FromRow(r)), w.used);
    } else {
      FinishedFits(cfg, w, pid);
    }
  }

  /** A claimed operation under its wallet's lock. */
  lemma ClaimBodyOk(w: World, tx: Snapshot, c: Choice)
    requires WalletsOk(w.db.wallets) && TxsOk(w.db.txs, w.db.wallets) && ClaimHeld(w.db, tx) && FreshIds(w.used, c.ids)
    requires tx.req.walletId in w.db.wallets
    ensures w.db.wallets[tx.req.walletId].id == tx.req.walletId
    ensures BodyOk(w.db, w.sent, Body(None, tx, w.db.wallets[tx.req.walletId], c.ids, c.now))
  {
    hide RowOk, ValidWallet;
    RowFacts(w.db.txs, w.db.wallets, w.db.txs[tx.id]);
  }

  lemma LockForClaimFits(cfg: Config, w: World, pid: Pid, tx: Snapshot, c: Choice)
    requires RepliesOk(w) && MailOk(w) && LocksExclude(w.procs) && WalletsOk(w.db.wallets) && TxsOk(w.db.txs, w.db.wallets)
    requires pid in w.procs && w.procs[pid] == LockingForClaim(tx) && ProcOk(cfg, w, w.procs[pid]) && !Blocked(w.procs, pid)
    requires FreshIds(w.used, c.ids)
    ensures Fits(cfg, w, StepLockForClaim(w, pid, tx, c), pid)
  {
    hide Fits, RepliesOk, MailOk, LocksExclude, Blocked, HoldsApart, BodyOk, TxsOk, WalletsOk, ClaimHeld;
    if tx.req.walletId in w.db.wallets {
      var b := Body(None, tx, w.db.wallets[tx.req.walletId], c.ids, c.now);
      ClaimBodyOk(w, tx, c);
      Unblocked(w, pid, {PendingRow(tx.id), WalletRow(tx.req.walletId)});
      BecomeFits(cfg, w, pid, ReadingReference(b), w.used + IdSet(c.ids));
    } else {
      FinishedFits(cfg, w, pid);
    }
  }

  lemma FailBodyFits(cfg: Config, w: World, pid: Pid, b: Body, e: Error)
    requires RepliesOk(w) && MailOk(w) && LocksExclude(w.procs)
    requires pid in w.procs && HeldByBody(b) <= Holds(w.procs[pid]) && !Blocked(w.procs, pid)
    requires BodyOk(w.db, w.sent, b)
    requires e.DuplicateTransaction? && b.ctx.Some? ==> Conflicting(w.db.txs, b.ctx.value.cmd)
    ensures Fits(cfg, w, FailBody(w, pid, b, e), pid)
  {
    hide Fits, RepliesOk, MailOk, LocksExclude, Blocked, Fail, Conflicting, WalletHeld, Undecided, HoldsApart;
    if b.ctx.None? {
      FinishedFits(cfg, w, pid);
    } else {
      var ctx := b.ctx.value;
      FailFits(cfg, w, pid, ctx, e);
      if e.DuplicateTransaction? && ctx.source == Http(1) {
        Unblocked(w, pid, HeldByCtx(ctx));
        BecomeFits(cfg, w, pid, LookingUpKey(ctx.(source := Http(2)), None), w.used);
      }
    }
  }

  lemma ConcludeFits(cfg: Config, w: World, pid: Pid, b: Body, ref: Option<Snapshot>, reversed: bool)
    requires RepliesOk(w) && MailOk(w) && LocksExclude(w.procs)
    requires pid in w.procs && HeldByBody(b) <= Holds(w.procs[pid]) && IdsOf(w.procs[pid]) == IdSet(b.ids) && !Blocked(w.procs, pid)
    requires BodyOk(w.db, w.sent, b)
    requires ReadsReference(b.tx, b.base) ==> ReferenceSeen(w.db.txs, b, ref) && ReversalSeen(w.db.txs, b, ref, reversed)
    requires !ReadsReference(b.tx, b.base) ==> ref.None? && !reversed
    requires ref.Some? ==> ref.value.id != NIL
    requires ValidWallet(b.base)
    ensures Fits(cfg, w, Conclude(cfg, w, pid, b, ref, reversed), pid)
  {
    var r := Decide(b.tx, b.base, ref, reversed, b.ids.entry, b.now, cfg);
    if r.Err? {
      DecideIsSound(b.tx, b.base, ref, reversed, b.ids.entry, b.now, cfg);
      FailBodyFits(cfg, w, pid, b, r.error);
    } else {
      Unblocked(w, pid, HeldByBody(b));
      WritingStarts(cfg, w, b, ref, reversed, r.value);
      BecomeFits(cfg, w, pid, Writing(b, ref, reversed, r.value, 0, 1), w.used);
    }
  }

  lemma WritingStarts(cfg: Config, w: World, b: Body, ref: Option<Snapshot>, reversed: bool, out: Outcome)
    requires BodyOk(w.db, w.sent, b) && DecidedOk(cfg, w.db, b, ref, reversed, out)
    ensures ProcOk(cfg, w, Writing(b, ref, reversed, out, 0, 1))
    ensures Holds(Writing(b, ref, reversed, out, 0, 1)) == HeldByBody(b)
  {}

  lemma BodyWallet(w: World, b: Body)
    requires WalletsOk(w.db.wallets) && BodyOk(w.db, w.sent, b)
    ensures ValidWallet(b.base)
  {}

  lemma ReversalIsOfSome(tx: Snapshot, ref: Option<Snapshot>)
    requires ReadsReversal(tx, ref)
    ensures ref.Some?
  {}

  lemma ReadReferenceFits(cfg: Config, w: World, pid: Pid, b: Body)
    requires RepliesOk(w) && MailOk(w) && LocksExclude(w.procs) && WalletsOk(w.db.wallets) && TxsOk(w.db.txs, w.db.wallets)
    requires pid in w.procs && w.procs[pid] == ReadingReference(b) && ProcOk(cfg, w, w.procs[pid]) && !Blocked(w.procs, pid)
    ensures Fits(cfg, w, StepReadReference(cfg, w, pid, b), pid)
  {
    hide Fits, RepliesOk, MailOk, LocksExclude, Blocked, HoldsApart, BodyOk, TxsOk, WalletsOk, ReadsReference,
      ReadsReversal, ReferenceOf, Conclude;
    BodyWallet(w, b);
    if !ReadsReference(b.tx, b.base) {
      ConcludeFits(cfg, w, pid, b, None, false);
    } else {
      var ref := ReferenceOf(w.db.txs, b.tx);
      SeenReferenceOk(w.db.txs, w.db.wallets, b, ref);
      if ReadsReversal(b.tx, ref) {
        ReversalIsOfSome(b.tx, ref);
        Unblocked(w, pid, HeldByBody(b));
        BecomeFits(cfg, w, pid, ReadingReversal(b, ref.value), w.used);
      } else {
        ConcludeFits(cfg, w, pid, b, ref, false);
      }
    }
  }

  lemma ReadReversalFits(cfg: Config, w: World, pid: Pid, b: Body, found: Snapshot)
    requires RepliesOk(w) && MailOk(w) && LocksExclude(w.procs) && WalletsOk(w.db.wallets) && TxsOk(w.db.txs, w.db.wallets)
    requires pid in w.procs && w.procs[pid] == ReadingReversal(b, found) && ProcOk(cfg, w, w.procs[pid]) && !Blocked(w.procs, pid)
    ensures Fits(cfg, w, StepReadReversal(cfg, w, pid, b, found), pid)
  {
    SeenReferenceOk(w.db.txs, w.db.wallets, b, Some(found));
    ConcludeFits(cfg, w, pid, b, Some(found), HasProcessedReversal(w.db.txs, found.id));
  }
}
