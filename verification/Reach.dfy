/**
 Safety over whole runs: whatever happens, in whatever order and interleaving, the invariant holds.
 */
module Reach {
  import opened Basics
  import opened Moneys
  import opened Wallets
  import opened Wagering
  import opened Rules
  import opened Database
  import opened UseCases
  import opened Invariants
  import opened Opening
  import opened Engine
  import opened Processes
  import opened Worlds
  import opened Steps
  import opened Commits

  /** The statements that read, lock, or fail. */
  lemma ReadingFits(cfg: Config, w: World, pid: Pid, c: Choice)
    requires Inv(cfg, w) && pid in w.procs && !Blocked(w.procs, pid) && FreshIds(w.used, c.ids)
    requires w.procs[pid].Claiming? ==> ClaimOk(w, c)
    requires var p := w.procs[pid];
             || p.RecordingInbox? || p.LookingUpKey? || p.LookingUpExternalId? || p.LockingWallet? || p.Claiming?
             || p.LockingForClaim? || p.ReadingReference? || p.ReadingReversal?
    ensures Fits(cfg, w, Advanced(cfg, w, pid, c), pid)
  {
    hide WalletsOk, TxsOk, LocksExclude, Blocked, MailOk, RepliesOk, IdsOk, SeqsOk, LedgerOk, EventsOk,
      NothingWithoutWallet, InboxOk, OwnersUnique, KeysUnique, ExternalIdsUnique, OpeningsUnique, ReferencesOk,
      ReversalsUnique, ProcOk, Fits, ClaimOk, FreshIds, StepRecordInbox, StepLookUpKey, StepLookUpExternalId,
      StepLockWallet, StepClaim, StepLockForClaim, StepReadReference, StepReadReversal, StepWrite, StepOpen, Succeed,
      WithInbox;
    assert ProcOk(cfg, w, w.procs[pid]);
    match w.procs[pid]
    case RecordingInbox(ctx) => RecordInboxFits(cfg, w, pid, ctx);
    case LookingUpKey(ctx, locked) => LookUpKeyFits(cfg, w, pid, ctx, locked);
    case LookingUpExternalId(ctx, locked) => LookUpExternalIdFits(cfg, w, pid, ctx, locked, c);
    case LockingWallet(ctx) => LockWalletFits(cfg, w, pid, ctx);
    case Claiming => ClaimFits(cfg, w, pid, c);
    case LockingForClaim(tx) => LockForClaimFits(cfg, w, pid, tx, c);
    case ReadingReference(b) => ReadReferenceFits(cfg, w, pid, b);
    case ReadingReversal(b, ref) => ReadReversalFits(cfg, w, pid, b, ref);
  }

  lemma DeleteFits(cfg: Config, w: World, pid: Pid, h: Handle)
    requires RepliesOk(w) && MailOk(w)
    requires h in w.sent && (h in w.dlq || Absorbed(w.db, w.sent[h]))
    ensures Fits(cfg, w, Finished(w, pid).(queue := w.queue - {h}), pid)
  {
    hide ReplayOk, Absorbed;
  }

  lemma DeadLetterFits(cfg: Config, w: World, pid: Pid, h: Handle)
    requires RepliesOk(w) && MailOk(w) && h in w.sent
    ensures Fits(cfg, w, Become(w, pid, Deleting(h)).(dlq := w.dlq + {h}), pid)
  {
    hide ReplayOk, Absorbed;
  }

  /** One statement or message operation of one process keeps the invariant. */
  lemma AdvanceKeeps(cfg: Config, w: World, pid: Pid, c: Choice)
    requires Inv(cfg, w) && Enabled(w, Advance(pid, c))
    ensures Inv(cfg, Advanced(cfg, w, pid, c))
  {
    hide DbInv, ProcOk, LocksExclude, MailOk, RepliesOk, IdsOk, SeqsOk, Blocked, Fits, ClaimOk, FreshIds,
      BodyStatements, OpenWrites;
    var p := w.procs[pid];
    assert ProcOk(cfg, w, p);
    if p.Writing? && p.at >= |BodyStatements(p.body, p.out)| {
      WritingIsBounded(cfg, w, p);
      BodyCommitKeeps(cfg, w, pid);
    } else if p.OpeningWallet? && p.at >= |OpenWrites(p.wallet, p.parts, p.ids)| {
      OpeningIsBounded(cfg, w, p);
      OpenCommitKeeps(cfg, w, pid);
    } else if p.Replaying? {
      ReplayCommitKeeps(cfg, w, pid, p.ctx, p.tx);
    } else {
      AdvanceFits(cfg, w, pid, c);
      FittingStepKeeps(cfg, w, Advanced(cfg, w, pid, c), pid);
    }
  }

  lemma WritingIsBounded(cfg: Config, w: World, p: Proc)
    requires p.Writing? && ProcOk(cfg, w, p)
    ensures p.at <= |BodyStatements(p.body, p.out)|
  {}

  lemma OpeningIsBounded(cfg: Config, w: World, p: Proc)
    requires p.OpeningWallet? && ProcOk(cfg, w, p)
    ensures p.at <= |OpenWrites(p.wallet, p.parts, p.ids)|
  {}

  lemma MessageFacts(cfg: Config, w: World, p: Proc)
    requires ProcOk(cfg, w, p)
    ensures p.Deleting? ==> p.handle in w.sent && (p.handle in w.dlq || Absorbed(w.db, w.sent[p.handle]))
    ensures p.DeadLettering? ==> p.handle in w.sent
  {
    hide Absorbed;
  }

  /** A step that does not commit. */
  lemma AdvanceFits(cfg: Config, w: World, pid: Pid, c: Choice)
    requires Inv(cfg, w) && Enabled(w, Advance(pid, c))
    requires w.procs[pid].Writing? ==> w.procs[pid].at < |BodyStatements(w.procs[pid].body, w.procs[pid].out)|
    requires w.procs[pid].OpeningWallet? ==> w.procs[pid].at < |OpenWrites(w.procs[pid].wallet, w.procs[pid].parts, w.procs[pid].ids)|
    requires !w.procs[pid].Replaying?
    ensures Fits(cfg, w, Advanced(cfg, w, pid, c), pid)
  {
    hide ProcOk, LocksExclude, MailOk, RepliesOk, IdsOk, SeqsOk, Blocked, Fits, ClaimOk, FreshIds, BodyStatements,
      OpenWrites, WalletsOk, TxsOk, OwnersUnique, KeysUnique, ExternalIdsUnique, OpeningsUnique, ReferencesOk,
      ReversalsUnique, EventsOk, EntriesOk, EntriesDistinct, EntriesComplete, ReferencesPrecede, LedgersOk,
      NothingWithoutWallet, InboxOk, StepWrite, StepOpen, StepRecordInbox, StepLookUpKey, StepLookUpExternalId,
      StepLockWallet, StepClaim, StepLockForClaim, StepReadReference, StepReadReversal, Become, Finished;
    var p := w.procs[pid];
    assert ProcOk(cfg, w, p);
    MessageFacts(cfg, w, p);
    if p.Writing? {
      WriteFits(cfg, w, pid);
    } else if p.OpeningWallet? {
      OpenFits(cfg, w, pid);
    } else if p.Deleting? {
      DeleteFits(cfg, w, pid, p.handle);
    } else if p.DeadLettering? {
      DeadLetterFits(cfg, w, pid, p.handle);
    } else {
      ReadingFits(cfg, w, pid, c);
    }
  }

  // ---- arrivals and crashes ----

  lemma SendKeeps(cfg: Config, w: World, h: Handle, m: Message)
    requires Inv(cfg, w) && h !in w.sent
    ensures Inv(cfg, w.(sent := w.sent[h := m], queue := w.queue + {h}))
  {
    hide ProcOk, LocksExclude, RepliesOk, IdsOk, SeqsOk, DbInv, Absorbed;
    var w' := w.(sent := w.sent[h := m], queue := w.queue + {h});
    forall q | q in w'.procs ensures ProcOk(cfg, w', w'.procs[q]) {
      assert ProcOk(cfg, w, w.procs[q]);
      SentStays(cfg, w, w', w.procs[q]);
    }
    SameOthers(w, w');
  }

  /** Messages, replies and drawn identifiers are independent of the tables and locks. */
  lemma SameOthers(w: World, w': World)
    requires w'.db == w.db && w'.procs == w.procs && w'.nextSeq == w.nextSeq && w'.used == w.used && w'.replies == w.replies
    ensures LocksExclude(w.procs) == LocksExclude(w'.procs) && SeqsOk(w) == SeqsOk(w') && RepliesOk(w) == RepliesOk(w')
    ensures IdsOk(w) ==> IdsOk(w')
  {
    hide Unknown, IdsOf, ReplayOk;
    if IdsOk(w) {
      forall p | p in w'.procs ensures DrawnUnknown(w', w'.procs[p]) {
        assert DrawnUnknown(w, w.procs[p]);
      }
    }
  }

  lemma SentStays(cfg: Config, w: World, w': World, p: Proc)
    requires ProcOk(cfg, w, p)
    requires w'.db == w.db && w'.nextSeq == w.nextSeq && w'.dlq == w.dlq
    requires forall h :: h in w.sent ==> h in w'.sent && w'.sent[h] == w.sent[h]
    ensures ProcOk(cfg, w', p)
  {
    hide DecidedOk, ProgressOk, OpenOk, ReplayOk, ClaimHeld, Undecided, ReferenceSeen, WalletHeld, Conflicting;
  }

  /** A process that starts holds nothing yet. */
  lemma NewProcessFits(cfg: Config, w: World, pid: Pid, p: Proc)
    requires RepliesOk(w) && MailOk(w) && pid !in w.procs
    requires ProcOk(cfg, w, p) && Holds(p) == {} && IdsOf(p) == {}
    ensures Fits(cfg, w, Become(w, pid, p), pid)
  {
    hide RepliesOk, MailOk, ProcOk, Fits;
    assert HoldsApart(w, pid, Holds(p)) by {
      assert Holds(p) == {};
    }
    BecomeFits(cfg, w, pid, p, w.used);
  }

  lemma OpenedFits(cfg: Config, w: World, pid: Pid, walletId: Uuid, playerId: Uuid, initial: Money,
                   correlationId: string, c: Choice)
    requires RepliesOk(w) && MailOk(w) && IdsOk(w)
    requires Enabled(w, Engine.OpenWallet(pid, walletId, playerId, initial, correlationId, c))
    ensures Fits(cfg, w, Opened(w, pid, Open(walletId, playerId, initial).value, correlationId, c), pid)
  {
    var wallet := Open(walletId, playerId, initial).value;
    assert Unknown(w.db, walletId);
    OpeningPartsAre(wallet, c.ids, correlationId, c.now);
    var parts := NewOpeningParts(wallet, c.ids, correlationId, c.now);
    var used' := w.used + IdSet(c.ids) + {walletId};
    var p := OpeningWallet(wallet, if parts.Ok? then Some(parts.value) else None, c.ids, correlationId, 0, 1);
    assert IdsOf(p) == IdSet(c.ids) + {walletId};
    assert IdsOf(p) !! w.used;
    OpeningStarts(cfg, w, p);
    BecomeFits(cfg, w, pid, p, used');
  }

  lemma OpeningStarts(cfg: Config, w: World, p: Proc)
    requires p.OpeningWallet? && p.at == 0
    requires ValidWallet(p.wallet) && p.wallet.version == 1 && p.wallet.id !in w.db.wallets
    requires p.ids.entry != NIL && p.ids.tx != NIL && p.ids.change != p.ids.final
    requires if p.parts.Some? then OpeningFor(p.wallet, p.parts.value, p.ids, p.correlationId) else p.wallet.balance.IsZero()
    ensures ProcOk(cfg, w, p) && Holds(p) == {}
  {
    hide OpeningFor, ValidWallet;
  }

  lemma DeliverFits(cfg: Config, w: World, pid: Pid, h: Handle)
    requires RepliesOk(w) && MailOk(w) && pid !in w.procs && h in w.queue && h in w.sent
    ensures Fits(cfg, w, Delivered(w, pid, h), pid)
  {
    hide RepliesOk, MailOk, Fits, ValidRequest;
    var m := w.sent[h];
    if Acceptable(m) {
      NewProcessFits(cfg, w, pid, RecordingInbox(Ctx(Queue(h), Command(m.req, m.key, m.messageId), None)));
    } else {
      NewProcessFits(cfg, w, pid, DeadLettering(h));
    }
  }

  lemma SubmitFits(cfg: Config, w: World, pid: Pid, cmd: Command)
    requires RepliesOk(w) && MailOk(w) && pid !in w.procs
    ensures var ctx := Ctx(Http(1), cmd, None);
            Fits(cfg, w, if cmd.key == "" then Replied(w, ctx, Err(Validation), false) else Become(w, pid, LookingUpKey(ctx, None)), pid)
  {
    hide ReplayOk, Absorbed;
  }

  // ---- all steps, all runs ----

  lemma RedriveKeeps(cfg: Config, w: World, h: Handle)
    requires Inv(cfg, w) && h in w.queue
    ensures Inv(cfg, w.(queue := w.queue - {h}, dlq := w.dlq + {h}))
  {
    hide ProcOk, LocksExclude, RepliesOk, IdsOk, SeqsOk, DbInv, Absorbed;
    var w' := w.(queue := w.queue - {h}, dlq := w.dlq + {h});
    forall q | q in w'.procs ensures ProcOk(cfg, w', w'.procs[q]) {
      assert ProcOk(cfg, w, w.procs[q]);
      DeadLetteredStays(cfg, w, w', w.procs[q]);
    }
    SameOthers(w, w');
  }

  lemma DeadLetteredStays(cfg: Config, w: World, w': World, p: Proc)
    requires ProcOk(cfg, w, p)
    requires w'.db == w.db && w'.nextSeq == w.nextSeq && w.dlq <= w'.dlq && w'.sent == w.sent
    ensures ProcOk(cfg, w', p)
  {
    hide DecidedOk, ProgressOk, OpenOk, ReplayOk, BodyOk, CtxOk, ClaimHeld, ReferenceSeen, WalletHeld, Conflicting,
      Absorbed;
  }

  /** Every action that can happen keeps the invariant. */
  lemma ActionKeeps(cfg: Config, w: World, a: Action)
    requires Inv(cfg, w) && Enabled(w, a)
    ensures Inv(cfg, Perform(cfg, w, a))
  {
    hide DbInv, ProcsOk, LocksExclude, RepliesOk, MailOk, IdsOk, SeqsOk, Blocked, FreshIds, ClaimOk, Opened,
      Delivered, Advanced, Fits;
    match a
    case Send(h, m) => SendKeeps(cfg, w, h, m);
    case Submit(pid, cmd) =>
      SubmitFits(cfg, w, pid, cmd);
      FittingStepKeeps(cfg, w, Perform(cfg, w, a), pid);
    case Deliver(pid, h) =>
      DeliverFits(cfg, w, pid, h);
      FittingStepKeeps(cfg, w, Perform(cfg, w, a), pid);
    case Redrive(h) => RedriveKeeps(cfg, w, h);
    case Wake(pid) =>
      NewProcessFits(cfg, w, pid, Claiming);
      FittingStepKeeps(cfg, w, Perform(cfg, w, a), pid);
    case OpenWallet(pid, walletId, playerId, initial, correlationId, c) =>
      OpenedFits(cfg, w, pid, walletId, playerId, initial, correlationId, c);
      FittingStepKeeps(cfg, w, Perform(cfg, w, a), pid);
    case Advance(pid, c) => AdvanceKeeps(cfg, w, pid, c);
    case Crash(pid) =>
      FinishedFits(cfg, w, pid);
      FittingStepKeeps(cfg, w, Perform(cfg, w, a), pid);
  }

  /** Every world of every run satisfies the invariant. */
  lemma {:induction false} RunsAreSafe(cfg: Config, worlds: seq<World>, actions: seq<Action>, i: nat)
    requires IsRun(cfg, worlds, actions) && i < |worlds|
    ensures Inv(cfg, worlds[i])
  {
    hide Inv, Enabled, Perform;
    if i == 0 {
      StartIsOk(cfg);
    } else {
      RunsAreSafe(cfg, worlds, actions, i - 1);
      ActionKeeps(cfg, worlds[i - 1], actions[i - 1]);
    }
  }

  // ---- what the statements of a run can meet ----

  lemma WriteRefusal(cfg: Config, w: World, pid: Pid)
    requires pid in w.procs && w.procs[pid].Writing? && Inv(cfg, w)
    requires w.procs[pid].at < |BodyStatements(w.procs[pid].body, w.procs[pid].out)|
    ensures var p := w.procs[pid];
            var e := Violation(View(w.db, BodyStatements(p.body, p.out), p.at, p.seqNo), BodyStatements(p.body, p.out)[p.at]);
            e.Some? ==> p.body.ctx.Some? && p.at < 2 && e.value.DuplicateTransaction? && Conflicting(w.db.txs, p.body.ctx.value.cmd)
  {
    hide WalletsOk, TxsOk, LocksExclude, MailOk, RepliesOk, IdsOk, SeqsOk, EventsOk, NothingWithoutWallet, InboxOk,
      WriterOk, OwnersUnique, KeysUnique, ExternalIdsUnique, OpeningsUnique, ReferencesOk, ReversalsUnique, ProcOk,
      BodyStatements, Violation, View;
    assert ProcOk(cfg, w, w.procs[pid]);
    WriterFacts(cfg, w, pid);
    RefusalIsConflict(w, w.procs[pid]);
  }

  /**
   Over every run: no statement of an operation is ever refused, whatever else is going on, except the
   reservation of its provider key or external id, and that only when the conflicting transaction is
   already committed. So the version check of the wallet update always matches, and no CHECK, foreign key,
   trigger, ledger, opening or single-reversal constraint ever fires.
   */
  lemma OnlyLostRacesAreRefused(cfg: Config, worlds: seq<World>, actions: seq<Action>, i: nat, pid: Pid)
    requires IsRun(cfg, worlds, actions) && i < |worlds|
    requires pid in worlds[i].procs && worlds[i].procs[pid].Writing?
    requires worlds[i].procs[pid].at < |BodyStatements(worlds[i].procs[pid].body, worlds[i].procs[pid].out)|
    ensures var w, p := worlds[i], worlds[i].procs[pid];
            var e := Violation(View(w.db, BodyStatements(p.body, p.out), p.at, p.seqNo), BodyStatements(p.body, p.out)[p.at]);
            e.Some? ==> p.body.ctx.Some? && p.at < 2 && e == Some(DuplicateTransaction) && Conflicting(w.db.txs, p.body.ctx.value.cmd)
  {
    hide IsRun, Inv, BodyStatements, Violation, View, Conflicting;
    RunsAreSafe(cfg, worlds, actions, i);
    WriteRefusal(cfg, worlds[i], pid);
  }

  lemma OpenRefusal(cfg: Config, w: World, pid: Pid)
    requires pid in w.procs && w.procs[pid].OpeningWallet? && Inv(cfg, w)
    requires w.procs[pid].at < |OpenWrites(w.procs[pid].wallet, w.procs[pid].parts, w.procs[pid].ids)|
    ensures var p := w.procs[pid];
            var ws := OpenWrites(p.wallet, p.parts, p.ids);
            Violation(View(w.db, ws, p.at, p.seqNo), ws[p.at])
            == if p.at == 0 && OwnerTaken(w.db.wallets, p.wallet.playerId, p.wallet.currency) then Some(WalletExists) else None
  {
    hide WalletsOk, TxsOk, LocksExclude, MailOk, RepliesOk, IdsOk, SeqsOk, EventsOk, NothingWithoutWallet, InboxOk,
      EntriesOk, EntriesDistinct, EntriesComplete, ReferencesPrecede, LedgersOk, ApplyAll, OpenReady, OwnersUnique,
      KeysUnique, ExternalIdsUnique, OpeningsUnique, ReferencesOk, ReversalsUnique, ProcOk;
    assert ProcOk(cfg, w, w.procs[pid]);
    OpenFacts(cfg, w, pid);
    var p := w.procs[pid];
    if p.at == 0 {
      var ws := OpenWrites(p.wallet, p.parts, p.ids);
      assert ws[..0] == [];
      NothingViewed(w.db, p.seqNo);
    } else {
      OpeningNeverFails(w.db, p.wallet, p.parts, p.ids, p.correlationId, p.seqNo, p.at);
    }
  }

  lemma NothingViewed(db: DB, seqNo: SeqNo)
    ensures ApplyAll(db, [], seqNo) == db
  {}

  /** Over every run: opening a wallet is refused only because the player has one in the currency already. */
  lemma OnlySecondWalletsAreRefused(cfg: Config, worlds: seq<World>, actions: seq<Action>, i: nat, pid: Pid)
    requires IsRun(cfg, worlds, actions) && i < |worlds|
    requires pid in worlds[i].procs && worlds[i].procs[pid].OpeningWallet?
    requires var p := worlds[i].procs[pid]; p.at < |OpenWrites(p.wallet, p.parts, p.ids)|
    ensures var w, p := worlds[i], worlds[i].procs[pid];
            var ws := OpenWrites(p.wallet, p.parts, p.ids);
            Violation(View(w.db, ws, p.at, p.seqNo), ws[p.at])
            == if p.at == 0 && OwnerTaken(w.db.wallets, p.wallet.playerId, p.wallet.currency) then Some(WalletExists) else None
  {
    hide IsRun, Inv, OpenWrites, Violation, View, OwnerTaken;
    RunsAreSafe(cfg, worlds, actions, i);
    OpenRefusal(cfg, worlds[i], pid);
  }

  /** The tables of every moment of every run satisfy the database invariant, on which the audit lemmas rest. */
  lemma TablesAreAlwaysRight(cfg: Config, worlds: seq<World>, actions: seq<Action>, i: nat)
    requires IsRun(cfg, worlds, actions) && i < |worlds|
    ensures DbInv(worlds[i].db)
  {
    hide IsRun, DbInv, ProcsOk, LocksExclude, IdsOk, MailOk, RepliesOk, SeqsOk;
    RunsAreSafe(cfg, worlds, actions, i);
  }
}
