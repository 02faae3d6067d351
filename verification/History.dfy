/**
 What committed tables keep through every run: rows are never lost, finished rows never change,
 and the ledger, outbox and inbox only grow.
 */
module History {
  import opened Basics
  import opened Rules
  import opened Database
  import opened Invariants
  import opened Commit
  import opened Opening
  import opened Engine
  import opened Processes
  import opened Worlds
  import opened Steps
  import opened Commits
  import opened Reach

  /** Append-only tables have only grown. */
  ghost predicate Grown(db: DB, db': DB) {
    && db.ledger <= db'.ledger && db.outbox <= db'.outbox
    && (forall k :: k in db.inbox ==> k in db'.inbox && db'.inbox[k] == db.inbox[k])
  }

  /** Rows keep their identity, and finished ones everything. */
  ghost predicate RowsKeep(txs: map<Uuid, TxRow>, txs': map<Uuid, TxRow>) {
    forall id :: id in txs ==> id in txs' && SameRowIdentity(txs[id], txs'[id])
                               && (txs[id].status.IsTerminal() ==> txs'[id] == txs[id])
  }

  function HeldBy(w: World, a: Action): set<Resource> {
    if a.Advance? && a.pid in w.procs then Holds(w.procs[a.pid]) else {}
  }

  lemma BodyCommitChanges(cfg: Config, w: World, pid: Pid)
    requires Inv(cfg, w) && pid in w.procs && w.procs[pid].Writing?
    requires w.procs[pid].at == |BodyStatements(w.procs[pid].body, w.procs[pid].out)|
    ensures var p := w.procs[pid];
            var w' := StepWrite(w, pid, p);
            var db' := After(w.db, p.out, p.body.ids, p.seqNo);
            && Evolves(w.db, w'.db, Holds(p))
            && w'.db == if p.body.ctx.Some? then WithInbox(db', p.body.ctx.value) else db'
  {
    hide DbInv, Evolves, Reveals, ApplyAll, BodyStatements, CtxOk, HeldByCtx, Holds, LocksExclude, IdsOk, MailOk,
      RepliesOk, After, ReplayOk, SoundOutcome, ReferenceHeld, ProgressOk, DecidedOk, WithInbox;
    var p := w.procs[pid];
    InvParts(cfg, w, pid);
    WriterFacts(cfg, w, pid);
    WriterCommits(w, p);
    var db' := After(w.db, p.out, p.body.ids, p.seqNo);
    if p.body.ctx.Some? {
      WriterAnswers(w, p);
      AfterKeepsInbox(w.db, p.out, p.body.ids, p.seqNo);
      InboxEvolves(w.db, db', Holds(p), w.sent, p.body.ctx.value);
    }
  }

  lemma AfterKeepsInbox(db: DB, out: Outcome, ids: Ids, seqNo: SeqNo)
    ensures After(db, out, ids, seqNo).inbox == db.inbox
  {}

  lemma InvParts(cfg: Config, w: World, pid: Pid)
    requires Inv(cfg, w) && pid in w.procs
    ensures WalletsOk(w.db.wallets) && TxsOk(w.db.txs, w.db.wallets) && IdsOk(w) && ProcOk(cfg, w, w.procs[pid]) && SeqsOk(w)
  {
    hide LedgerOk, EventsOk, InboxOk, NothingWithoutWallet, ProcOk, IdsOk, LocksExclude, MailOk, RepliesOk;
  }

  lemma OpenCommitChanges(cfg: Config, w: World, pid: Pid)
    requires Inv(cfg, w) && pid in w.procs && w.procs[pid].OpeningWallet?
    requires w.procs[pid].at == |OpenWrites(w.procs[pid].wallet, w.procs[pid].parts, w.procs[pid].ids)|
    ensures var p := w.procs[pid];
            var w' := StepOpen(w, pid, p);
            && Evolves(w.db, w'.db, Holds(p))
            && w'.db == AfterOpening(w.db, p.wallet, p.parts, p.ids, p.seqNo)
            && OpenReady(w.db, p.wallet, p.parts, p.ids, p.correlationId)
  {
    hide DbInv, Evolves, ApplyAll, OpenWrites, AfterOpening, Holds, OpenReady;
    InvParts(cfg, w, pid);
    OpenFacts(cfg, w, pid);
    var p := w.procs[pid];
    OpeningOwner(cfg, w, p);
    OpeningAmountsTo(w.db, p.wallet, p.parts, p.ids, p.correlationId, p.seqNo);
    OpeningEvolves(w.db, p.wallet, p.parts, p.ids, p.correlationId, p.seqNo, Holds(p));
  }

  lemma OpeningOwner(cfg: Config, w: World, p: Proc)
    requires p.OpeningWallet? && ProcOk(cfg, w, p) && p.at == |OpenWrites(p.wallet, p.parts, p.ids)|
    ensures OwnerEntry(p.wallet.playerId, p.wallet.currency) in Holds(p)
  {}

  lemma ReplayChanges(cfg: Config, w: World, pid: Pid)
    requires Inv(cfg, w) && pid in w.procs && w.procs[pid].Replaying?
    ensures Evolves(w.db, WithInbox(w.db, w.procs[pid].ctx), Holds(w.procs[pid]))
  {
    hide DbInv, CtxOk, ReplayOk, WithInbox;
    InvParts(cfg, w, pid);
    var p := w.procs[pid];
    InboxEvolves(w.db, w.db, Holds(p), w.sent, p.ctx);
  }

  lemma NoCommitNoChange(cfg: Config, w: World, pid: Pid, c: Choice)
    requires Inv(cfg, w) && Enabled(w, Advance(pid, c))
    requires w.procs[pid].Writing? ==> w.procs[pid].at < |BodyStatements(w.procs[pid].body, w.procs[pid].out)|
    requires w.procs[pid].OpeningWallet? ==> w.procs[pid].at < |OpenWrites(w.procs[pid].wallet, w.procs[pid].parts, w.procs[pid].ids)|
    requires !w.procs[pid].Replaying?
    ensures Advanced(cfg, w, pid, c).db == w.db
  {
    hide Inv, Enabled, Advanced, BodyStatements, OpenWrites, RepliesOk, MailOk, ProcOk, HoldsApart, IdsFit;
    AdvanceFits(cfg, w, pid, c);
  }

  /** The statements that commit. */
  lemma CommittingSteps(cfg: Config, w: World, pid: Pid, c: Choice)
    requires pid in w.procs
    ensures w.procs[pid].Writing? ==> Advanced(cfg, w, pid, c) == StepWrite(w, pid, w.procs[pid])
    ensures w.procs[pid].OpeningWallet? ==> Advanced(cfg, w, pid, c) == StepOpen(w, pid, w.procs[pid])
    ensures w.procs[pid].Replaying? ==> Advanced(cfg, w, pid, c).db == WithInbox(w.db, w.procs[pid].ctx)
  {
    hide StepWrite, StepOpen, WithInbox, StepRecordInbox, StepLookUpKey, StepLookUpExternalId, StepLockWallet,
      StepClaim, StepLockForClaim, StepReadReference, StepReadReversal;
  }

  /** What one action may change. */
  lemma ActionEvolves(cfg: Config, w: World, a: Action)
    requires Inv(cfg, w) && Enabled(w, a)
    ensures Evolves(w.db, Perform(cfg, w, a).db, HeldBy(w, a))
    ensures w.db.ledger <= Perform(cfg, w, a).db.ledger && w.db.outbox <= Perform(cfg, w, a).db.outbox
  {
    hide Inv, Evolves, Advanced, Holds, Blocked, FreshIds, ClaimOk, Opened, Delivered;
    if a.Advance? {
      AdvanceEvolves(cfg, w, a.pid, a.choice);
    } else {
      ArrivalsWriteNothing(cfg, w, a);
      SameEvolves(w.db, HeldBy(w, a));
    }
  }

  lemma ArrivalsWriteNothing(cfg: Config, w: World, a: Action)
    requires Enabled(w, a) && !a.Advance?
    ensures Perform(cfg, w, a).db == w.db
  {
    hide Advanced, NewOpeningParts, Acceptable;
  }

  lemma SameEvolves(db: DB, held: set<Resource>)
    ensures Evolves(db, db, held)
  {}

  lemma AdvanceEvolves(cfg: Config, w: World, pid: Pid, c: Choice)
    requires Inv(cfg, w) && Enabled(w, Advance(pid, c))
    ensures Evolves(w.db, Advanced(cfg, w, pid, c).db, Holds(w.procs[pid]))
    ensures w.db.ledger <= Advanced(cfg, w, pid, c).db.ledger && w.db.outbox <= Advanced(cfg, w, pid, c).db.outbox
  {
    hide DbInv, ProcOk, LocksExclude, IdsOk, MailOk, RepliesOk, SeqsOk, Evolves, Holds, BodyStatements, OpenWrites,
      Blocked, FreshIds, ClaimOk;
    InvParts(cfg, w, pid);
    var p := w.procs[pid];
    if p.Writing? && p.at >= |BodyStatements(p.body, p.out)| {
      WritingIsBounded(cfg, w, p);
      BodyCommitChanges(cfg, w, pid);
    } else if p.OpeningWallet? && p.at >= |OpenWrites(p.wallet, p.parts, p.ids)| {
      OpeningIsBounded(cfg, w, p);
      OpenCommitChanges(cfg, w, pid);
    } else if p.Replaying? {
      ReplayChanges(cfg, w, pid);
    } else {
      NoCommitNoChange(cfg, w, pid, c);
      SameEvolves(w.db, Holds(p));
    }
  }

  lemma EvolvedRowsKeep(db: DB, db': DB, held: set<Resource>)
    requires Evolves(db, db', held)
    ensures RowsKeep(db.txs, db'.txs) && db.wallets.Keys <= db'.wallets.Keys
  {}

  lemma ActionKeepsRows(cfg: Config, w: World, a: Action)
    requires Inv(cfg, w) && Enabled(w, a)
    ensures RowsKeep(w.db.txs, Perform(cfg, w, a).db.txs) && Grown(w.db, Perform(cfg, w, a).db)
    ensures w.db.wallets.Keys <= Perform(cfg, w, a).db.wallets.Keys
  {
    hide Inv, Enabled, Perform, WalletsEvolve, RowsEvolve, RowsKeep;
    ActionEvolves(cfg, w, a);
    EvolvedRowsKeep(w.db, Perform(cfg, w, a).db, HeldBy(w, a));
  }

  // ---- whole runs ----

  /**
   Over every run: no row disappears, no finished transaction ever changes, no ledger entry, event or
   inbox row is ever changed or removed.
   */
  lemma {:induction false} FinishedRowsAreFrozen(cfg: Config, worlds: seq<World>, actions: seq<Action>, i: nat, j: nat)
    requires IsRun(cfg, worlds, actions) && i <= j < |worlds|
    ensures RowsKeep(worlds[i].db.txs, worlds[j].db.txs)
    ensures Grown(worlds[i].db, worlds[j].db)
    ensures worlds[i].db.wallets.Keys <= worlds[j].db.wallets.Keys
    decreases j
  {
    hide Inv, Enabled, Perform;
    if i < j {
      FinishedRowsAreFrozen(cfg, worlds, actions, i, j - 1);
      RunsAreSafe(cfg, worlds, actions, j - 1);
      ActionKeepsRows(cfg, worlds[j - 1], actions[j - 1]);
      RowsKeepTransitive(worlds[i].db.txs, worlds[j - 1].db.txs, worlds[j].db.txs);
    }
  }

  lemma RowsKeepTransitive(a: map<Uuid, TxRow>, b: map<Uuid, TxRow>, c: map<Uuid, TxRow>)
    requires RowsKeep(a, b) && RowsKeep(b, c)
    ensures RowsKeep(a, c)
  {}
}
