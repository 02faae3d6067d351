/**
 Transactions that wait for a reference: each committed attempt brings them closer to an end, whatever
 they wait for, even for each other.
 */
module Waiting {
  import opened Basics
  import opened Wallets
  import opened Wagering
  import opened Rules
  import opened Database
  import opened Invariants
  import opened Commit
  import opened Opening
  import opened Engine
  import opened Processes
  import opened Worlds
  import opened Reach
  import opened History
  import Backoff
  import PayloadHash

  /** How many more committed attempts a transaction can take. */
  function Remaining(cfg: Config, r: TxRow): nat {
    if !r.status.PendingReference? then 0
    else if r.attempts >= cfg.maxAttempts then 1
    else cfg.maxAttempts - r.attempts + 1
  }

  /** A transaction is parked again only while attempts are left, for the next delay. */
  lemma DecidedWaits(cfg: Config, tx: Snapshot, w: WalletState, ref: Option<Snapshot>, reversed: bool, entryId: Uuid,
                     now: Time)
    requires tx.status.PendingReference? && Decide(tx, w, ref, reversed, entryId, now, cfg).Ok?
    ensures var t := Decide(tx, w, ref, reversed, entryId, now, cfg).value.tx;
            && t.id == tx.id
            && (t.status.PendingReference? ==>
                  && tx.attempts < cfg.maxAttempts && t.attempts == tx.attempts + 1
                  && t.nextRetry == Some(now + Backoff.Delay(cfg.base, cfg.max, tx.attempts + 1)))
  {
    hide DebitSpec, CreditSpec, Finish, Resolve;
    var r := Resolve(tx, w, ref, reversed, now, cfg);
    ResolveWaits(cfg, tx, w, ref, reversed, now);
    var t := if r.Ok? then r.value.tx else tx;
    var credit, debit := CreditSpec(w, entryId, tx.id, tx.req.money), DebitSpec(w, entryId, tx.id, tx.req.money);
    FinishEnds(tx, w, credit, None, now);
    FinishEnds(t, w, credit, None, now);
    FinishEnds(tx, w, debit, Some(InsufficientFundsCode), now);
    FinishEnds(t, w, debit, Some(ReversalInsufficientFunds), now);
  }

  lemma ResolveWaits(cfg: Config, tx: Snapshot, w: WalletState, ref: Option<Snapshot>, reversed: bool, now: Time)
    ensures Resolve(tx, w, ref, reversed, now, cfg).Ok? ==>
              var res := Resolve(tx, w, ref, reversed, now, cfg).value;
              && res.tx.id == tx.id
              && (res.Stop? && res.tx.status.PendingReference? ==>
                    && tx.attempts < cfg.maxAttempts && res.tx.attempts == tx.attempts + 1
                    && res.tx.nextRetry == Some(now + Backoff.Delay(cfg.base, cfg.max, tx.attempts + 1)))
  {
    hide SameRound, AllowedReference, Backoff.Delay;
  }

  lemma FinishEnds(tx: Snapshot, w: WalletState, moved: Result<Movement>, shortfall: Option<FailureCode>, now: Time)
    ensures Finish(tx, w, moved, shortfall, now).Ok? ==>
              Finish(tx, w, moved, shortfall, now).value.tx.id == tx.id
              && Finish(tx, w, moved, shortfall, now).value.tx.status.IsTerminal()
  {}

  /** The action commits a worker's attempt at this transaction. */
  predicate AttemptCommits(w: World, a: Action, id: Uuid) {
    && a.Advance? && a.pid in w.procs && w.procs[a.pid].Writing?
    && w.procs[a.pid].body.ctx.None? && w.procs[a.pid].body.tx.id == id
    && w.procs[a.pid].at == |BodyStatements(w.procs[a.pid].body, w.procs[a.pid].out)|
  }

  /** What the commit of a writing process leaves in the transactions table. */
  lemma BodyCommitRows(cfg: Config, w: World, pid: Pid)
    requires Inv(cfg, w) && pid in w.procs && w.procs[pid].Writing?
    requires w.procs[pid].at == |BodyStatements(w.procs[pid].body, w.procs[pid].out)|
    ensures var p := w.procs[pid];
            && StepWrite(w, pid, p).db.txs == w.db.txs[p.body.tx.id := ToRow(p.out.tx)]
            && (p.body.ctx.Some? ==> p.body.tx.id !in w.db.txs)
            && (p.body.ctx.None? ==>
                  && p.body.tx.id in w.db.txs && w.db.txs[p.body.tx.id] == ToRow(p.body.tx) && p.body.tx.status.PendingReference?
                  && Remaining(cfg, ToRow(p.out.tx)) < Remaining(cfg, w.db.txs[p.body.tx.id]))
  {
    hide DbInv, Evolves, BodyStatements, StepWrite, Decide, SoundOutcome, ReferenceHeld, ProgressOk, Undecided,
      CtxOk, IdsOk, OutEvents, NewRecords, ReferenceSeen, ReversalSeen;
    InvParts(cfg, w, pid);
    WriterFacts(cfg, w, pid);
    BodyCommitChanges(cfg, w, pid);
    var p := w.procs[pid];
    OutcomeKeepsId(p);
    if p.body.ctx.Some? {
      NewIsUnknown(w, p);
    } else {
      ClaimIsBounded(cfg, w, p);
    }
  }

  lemma OutcomeKeepsId(p: Proc)
    requires p.Writing? && SoundOutcome(p.body.tx, p.body.base, p.ref, p.reversed, p.body.ids.entry, p.out)
    ensures p.out.tx.id == p.body.tx.id
  {}

  lemma NewIsUnknown(w: World, p: Proc)
    requires WriterOk(w, p) && p.body.ctx.Some?
    ensures p.body.tx.id !in w.db.txs
  {
    assert Unknown(w.db, p.body.ids.tx);
  }

  lemma ClaimIsBounded(cfg: Config, w: World, p: Proc)
    requires p.Writing? && ProcOk(cfg, w, p) && p.body.ctx.None?
    ensures p.body.tx.id in w.db.txs && w.db.txs[p.body.tx.id] == ToRow(p.body.tx) && p.body.tx.status.PendingReference?
    ensures Remaining(cfg, ToRow(p.out.tx)) < Remaining(cfg, w.db.txs[p.body.tx.id])
  {
    hide Decide, ProgressOk, ReferenceSeen, ReversalSeen, Undecided;
    if p.out.tx.status.PendingReference? {
      DecidedWaits(cfg, p.body.tx, p.body.base, p.ref, p.reversed, p.body.ids.entry, p.body.now);
    }
  }

  lemma OpeningAddsRow(w: World, p: Proc)
    requires p.OpeningWallet? && OpenReady(w.db, p.wallet, p.parts, p.ids, p.correlationId)
    ensures forall id :: id in w.db.txs ==>
                           var txs' := AfterOpening(w.db, p.wallet, p.parts, p.ids, p.seqNo).txs;
                           id in txs' && txs'[id] == w.db.txs[id]
  {}

  lemma OtherStepsKeepRow(cfg: Config, w: World, pid: Pid, c: Choice, id: Uuid)
    requires pid in w.procs && id in w.db.txs && Inv(cfg, w) && Enabled(w, Advance(pid, c))
    requires w.procs[pid].Writing? ==> w.procs[pid].at < |BodyStatements(w.procs[pid].body, w.procs[pid].out)|
    ensures var w' := Advanced(cfg, w, pid, c); id in w'.db.txs && w'.db.txs[id] == w.db.txs[id]
  {
    hide Inv, Blocked, FreshIds, ClaimOk, BodyStatements, OpenWrites, Evolves, AfterOpening, ProcOk, OpenReady,
      WithInbox, Advanced, StepOpen, Holds;
    var p := w.procs[pid];
    CommittingSteps(cfg, w, pid, c);
    if p.OpeningWallet? && p.at >= |OpenWrites(p.wallet, p.parts, p.ids)| {
      InvParts(cfg, w, pid);
      OpeningIsBounded(cfg, w, p);
      OpenCommitChanges(cfg, w, pid);
      OpeningAddsRow(w, p);
    } else if p.Replaying? {
      InboxOnly(w.db, p.ctx);
    } else {
      NoCommitNoChange(cfg, w, pid, c);
    }
  }

  lemma AdvanceUsesUp(cfg: Config, w: World, pid: Pid, c: Choice, id: Uuid)
    requires pid in w.procs && id in w.db.txs && Inv(cfg, w) && Enabled(w, Advance(pid, c))
    ensures var w', a := Advanced(cfg, w, pid, c), Advance(pid, c);
            && id in w'.db.txs
            && Remaining(cfg, w'.db.txs[id]) + (if AttemptCommits(w, a, id) then 1 else 0) <= Remaining(cfg, w.db.txs[id])
            && (!AttemptCommits(w, a, id) ==> w'.db.txs[id] == w.db.txs[id])
  {
    hide Inv, Blocked, FreshIds, ClaimOk, BodyStatements, Remaining, ProcOk, StepWrite, Advanced;
    var p := w.procs[pid];
    CommittingSteps(cfg, w, pid, c);
    if p.Writing? && p.at >= |BodyStatements(p.body, p.out)| {
      InvParts(cfg, w, pid);
      WritingIsBounded(cfg, w, p);
      BodyCommitRows(cfg, w, pid);
    } else {
      OtherStepsKeepRow(cfg, w, pid, c, id);
    }
  }

  lemma InboxOnly(db: DB, ctx: Ctx)
    ensures WithInbox(db, ctx).txs == db.txs
  {}

  /** One action: a committed attempt uses up at least one of what remains; nothing gives any back. */
  lemma ActionUsesUp(cfg: Config, w: World, a: Action, id: Uuid)
    requires Inv(cfg, w) && Enabled(w, a) && id in w.db.txs
    ensures var w' := Perform(cfg, w, a);
            && id in w'.db.txs
            && Remaining(cfg, w'.db.txs[id]) + (if AttemptCommits(w, a, id) then 1 else 0) <= Remaining(cfg, w.db.txs[id])
            && (!AttemptCommits(w, a, id) ==> w'.db.txs[id] == w.db.txs[id])
  {
    hide Inv, Blocked, FreshIds, ClaimOk, Opened, Delivered, Remaining, Advanced;
    if a.Advance? {
      AdvanceUsesUp(cfg, w, a.pid, a.choice, id);
    } else {
      ArrivalsWriteNothing(cfg, w, a);
    }
  }

  /** Committed attempts at a transaction between two moments of a run. */
  ghost function Attempts(worlds: seq<World>, actions: seq<Action>, id: Uuid, i: nat, j: nat): nat
    requires i <= j <= |actions| < |worlds|
    decreases j - i
  {
    if i == j then 0
    else Attempts(worlds, actions, id, i, j - 1) + (if AttemptCommits(worlds[j - 1], actions[j - 1], id) then 1 else 0)
  }

  /**
   Over every run: the committed attempts at a waiting transaction are bounded by what remained when they
   began, so after that many it is processed or rejected for good, even when references form a cycle.
   */
  lemma {:induction false} WaitingEnds(cfg: Config, worlds: seq<World>, actions: seq<Action>, id: Uuid, i: nat, j: nat)
    requires IsRun(cfg, worlds, actions) && i <= j < |worlds| && id in worlds[i].db.txs
    ensures id in worlds[j].db.txs
    ensures Attempts(worlds, actions, id, i, j) + Remaining(cfg, worlds[j].db.txs[id]) <= Remaining(cfg, worlds[i].db.txs[id])
    ensures Attempts(worlds, actions, id, i, j) >= Remaining(cfg, worlds[i].db.txs[id]) ==> !worlds[j].db.txs[id].status.PendingReference?
    decreases j
  {
    hide Inv, Enabled, Perform, AttemptCommits;
    if i < j {
      WaitingEnds(cfg, worlds, actions, id, i, j - 1);
      RunsAreSafe(cfg, worlds, actions, j - 1);
      ActionUsesUp(cfg, worlds[j - 1], actions[j - 1], id);
    }
  }

  // ---- claims ----

  ghost predicate IsHeld(procs: map<Pid, Proc>, id: Uuid) {
    exists q :: q in procs && PendingRow(id) in Holds(procs[q])
  }

  lemma WaitingHasRetry(txs: map<Uuid, TxRow>, wallets: map<Uuid, WalletState>, id: Uuid)
    requires TxsOk(txs, wallets) && id in txs && txs[id].status == PendingReference
    ensures txs[id].nextRetry.Some?
  {
    hide ValidRequest;
    assert RowOk(id, txs[id]);
  }

  /**
   What a worker claims. When it gets nothing, every waiting transaction has its next retry still ahead or is locked
   by somebody; what it gets is waiting, due, free, and of all such the one that has been due longest.
   */
  lemma ClaimsExactly(w: World, c: Choice)
    requires TxsOk(w.db.txs, w.db.wallets) && ClaimOk(w, c)
    ensures forall id :: id in w.db.txs && w.db.txs[id].status == PendingReference ==> w.db.txs[id].nextRetry.Some?
    ensures c.claim.None? ==>
              forall id :: id in w.db.txs && w.db.txs[id].status == PendingReference ==>
                             (w.db.txs[id].nextRetry.value > c.now || IsHeld(w.procs, id))
    ensures c.claim.Some? ==>
              && c.claim.value in w.db.txs && w.db.txs[c.claim.value].status == PendingReference
              && w.db.txs[c.claim.value].nextRetry.value <= c.now && !IsHeld(w.procs, c.claim.value)
              && forall id :: id in w.db.txs && w.db.txs[id].status == PendingReference && !IsHeld(w.procs, id) ==>
                                w.db.txs[c.claim.value].nextRetry.value <= w.db.txs[id].nextRetry.value
  {
    hide TxsOk, Holds;
    forall id | id in w.db.txs && w.db.txs[id].status == PendingReference ensures w.db.txs[id].nextRetry.Some? {
      WaitingHasRetry(w.db.txs, w.db.wallets, id);
    }
    forall id | id in w.db.txs && w.db.txs[id].status == PendingReference && !IsHeld(w.procs, id)
      ensures w.db.txs[id].nextRetry.value <= c.now ==> Engine.Claimable(w, id, c.now)
    {}
  }

  // ---- from the first parking on ----

  /** A transaction that an action adds to the table as waiting is parked for the first time. */
  lemma FirstParking(cfg: Config, w: World, a: Action, id: Uuid)
    requires Inv(cfg, w) && Enabled(w, a) && id !in w.db.txs
    requires id in Perform(cfg, w, a).db.txs && Perform(cfg, w, a).db.txs[id].status.PendingReference?
    ensures Perform(cfg, w, a).db.txs[id].attempts == 1
  {
    hide Inv, Blocked, FreshIds, ClaimOk, Opened, Delivered, Advanced, BodyStatements, OpenWrites, ProcOk, StepWrite,
      StepOpen, AfterOpening, OpenReady, Evolves, Holds, WithInbox;
    if a.Advance? {
      var p := w.procs[a.pid];
      CommittingSteps(cfg, w, a.pid, a.choice);
      InvParts(cfg, w, a.pid);
      if p.Writing? && p.at >= |BodyStatements(p.body, p.out)| {
        WritingIsBounded(cfg, w, p);
        BodyCommitRows(cfg, w, a.pid);
        WriterFacts(cfg, w, a.pid);
        ParkedOnce(w, p);
      } else if p.OpeningWallet? && p.at >= |OpenWrites(p.wallet, p.parts, p.ids)| {
        OpeningIsBounded(cfg, w, p);
        OpenCommitChanges(cfg, w, a.pid);
        OpeningIsProcessed(w, p, id);
      } else if p.Replaying? {
        InboxOnly(w.db, p.ctx);
      } else {
        NoCommitNoChange(cfg, w, a.pid, a.choice);
      }
    } else {
      ArrivalsWriteNothing(cfg, w, a);
    }
  }

  lemma ParkedOnce(w: World, p: Proc)
    requires WriterOk(w, p)
    ensures p.body.ctx.Some? && p.out.tx.status.PendingReference? ==> ToRow(p.out.tx).attempts == 1
  {
    hide PayloadHash.Preimage;
  }

  lemma OpeningIsProcessed(w: World, p: Proc, id: Uuid)
    requires p.OpeningWallet? && OpenReady(w.db, p.wallet, p.parts, p.ids, p.correlationId) && id !in w.db.txs
    ensures var txs' := AfterOpening(w.db, p.wallet, p.parts, p.ids, p.seqNo).txs;
            id in txs' ==> txs'[id].status.Processed?
  {}

  /** A row is final once it no longer waits. */
  lemma NotWaitingIsFinal(cfg: Config, w: World, id: Uuid)
    requires Inv(cfg, w) && id in w.db.txs && !w.db.txs[id].status.PendingReference?
    ensures w.db.txs[id].status.IsTerminal()
  {
    hide LedgerOk, EventsOk, InboxOk, NothingWithoutWallet, ProcsOk, LocksExclude, IdsOk, MailOk, RepliesOk, SeqsOk;
    assert RowOk(id, w.db.txs[id]);
  }

  /**
   Over every run: a transaction that action i - 1 parked for the first time takes at most the configured number
   of committed attempts, and after that many it is final.
   */
  lemma ParkedTransactionsEnd(cfg: Config, worlds: seq<World>, actions: seq<Action>, id: Uuid, i: nat, j: nat)
    requires IsRun(cfg, worlds, actions) && ValidConfig(cfg) && 1 <= i <= j < |worlds|
    requires id !in worlds[i - 1].db.txs && id in worlds[i].db.txs && worlds[i].db.txs[id].status.PendingReference?
    ensures id in worlds[j].db.txs
    ensures Attempts(worlds, actions, id, i, j) <= cfg.maxAttempts
    ensures Attempts(worlds, actions, id, i, j) == cfg.maxAttempts ==> worlds[j].db.txs[id].status.IsTerminal()
  {
    hide Inv, Enabled, Perform, AttemptCommits;
    RunsAreSafe(cfg, worlds, actions, i - 1);
    FirstParking(cfg, worlds[i - 1], actions[i - 1], id);
    WaitingEnds(cfg, worlds, actions, id, i, j);
    RunsAreSafe(cfg, worlds, actions, j);
    if !worlds[j].db.txs[id].status.PendingReference? {
      NotWaitingIsFinal(cfg, worlds[j], id);
    }
  }
}
