/**
 The interleaved system refines one in which every operation runs at once, at the moment of its
 commit: exactly for money, and for everything else unless the operation waits for a transaction of
 another wallet that was decided in the meantime.
 */
module Serial {
  import opened Basics
  import opened Wallets
  import opened Wagering
  import opened Rules
  import opened Outcomes
  import opened Database
  import opened Invariants
  import opened UseCases
  import opened Commit
  import opened Opening
  import opened Engine
  import opened Processes
  import opened Worlds
  import opened Reach
  import opened History
  import opened Sequential
  import PayloadHash

  /** The whole operation of a process, run at once on the committed tables. */
  ghost function AtOnce(cfg: Config, db: DB, b: Body): Result<Outcome> {
    DecideNow(cfg, db, b.tx, b.base, b.ids.entry, b.now)
  }

  /** The reference was open when the operation read it and has been decided, in another wallet, before the operation committed. */
  ghost predicate OvertakenReference(db: DB, b: Body, ref: Option<Snapshot>) {
    && ReadsReference(b.tx, b.base) && Unsettled(ref)
    && !Unsettled(ReferenceNow(db, b.tx, b.base))
  }

  /** With an open reference nothing but the clock and the wallet decides. */
  lemma OpenReferenceParks(cfg: Config, b: Body, ref: Option<Snapshot>, reversed: bool, other: Option<Snapshot>,
                           reversed': bool)
    requires ReadsReference(b.tx, b.base) && Unsettled(ref) && Unsettled(other)
    ensures Decide(b.tx, b.base, ref, reversed, b.ids.entry, b.now, cfg) == Decide(b.tx, b.base, other, reversed', b.ids.entry, b.now, cfg)
  {}

  /** An operation with an open reference waits, or gives up after the last attempt. */
  lemma WaitingOutcome(cfg: Config, b: Body, ref: Option<Snapshot>, reversed: bool)
    requires Undecided(b.tx) && b.tx.req.walletId == b.base.id && ReadsReference(b.tx, b.base) && Unsettled(ref)
    ensures var r := Decide(b.tx, b.base, ref, reversed, b.ids.entry, b.now, cfg);
            && r.Ok? && r.value.wallet == b.base && r.value.entry.None? && r.value.tx.id == b.tx.id
            && (r.value.tx.status.PendingReference? || r.value.tx.failure == ReferenceNotFound)
  {
    hide ValidIdentifier, DebitSpec, CreditSpec, Finish, SameRound;
  }

  /** A decided reference in another wallet is refused. */
  lemma ElsewhereOutcome(cfg: Config, b: Body, ref: Snapshot, reversed: bool)
    requires Undecided(b.tx) && b.tx.req.walletId == b.base.id && ReadsReference(b.tx, b.base)
    requires !Unsettled(Some(ref)) && ref.req.walletId != b.base.id
    ensures var r := Decide(b.tx, b.base, Some(ref), reversed, b.ids.entry, b.now, cfg);
            && r.Ok? && r.value.wallet == b.base && r.value.entry.None? && r.value.tx.id == b.tx.id && r.value.tx.status.Rejected?
            && r.value.tx.failure in {ReferenceNotProcessed, ReferenceKindMismatch, ReferenceMismatch}
  {
    hide ValidRequest, DebitSpec, CreditSpec, Finish, Park;
    assert !SameRound(b.tx, ref);
  }

  /** What was read differs from what would be read now only by an overtaken or still open reference. */
  lemma ReadsAreCurrent(cfg: Config, db: DB, sent: map<Handle, Message>, b: Body, ref: Option<Snapshot>,
                        reversed: bool, out: Outcome)
    requires BodyOk(db, sent, b) && DecidedOk(cfg, db, b, ref, reversed, out)
    ensures var now := ReferenceNow(db, b.tx, b.base);
            || now == ref
            || (ReadsReference(b.tx, b.base) && Unsettled(ref) && now.Some? && now.value.req.walletId != b.base.id)
    ensures ReferenceNow(db, b.tx, b.base) == ref && ReadsReversal(b.tx, ref) ==> reversed == ReversedNow(db, b.tx, b.base)
  {
    hide Decide, Undecided, CtxOk, ClaimHeld, NewExternal;
  }

  /** Whether a reversal exists matters only when it is asked for. */
  lemma ReversalFlagIsIgnored(cfg: Config, b: Body, ref: Option<Snapshot>, r1: bool, r2: bool)
    requires !ReadsReversal(b.tx, ref)
    ensures Decide(b.tx, b.base, ref, r1, b.ids.entry, b.now, cfg) == Decide(b.tx, b.base, ref, r2, b.ids.entry, b.now, cfg)
  {}

  /**
   An operation about to commit against the tables as they are: its money is exactly what it would be
   if it ran now from start to end, and so is everything else exactly when no reference was overtaken.
   */
  lemma CommitEqualsAtOnce(cfg: Config, db: DB, sent: map<Handle, Message>, b: Body, ref: Option<Snapshot>,
                           reversed: bool, out: Outcome)
    requires WalletsOk(db.wallets) && BodyOk(db, sent, b) && DecidedOk(cfg, db, b, ref, reversed, out)
    ensures var now := AtOnce(cfg, db, b);
            && now.Ok? && now.value.wallet == out.wallet && now.value.entry == out.entry
            && (now.value == out <==> !OvertakenReference(db, b, ref))
            && now.value.tx.id == out.tx.id
            && (OvertakenReference(db, b, ref) ==>
                  out.entry.None? && out.wallet == b.base && ToRow(now.value.tx) != ToRow(out.tx))
  {
    hide Decide, Undecided, CtxOk, ClaimHeld, NewExternal, ReadsReversal, HasProcessedReversal, ReferenceOf;
    ReadsAreCurrent(cfg, db, sent, b, ref, reversed, out);
    var now := ReferenceNow(db, b.tx, b.base);
    if now == ref {
      if !ReadsReversal(b.tx, ref) {
        ReversalFlagIsIgnored(cfg, b, ref, reversed, ReversedNow(db, b.tx, b.base));
      }
    } else if Unsettled(now) {
      OpenReferenceParks(cfg, b, ref, reversed, now, ReversedNow(db, b.tx, b.base));
    } else {
      WaitingOutcome(cfg, b, ref, reversed);
      ElsewhereOutcome(cfg, b, now.value, ReversedNow(db, b.tx, b.base));
    }
  }

  // ---- whole use cases, run at once ----

  /** The tables a commit leaves: the outcome, and the message's inbox row if it came in a message. */
  function Committed(db: DB, b: Body, out: Outcome, seqNo: SeqNo): DB {
    var after := After(db, out, b.ids, seqNo);
    if b.ctx.Some? then WithInbox(after, b.ctx.value) else after
  }

  /**
   The use case run from its first to its last statement on the given tables succeeds with the outcome: both
   lookups find nothing, the wallet is there, and no statement is refused.
   */
  ghost predicate SucceedsAtOnce(cfg: Config, db: DB, b: Body, out: Outcome, seqNo: SeqNo) {
    var after := After(db, out, b.ids, seqNo);
    if b.ctx.Some? then Attempt(cfg, db, seqNo, b.ctx.value.cmd, b.ids, b.now) == Ok(Success(after, Answer(out.tx, false)))
    else Retry(cfg, db, seqNo, b.tx, b.ids, b.now) == Ok(after)
  }

  lemma BodyIsCommand(db: DB, sent: map<Handle, Message>, b: Body)
    requires BodyOk(db, sent, b)
    ensures b.base.id in db.wallets && db.wallets[b.base.id] == b.base && b.tx.req.walletId == b.base.id
    ensures b.ctx.Some? ==>
              var cmd := b.ctx.value.cmd;
              && cmd.key != "" && b.tx.req == cmd.req && b.tx.key == cmd.key
              && NewExternal(b.ids.tx, cmd.req, cmd.key, PayloadHash.Preimage(cmd.req), cmd.correlationId) == Ok(b.tx)
  {
    hide Undecided, ClaimHeld, PayloadHash.Preimage, ValidRequest;
  }

  lemma RunsAtOnce(cfg: Config, db: DB, sent: map<Handle, Message>, b: Body, out: Outcome, seqNo: SeqNo)
    requires DbInv(db) && BodyOk(db, sent, b) && AtOnce(cfg, db, b) == Ok(out)
    requires forall id :: id in IdSet(b.ids) ==> Unknown(db, id)
    requires out.entry.Some? ==> SeqAbove(OfWallet(db.ledger, b.base.id), seqNo)
    requires b.ctx.Some? ==> !KeyTaken(db.txs, b.tx.req.providerId, b.tx.key)
                             && !ExternalIdTaken(db.txs, b.tx.req.providerId, b.tx.req.externalId)
    ensures SucceedsAtOnce(cfg, db, b, out, seqNo)
  {
    hide LedgerOk, EventsOk, InboxOk, NothingWithoutWallet, TablesOk, BodyOk, Decide, NewExternal, BodyWrites, After,
      ReferenceNow, ReversedNow, PayloadHash.Preimage, KeyTaken, ExternalIdTaken, Ready, Unknown;
    var ref, reversed := ReferenceNow(db, b.tx, b.base), ReversedNow(db, b.tx, b.base);
    BodyIsCommand(db, sent, b);
    DecidedNowIsReady(cfg, db, sent, b, out, seqNo);
    ReadyRuns(db, b.base, b.tx, ref, reversed, out, b.ids, b.ctx.Some?, seqNo);
  }

  /** One action, seen as operations that run at once. */
  ghost predicate SerialStep(cfg: Config, w: World, a: Action, w': World) {
    if a.Advance? && a.pid in w.procs && w.procs[a.pid].Writing?
       && w.procs[a.pid].at == |BodyStatements(w.procs[a.pid].body, w.procs[a.pid].out)| then
      var p := w.procs[a.pid];
      var now := AtOnce(cfg, w.db, p.body);
      // The base is the committed wallet, and the operation run at once on the committed tables succeeds.
      && WalletHeld(w.db, p.body.base) && now.Ok? && SucceedsAtOnce(cfg, w.db, p.body, now.value, p.seqNo)
      // The commit is that operation's in money and inbox, and in everything exactly when no reference was overtaken.
      && var atOnce := Committed(w.db, p.body, now.value, p.seqNo);
      && w'.db.wallets == atOnce.wallets && w'.db.ledger == atOnce.ledger && w'.db.inbox == atOnce.inbox
      && (w'.db == atOnce <==> !OvertakenReference(w.db, p.body, p.ref))
    else if a.Advance? && a.pid in w.procs && w.procs[a.pid].OpeningWallet?
            && w.procs[a.pid].at == |OpenWrites(w.procs[a.pid].wallet, w.procs[a.pid].parts, w.procs[a.pid].ids)| then
      var p := w.procs[a.pid];
      p.wallet.id !in w.db.wallets && w'.db == AfterOpening(w.db, p.wallet, p.parts, p.ids, p.seqNo)
    else if a.Advance? && a.pid in w.procs && w.procs[a.pid].Replaying? then
      w'.db == WithInbox(w.db, w.procs[a.pid].ctx) && ReplaysAtOnce(w.db, w.procs[a.pid].ctx.cmd, w.procs[a.pid].tx)
    else w'.db == w.db
  }

  /**
   A lookup made at the commit returns the same transaction: as answered, exactly unless it was still waiting
   when it was read and has moved on since.
   */
  ghost predicate ReplaysAtOnce(db: DB, cmd: Command, tx: Snapshot) {
    && tx.id in db.txs && db.txs[tx.id].req.money.valid
    && LookUp(db, cmd) == Ok(Some(FromRow(db.txs[tx.id])))
    && (LookUp(db, cmd) == Ok(Some(tx)) <==> db.txs[tx.id] == ToRow(tx))
    && (tx.status.IsTerminal() ==> db.txs[tx.id] == ToRow(tx))
  }

  lemma ReplayStepIsSerial(cfg: Config, w: World, pid: Pid)
    requires Inv(cfg, w) && pid in w.procs && w.procs[pid].Replaying?
    ensures ReplaysAtOnce(w.db, w.procs[pid].ctx.cmd, w.procs[pid].tx)
  {
    hide LedgerOk, EventsOk, InboxOk, NothingWithoutWallet, LocksExclude, IdsOk, MailOk, RepliesOk, SeqsOk,
      PayloadHash.Preimage, FindByKey, FindByExternalId, Coherent, TerminalShape, ValidRequest;
    var ctx, tx := w.procs[pid].ctx, w.procs[pid].tx;
    assert ProcOk(cfg, w, w.procs[pid]);
    assert RowOk(tx.id, w.db.txs[tx.id]);
    FoundByKey(w.db.txs, tx.id, ctx.cmd.req.providerId, ctx.cmd.key);
  }

  lemma BodyStepIsSerial(cfg: Config, w: World, pid: Pid, c: Choice)
    requires Inv(cfg, w) && Enabled(w, Advance(pid, c))
    requires w.procs[pid].Writing? && w.procs[pid].at == |BodyStatements(w.procs[pid].body, w.procs[pid].out)|
    ensures SerialStep(cfg, w, Advance(pid, c), Advanced(cfg, w, pid, c))
  {
    hide Inv, Blocked, FreshIds, BodyOk, DecidedOk, ProgressOk, WalletsOk, TxsOk, IdsOk, SeqsOk, AtOnce, SucceedsAtOnce,
      OvertakenReference, BodyStatements, Evolves, After, WithInbox, StepWrite, Holds;
    InvParts(cfg, w, pid);
    var p := w.procs[pid];
    CommitEqualsAtOnce(cfg, w.db, w.sent, p.body, p.ref, p.reversed, p.out);
    BodyCommitChanges(cfg, w, pid);
    OutcomeKeepsWallet(w.db, w.sent, p.body);
    CommittedAlike(w.db, p.body, AtOnce(cfg, w.db, p.body).value, p.out, p.seqNo);
    BodySucceedsAtOnce(cfg, w, pid);
  }

  /** The locks, index entries and identifiers of a process at its commit are all that running at once needs. */
  lemma BodySucceedsAtOnce(cfg: Config, w: World, pid: Pid)
    requires Inv(cfg, w) && pid in w.procs
    requires w.procs[pid].Writing? && w.procs[pid].at == |BodyStatements(w.procs[pid].body, w.procs[pid].out)|
    requires var p := w.procs[pid];
             AtOnce(cfg, w.db, p.body).Ok? && AtOnce(cfg, w.db, p.body).value.entry == p.out.entry
    ensures SucceedsAtOnce(cfg, w.db, w.procs[pid].body, AtOnce(cfg, w.db, w.procs[pid].body).value, w.procs[pid].seqNo)
  {
    hide DbInv, LocksExclude, MailOk, RepliesOk, ProcsOk, BodyOk, DecidedOk, AtOnce, SucceedsAtOnce, KeyTaken,
      ExternalIdTaken, Unknown, SeqAbove, OfWallet, IdsOk, SeqsOk, ReferenceHeld, SoundOutcome, WriterOk;
    InvParts(cfg, w, pid);
    var p := w.procs[pid];
    WriterFacts(cfg, w, pid);
    AtCommit(w, p);
    RunsAtOnce(cfg, w.db, w.sent, p.body, AtOnce(cfg, w.db, p.body).value, p.seqNo);
  }

  lemma AtCommit(w: World, p: Proc)
    requires WriterOk(w, p) && p.at == |BodyStatements(p.body, p.out)|
    ensures BodyOk(w.db, w.sent, p.body)
    ensures forall id :: id in IdSet(p.body.ids) ==> Unknown(w.db, id)
    ensures p.out.entry.Some? ==> SeqAbove(OfWallet(w.db.ledger, p.body.base.id), p.seqNo)
    ensures p.body.ctx.Some? ==> !KeyTaken(w.db.txs, p.body.tx.req.providerId, p.body.tx.key)
                                 && !ExternalIdTaken(w.db.txs, p.body.tx.req.providerId, p.body.tx.req.externalId)
  {
    hide BodyOk, ReferenceHeld, KeyTaken, ExternalIdTaken, Unknown, SeqAbove, OfWallet;
    LedgerStatement(p.out, p.body.ctx.Some?, p.body.ids);
    SoundKeepsRequest(p.body, p.ref, p.reversed, p.out);
  }

  lemma OutcomeKeepsWallet(db: DB, sent: map<Handle, Message>, b: Body)
    requires BodyOk(db, sent, b)
    ensures WalletHeld(db, b.base)
  {}

  lemma CommittedAlike(db: DB, b: Body, out: Outcome, out': Outcome, seqNo: SeqNo)
    requires out.wallet == out'.wallet && out.entry == out'.entry && out.tx.id == out'.tx.id
    ensures var c, c' := Committed(db, b, out, seqNo), Committed(db, b, out', seqNo);
            && c.wallets == c'.wallets && c.ledger == c'.ledger && c.inbox == c'.inbox
            && (ToRow(out.tx) != ToRow(out'.tx) ==> c != c')
  {
    hide OutEvents;
    var txs, txs' := db.txs[out.tx.id := ToRow(out.tx)], db.txs[out'.tx.id := ToRow(out'.tx)];
    assert txs[out.tx.id] == ToRow(out.tx) && txs'[out.tx.id] == ToRow(out'.tx);
  }

  lemma StepIsSerial(cfg: Config, w: World, a: Action)
    requires Inv(cfg, w) && Enabled(w, a)
    ensures SerialStep(cfg, w, a, Perform(cfg, w, a))
  {
    hide Inv, Blocked, FreshIds, ClaimOk, AtOnce, OvertakenReference, BodyStatements, OpenWrites, Evolves,
      WalletHeld, ProcOk, Opened, Delivered, AfterOpening, OutEvents, NewRecords, StepWrite, StepOpen,
      StepRecordInbox, StepLookUpKey, StepLookUpExternalId, StepLockWallet, StepClaim, StepLockForClaim,
      StepReadReference, StepReadReversal, WithInbox, ReplaysAtOnce, SucceedsAtOnce;
    if a.Advance? {
      var pid := a.pid;
      InvParts(cfg, w, pid);
      var p := w.procs[pid];
      if p.Writing? && p.at >= |BodyStatements(p.body, p.out)| {
        WritingIsBounded(cfg, w, p);
        BodyStepIsSerial(cfg, w, pid, a.choice);
      } else if p.OpeningWallet? && p.at >= |OpenWrites(p.wallet, p.parts, p.ids)| {
        OpeningIsBounded(cfg, w, p);
        OpenCommitChanges(cfg, w, pid);
      } else if p.Replaying? {
        ReplayStepIsSerial(cfg, w, pid);
      } else {
        NoCommitNoChange(cfg, w, pid, a.choice);
      }
    } else {
      ArrivalsWriteNothing(cfg, w, a);
    }
  }

  /** Commit order is a serial order of every run. */
  lemma RunsAreSerial(cfg: Config, worlds: seq<World>, actions: seq<Action>, i: nat)
    requires IsRun(cfg, worlds, actions) && i < |actions|
    ensures SerialStep(cfg, worlds[i], actions[i], worlds[i + 1])
  {
    hide Inv, Enabled, Perform, SerialStep;
    RunsAreSafe(cfg, worlds, actions, i);
    StepIsSerial(cfg, worlds[i], actions[i]);
  }
}
