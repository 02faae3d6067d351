/**
 Write statements and commits keep the invariant.
 */
module Commits {
  import opened Basics
  import opened Wallets
  import opened Wagering
  import opened Rules
  import opened Database
  import opened UseCases
  import opened Invariants
  import opened Commit
  import opened Statements
  import opened Opening
  import opened Engine
  import opened Processes
  import opened Worlds
  import opened Steps
  import PayloadHash

  // ---- a statement before the commit ----

  /** The reservations see the committed rows only. */
  lemma ReservationView(db: DB, b: Body, out: Outcome, at: nat, seqNo: SeqNo)
    requires b.ctx.Some? && at < 2
    ensures var ws := BodyStatements(b, out);
            && |ws| >= 3
            && ws[0] == ReserveKey(out.tx.req.providerId, out.tx.key)
            && ws[1] == ReserveExternalId(out.tx.req.providerId, out.tx.req.externalId)
            && View(db, ws, at, seqNo) == db
  {
    var ws := BodyStatements(b, out);
    assert ws[..0] == [];
    ApplyOneMore(db, ws, 0, seqNo);
  }

  lemma OutIdentity(w: World, p: Proc)
    requires WriterOk(w, p) && p.body.ctx.Some?
    ensures p.out.tx.req == p.body.ctx.value.cmd.req && p.out.tx.key == p.body.ctx.value.cmd.key
    ensures p.out.tx.hash == PayloadHash.Preimage(p.body.ctx.value.cmd.req)
    ensures p.out.tx.id == p.body.ids.tx
  {}

  /** A refused statement is a reservation that lost its race to a committed transaction. */
  lemma RefusalIsConflict(w: World, p: Proc)
    requires TablesOk(w.db) && EntriesOk(w.db.txs, w.db.ledger) && SeqsOk(w) && WriterOk(w, p)
    requires p.at < |BodyStatements(p.body, p.out)|
    ensures var e := Violation(View(w.db, BodyStatements(p.body, p.out), p.at, p.seqNo), BodyStatements(p.body, p.out)[p.at]);
            e.Some? ==> p.body.ctx.Some? && p.at < 2 && e.value.DuplicateTransaction? && Conflicting(w.db.txs, p.body.ctx.value.cmd)
  {
    if p.body.ctx.Some? && p.at < 2 {
      ReservationView(w.db, p.body, p.out, p.at, p.seqNo);
      OutIdentity(w, p);
    } else {
      WriterSucceeds(w, p);
    }
  }

  /** One more statement done: what was reserved or numbered is now the process's own. */
  lemma ProgressGoesOn(w: World, p: Proc, nextSeq': SeqNo, seqNo': SeqNo)
    requires SeqsOk(w) && WriterOk(w, p) && p.at < |BodyStatements(p.body, p.out)|
    requires Violation(View(w.db, BodyStatements(p.body, p.out), p.at, p.seqNo), BodyStatements(p.body, p.out)[p.at]) == None
    requires if BodyStatements(p.body, p.out)[p.at].AppendLedger? then seqNo' == w.nextSeq && nextSeq' == w.nextSeq + 1
             else seqNo' == p.seqNo && nextSeq' == w.nextSeq
    ensures ProgressOk(w.db, nextSeq', p.body, p.out, p.at + 1, seqNo')
  {
    LedgerStatement(p.out, p.body.ctx.Some?, p.body.ids);
    OfWalletBelow(w.db.ledger, p.body.base.id, w.nextSeq);
    if p.body.ctx.Some? && p.at < 2 {
      ReservationView(w.db, p.body, p.out, p.at, p.seqNo);
    }
  }

  /** A process that moves on with the locks it has, and maybe a new sequence number drawn. */
  lemma MovesOnFits(cfg: Config, w: World, pid: Pid, p: Proc, nextSeq': SeqNo)
    requires RepliesOk(w) && MailOk(w) && w.nextSeq <= nextSeq' && pid in w.procs
    requires ProcOk(cfg, w.(nextSeq := nextSeq'), p) && HoldsApart(w, pid, Holds(p)) && IdsOf(p) == IdsOf(w.procs[pid])
    ensures Fits(cfg, w, Become(w, pid, p).(nextSeq := nextSeq'), pid)
  {
    hide Absorbed, ReplayOk, Holds, IdsOf, ProcOk, HoldsApart;
    SameFacts(cfg, w.(nextSeq := nextSeq'), Become(w, pid, p).(nextSeq := nextSeq'), p);
  }

  lemma WritingGoesOn(cfg: Config, w: World, p: Proc, nextSeq': SeqNo, seqNo': SeqNo)
    requires SeqsOk(w) && WriterOk(w, p) && ProcOk(cfg, w, p) && p.at < |BodyStatements(p.body, p.out)|
    requires Violation(View(w.db, BodyStatements(p.body, p.out), p.at, p.seqNo), BodyStatements(p.body, p.out)[p.at]) == None
    requires if BodyStatements(p.body, p.out)[p.at].AppendLedger? then seqNo' == w.nextSeq && nextSeq' == w.nextSeq + 1
             else seqNo' == p.seqNo && nextSeq' == w.nextSeq
    ensures ProcOk(cfg, w.(nextSeq := nextSeq'), Writing(p.body, p.ref, p.reversed, p.out, p.at + 1, seqNo'))
  {
    hide BodyOk, DecidedOk, ProgressOk, SoundOutcome, ReferenceHeld, Violation, View, BodyStatements;
    ProgressGoesOn(w, p, nextSeq', seqNo');
  }

  lemma WriteFits(cfg: Config, w: World, pid: Pid)
    requires RepliesOk(w) && MailOk(w) && LocksExclude(w.procs) && IdsOk(w) && SeqsOk(w)
    requires TablesOk(w.db) && EntriesOk(w.db.txs, w.db.ledger)
    requires pid in w.procs && w.procs[pid].Writing? && ProcOk(cfg, w, w.procs[pid]) && !Blocked(w.procs, pid)
    requires w.procs[pid].at < |BodyStatements(w.procs[pid].body, w.procs[pid].out)|
    ensures Fits(cfg, w, StepWrite(w, pid, w.procs[pid]), pid)
  {
    hide DecidedOk, ProgressOk, SoundOutcome, ReferenceHeld, Violation, View, BodyStatements, BodyOk, WalletsOk,
      TxsOk, OwnersUnique, KeysUnique, ExternalIdsUnique, OpeningsUnique, ReferencesOk, ReversalsUnique, RepliesOk,
      MailOk, IdsOk, SeqsOk, LocksExclude, Blocked, Fits, HoldsApart, Unknown, EntriesOk, FailBody, Conflicting;
    WriterFacts(cfg, w, pid);
    var p := w.procs[pid];
    var ws := BodyStatements(p.body, p.out);
    var e := Violation(View(w.db, ws, p.at, p.seqNo), ws[p.at]);
    if e.Some? {
      RefusalIsConflict(w, p);
      FailBodyFits(cfg, w, pid, p.body, e.value);
    } else {
      var append := ws[p.at].AppendLedger?;
      var seqNo', nextSeq' := if append then w.nextSeq else p.seqNo, if append then w.nextSeq + 1 else w.nextSeq;
      WritingGoesOn(cfg, w, p, nextSeq', seqNo');
      var p' := Writing(p.body, p.ref, p.reversed, p.out, p.at + 1, seqNo');
      Unblocked(w, pid, Holds(p'));
      MovesOnFits(cfg, w, pid, p', nextSeq');
    }
  }

  lemma OpenFacts(cfg: Config, w: World, pid: Pid)
    requires IdsOk(w) && pid in w.procs && w.procs[pid].OpeningWallet? && ProcOk(cfg, w, w.procs[pid])
    ensures var OpeningWallet(wallet, parts, ids, correlationId, at, seqNo) := w.procs[pid];
            OpenReady(w.db, wallet, parts, ids, correlationId)
  {
    var OpeningWallet(wallet, parts, ids, correlationId, at, seqNo) := w.procs[pid];
    var mine := IdsOf(w.procs[pid]);
    assert ids.tx in mine && ids.entry in mine && ids.change in mine && ids.final in mine;
    assert Unknown(w.db, ids.tx) && Unknown(w.db, ids.entry) && Unknown(w.db, ids.change) && Unknown(w.db, ids.final);
    assert IdsUnused(w.db, ids);
  }

  lemma OpeningGoesOn(cfg: Config, w: World, p: Proc, nextSeq': SeqNo, seqNo': SeqNo)
    requires p.OpeningWallet? && ProcOk(cfg, w, p) && p.at < |OpenWrites(p.wallet, p.parts, p.ids)|
    requires Violation(View(w.db, OpenWrites(p.wallet, p.parts, p.ids), p.at, p.seqNo), OpenWrites(p.wallet, p.parts, p.ids)[p.at]) == None
    requires if OpenWrites(p.wallet, p.parts, p.ids)[p.at].AppendLedger? then seqNo' == w.nextSeq && nextSeq' == w.nextSeq + 1
             else seqNo' == p.seqNo && nextSeq' == w.nextSeq
    ensures ProcOk(cfg, w.(nextSeq := nextSeq'), OpeningWallet(p.wallet, p.parts, p.ids, p.correlationId, p.at + 1, seqNo'))
  {
    hide OpeningFor, ValidWallet;
    var ws := OpenWrites(p.wallet, p.parts, p.ids);
    assert ws[..0] == [];
    assert p.at == 0 ==> View(w.db, ws, p.at, p.seqNo) == w.db;
  }

  lemma OpenFits(cfg: Config, w: World, pid: Pid)
    requires RepliesOk(w) && MailOk(w) && LocksExclude(w.procs) && IdsOk(w)
    requires pid in w.procs && w.procs[pid].OpeningWallet? && ProcOk(cfg, w, w.procs[pid]) && !Blocked(w.procs, pid)
    requires w.procs[pid].at < |OpenWrites(w.procs[pid].wallet, w.procs[pid].parts, w.procs[pid].ids)|
    ensures Fits(cfg, w, StepOpen(w, pid, w.procs[pid]), pid)
  {
    hide ProcOk, RepliesOk, MailOk, LocksExclude, IdsOk, Blocked, Violation, View, OpenWrites, Fits, HoldsApart,
      Finished;
    var p := w.procs[pid];
    var ws := OpenWrites(p.wallet, p.parts, p.ids);
    var e := Violation(View(w.db, ws, p.at, p.seqNo), ws[p.at]);
    if e.Some? {
      FinishedFits(cfg, w, pid);
    } else {
      var append := ws[p.at].AppendLedger?;
      var seqNo', nextSeq' := if append then w.nextSeq else p.seqNo, if append then w.nextSeq + 1 else w.nextSeq;
      OpeningGoesOn(cfg, w, p, nextSeq', seqNo');
      var p' := OpeningWallet(p.wallet, p.parts, p.ids, p.correlationId, p.at + 1, seqNo');
      Unblocked(w, pid, Holds(p'));
      MovesOnFits(cfg, w, pid, p', nextSeq');
    }
  }

  // ---- a commit ----

  /** The committing process ends, or turns to deleting its message; the others stay. */
  ghost predicate Committed(w: World, w': World, pid: Pid) {
    && w'.sent == w.sent && w'.dlq == w.dlq && w'.queue == w.queue && w'.nextSeq == w.nextSeq && w'.used == w.used
    && pid in w.procs
    && (forall q :: q != pid ==> (q in w.procs <==> q in w'.procs))
    && (forall q :: q != pid && q in w.procs ==> w'.procs[q] == w.procs[q])
    && (pid in w'.procs ==> w'.procs[pid].Deleting? && w'.procs[pid].handle in w.sent
                            && Absorbed(w'.db, w.sent[w'.procs[pid].handle]))
  }

  ghost predicate Reveals(db: DB, db': DB, ids: set<Uuid>) {
    forall id :: Unknown(db, id) && id !in ids ==> Unknown(db', id)
  }

  lemma ProcsAfterCommit(cfg: Config, w: World, w': World, pid: Pid)
    requires ProcsOk(cfg, w) && LocksExclude(w.procs) && IdsOk(w) && Committed(w, w', pid)
    requires TablesOk(w.db) && TablesOk(w'.db) && Evolves(w.db, w'.db, Holds(w.procs[pid]))
    requires Reveals(w.db, w'.db, IdsOf(w.procs[pid]))
    ensures ProcsOk(cfg, w')
  {
    hide TablesOk, Evolves, Absorbed, Holds, ProcOk, LocksExclude, IdsOk, Reveals, IdsOf;
    forall q | q in w'.procs ensures ProcOk(cfg, w', w'.procs[q]) {
      if q != pid {
        StaysThroughCommit(cfg, w, w', pid, q);
      } else {
        DeletingOk(cfg, w', w'.procs[pid]);
      }
    }
  }

  lemma DeletingOk(cfg: Config, w: World, p: Proc)
    requires p.Deleting? && p.handle in w.sent && Absorbed(w.db, w.sent[p.handle])
    ensures ProcOk(cfg, w, p)
  {}

  lemma StaysThroughCommit(cfg: Config, w: World, w': World, pid: Pid, q: Pid)
    requires LocksExclude(w.procs) && IdsOk(w) && Committed(w, w', pid)
    requires q != pid && q in w'.procs && ProcOk(cfg, w, w.procs[q])
    requires TablesOk(w.db) && TablesOk(w'.db) && Evolves(w.db, w'.db, Holds(w.procs[pid]))
    requires Reveals(w.db, w'.db, IdsOf(w.procs[pid]))
    ensures ProcOk(cfg, w', w'.procs[q])
  {
    hide TablesOk, Evolves, Absorbed, Holds, ProcOk;
    assert Holds(w.procs[q]) !! Holds(w.procs[pid]);
    if w.procs[q].OpeningWallet? {
      var id := w.procs[q].wallet.id;
      assert id in IdsOf(w.procs[q]);
      assert IdsOf(w.procs[q]) !! IdsOf(w.procs[pid]);
      assert Unknown(w.db, id);
    }
    ProcStays(cfg, w, w', Holds(w.procs[pid]), w.procs[q]);
  }

  lemma LocksAfterCommit(w: World, w': World, pid: Pid)
    requires LocksExclude(w.procs) && Committed(w, w', pid)
    ensures LocksExclude(w'.procs)
  {
    hide Absorbed;
    forall p, q | p in w'.procs && q in w'.procs && p != q ensures Holds(w'.procs[p]) !! Holds(w'.procs[q]) {
      if p != pid && q != pid {
        assert Holds(w.procs[p]) !! Holds(w.procs[q]);
      }
    }
  }

  lemma MailAfterCommit(w: World, w': World, pid: Pid, held: set<Resource>)
    requires MailOk(w) && Committed(w, w', pid) && Evolves(w.db, w'.db, held)
    ensures MailOk(w')
  {
    hide WalletsEvolve, RowsEvolve;
    forall h | h in w'.sent ensures h in w'.queue || h in w'.dlq || Absorbed(w'.db, w'.sent[h]) {
      assert Absorbed(w.db, w.sent[h]) ==> Absorbed(w'.db, w.sent[h]);
    }
  }

  lemma CommitKeeps(cfg: Config, w: World, w': World, pid: Pid)
    requires Inv(cfg, w) && Committed(w, w', pid)
    requires DbInv(w'.db) && Evolves(w.db, w'.db, Holds(w.procs[pid])) && SeqsOk(w')
    requires Reveals(w.db, w'.db, IdsOf(w.procs[pid]))
    requires RepliesOk(w')
    ensures Inv(cfg, w')
  {
    hide ProcsOk, LocksExclude, IdsOk, MailOk, RepliesOk, SeqsOk, TablesOk, LedgerOk, NothingWithoutWallet, EventsOk,
      InboxOk, Evolves, Holds, IdsOf, Reveals, Absorbed;
    ProcsAfterCommit(cfg, w, w', pid);
    LocksAfterCommit(w, w', pid);
    IdsAfterCommit(w, w', pid);
    MailAfterCommit(w, w', pid, Holds(w.procs[pid]));
  }

  lemma IdsAfterCommit(w: World, w': World, pid: Pid)
    requires IdsOk(w) && Committed(w, w', pid) && Reveals(w.db, w'.db, IdsOf(w.procs[pid]))
    ensures IdsOk(w')
  {
    hide Absorbed, Unknown;
    forall p | p in w'.procs ensures DrawnUnknown(w', w'.procs[p]) {
      if p != pid {
        assert DrawnUnknown(w, w.procs[p]);
        assert IdsOf(w.procs[p]) !! IdsOf(w.procs[pid]);
      }
    }
    assert DrawnUnknown(w, w.procs[pid]);
    forall p, q | p in w'.procs && q in w'.procs && p != q ensures IdsOf(w'.procs[p]) !! IdsOf(w'.procs[q]) {
      if p != pid && q != pid {
        assert IdsOf(w.procs[p]) !! IdsOf(w.procs[q]);
      }
    }
  }

  // ---- the commit of an operation ----

  lemma InboxKept(db: DB, key: InboxKey, hash: string)
    requires DbInv(db) && Answered(db.txs, hash)
    ensures DbInv(db.(inbox := db.inbox[key := hash]))
  {
    var db' := db.(inbox := db.inbox[key := hash]);
    assert TablesOk(db');
    assert LedgerOk(db') && EventsOk(db') && NothingWithoutWallet(db');
  }

  lemma AfterEvolves(db: DB, base: WalletState, tx: Snapshot, out: Outcome, ids: Ids, isNew: bool, seqNo: SeqNo,
                     held: set<Resource>)
    requires Decided(db, base, tx, out, isNew) && MovesFrom(base, out)
    requires WalletRow(base.id) in held
    requires if isNew then KeyEntry(out.tx.req.providerId, out.tx.key) in held
                           && ExternalIdEntry(out.tx.req.providerId, out.tx.req.externalId) in held
             else PendingRow(out.tx.id) in held
    ensures Evolves(db, After(db, out, ids, seqNo), held)
  {
    var db' := After(db, out, ids, seqNo);
    forall id | id in db.wallets && WalletRow(id) !in held ensures OfWallet(db'.ledger, id) == OfWallet(db.ledger, id) {
      OfWalletAppend(db.ledger, out, seqNo, id);
    }
  }

  lemma AfterReveals(db: DB, base: WalletState, tx: Snapshot, out: Outcome, ids: Ids, isNew: bool, seqNo: SeqNo)
    requires Decided(db, base, tx, out, isNew) && MovesFrom(base, out)
    requires isNew ==> out.tx.id == ids.tx
    requires out.entry.Some? ==> out.entry.value.id == ids.entry
    ensures Reveals(db, After(db, out, ids, seqNo), IdSet(ids))
  {
    var db' := After(db, out, ids, seqNo);
    forall id | Unknown(db, id) && id !in IdSet(ids) ensures Unknown(db', id) {
      forall k | 0 <= k < |db'.ledger| ensures db'.ledger[k].entry.id != id {
        if k < |db.ledger| {
          assert db'.ledger[k] == db.ledger[k];
        }
      }
      forall k | 0 <= k < |db'.outbox| ensures db'.outbox[k].id != id {
        if k < |db.outbox| {
          assert db'.outbox[k] == db.outbox[k];
        }
      }
    }
  }

  lemma AfterSeqs(w: World, out: Outcome, ids: Ids, seqNo: SeqNo)
    requires SeqsOk(w) && (out.entry.Some? ==> seqNo < w.nextSeq)
    ensures forall k :: 0 <= k < |After(w.db, out, ids, seqNo).ledger| ==> After(w.db, out, ids, seqNo).ledger[k].seqNo < w.nextSeq
  {}

  lemma WriterIsReadyNow(w: World, p: Proc)
    requires SeqsOk(w) && WriterOk(w, p) && p.at == |BodyStatements(p.body, p.out)|
    ensures Ready(w.db, p.body.base, p.body.tx, p.ref, p.reversed, p.out, p.body.ids, p.body.ctx.Some?, p.seqNo)
    ensures p.out.entry.Some? ==> p.seqNo < w.nextSeq
    ensures MovesFrom(p.body.base, p.out)
    ensures p.body.ctx.Some? ==> p.out.tx.id == p.body.ids.tx
    ensures p.out.entry.Some? ==> p.out.entry.value.id == p.body.ids.entry
  {
    LedgerStatement(p.out, p.body.ctx.Some?, p.body.ids);
    WriterIsReady(w.db, w.sent, p.body, p.ref, p.reversed, p.out, p.seqNo);
  }

  /** Everything the commit of a decided operation does to the tables. */
  lemma ReadyCommits(db: DB, base: WalletState, tx: Snapshot, ref: Option<Snapshot>, reversed: bool, out: Outcome,
                     ids: Ids, isNew: bool, seqNo: SeqNo)
    requires DbInv(db) && Ready(db, base, tx, ref, reversed, out, ids, isNew, seqNo)
    ensures ApplyAll(db, BodyWrites(out, isNew, ids), seqNo) == After(db, out, ids, seqNo)
    ensures DbInv(After(db, out, ids, seqNo))
    ensures Decided(db, base, tx, out, isNew)
  {
    hide Ready, LedgerOk, NothingWithoutWallet, EventsOk, InboxOk, TxsOk, WalletsOk, OwnersUnique, KeysUnique,
      ExternalIdsUnique, OpeningsUnique, ReferencesOk, ReversalsUnique, Decided, Writable, ReplacesRow, BodyWrites,
      ApplyAll, After, RowOk;
    ReadyIsDecided(db, base, tx, ref, reversed, out, ids, isNew, seqNo);
    ReadyIsWritable(db, base, tx, ref, reversed, out, ids, isNew, seqNo);
    BodyAmountsTo(db, base, out, ids, isNew, seqNo);
    CommitKeepsInvariant(db, base, tx, ref, reversed, out, ids, isNew, seqNo);
  }

  /** What the commit of a writing process does to the tables, before the inbox row. */
  lemma WriterCommits(w: World, p: Proc)
    requires DbInv(w.db) && SeqsOk(w) && WriterOk(w, p)
    requires p.at == |BodyStatements(p.body, p.out)|
    ensures var db' := ApplyAll(w.db, BodyStatements(p.body, p.out), p.seqNo);
            && db' == After(w.db, p.out, p.body.ids, p.seqNo)
            && DbInv(db')
            && Evolves(w.db, db', Holds(p))
            && Reveals(w.db, db', IdSet(p.body.ids))
            && forall k :: 0 <= k < |db'.ledger| ==> db'.ledger[k].seqNo < w.nextSeq
  {
    hide DbInv, Ready, MovesFrom, Decided, After, Evolves, Reveals, SoundOutcome, ReferenceHeld, Unknown, ApplyAll,
      ProgressOk;
    var Writing(b, ref, reversed, out, at, seqNo) := p;
    var isNew := b.ctx.Some?;
    WriterIsReadyNow(w, p);
    ReadyCommits(w.db, b.base, b.tx, ref, reversed, out, b.ids, isNew, seqNo);
    WriterHolds(w, p);
    AfterEvolves(w.db, b.base, b.tx, out, b.ids, isNew, seqNo, Holds(p));
    AfterReveals(w.db, b.base, b.tx, out, b.ids, isNew, seqNo);
    AfterSeqs(w, out, b.ids, seqNo);
  }

  /** The locks that cover the commit. */
  lemma WriterHolds(w: World, p: Proc)
    requires WriterOk(w, p) && p.at == |BodyStatements(p.body, p.out)|
    ensures WalletRow(p.body.base.id) in Holds(p)
    ensures if p.body.ctx.Some? then KeyEntry(p.out.tx.req.providerId, p.out.tx.key) in Holds(p)
                                     && ExternalIdEntry(p.out.tx.req.providerId, p.out.tx.req.externalId) in Holds(p)
            else PendingRow(p.out.tx.id) in Holds(p)
  {}

  /** The inbox row of a consumer is covered by its inbox entry. */
  lemma InboxEvolves(db: DB, db': DB, held: set<Resource>, sent: map<Handle, Message>, ctx: Ctx)
    requires Evolves(db, db', held) && CtxOk(db, sent, ctx) && HeldByCtx(ctx) <= held
    requires db'.inbox == db.inbox
    ensures Evolves(db, WithInbox(db', ctx), held)
    ensures ctx.source.Queue? ==> ctx.source.handle in sent && Absorbed(WithInbox(db', ctx), sent[ctx.source.handle])
  {
    if ctx.inbox.Some? {
      assert InboxEntry(ctx.inbox.value) in HeldByCtx(ctx);
    }
  }

  lemma RepliesStay(db: DB, db': DB, held: set<Resource>, replies: seq<Reply>, cmd: Command, source: Source,
                    tx: Snapshot, replay: bool)
    requires RowsEvolve(db, db', held)
    requires forall i :: 0 <= i < |replies| && replies[i].result.Ok? ==> ReplayOk(db.txs, replies[i].cmd, replies[i].result.value)
    requires ReplayOk(db'.txs, cmd, tx)
    ensures var more := replies + [Reply(source, cmd, Ok(tx), replay)];
            forall i :: 0 <= i < |more| && more[i].result.Ok? ==> ReplayOk(db'.txs, more[i].cmd, more[i].result.value)
  {
    forall i | 0 <= i < |replies| && replies[i].result.Ok? ensures ReplayOk(db'.txs, replies[i].cmd, replies[i].result.value) {
      ReplayStays(db, db', held, replies[i].cmd, replies[i].result.value);
    }
  }

  lemma OldRepliesStay(db: DB, db': DB, held: set<Resource>, replies: seq<Reply>)
    requires RowsEvolve(db, db', held)
    requires forall i :: 0 <= i < |replies| && replies[i].result.Ok? ==> ReplayOk(db.txs, replies[i].cmd, replies[i].result.value)
    ensures forall i :: 0 <= i < |replies| && replies[i].result.Ok? ==> ReplayOk(db'.txs, replies[i].cmd, replies[i].result.value)
  {
    forall i | 0 <= i < |replies| && replies[i].result.Ok? ensures ReplayOk(db'.txs, replies[i].cmd, replies[i].result.value) {
      ReplayStays(db, db', held, replies[i].cmd, replies[i].result.value);
    }
  }

  lemma AnswersItself(txs: map<Uuid, TxRow>, ctx: Ctx, tx: Snapshot)
    requires ReplayOk(txs, ctx.cmd, tx)
    ensures Answered(txs, InboxHashOf(ctx))
  {
    assert txs[tx.id].hash + "|" + txs[tx.id].key == InboxHashOf(ctx);
  }

  ghost predicate SeqsBelow(db: DB, bound: nat) {
    forall k :: 0 <= k < |db.ledger| ==> db.ledger[k].seqNo < bound
  }

  /** The tables a process commits, before the inbox row. */
  ghost predicate CommitOk(w: World, pid: Pid, db': DB) {
    && pid in w.procs && DbInv(db') && SeqsBelow(db', w.nextSeq) && db'.inbox == w.db.inbox
    && Evolves(w.db, db', Holds(w.procs[pid])) && Reveals(w.db, db', IdsOf(w.procs[pid]))
  }

  lemma WithInboxKeeps(db: DB, ctx: Ctx, tx: Snapshot)
    requires DbInv(db) && ReplayOk(db.txs, ctx.cmd, tx)
    ensures DbInv(WithInbox(db, ctx))
  {
    hide DbInv, ReplayOk, Answered;
    AnswersItself(db.txs, ctx, tx);
    if ctx.inbox.Some? {
      InboxKept(db, ctx.inbox.value, InboxHashOf(ctx));
    }
  }

  /** A commit of ProcessIn, with the inbox row of a consumer. */
  lemma CtxCommitKeeps(cfg: Config, w: World, pid: Pid, ctx: Ctx, db': DB, tx: Snapshot, replay: bool)
    requires Inv(cfg, w) && CommitOk(w, pid, db')
    requires CtxOk(w.db, w.sent, ctx) && HeldByCtx(ctx) <= Holds(w.procs[pid])
    requires ReplayOk(db'.txs, ctx.cmd, tx)
    ensures Inv(cfg, Succeed(w.(db := WithInbox(db', ctx)), pid, ctx, tx, replay))
  {
    hide DbInv, ProcsOk, LocksExclude, IdsOk, MailOk, Evolves, Holds, IdsOf, Unknown, ReplayOk, CtxOk, HeldByCtx,
      Absorbed;
    var w' := Succeed(w.(db := WithInbox(db', ctx)), pid, ctx, tx, replay);
    WithInboxKeeps(db', ctx, tx);
    InboxEvolves(w.db, db', Holds(w.procs[pid]), w.sent, ctx);
    EvolvesRows(w.db, db', Holds(w.procs[pid]));
    RepliesStay(w.db, db', Holds(w.procs[pid]), w.replies, ctx.cmd, ctx.source, tx, replay);
    assert Reveals(w.db, w'.db, IdsOf(w.procs[pid])) by {
      SameUnknown(db', w'.db);
    }
    CommitKeeps(cfg, w, w', pid);
  }

  lemma EvolvesRows(db: DB, db': DB, held: set<Resource>)
    requires Evolves(db, db', held)
    ensures RowsEvolve(db, db', held)
  {}

  lemma SameUnknown(db: DB, db': DB)
    requires db' == db.(inbox := db'.inbox)
    ensures forall id :: Unknown(db, id) == Unknown(db', id)
  {}

  /** A commit that answers nobody: the pending worker's, or an opening. */
  lemma PlainCommitKeeps(cfg: Config, w: World, pid: Pid, db': DB)
    requires Inv(cfg, w) && CommitOk(w, pid, db')
    ensures Inv(cfg, Finished(w.(db := db'), pid))
  {
    hide DbInv, ProcsOk, LocksExclude, IdsOk, MailOk, Evolves, Holds, IdsOf, Unknown, ReplayOk, Reveals, Absorbed;
    EvolvesRows(w.db, db', Holds(w.procs[pid]));
    OldRepliesStay(w.db, db', Holds(w.procs[pid]), w.replies);
    CommitKeeps(cfg, w, Finished(w.(db := db'), pid), pid);
  }

  lemma WriterCommitOk(w: World, pid: Pid)
    requires pid in w.procs && w.procs[pid].Writing? && WriterOk(w, w.procs[pid]) && DbInv(w.db) && SeqsOk(w)
    requires w.procs[pid].at == |BodyStatements(w.procs[pid].body, w.procs[pid].out)|
    ensures CommitOk(w, pid, ApplyAll(w.db, BodyStatements(w.procs[pid].body, w.procs[pid].out), w.procs[pid].seqNo))
  {
    hide WriterOk, DbInv, Evolves, Reveals, ApplyAll, BodyStatements;
    var p := w.procs[pid];
    WriterCommits(w, p);
    var db' := ApplyAll(w.db, BodyStatements(p.body, p.out), p.seqNo);
    assert db'.inbox == w.db.inbox;
    assert SeqsBelow(db', w.nextSeq);
    assert IdsOf(p) == IdSet(p.body.ids);
  }

  /** A decided transaction answers the command that brought it. */
  lemma WriterAnswers(w: World, p: Proc)
    requires WriterOk(w, p) && p.body.ctx.Some?
    ensures ReplayOk(After(w.db, p.out, p.body.ids, p.seqNo).txs, p.body.ctx.value.cmd, p.out.tx)
    ensures CtxOk(w.db, w.sent, p.body.ctx.value) && HeldByCtx(p.body.ctx.value) <= Holds(p)
  {
    OutIdentity(w, p);
    assert ToRow(p.out.tx).origin.External?;
  }

  /** Commit of ProcessIn or of the pending worker's claim. */
  lemma BodyCommitKeeps(cfg: Config, w: World, pid: Pid)
    requires Inv(cfg, w) && pid in w.procs && w.procs[pid].Writing?
    requires w.procs[pid].at == |BodyStatements(w.procs[pid].body, w.procs[pid].out)|
    ensures Inv(cfg, StepWrite(w, pid, w.procs[pid]))
  {
    hide WriterOk, Evolves, Reveals, ApplyAll, BodyStatements, SeqsOk, ReplayOk, CtxOk, HeldByCtx, Holds, IdsOk,
      MailOk, RepliesOk, LocksExclude, ProcOk, WalletsOk, TxsOk, LedgerOk, EventsOk, InboxOk, NothingWithoutWallet,
      OwnersUnique, KeysUnique, ExternalIdsUnique, OpeningsUnique, ReferencesOk, ReversalsUnique, CommitOk;
    WriterFacts(cfg, w, pid);
    WriterCommitOk(w, pid);
    var p := w.procs[pid];
    var db' := ApplyAll(w.db, BodyStatements(p.body, p.out), p.seqNo);
    if p.body.ctx.Some? {
      WriterCommits(w, p);
      WriterAnswers(w, p);
      CtxCommitKeeps(cfg, w, pid, p.body.ctx.value, db', p.out.tx, false);
    } else {
      PlainCommitKeeps(cfg, w, pid, db');
    }
  }

  lemma ReplayFacts(cfg: Config, w: World, pid: Pid, ctx: Ctx, tx: Snapshot)
    requires DbInv(w.db) && SeqsOk(w) && pid in w.procs && w.procs[pid] == Replaying(ctx, tx) && ProcOk(cfg, w, w.procs[pid])
    ensures CommitOk(w, pid, w.db) && CtxOk(w.db, w.sent, ctx) && HeldByCtx(ctx) <= Holds(w.procs[pid]) && ReplayOk(w.db.txs, ctx.cmd, tx)
  {
    hide DbInv, CtxOk, ReplayOk;
  }

  /** Commit of a replay: nothing but the inbox row. */
  lemma ReplayCommitKeeps(cfg: Config, w: World, pid: Pid, ctx: Ctx, tx: Snapshot)
    requires Inv(cfg, w) && pid in w.procs && w.procs[pid] == Replaying(ctx, tx)
    ensures Inv(cfg, Succeed(w.(db := WithInbox(w.db, ctx)), pid, ctx, tx, true))
  {
    hide DbInv, SeqsOk, IdsOk, MailOk, RepliesOk, LocksExclude, CommitOk, CtxOk, ReplayOk, ProcOk, HeldByCtx, Holds,
      Succeed, WithInbox;
    assert ProcOk(cfg, w, w.procs[pid]);
    ReplayFacts(cfg, w, pid, ctx, tx);
    CtxCommitKeeps(cfg, w, pid, ctx, w.db, tx, true);
  }

  // ---- the commit of an opening ----

  lemma OpeningEvolves(db: DB, w: WalletState, parts: Option<OpeningParts>, ids: Ids, correlationId: string,
                       seqNo: SeqNo, held: set<Resource>)
    requires OpenReady(db, w, parts, ids, correlationId) && OwnerEntry(w.playerId, w.currency) in held
    ensures Evolves(db, AfterOpening(db, w, parts, ids, seqNo), held)
    ensures Reveals(db, AfterOpening(db, w, parts, ids, seqNo), IdSet(ids) + {w.id})
  {
    var db' := AfterOpening(db, w, parts, ids, seqNo);
    forall id | id in db.wallets && WalletRow(id) !in held ensures OfWallet(db'.ledger, id) == OfWallet(db.ledger, id) {
      if parts.Some? {
        OfWalletAppend(db.ledger, Outcome(parts.value.tx, w, Some(parts.value.entry)), seqNo, id);
      } else {
        assert db'.ledger == db.ledger;
      }
    }
    forall id | Unknown(db, id) && id !in IdSet(ids) + {w.id} ensures Unknown(db', id) {
      forall k | 0 <= k < |db'.ledger| ensures db'.ledger[k].entry.id != id {
        if k < |db.ledger| {
          assert db'.ledger[k] == db.ledger[k];
        }
      }
      forall k | 0 <= k < |db'.outbox| ensures db'.outbox[k].id != id {
        if k < |db.outbox| {
          assert db'.outbox[k] == db.outbox[k];
        }
      }
    }
  }

  lemma OpeningCommitOk(w: World, pid: Pid)
    requires DbInv(w.db) && SeqsOk(w) && pid in w.procs && w.procs[pid].OpeningWallet?
    requires var OpeningWallet(wallet, parts, ids, correlationId, at, seqNo) := w.procs[pid];
             && OpenReady(w.db, wallet, parts, ids, correlationId)
             && OpenOk(w.db, w.nextSeq, wallet, parts, ids, correlationId, at, seqNo)
             && at == |OpenWrites(wallet, parts, ids)|
    ensures var OpeningWallet(wallet, parts, ids, correlationId, at, seqNo) := w.procs[pid];
            CommitOk(w, pid, ApplyAll(w.db, OpenWrites(wallet, parts, ids), seqNo))
  {
    hide DbInv, OpenReady, Evolves, Reveals, ApplyAll;
    var OpeningWallet(wallet, parts, ids, correlationId, at, seqNo) := w.procs[pid];
    OpeningAmountsTo(w.db, wallet, parts, ids, correlationId, seqNo);
    OpeningKeepsInvariant(w.db, wallet, parts, ids, correlationId, seqNo);
    OpeningEvolves(w.db, wallet, parts, ids, correlationId, seqNo, Holds(w.procs[pid]));
  }

  lemma OpenCommitKeeps(cfg: Config, w: World, pid: Pid)
    requires Inv(cfg, w) && pid in w.procs && w.procs[pid].OpeningWallet?
    requires w.procs[pid].at == |OpenWrites(w.procs[pid].wallet, w.procs[pid].parts, w.procs[pid].ids)|
    ensures Inv(cfg, StepOpen(w, pid, w.procs[pid]))
  {
    hide DbInv, SeqsOk, IdsOk, MailOk, RepliesOk, LocksExclude, CommitOk, OpenOk, OpenReady, OpenWrites, ApplyAll,
      Finished;
    assert ProcOk(cfg, w, w.procs[pid]);
    OpenFacts(cfg, w, pid);
    OpeningCommitOk(w, pid);
    var p := w.procs[pid];
    PlainCommitKeeps(cfg, w, pid, ApplyAll(w.db, OpenWrites(p.wallet, p.parts, p.ids), p.seqNo));
  }
}
