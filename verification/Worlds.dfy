/**
 The inductive invariant of the whole system and the facts a process has when it writes.
 */
module Worlds {
  import opened Basics
  import opened Wallets
  import opened Wagering
  import opened Rules
  import opened Database
  import opened Invariants
  import opened Commit
  import opened Statements
  import opened Engine
  import opened Processes

  // ---- identifiers ----

  function IdsOf(p: Proc): set<Uuid> {
    match p
    case ReadingReference(b) => IdSet(b.ids)
    case ReadingReversal(b, _) => IdSet(b.ids)
    case Writing(b, _, _, _, _, _) => IdSet(b.ids)
    case OpeningWallet(w, _, ids, _, _, _) => IdSet(ids) + {w.id}
    case _ => {}
  }

  ghost predicate Unknown(db: DB, id: Uuid) {
    && id !in db.txs && id !in db.wallets
    && (forall k :: 0 <= k < |db.ledger| ==> db.ledger[k].entry.id != id)
    && (forall k :: 0 <= k < |db.outbox| ==> db.outbox[k].id != id)
  }

  /** An identifier nobody drew is in no table. */
  ghost predicate UndrawnUnknown(w: World) {
    NIL in w.used && forall id :: id !in w.used ==> Unknown(w.db, id)
  }

  /** Drawn identifiers stay unknown to the tables until their process commits. */
  ghost predicate DrawnUnknown(w: World, p: Proc) {
    IdsOf(p) <= w.used && forall id :: id in IdsOf(p) ==> Unknown(w.db, id) && id != NIL
  }

  /** No identifier is drawn twice. */
  ghost predicate DrawnApart(procs: map<Pid, Proc>) {
    forall p, q :: p in procs && q in procs && p != q ==> IdsOf(procs[p]) !! IdsOf(procs[q])
  }

  ghost predicate IdsOk(w: World) {
    && UndrawnUnknown(w) && DrawnApart(w.procs)
    && forall p :: p in w.procs ==> DrawnUnknown(w, w.procs[p])
  }

  // ---- the invariant ----

  ghost predicate ProcsOk(cfg: Config, w: World) {
    forall p :: p in w.procs ==> ProcOk(cfg, w, w.procs[p])
  }

  /** Locks exclude: no two processes hold the same row or index entry. */
  ghost predicate LocksExclude(procs: map<Pid, Proc>) {
    forall p, q :: p in procs && q in procs && p != q ==> Holds(procs[p]) !! Holds(procs[q])
  }

  ghost predicate SeqsOk(w: World) {
    forall k :: 0 <= k < |w.db.ledger| ==> w.db.ledger[k].seqNo < w.nextSeq
  }

  /** No inbound message is lost. */
  ghost predicate MailOk(w: World) {
    && (forall h :: h in w.sent ==> h in w.queue || h in w.dlq || Absorbed(w.db, w.sent[h]))
    && (forall h :: h in w.queue ==> h in w.sent)
  }

  /** Every transaction ever returned to a caller is committed under the caller's key and payload. */
  ghost predicate RepliesOk(w: World) {
    forall i :: 0 <= i < |w.replies| && w.replies[i].result.Ok? ==>
                  ReplayOk(w.db.txs, w.replies[i].cmd, w.replies[i].result.value)
  }

  ghost predicate Inv(cfg: Config, w: World) {
    && DbInv(w.db) && SeqsOk(w)
    && ProcsOk(cfg, w) && LocksExclude(w.procs) && IdsOk(w)
    && MailOk(w) && RepliesOk(w)
  }

  lemma StartIsOk(cfg: Config)
    ensures Inv(cfg, START)
  {
    EmptyDatabaseIsOk();
  }

  // ---- what a writing process may rely on ----

  lemma {:induction false} OfWalletBelow(ledger: seq<LedgerRecord>, id: Uuid, bound: SeqNo)
    requires forall k :: 0 <= k < |ledger| ==> ledger[k].seqNo < bound
    ensures SeqAbove(OfWallet(ledger, id), bound)
  {
    if ledger != [] {
      OfWalletBelow(ledger[..|ledger| - 1], id, bound);
    }
  }

  /** What was read as the reference is a usable transaction. */
  lemma SeenReferenceOk(txs: map<Uuid, TxRow>, wallets: map<Uuid, WalletState>, b: Body, ref: Option<Snapshot>)
    requires TxsOk(txs, wallets) && ReferenceSeen(txs, b, ref)
    ensures ref.Some? ==> ref.value.id != NIL
    ensures ref.Some? && ref.value.status.Processed? ==>
              ref.value.id in txs && txs[ref.value.id] == ToRow(ref.value) && ref.value.req.money.valid
              && HasExternalId(txs[ref.value.id], b.tx.req.providerId, b.tx.req.reference)
  {
    var p, e := b.tx.req.providerId, b.tx.req.reference;
    if ReferenceOf(txs, b.tx).Some? {
      var found := FindByExternalId(txs, p, e);
      var id :| id in txs && txs[id] == found.value && HasExternalId(txs[id], p, e);
      assert RowOk(id, txs[id]);
    }
    if ref.Some? && ref.value.status.Processed? {
      SeenIsRow(txs, wallets, b, ref.value);
    }
  }

  lemma OutcomeSound(cfg: Config, db: DB, sent: map<Handle, Message>, b: Body, ref: Option<Snapshot>, reversed: bool,
                     out: Outcome)
    requires WalletsOk(db.wallets) && TxsOk(db.txs, db.wallets)
    requires BodyOk(db, sent, b) && DecidedOk(cfg, db, b, ref, reversed, out)
    ensures SoundOutcome(b.tx, b.base, ref, reversed, b.ids.entry, out)
    ensures ref.Some? && ref.value.status.Processed? ==>
              ref.value.id in db.txs && db.txs[ref.value.id] == ToRow(ref.value) && ref.value.req.money.valid
              && HasExternalId(db.txs[ref.value.id], b.tx.req.providerId, b.tx.req.reference)
  {
    if ReadsReference(b.tx, b.base) {
      SeenReferenceOk(db.txs, db.wallets, b, ref);
    }
    DecideIsSound(b.tx, b.base, ref, reversed, b.ids.entry, b.now, cfg);
  }

  lemma HeldReference(cfg: Config, db: DB, sent: map<Handle, Message>, b: Body, ref: Option<Snapshot>,
                      reversed: bool, out: Outcome)
    requires WalletsOk(db.wallets) && TxsOk(db.txs, db.wallets)
    requires BodyOk(db, sent, b) && DecidedOk(cfg, db, b, ref, reversed, out)
    ensures ReferenceHeld(db.txs, b.tx, b.base, ref, out)
  {
    OutcomeSound(cfg, db, sent, b, ref, reversed, out);
    if out.tx.status.Processed? && b.tx.req.kind.IsReversal() && ReadsReference(b.tx, b.base) {
      assert ReadsReversal(b.tx, ref);
    }
  }

  /** With its locks and index entries, a process that has only unrefusable statements left is ready to commit. */
  lemma WriterIsReady(db: DB, sent: map<Handle, Message>, b: Body, ref: Option<Snapshot>, reversed: bool,
                      out: Outcome, seqNo: SeqNo)
    requires BodyOk(db, sent, b)
    requires SoundOutcome(b.tx, b.base, ref, reversed, b.ids.entry, out) && ReferenceHeld(db.txs, b.tx, b.base, ref, out)
    requires b.ctx.Some? ==> !KeyTaken(db.txs, out.tx.req.providerId, out.tx.key)
                             && !ExternalIdTaken(db.txs, out.tx.req.providerId, out.tx.req.externalId)
    requires forall id :: id in IdSet(b.ids) ==> Unknown(db, id)
    requires out.entry.Some? ==> SeqAbove(OfWallet(db.ledger, b.base.id), seqNo)
    ensures Ready(db, b.base, b.tx, ref, reversed, out, b.ids, b.ctx.Some?, seqNo)
  {
    assert b.ids.tx in IdSet(b.ids) && b.ids.entry in IdSet(b.ids) && b.ids.change in IdSet(b.ids) && b.ids.final in IdSet(b.ids);
    assert IdsUnused(db, b.ids);
    if b.ctx.Some? {
      assert b.tx.id == b.ids.tx;
    }
  }

  /** The sequence number only matters once the ledger row is written. */
  lemma {:induction false} SeqNoIsLate(db: DB, ws: seq<Write>, s: SeqNo, t: SeqNo)
    requires forall i :: 0 <= i < |ws| ==> !ws[i].AppendLedger?
    ensures ApplyAll(db, ws, s) == ApplyAll(db, ws, t)
  {
    if ws != [] {
      SeqNoIsLate(db, ws[..|ws| - 1], s, t);
    }
  }

  /** Where the ledger row is written, if at all. */
  lemma LedgerStatement(out: Outcome, isNew: bool, ids: Ids)
    requires out.entry.Some? ==> out.tx.status.Processed?
    ensures var ws, n := BodyWrites(out, isNew, ids), |TxWrites(out, isNew)|;
            && n == (if isNew then 3 else 1)
            && (out.entry.Some? ==> n < |ws| && ws[n] == AppendLedger(out.entry.value))
            && forall i :: 0 <= i < |ws| && (i != n || out.entry.None?) ==> !ws[i].AppendLedger?
  {}

  /** A process in the middle of its statements is ready, for the sequence number its ledger row has or will have. */
  lemma WriterWillBeReady(db: DB, sent: map<Handle, Message>, nextSeq: SeqNo, b: Body, ref: Option<Snapshot>,
                          reversed: bool, out: Outcome, at: nat, seqNo: SeqNo) returns (s: SeqNo)
    requires BodyOk(db, sent, b) && ProgressOk(db, nextSeq, b, out, at, seqNo)
    requires SoundOutcome(b.tx, b.base, ref, reversed, b.ids.entry, out) && ReferenceHeld(db.txs, b.tx, b.base, ref, out)
    requires b.ctx.Some? ==> at >= 2
    requires forall id :: id in IdSet(b.ids) ==> Unknown(db, id)
    requires forall k :: 0 <= k < |db.ledger| ==> db.ledger[k].seqNo < nextSeq
    ensures Ready(db, b.base, b.tx, ref, reversed, out, b.ids, b.ctx.Some?, s)
    ensures ApplyAll(db, BodyStatements(b, out)[..at], seqNo) == ApplyAll(db, BodyStatements(b, out)[..at], s)
    ensures at == |BodyStatements(b, out)| && out.entry.Some? ==> s == seqNo
  {
    var n := |TxWritesOf(b, out)|;
    LedgerStatement(out, b.ctx.Some?, b.ids);
    var ws := BodyStatements(b, out);
    s := if out.entry.Some? && at > n then seqNo else nextSeq;
    if out.entry.None? || at <= n {
      SeqNoIsLate(db, ws[..at], seqNo, s);
      OfWalletBelow(db.ledger, b.base.id, nextSeq);
    }
    WriterIsReady(db, sent, b, ref, reversed, out, s);
  }

  /** What a writing process knows, without the rules that led to it. */
  ghost predicate WriterOk(w: World, p: Proc) {
    && p.Writing?
    && BodyOk(w.db, w.sent, p.body) && ProgressOk(w.db, w.nextSeq, p.body, p.out, p.at, p.seqNo)
    && SoundOutcome(p.body.tx, p.body.base, p.ref, p.reversed, p.body.ids.entry, p.out)
    && ReferenceHeld(w.db.txs, p.body.tx, p.body.base, p.ref, p.out)
    && (forall id :: id in IdSet(p.body.ids) ==> Unknown(w.db, id))
  }

  lemma WriterFacts(cfg: Config, w: World, pid: Pid)
    requires WalletsOk(w.db.wallets) && TxsOk(w.db.txs, w.db.wallets) && IdsOk(w)
    requires pid in w.procs && w.procs[pid].Writing? && ProcOk(cfg, w, w.procs[pid])
    ensures WriterOk(w, w.procs[pid])
  {
    var Writing(b, ref, reversed, out, at, seqNo) := w.procs[pid];
    OutcomeSound(cfg, w.db, w.sent, b, ref, reversed, out);
    HeldReference(cfg, w.db, w.sent, b, ref, reversed, out);
    assert IdsOf(w.procs[pid]) == IdSet(b.ids);
  }

  lemma WriterSucceeds(w: World, p: Proc)
    requires TablesOk(w.db) && EntriesOk(w.db.txs, w.db.ledger) && SeqsOk(w) && WriterOk(w, p)
    requires p.at < |BodyStatements(p.body, p.out)| && (p.body.ctx.Some? ==> p.at >= 2)
    ensures Violation(View(w.db, BodyStatements(p.body, p.out), p.at, p.seqNo), BodyStatements(p.body, p.out)[p.at]) == None
  {
    var Writing(b, ref, reversed, out, at, seqNo) := p;
    var s := WriterWillBeReady(w.db, w.sent, w.nextSeq, b, ref, reversed, out, at, seqNo);
    BodyNeverFails(w.db, b.base, b.tx, ref, reversed, out, b.ids, b.ctx.Some?, s, at);
  }

  /**
   The heart of the write path. Once its index entries are taken, no statement of an operation can be
   refused: not the version check of the wallet update, no CHECK, no trigger, no other unique index.
   */
  lemma WriterNeverFails(cfg: Config, w: World, pid: Pid)
    requires Inv(cfg, w) && pid in w.procs && w.procs[pid].Writing?
    requires var p := w.procs[pid];
             p.at < |BodyStatements(p.body, p.out)| && (p.body.ctx.Some? ==> p.at >= 2)
    ensures var p := w.procs[pid];
            Violation(View(w.db, BodyStatements(p.body, p.out), p.at, p.seqNo), BodyStatements(p.body, p.out)[p.at]) == None
  {
    WriterFacts(cfg, w, pid);
    WriterSucceeds(w, w.procs[pid]);
  }
}
