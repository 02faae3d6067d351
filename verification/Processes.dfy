/**
 What each process knows at each of its statements, and why the commits of the others cannot
 change it: every fact a process relies on is protected by a lock it holds.
 */
module Processes {
  import opened Basics
  import opened Wallets
  import opened Wagering
  import opened Rules
  import opened Database
  import opened UseCases
  import opened Invariants
  import opened Commit
  import opened Opening
  import opened Engine
  import PayloadHash

  // ---- the facts ----

  /** The inbox row of a handled message is committed with the message's own hash. */
  ghost predicate Absorbed(db: DB, m: Message) {
    && m.Operation?
    && InboxKey(CONSUMER, m.messageId) in db.inbox
    && db.inbox[InboxKey(CONSUMER, m.messageId)] == PayloadHash.InboxPreimage(m.req, m.key)
  }

  ghost predicate SourceOk(sent: map<Handle, Message>, ctx: Ctx) {
    && ctx.cmd.key != ""
    && match ctx.source
       case Http(n) => (n == 1 || n == 2) && ctx.inbox.None?
       case Queue(h) => h in sent && sent[h] == Operation(ctx.cmd.correlationId, ctx.cmd.req, ctx.cmd.key)
  }

  /** A run of ProcessIn in progress: a consumer's holds an inbox entry nobody has committed. */
  ghost predicate CtxOk(db: DB, sent: map<Handle, Message>, ctx: Ctx) {
    && SourceOk(sent, ctx)
    && (ctx.source.Queue? ==> ctx.inbox == Some(InboxKeyOf(ctx)) && InboxKeyOf(ctx) !in db.inbox)
  }

  ghost predicate WalletHeld(db: DB, s: WalletState) {
    s.id in db.wallets && db.wallets[s.id] == s
  }

  ghost predicate LockedOk(db: DB, ctx: Ctx, locked: Option<WalletState>) {
    locked.Some? ==> WalletHeld(db, locked.value) && locked.value.id == ctx.cmd.req.walletId && ctx.source != Http(2)
  }

  /** The conflict that made the first attempt fail is committed. */
  ghost predicate Conflicting(txs: map<Uuid, TxRow>, cmd: Command) {
    KeyTaken(txs, cmd.req.providerId, cmd.key) || ExternalIdTaken(txs, cmd.req.providerId, cmd.req.externalId)
  }

  ghost predicate ClaimHeld(db: DB, tx: Snapshot) {
    && tx.id in db.txs && db.txs[tx.id] == ToRow(tx) && tx.req.money.valid && tx == FromRow(db.txs[tx.id])
    && tx.status.PendingReference?
  }

  /** An operation under the wallet lock: the wallet is as read, and so is a claimed row. */
  ghost predicate BodyOk(db: DB, sent: map<Handle, Message>, b: Body) {
    && WalletHeld(db, b.base) && b.tx.req.walletId == b.base.id
    && Undecided(b.tx)
    && b.ids.entry != NIL && b.ids.tx != NIL && b.ids.change != b.ids.final
    && (if b.ctx.Some? then
          var ctx := b.ctx.value;
          && CtxOk(db, sent, ctx) && ctx.source != Http(2)
          && NewExternal(b.ids.tx, ctx.cmd.req, ctx.cmd.key, PayloadHash.Preimage(ctx.cmd.req), ctx.cmd.correlationId) == Ok(b.tx)
        else ClaimHeld(db, b.tx))
  }

  /**
   What the operation read as its reference. A row of its own wallet is still what it was; a row of
   another wallet, over which it holds no lock, may have appeared or been decided since.
   */
  ghost predicate ReferenceSeen(txs: map<Uuid, TxRow>, b: Body, ref: Option<Snapshot>) {
    var now := ReferenceOf(txs, b.tx);
    || ref == now
    || (now.Some? && now.value.req.walletId != b.base.id
        && (ref.None? || (ref.value.status.PendingReference? && ref.value.req.walletId != b.base.id && ref.value.id != NIL)))
  }

  ghost predicate ReversalSeen(txs: map<Uuid, TxRow>, b: Body, ref: Option<Snapshot>, reversed: bool) {
    ReadsReversal(b.tx, ref) ==> reversed == HasProcessedReversal(txs, ref.value.id)
  }

  ghost predicate DecidedOk(cfg: Config, db: DB, b: Body, ref: Option<Snapshot>, reversed: bool, out: Outcome) {
    && Decide(b.tx, b.base, ref, reversed, b.ids.entry, b.now, cfg) == Ok(out)
    && (ReadsReference(b.tx, b.base) ==> ReferenceSeen(db.txs, b, ref) && ReversalSeen(db.txs, b, ref, reversed))
    && (!ReadsReference(b.tx, b.base) ==> ref.None? && !reversed)
  }

  /** Index entries and sequence number obtained by the statements done so far. */
  ghost predicate ProgressOk(db: DB, nextSeq: SeqNo, b: Body, out: Outcome, at: nat, seqNo: SeqNo) {
    && at <= |BodyStatements(b, out)|
    && (b.ctx.Some? && at >= 1 ==> !KeyTaken(db.txs, out.tx.req.providerId, out.tx.key))
    && (b.ctx.Some? && at >= 2 ==> !ExternalIdTaken(db.txs, out.tx.req.providerId, out.tx.req.externalId))
    && (out.entry.Some? && at > |TxWritesOf(b, out)| ==> seqNo < nextSeq && SeqAbove(OfWallet(db.ledger, b.base.id), seqNo))
  }

  function TxWritesOf(b: Body, out: Outcome): seq<Write> {
    TxWrites(out, b.ctx.Some?)
  }

  /** The transaction about to be replayed, possibly decided further since it was read. */
  ghost predicate ReplayOk(txs: map<Uuid, TxRow>, cmd: Command, tx: Snapshot) {
    && tx.id in txs
    && HasKey(txs[tx.id], cmd.req.providerId, cmd.key)
    && txs[tx.id].hash == PayloadHash.Preimage(cmd.req)
    && (tx.status.IsTerminal() ==> txs[tx.id] == ToRow(tx))
    && tx.key == cmd.key && tx.hash == PayloadHash.Preimage(cmd.req)
  }

  /** What reading a row back gives. */
  predicate AsStored(tx: Snapshot) {
    tx.req.money.valid && FromRow(ToRow(tx)) == tx
  }

  ghost predicate OpenOk(db: DB, nextSeq: SeqNo, w: WalletState, parts: Option<OpeningParts>, ids: Ids,
                         correlationId: string, at: nat, seqNo: SeqNo) {
    && ValidWallet(w) && w.version == 1 && w.id !in db.wallets
    && ids.entry != NIL && ids.tx != NIL && ids.change != ids.final
    && (if parts.Some? then OpeningFor(w, parts.value, ids, correlationId) else w.balance.IsZero())
    && at <= |OpenWrites(w, parts, ids)|
    && (at >= 1 ==> !OwnerTaken(db.wallets, w.playerId, w.currency))
    && (parts.Some? && at > 3 ==> seqNo < nextSeq)
  }

  ghost predicate ProcOk(cfg: Config, w: World, p: Proc) {
    match p
    case RecordingInbox(ctx) => SourceOk(w.sent, ctx) && ctx.source.Queue? && ctx.inbox.None?
    case LookingUpKey(ctx, locked) =>
      CtxOk(w.db, w.sent, ctx) && LockedOk(w.db, ctx, locked) && (ctx.source == Http(2) ==> Conflicting(w.db.txs, ctx.cmd))
    case LookingUpExternalId(ctx, locked) =>
      CtxOk(w.db, w.sent, ctx) && LockedOk(w.db, ctx, locked)
      && (ctx.source == Http(2) ==> ExternalIdTaken(w.db.txs, ctx.cmd.req.providerId, ctx.cmd.req.externalId))
    case LockingWallet(ctx) => CtxOk(w.db, w.sent, ctx) && ctx.source != Http(2)
    case Claiming => true
    case LockingForClaim(tx) => ClaimHeld(w.db, tx)
    case ReadingReference(b) => BodyOk(w.db, w.sent, b)
    case ReadingReversal(b, found) =>
      && BodyOk(w.db, w.sent, b) && ReadsReference(b.tx, b.base)
      && ReadsReversal(b.tx, Some(found)) && ReferenceSeen(w.db.txs, b, Some(found))
    case Writing(b, ref, reversed, out, at, seqNo) =>
      && BodyOk(w.db, w.sent, b) && DecidedOk(cfg, w.db, b, ref, reversed, out)
      && ProgressOk(w.db, w.nextSeq, b, out, at, seqNo)
    case OpeningWallet(wallet, parts, ids, correlationId, at, seqNo) =>
      OpenOk(w.db, w.nextSeq, wallet, parts, ids, correlationId, at, seqNo)
    case Replaying(ctx, tx) => CtxOk(w.db, w.sent, ctx) && ReplayOk(w.db.txs, ctx.cmd, tx) && AsStored(tx)
    case Deleting(h) => h in w.sent && (h in w.dlq || Absorbed(w.db, w.sent[h]))
    case DeadLettering(h) => h in w.sent
  }

  // ---- what a commit may change ----

  predicate SameRowIdentity(a: TxRow, b: TxRow) {
    a.id == b.id && a.origin == b.origin && a.req == b.req && a.key == b.key && a.hash == b.hash
  }

  ghost predicate WalletsEvolve(db: DB, db': DB, held: set<Resource>) {
    && (forall id :: id in db.wallets ==> id in db'.wallets && (WalletRow(id) !in held ==> db'.wallets[id] == db.wallets[id]))
    && (forall id :: id in db'.wallets && id !in db.wallets ==>
                       OwnerEntry(db'.wallets[id].playerId, db'.wallets[id].currency) in held)
    && (forall id :: id in db.wallets && id in db'.wallets ==>
                       db'.wallets[id].playerId == db.wallets[id].playerId && db'.wallets[id].currency == db.wallets[id].currency)
  }

  ghost predicate RowsEvolve(db: DB, db': DB, held: set<Resource>) {
    && (forall id :: id in db.txs ==> id in db'.txs && SameRowIdentity(db.txs[id], db'.txs[id])
                                      && (db'.txs[id] != db.txs[id] ==> db.txs[id].status.PendingReference? && PendingRow(id) in held))
    && (forall id :: id in db'.txs && id !in db.txs && db'.txs[id].origin.External? ==>
                       && KeyEntry(db'.txs[id].req.providerId, db'.txs[id].key) in held
                       && ExternalIdEntry(db'.txs[id].req.providerId, db'.txs[id].req.externalId) in held)
    && (forall id :: id in db'.txs && (id !in db.txs || db'.txs[id] != db.txs[id]) ==>
                       db'.txs[id].req.walletId !in db.wallets || WalletRow(db'.txs[id].req.walletId) in held)
  }

  /** A commit changes only what its locks cover. */
  ghost predicate Evolves(db: DB, db': DB, held: set<Resource>) {
    && WalletsEvolve(db, db', held)
    && RowsEvolve(db, db', held)
    && (forall id :: id in db.wallets && WalletRow(id) !in held ==> OfWallet(db'.ledger, id) == OfWallet(db.ledger, id))
    && (forall k :: k in db.inbox ==> k in db'.inbox && db'.inbox[k] == db.inbox[k])
    && (forall k :: k in db'.inbox && k !in db.inbox ==> InboxEntry(k) in held)
  }

  // ---- lookups after a commit ----

  lemma FoundByExternalId(txs: map<Uuid, TxRow>, id: Uuid, provider: string, externalId: string)
    requires ExternalIdsUnique(txs) && id in txs && HasExternalId(txs[id], provider, externalId)
    ensures FindByExternalId(txs, provider, externalId) == Some(txs[id])
  {
    var r := FindByExternalId(txs, provider, externalId);
    var other :| other in txs && txs[other] == r.value && HasExternalId(txs[other], provider, externalId);
    assert other == id;
  }

  lemma FoundByKey(txs: map<Uuid, TxRow>, id: Uuid, provider: string, key: string)
    requires KeysUnique(txs) && id in txs && HasKey(txs[id], provider, key)
    ensures FindByKey(txs, provider, key) == Some(txs[id])
  {
    var r := FindByKey(txs, provider, key);
    var other :| other in txs && txs[other] == r.value && HasKey(txs[other], provider, key);
    assert other == id;
  }

  lemma TakenStays(db: DB, db': DB, held: set<Resource>, provider: string, text: string)
    requires RowsEvolve(db, db', held)
    ensures KeyTaken(db.txs, provider, text) ==> KeyTaken(db'.txs, provider, text)
    ensures ExternalIdTaken(db.txs, provider, text) ==> ExternalIdTaken(db'.txs, provider, text)
    ensures !KeyTaken(db.txs, provider, text) && KeyEntry(provider, text) !in held ==> !KeyTaken(db'.txs, provider, text)
    ensures !ExternalIdTaken(db.txs, provider, text) && ExternalIdEntry(provider, text) !in held ==> !ExternalIdTaken(db'.txs, provider, text)
  {
    if KeyTaken(db.txs, provider, text) {
      var id :| id in db.txs && HasKey(db.txs[id], provider, text);
      assert HasKey(db'.txs[id], provider, text);
    }
    if ExternalIdTaken(db.txs, provider, text) {
      var id :| id in db.txs && HasExternalId(db.txs[id], provider, text);
      assert HasExternalId(db'.txs[id], provider, text);
    }
    if KeyTaken(db'.txs, provider, text) && !KeyTaken(db.txs, provider, text) {
      var id :| id in db'.txs && HasKey(db'.txs[id], provider, text);
      assert id in db.txs ==> HasKey(db.txs[id], provider, text);
    }
    if ExternalIdTaken(db'.txs, provider, text) && !ExternalIdTaken(db.txs, provider, text) {
      var id :| id in db'.txs && HasExternalId(db'.txs[id], provider, text);
      assert id in db.txs ==> HasExternalId(db.txs[id], provider, text);
    }
  }

  /** The row a reference lookup finds. */
  lemma ReferenceIs(txs: map<Uuid, TxRow>, wallets: map<Uuid, WalletState>, id: Uuid, tx: Snapshot)
    requires TxsOk(txs, wallets) && ExternalIdsUnique(txs)
    requires id in txs && HasExternalId(txs[id], tx.req.providerId, tx.req.reference)
    ensures txs[id].req.money.valid && ReferenceOf(txs, tx) == Some(FromRow(txs[id])) && txs[id].id != NIL
  {
    hide FindByExternalId, Coherent, TerminalShape, ValidRequest;
    assert RowOk(id, txs[id]);
    FoundByExternalId(txs, id, tx.req.providerId, tx.req.reference);
  }

  lemma NoReference(txs: map<Uuid, TxRow>, tx: Snapshot)
    requires !ExternalIdTaken(txs, tx.req.providerId, tx.req.reference)
    ensures ReferenceOf(txs, tx).None?
  {}

  lemma ReferenceStays(db: DB, db': DB, held: set<Resource>, b: Body, ref: Option<Snapshot>)
    requires RowsEvolve(db, db', held) && TxsOk(db.txs, db.wallets) && TxsOk(db'.txs, db'.wallets)
    requires ExternalIdsUnique(db.txs) && ExternalIdsUnique(db'.txs)
    requires b.base.id in db.wallets && WalletRow(b.base.id) !in held
    requires ReferenceSeen(db.txs, b, ref)
    ensures ReferenceSeen(db'.txs, b, ref)
  {
    hide TxsOk, ExternalIdsUnique, ReferenceOf;
    var p, e := b.tx.req.providerId, b.tx.req.reference;
    if ExternalIdTaken(db.txs, p, e) {
      var id :| id in db.txs && HasExternalId(db.txs[id], p, e);
      ReferenceIs(db.txs, db.wallets, id, b.tx);
      ReferenceIs(db'.txs, db'.wallets, id, b.tx);
    } else {
      NoReference(db.txs, b.tx);
      if ExternalIdTaken(db'.txs, p, e) {
        var id :| id in db'.txs && HasExternalId(db'.txs[id], p, e);
        ReferenceIs(db'.txs, db'.wallets, id, b.tx);
        assert id !in db.txs;
        assert db'.txs[id].req.walletId !in db.wallets || WalletRow(db'.txs[id].req.walletId) in held;
      } else {
        NoReference(db'.txs, b.tx);
      }
    }
  }

  /** A terminal reference of the own wallet that was seen is a row of the table, unchanged. */
  lemma SeenIsRow(txs: map<Uuid, TxRow>, wallets: map<Uuid, WalletState>, b: Body, ref: Snapshot)
    requires TxsOk(txs, wallets) && ReferenceSeen(txs, b, Some(ref))
    requires ref.status.IsTerminal()
    ensures ref.id in txs && txs[ref.id] == ToRow(ref) && HasExternalId(txs[ref.id], b.tx.req.providerId, b.tx.req.reference)
  {
    var p, e := b.tx.req.providerId, b.tx.req.reference;
    var found := FindByExternalId(txs, p, e);
    var id :| id in txs && txs[id] == found.value && HasExternalId(txs[id], p, e);
    assert RowOk(id, txs[id]);
  }

  /** Nobody else can commit a reversal of a reference in a wallet that is locked. */
  lemma ReversalStays(db: DB, db': DB, held: set<Resource>, reference: Uuid)
    requires RowsEvolve(db, db', held) && ReferencesOk(db.txs) && ReferencesOk(db'.txs)
    requires reference in db.txs && db.txs[reference].req.walletId in db.wallets
    requires WalletRow(db.txs[reference].req.walletId) !in held
    ensures HasProcessedReversal(db'.txs, reference) == HasProcessedReversal(db.txs, reference)
  {
    if HasProcessedReversal(db.txs, reference) {
      var id :| id in db.txs && IsProcessedReversalOf(db.txs[id], reference);
      assert IsProcessedReversalOf(db'.txs[id], reference);
    }
    if HasProcessedReversal(db'.txs, reference) {
      var id :| id in db'.txs && IsProcessedReversalOf(db'.txs[id], reference);
      assert ReferenceOk(db'.txs, db'.txs[id]);
      assert SoundRow(db'.txs[id], db'.txs[reference]);
      assert id in db.txs && db'.txs[id] == db.txs[id];
    }
  }

  // ---- every process keeps its facts ----

  lemma CtxStays(db: DB, db': DB, held: set<Resource>, sent: map<Handle, Message>, sent': map<Handle, Message>,
                 ctx: Ctx)
    requires Evolves(db, db', held) && HeldByCtx(ctx) !! held
    requires forall h :: h in sent ==> h in sent' && sent'[h] == sent[h]
    requires CtxOk(db, sent, ctx)
    ensures CtxOk(db', sent', ctx)
  {
    if ctx.inbox.Some? {
      assert InboxEntry(ctx.inbox.value) in HeldByCtx(ctx);
    }
  }

  lemma BodyStays(db: DB, db': DB, held: set<Resource>, sent: map<Handle, Message>, sent': map<Handle, Message>,
                  b: Body)
    requires Evolves(db, db', held) && HeldByBody(b) !! held
    requires forall h :: h in sent ==> h in sent' && sent'[h] == sent[h]
    requires BodyOk(db, sent, b)
    ensures BodyOk(db', sent', b)
  {
    assert WalletRow(b.base.id) in HeldByBody(b);
    if b.ctx.Some? {
      CtxStays(db, db', held, sent, sent', b.ctx.value);
    } else {
      assert PendingRow(b.tx.id) in HeldByBody(b);
    }
  }

  lemma DecidedStays(cfg: Config, db: DB, db': DB, held: set<Resource>, b: Body, ref: Option<Snapshot>,
                     reversed: bool, out: Outcome)
    requires Evolves(db, db', held) && WalletRow(b.base.id) !in held && b.base.id in db.wallets && b.tx.req.walletId == b.base.id
    requires TablesOk(db) && TablesOk(db')
    requires DecidedOk(cfg, db, b, ref, reversed, out)
    ensures DecidedOk(cfg, db', b, ref, reversed, out)
  {
    if ReadsReference(b.tx, b.base) {
      ReferenceStays(db, db', held, b, ref);
      if ReadsReversal(b.tx, ref) {
        SeenIsRow(db.txs, db.wallets, b, ref.value);
        ReversalStays(db, db', held, ref.value.id);
      }
    }
  }

  lemma ProgressStays(db: DB, db': DB, held: set<Resource>, nextSeq: SeqNo, nextSeq': SeqNo, b: Body,
                      ref: Option<Snapshot>, reversed: bool,
                      out: Outcome, at: nat, seqNo: SeqNo)
    requires Evolves(db, db', held) && Holds(Writing(b, ref, reversed, out, at, seqNo)) !! held
    requires nextSeq <= nextSeq' && b.base.id in db.wallets
    requires ProgressOk(db, nextSeq, b, out, at, seqNo)
    ensures ProgressOk(db', nextSeq', b, out, at, seqNo)
  {
    var mine := Holds(Writing(b, ref, reversed, out, at, seqNo));
    assert WalletRow(b.base.id) in mine;
    var provider, key, ext := out.tx.req.providerId, out.tx.key, out.tx.req.externalId;
    if b.ctx.Some? && at >= 1 {
      assert KeyEntry(provider, key) in mine;
      TakenStays(db, db', held, provider, key);
    }
    if b.ctx.Some? && at >= 2 {
      assert ExternalIdEntry(provider, ext) in mine;
      TakenStays(db, db', held, provider, ext);
    }
  }

  lemma OpenStays(db: DB, db': DB, held: set<Resource>, nextSeq: SeqNo, nextSeq': SeqNo, w: WalletState,
                  parts: Option<OpeningParts>,
                  ids: Ids, correlationId: string, at: nat, seqNo: SeqNo)
    requires Evolves(db, db', held) && Holds(OpeningWallet(w, parts, ids, correlationId, at, seqNo)) !! held
    requires nextSeq <= nextSeq' && w.id !in db'.wallets
    requires OpenOk(db, nextSeq, w, parts, ids, correlationId, at, seqNo)
    ensures OpenOk(db', nextSeq', w, parts, ids, correlationId, at, seqNo)
  {
    if at >= 1 {
      assert OwnerEntry(w.playerId, w.currency) in Holds(OpeningWallet(w, parts, ids, correlationId, at, seqNo));
      assert !OwnerTaken(db'.wallets, w.playerId, w.currency);
    }
  }

  lemma ReplayStays(db: DB, db': DB, held: set<Resource>, cmd: Command, tx: Snapshot)
    requires RowsEvolve(db, db', held) && ReplayOk(db.txs, cmd, tx)
    ensures ReplayOk(db'.txs, cmd, tx)
  {
    assert tx.status.IsTerminal() ==> db.txs[tx.id].status == tx.status;
  }

  /** Worlds as far as another process can tell them apart. */
  ghost predicate Later(w: World, w': World, held: set<Resource>) {
    && Evolves(w.db, w'.db, held)
    && w.nextSeq <= w'.nextSeq
    && (forall h :: h in w.sent ==> h in w'.sent && w'.sent[h] == w.sent[h])
    && w.dlq <= w'.dlq
  }

  lemma LookingStays(cfg: Config, w: World, w': World, held: set<Resource>, ctx: Ctx, locked: Option<WalletState>)
    requires Later(w, w', held) && Holds(LookingUpKey(ctx, locked)) !! held
    requires CtxOk(w.db, w.sent, ctx) && LockedOk(w.db, ctx, locked)
    ensures CtxOk(w'.db, w'.sent, ctx) && LockedOk(w'.db, ctx, locked)
    ensures var p, k, e := ctx.cmd.req.providerId, ctx.cmd.key, ctx.cmd.req.externalId;
            && (KeyTaken(w.db.txs, p, k) ==> KeyTaken(w'.db.txs, p, k))
            && (ExternalIdTaken(w.db.txs, p, e) ==> ExternalIdTaken(w'.db.txs, p, e))
  {
    hide KeyTaken, ExternalIdTaken, RowsEvolve, CtxOk;
    CtxStays(w.db, w'.db, held, w.sent, w'.sent, ctx);
    TakenStays(w.db, w'.db, held, ctx.cmd.req.providerId, ctx.cmd.key);
    TakenStays(w.db, w'.db, held, ctx.cmd.req.providerId, ctx.cmd.req.externalId);
    if locked.Some? {
      assert WalletRow(locked.value.id) in Holds(LookingUpKey(ctx, locked));
    }
  }

  lemma WritingStays(cfg: Config, w: World, w': World, held: set<Resource>, p: Proc)
    requires Later(w, w', held) && Holds(p) !! held
    requires TablesOk(w.db) && TablesOk(w'.db)
    requires p.Writing? && ProcOk(cfg, w, p)
    ensures ProcOk(cfg, w', p)
  {
    hide DecidedOk, ProgressOk, Evolves, CtxOk, Undecided, ClaimHeld, TablesOk;
    var Writing(b, ref, reversed, out, at, seqNo) := p;
    BodyStays(w.db, w'.db, held, w.sent, w'.sent, b);
    assert WalletRow(b.base.id) in Holds(p);
    DecidedStays(cfg, w.db, w'.db, held, b, ref, reversed, out);
    ProgressStays(w.db, w'.db, held, w.nextSeq, w'.nextSeq, b, ref, reversed, out, at, seqNo);
  }

  lemma ClaimStays(db: DB, db': DB, held: set<Resource>, tx: Snapshot)
    requires RowsEvolve(db, db', held) && PendingRow(tx.id) !in held && ClaimHeld(db, tx)
    ensures ClaimHeld(db', tx)
  {}

  lemma AbsorbedStays(db: DB, db': DB, held: set<Resource>, m: Message)
    requires Evolves(db, db', held) && Absorbed(db, m)
    ensures Absorbed(db', m)
  {
    hide WalletsEvolve, RowsEvolve;
  }

  /** What a process knows survives every step of the others. */
  lemma ProcStays(cfg: Config, w: World, w': World, held: set<Resource>, p: Proc)
    requires Later(w, w', held) && Holds(p) !! held
    requires TablesOk(w.db) && TablesOk(w'.db)
    requires p.OpeningWallet? ==> p.wallet.id !in w'.db.wallets
    requires ProcOk(cfg, w, p)
    ensures ProcOk(cfg, w', p)
  {
    hide ReferenceSeen, DecidedOk, ProgressOk, Undecided, OpenOk, CtxOk, ReplayOk, KeyTaken, ExternalIdTaken,
      Absorbed, RowsEvolve, WalletsEvolve, ReadsReversal, ReadsReference, LockedOk, ClaimHeld, WalletsOk, TxsOk,
      OwnersUnique, KeysUnique, OpeningsUnique, ExternalIdsUnique, ReferencesOk, ReversalsUnique;
    match p
    case RecordingInbox(ctx) =>
    case LookingUpKey(ctx, locked) => LookingStays(cfg, w, w', held, ctx, locked);
    case LookingUpExternalId(ctx, locked) => LookingStays(cfg, w, w', held, ctx, locked);
    case LockingWallet(ctx) => CtxStays(w.db, w'.db, held, w.sent, w'.sent, ctx);
    case Claiming =>
    case LockingForClaim(tx) =>
      assert PendingRow(tx.id) in Holds(p);
      ClaimStays(w.db, w'.db, held, tx);
    case ReadingReference(b) => BodyStays(w.db, w'.db, held, w.sent, w'.sent, b);
    case ReadingReversal(b, found) =>
      BodyStays(w.db, w'.db, held, w.sent, w'.sent, b);
      assert WalletRow(b.base.id) in Holds(p);
      ReferenceStays(w.db, w'.db, held, b, Some(found));
    case Writing(_, _, _, _, _, _) => WritingStays(cfg, w, w', held, p);
    case OpeningWallet(wallet, parts, ids, correlationId, at, seqNo) =>
      OpenStays(w.db, w'.db, held, w.nextSeq, w'.nextSeq, wallet, parts, ids, correlationId, at, seqNo);
    case Replaying(ctx, tx) =>
      CtxStays(w.db, w'.db, held, w.sent, w'.sent, ctx);
      ReplayStays(w.db, w'.db, held, ctx.cmd, tx);
    case Deleting(h) =>
      if Absorbed(w.db, w.sent[h]) {
        AbsorbedStays(w.db, w'.db, held, w.sent[h]);
      }
    case DeadLettering(h) =>
  }
}
