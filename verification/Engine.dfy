/**
 Any number of HTTP requests, queue consumers, pending-reference workers and wallet openings over
 one database, interleaved statement by statement under READ COMMITTED: a statement sees the rows
 committed when it runs and the process's own writes; uncommitted writes of other processes are
 visible only as locks (internal/app/process.go, internal/app/wallets.go, internal/adapters/postgres,
 internal/adapters/sqs/consumer.go). A process may stop at any point; its writes and locks vanish.
 */
module Engine {
  import opened Basics
  import opened Moneys
  import opened Wallets
  import opened Wagering
  import opened Rules
  import opened Database
  import opened UseCases
  import PayloadHash

  type Pid = nat

  /** Identifies a message of the inbound queue. */
  type Handle = nat

  const CONSUMER: string := "wager-transactions-consumer"

  /** A message body as the consumer decodes it. */
  datatype Message = Undecodable | Operation(messageId: string, req: ExternalRequest, key: string)

  /** Attempt 2 is the single retry of Process. */
  datatype Source = Http(attempt: nat) | Queue(handle: Handle)

  /** One run of ProcessIn: inbox is the inbox row it has inserted and not yet committed. */
  datatype Ctx = Ctx(source: Source, cmd: Command, inbox: Option<InboxKey>)

  /** An operation under the wallet lock; ctx is None when a pending worker claimed it. */
  datatype Body = Body(ctx: Option<Ctx>, tx: Snapshot, base: WalletState, ids: Ids, now: Time)

  /** A process between two statements; the constructor says which one comes next. */
  datatype Proc =
    | RecordingInbox(ctx: Ctx)
    | LookingUpKey(ctx: Ctx, locked: Option<WalletState>)
    | LookingUpExternalId(ctx: Ctx, locked: Option<WalletState>)
    | LockingWallet(ctx: Ctx)
    | Claiming
    | LockingForClaim(tx: Snapshot)
    | ReadingReference(body: Body)
    | ReadingReversal(body: Body, found: Snapshot)
    | Writing(body: Body, ref: Option<Snapshot>, reversed: bool, out: Outcome, at: nat, seqNo: SeqNo)
    | OpeningWallet(wallet: WalletState, parts: Option<OpeningParts>, ids: Ids, correlationId: string, at: nat, seqNo: SeqNo)
    | Replaying(ctx: Ctx, tx: Snapshot)
    | Deleting(handle: Handle)
    | DeadLettering(handle: Handle)

  datatype Reply = Reply(source: Source, cmd: Command, result: Result<Snapshot>, replay: bool)

  datatype World = World(
    db: DB,
    procs: map<Pid, Proc>,
    nextSeq: SeqNo,
    used: set<Uuid>,
    sent: map<Handle, Message>,
    queue: set<Handle>,
    dlq: set<Handle>,
    replies: seq<Reply>)

  const START: World := World(EMPTY, map[], 1, {NIL}, map[], {}, {}, [])

  // ---- locks ----

  /** Row locks and index entries a process can hold until it commits or stops. */
  datatype Resource =
    | InboxEntry(inboxKey: InboxKey)
    | PendingRow(txId: Uuid)
    | OwnerEntry(playerId: Uuid, currency: string)
    | WalletRow(walletId: Uuid)
    | KeyEntry(provider: string, key: string)
    | ExternalIdEntry(provider: string, externalId: string)

  function InboxKeyOf(ctx: Ctx): InboxKey {
    InboxKey(CONSUMER, ctx.cmd.correlationId)
  }

  function InboxHashOf(ctx: Ctx): string {
    PayloadHash.InboxPreimage(ctx.cmd.req, ctx.cmd.key)
  }

  function HeldByCtx(ctx: Ctx): set<Resource> {
    if ctx.inbox.Some? then {InboxEntry(ctx.inbox.value)} else {}
  }

  function HeldByBody(b: Body): set<Resource> {
    {WalletRow(b.base.id)} + (if b.ctx.Some? then HeldByCtx(b.ctx.value) else {PendingRow(b.tx.id)})
  }

  function Holds(p: Proc): set<Resource> {
    match p
    case RecordingInbox(ctx) => {}
    case LookingUpKey(ctx, locked) => HeldByCtx(ctx) + (if locked.Some? then {WalletRow(locked.value.id)} else {})
    case LookingUpExternalId(ctx, locked) => HeldByCtx(ctx) + (if locked.Some? then {WalletRow(locked.value.id)} else {})
    case LockingWallet(ctx) => HeldByCtx(ctx)
    case Claiming => {}
    case LockingForClaim(tx) => {PendingRow(tx.id)}
    case ReadingReference(b) => HeldByBody(b)
    case ReadingReversal(b, _) => HeldByBody(b)
    case Writing(b, _, _, out, at, _) =>
      HeldByBody(b)
      + (if b.ctx.Some? && at >= 1 then {KeyEntry(out.tx.req.providerId, out.tx.key)} else {})
      + (if b.ctx.Some? && at >= 2 then {ExternalIdEntry(out.tx.req.providerId, out.tx.req.externalId)} else {})
    case OpeningWallet(w, _, _, _, at, _) => if at >= 1 then {OwnerEntry(w.playerId, w.currency)} else {}
    case Replaying(ctx, _) => HeldByCtx(ctx)
    case Deleting(_) => {}
    case DeadLettering(_) => {}
  }

  /** What the next statement has to wait for while another process holds it. SKIP LOCKED never waits. */
  function Wants(p: Proc): Option<Resource> {
    match p
    case RecordingInbox(ctx) => Some(InboxEntry(InboxKeyOf(ctx)))
    case LockingWallet(ctx) => Some(WalletRow(ctx.cmd.req.walletId))
    case LockingForClaim(tx) => Some(WalletRow(tx.req.walletId))
    case Writing(b, _, _, out, at, _) =>
      if b.ctx.Some? && at == 0 then Some(KeyEntry(out.tx.req.providerId, out.tx.key))
      else if b.ctx.Some? && at == 1 then Some(ExternalIdEntry(out.tx.req.providerId, out.tx.req.externalId))
      else None
    case OpeningWallet(w, _, _, _, at, _) => if at == 0 then Some(OwnerEntry(w.playerId, w.currency)) else None
    case _ => None
  }

  ghost predicate WaitsFor(procs: map<Pid, Proc>, p: Pid, q: Pid) {
    && p in procs && q in procs && p != q
    && Wants(procs[p]).Some? && Wants(procs[p]).value in Holds(procs[q])
  }

  ghost predicate Blocked(procs: map<Pid, Proc>, p: Pid) {
    exists q :: WaitsFor(procs, p, q)
  }

  // ---- one statement ----

  /** What a statement gets from outside: the clock, fresh identifiers, and the row a claim picks. */
  datatype Choice = Choice(now: Time, ids: Ids, claim: Option<Uuid>)

  predicate FreshIds(used: set<Uuid>, ids: Ids) {
    && NIL in used
    && ids.tx !in used && ids.entry !in used && ids.change !in used && ids.final !in used
    && ids.tx != ids.entry && ids.tx != ids.change && ids.tx != ids.final
    && ids.entry != ids.change && ids.entry != ids.final && ids.change != ids.final
  }

  function IdSet(ids: Ids): set<Uuid> {
    {ids.tx, ids.entry, ids.change, ids.final}
  }

  /** FOR UPDATE SKIP LOCKED: the due row is not locked by anyone. */
  ghost predicate Claimable(w: World, id: Uuid, now: Time) {
    && id in w.db.txs && Due(w.db.txs[id], now)
    && forall q :: q in w.procs ==> PendingRow(id) !in Holds(w.procs[q])
  }

  /** ClaimDuePendingReference returns the earliest claimable row, or none when there is none. */
  ghost predicate ClaimOk(w: World, c: Choice) {
    match c.claim
    case None => forall id :: !Claimable(w, id, c.now)
    case Some(id) =>
      && Claimable(w, id, c.now)
      && forall other :: Claimable(w, other, c.now) ==> w.db.txs[id].nextRetry.value <= w.db.txs[other].nextRetry.value
  }

  predicate IsPermanent(e: Error) {
    e.Validation? || e.IdempotencyConflict? || e.ExternalIdConflict? || e.WalletNotFound?
  }

  function Become(w: World, pid: Pid, p: Proc): World {
    w.(procs := w.procs[pid := p])
  }

  function Finished(w: World, pid: Pid): World {
    w.(procs := w.procs - {pid})
  }

  function Replied(w: World, ctx: Ctx, result: Result<Snapshot>, replay: bool): World {
    w.(replies := w.replies + [Reply(ctx.source, ctx.cmd, result, replay)])
  }

  /** ProcessIn returned an error: rollback, then the consumer classifies it. */
  function Fail(w: World, pid: Pid, ctx: Ctx, e: Error): World {
    var w' := Replied(w, ctx, Err(e), false);
    if ctx.source.Queue? && IsPermanent(e) then Become(w', pid, DeadLettering(ctx.source.handle))
    else Finished(w', pid)
  }

  function FailBody(w: World, pid: Pid, b: Body, e: Error): World {
    if b.ctx.None? then Finished(w, pid)
    else if e.DuplicateTransaction? && b.ctx.value.source == Http(1) then
      Become(w, pid, LookingUpKey(b.ctx.value.(source := Http(2)), None))
    else Fail(w, pid, b.ctx.value, e)
  }

  /** ProcessIn returned a transaction: commit happened, the reply goes out or the message is deleted. */
  function Succeed(w: World, pid: Pid, ctx: Ctx, tx: Snapshot, replay: bool): World {
    var w' := Replied(w, ctx, Ok(tx), replay);
    if ctx.source.Queue? then Become(w', pid, Deleting(ctx.source.handle)) else Finished(w', pid)
  }

  function WithInbox(db: DB, ctx: Ctx): DB {
    if ctx.inbox.Some? then db.(inbox := db.inbox[ctx.inbox.value := InboxHashOf(ctx)]) else db
  }

  function StepRecordInbox(w: World, pid: Pid, ctx: Ctx): World {
    var k := InboxKeyOf(ctx);
    if k in w.db.inbox then
      if w.db.inbox[k] == InboxHashOf(ctx) && ctx.source.Queue? then Become(w, pid, Deleting(ctx.source.handle))
      else Fail(w, pid, ctx, Validation)
    else Become(w, pid, LookingUpKey(ctx.(inbox := Some(k)), None))
  }

  ghost function StepLookUpKey(w: World, pid: Pid, ctx: Ctx, locked: Option<WalletState>): World {
    var found := FindByKey(w.db.txs, ctx.cmd.req.providerId, ctx.cmd.key);
    if found.None? then Become(w, pid, LookingUpExternalId(ctx, locked))
    else if found.value.hash == PayloadHash.Preimage(ctx.cmd.req) && found.value.req.money.valid then
      Become(w, pid, Replaying(ctx, FromRow(found.value)))
    else Fail(w, pid, ctx, IdempotencyConflict)
  }

  ghost function StepLookUpExternalId(w: World, pid: Pid, ctx: Ctx, locked: Option<WalletState>, c: Choice): World {
    var found := FindByExternalId(w.db.txs, ctx.cmd.req.providerId, ctx.cmd.req.externalId);
    if found.Some? && found.value.key != ctx.cmd.key then Fail(w, pid, ctx, ExternalIdConflict)
    else if found.Some? && found.value.hash == PayloadHash.Preimage(ctx.cmd.req) && found.value.req.money.valid then
      Become(w, pid, Replaying(ctx, FromRow(found.value)))
    else if found.Some? then Fail(w, pid, ctx, IdempotencyConflict)
    else if locked.None? then Become(w, pid, LockingWallet(ctx))
    else
      var tx := NewExternal(c.ids.tx, ctx.cmd.req, ctx.cmd.key, PayloadHash.Preimage(ctx.cmd.req), ctx.cmd.correlationId);
      if tx.Err? then Fail(w, pid, ctx, tx.error)
      else Become(w, pid, ReadingReference(Body(Some(ctx), tx.value, locked.value, c.ids, c.now))).(used := w.used + IdSet(c.ids))
  }

  function StepLockWallet(w: World, pid: Pid, ctx: Ctx): World {
    if ctx.cmd.req.walletId in w.db.wallets then
      Become(w, pid, LookingUpKey(ctx, Some(w.db.wallets[ctx.cmd.req.walletId])))
    else Fail(w, pid, ctx, WalletNotFound)
  }

  function StepClaim(w: World, pid: Pid, c: Choice): World {
    if c.claim.Some? && c.claim.value in w.db.txs && w.db.txs[c.claim.value].req.money.valid then
      Become(w, pid, LockingForClaim(FromRow(w.db.txs[c.claim.value])))
    else Finished(w, pid)
  }

  function StepLockForClaim(w: World, pid: Pid, tx: Snapshot, c: Choice): World {
    if tx.req.walletId in w.db.wallets then
      Become(w, pid, ReadingReference(Body(None, tx, w.db.wallets[tx.req.walletId], c.ids, c.now))).(used := w.used + IdSet(c.ids))
    else Finished(w, pid)
  }

  function Conclude(cfg: Config, w: World, pid: Pid, b: Body, ref: Option<Snapshot>, reversed: bool): World {
    var r := Decide(b.tx, b.base, ref, reversed, b.ids.entry, b.now, cfg);
    if r.Err? then FailBody(w, pid, b, r.error)
    else Become(w, pid, Writing(b, ref, reversed, r.value, 0, 1))
  }

  ghost function StepReadReference(cfg: Config, w: World, pid: Pid, b: Body): World {
    if !ReadsReference(b.tx, b.base) then Conclude(cfg, w, pid, b, None, false)
    else
      var ref := ReferenceOf(w.db.txs, b.tx);
      if ReadsReversal(b.tx, ref) then Become(w, pid, ReadingReversal(b, ref.value))
      else Conclude(cfg, w, pid, b, ref, false)
  }

  ghost function StepReadReversal(cfg: Config, w: World, pid: Pid, b: Body, ref: Snapshot): World {
    Conclude(cfg, w, pid, b, Some(ref), HasProcessedReversal(w.db.txs, ref.id))
  }

  function BodyStatements(b: Body, out: Outcome): seq<Write> {
    BodyWrites(out, b.ctx.Some?, b.ids)
  }

  /** The rows a writing process sees. */
  function View(db: DB, ws: seq<Write>, at: nat, seqNo: SeqNo): DB
    requires at <= |ws|
  {
    ApplyAll(db, ws[..at], seqNo)
  }

  ghost function StepWrite(w: World, pid: Pid, p: Proc): World
    requires p.Writing?
  {
    var Writing(b, ref, reversed, out, at, seqNo) := p;
    var ws := BodyStatements(b, out);
    if at < |ws| then
      var e := Violation(View(w.db, ws, at, seqNo), ws[at]);
      if e.Some? then FailBody(w, pid, b, e.value)
      else if ws[at].AppendLedger? then
        Become(w, pid, Writing(b, ref, reversed, out, at + 1, w.nextSeq)).(nextSeq := w.nextSeq + 1)
      else Become(w, pid, Writing(b, ref, reversed, out, at + 1, seqNo))
    else
      var db' := ApplyAll(w.db, ws, seqNo);
      if b.ctx.Some? then Succeed(w.(db := WithInbox(db', b.ctx.value)), pid, b.ctx.value, out.tx, false)
      else Finished(w.(db := db'), pid)
  }

  ghost function StepOpen(w: World, pid: Pid, p: Proc): World
    requires p.OpeningWallet?
  {
    var OpeningWallet(wallet, parts, ids, correlationId, at, seqNo) := p;
    var ws := OpenWrites(wallet, parts, ids);
    if at < |ws| then
      var e := Violation(View(w.db, ws, at, seqNo), ws[at]);
      if e.Some? then Finished(w, pid)
      else if ws[at].AppendLedger? then
        Become(w, pid, OpeningWallet(wallet, parts, ids, correlationId, at + 1, w.nextSeq)).(nextSeq := w.nextSeq + 1)
      else Become(w, pid, OpeningWallet(wallet, parts, ids, correlationId, at + 1, seqNo))
    else Finished(w.(db := ApplyAll(w.db, ws, seqNo)), pid)
  }

  ghost function Advanced(cfg: Config, w: World, pid: Pid, c: Choice): World
    requires pid in w.procs
  {
    match w.procs[pid]
    case RecordingInbox(ctx) => StepRecordInbox(w, pid, ctx)
    case LookingUpKey(ctx, locked) => StepLookUpKey(w, pid, ctx, locked)
    case LookingUpExternalId(ctx, locked) => StepLookUpExternalId(w, pid, ctx, locked, c)
    case LockingWallet(ctx) => StepLockWallet(w, pid, ctx)
    case Claiming => StepClaim(w, pid, c)
    case LockingForClaim(tx) => StepLockForClaim(w, pid, tx, c)
    case ReadingReference(b) => StepReadReference(cfg, w, pid, b)
    case ReadingReversal(b, ref) => StepReadReversal(cfg, w, pid, b, ref)
    case Writing(_, _, _, _, _, _) => StepWrite(w, pid, w.procs[pid])
    case OpeningWallet(_, _, _, _, _, _) => StepOpen(w, pid, w.procs[pid])
    case Replaying(ctx, tx) => Succeed(w.(db := WithInbox(w.db, ctx)), pid, ctx, tx, true)
    case Deleting(h) => Finished(w, pid).(queue := w.queue - {h})
    case DeadLettering(h) => Become(w, pid, Deleting(h)).(dlq := w.dlq + {h})
  }

  // ---- everything that can happen ----

  datatype Action =
    | Send(handle: Handle, message: Message)
    | Submit(pid: Pid, cmd: Command)
    | Deliver(pid: Pid, handle: Handle)
    | Redrive(handle: Handle)
    | Wake(pid: Pid)
    | OpenWallet(pid: Pid, walletId: Uuid, playerId: Uuid, initial: Money, correlationId: string, choice: Choice)
    | Advance(pid: Pid, choice: Choice)
    | Crash(pid: Pid)

  ghost predicate Enabled(w: World, a: Action) {
    match a
    case Send(h, _) => h !in w.sent
    case Submit(pid, _) => pid !in w.procs
    case Deliver(pid, h) => pid !in w.procs && h in w.queue && h in w.sent
    case Redrive(h) => h in w.queue
    case Wake(pid) => pid !in w.procs
    case OpenWallet(pid, walletId, playerId, initial, _, c) =>
      && pid !in w.procs && FreshIds(w.used, c.ids) && walletId !in w.used && walletId !in IdSet(c.ids)
      && Open(walletId, playerId, initial).Ok?
    case Advance(pid, c) =>
      && pid in w.procs && !Blocked(w.procs, pid) && FreshIds(w.used, c.ids)
      && (w.procs[pid].Claiming? ==> ClaimOk(w, c))
    case Crash(pid) => pid in w.procs
  }

  /** The consumer's checks before it touches the database. */
  predicate Acceptable(m: Message) {
    m.Operation? && m.key != "" && ValidRequest(m.req)
  }

  function Delivered(w: World, pid: Pid, h: Handle): World
    requires h in w.sent
  {
    var m := w.sent[h];
    if Acceptable(m) then
      Become(w, pid, RecordingInbox(Ctx(Queue(h), Command(m.req, m.key, m.messageId), None)))
    else Become(w, pid, DeadLettering(h))
  }

  function Opened(w: World, pid: Pid, wallet: WalletState, correlationId: string, c: Choice): World {
    var parts := NewOpeningParts(wallet, c.ids, correlationId, c.now);
    var used' := w.used + IdSet(c.ids) + {wallet.id};
    if wallet.balance.IsZero() then Become(w, pid, OpeningWallet(wallet, None, c.ids, correlationId, 0, 1)).(used := used')
    else if parts.Ok? then Become(w, pid, OpeningWallet(wallet, Some(parts.value), c.ids, correlationId, 0, 1)).(used := used')
    else w.(used := used')
  }

  ghost function Perform(cfg: Config, w: World, a: Action): World
    requires Enabled(w, a)
  {
    match a
    case Send(h, m) => w.(sent := w.sent[h := m], queue := w.queue + {h})
    case Submit(pid, cmd) =>
      var ctx := Ctx(Http(1), cmd, None);
      if cmd.key == "" then Replied(w, ctx, Err(Validation), false) else Become(w, pid, LookingUpKey(ctx, None))
    case Deliver(pid, h) => Delivered(w, pid, h)
    case Redrive(h) => w.(queue := w.queue - {h}, dlq := w.dlq + {h})
    case Wake(pid) => Become(w, pid, Claiming)
    case OpenWallet(pid, walletId, playerId, initial, correlationId, c) =>
      Opened(w, pid, Open(walletId, playerId, initial).value, correlationId, c)
    case Advance(pid, c) => Advanced(cfg, w, pid, c)
    case Crash(pid) => Finished(w, pid)
  }

  /** A run: worlds and the actions between them. */
  ghost predicate IsRun(cfg: Config, worlds: seq<World>, actions: seq<Action>) {
    && |worlds| == |actions| + 1
    && worlds[0] == START
    && forall i :: 0 <= i < |actions| ==> Enabled(worlds[i], actions[i]) && worlds[i + 1] == Perform(cfg, worlds[i], actions[i])
  }
}
