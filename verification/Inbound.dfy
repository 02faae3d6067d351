/**
 The inbound queue (internal/adapters/sqs/consumer.go): no message is lost, a handled message has its
 transaction committed, and handling it again changes nothing.
 */
module Inbound {
  import opened Basics
  import opened Wallets
  import opened Wagering
  import opened Rules
  import opened Database
  import opened UseCases
  import opened Invariants
  import opened Engine
  import opened Processes
  import opened Worlds
  import opened Reach
  import opened History
  import PayloadHash

  /** A committed transaction is this very operation under this very key. */
  ghost predicate Recorded(db: DB, m: Message) {
    m.Operation? && exists id :: id in db.txs && db.txs[id].origin.External? && db.txs[id].req == m.req && db.txs[id].key == m.key
  }

  /** An inbox row is never committed without the transaction of its message. */
  lemma AbsorbedIsRecorded(db: DB, m: Message)
    requires DbInv(db) && Absorbed(db, m)
    ensures Recorded(db, m)
  {
    hide LedgerOk, EventsOk, NothingWithoutWallet, PayloadHash.Preimage, Coherent, TerminalShape;
    var hash := db.inbox[InboxKey(CONSUMER, m.messageId)];
    assert Answered(db.txs, hash);
    var id :| id in db.txs && db.txs[id].origin.External? && db.txs[id].hash + "|" + db.txs[id].key == hash;
    assert RowOk(id, db.txs[id]);
    assert PayloadHash.InboxPreimage(db.txs[id].req, db.txs[id].key) == PayloadHash.InboxPreimage(m.req, m.key);
    PayloadHash.InboxPreimageIsInjective(db.txs[id].req, db.txs[id].key, m.req, m.key);
  }

  lemma SentStaysSent(cfg: Config, w: World, a: Action, h: Handle)
    requires Enabled(w, a) && h in w.sent
    ensures h in Perform(cfg, w, a).sent && Perform(cfg, w, a).sent[h] == w.sent[h]
  {
    hide Blocked, FreshIds, ClaimOk, NewOpeningParts, Acceptable, Open, Decide, Violation, View, ApplyAll,
      BodyWrites, OpenWrites, NewExternal, ReadsReference, ReadsReversal, ReferenceOf, FindByKey, FindByExternalId,
      HasProcessedReversal, FromRow, PayloadHash.Preimage;
  }

  lemma {:induction false} SentForever(cfg: Config, worlds: seq<World>, actions: seq<Action>, i: nat, j: nat, h: Handle)
    requires IsRun(cfg, worlds, actions) && i <= j < |worlds| && h in worlds[i].sent
    ensures h in worlds[j].sent && worlds[j].sent[h] == worlds[i].sent[h]
    decreases j
  {
    hide Enabled, Perform;
    if i < j {
      SentForever(cfg, worlds, actions, i, j - 1, h);
      SentStaysSent(cfg, worlds[j - 1], actions[j - 1], h);
    }
  }

  /**
   Over every run, with any crashes and redeliveries: a message once sent is at every later moment still
   in the queue, or in the dead-letter queue, or its operation is committed under its key.
   */
  lemma NoMessageIsLost(cfg: Config, worlds: seq<World>, actions: seq<Action>, i: nat, j: nat, h: Handle)
    requires IsRun(cfg, worlds, actions) && i <= j < |worlds| && h in worlds[i].sent
    ensures h in worlds[j].queue || h in worlds[j].dlq || Recorded(worlds[j].db, worlds[i].sent[h])
  {
    hide IsRun, DbInv, ProcsOk, LocksExclude, IdsOk, RepliesOk, SeqsOk, Absorbed, Recorded;
    RunsAreSafe(cfg, worlds, actions, j);
    SentForever(cfg, worlds, actions, i, j, h);
    if Absorbed(worlds[j].db, worlds[j].sent[h]) {
      AbsorbedIsRecorded(worlds[j].db, worlds[j].sent[h]);
    }
  }

  /** What was absorbed stays absorbed. */
  lemma AbsorbedForever(cfg: Config, worlds: seq<World>, actions: seq<Action>, i: nat, j: nat, m: Message)
    requires IsRun(cfg, worlds, actions) && i <= j < |worlds| && Absorbed(worlds[i].db, m)
    ensures Absorbed(worlds[j].db, m)
  {
    hide IsRun, RowsKeep;
    FinishedRowsAreFrozen(cfg, worlds, actions, i, j);
  }

  // ---- redelivery ----

  function DeliveredCtx(m: Message, h: Handle): Ctx
    requires m.Operation?
  {
    Ctx(Queue(h), Command(m.req, m.key, m.messageId), None)
  }

  /** The process has a message before its first statement, or is left with deleting it. */
  ghost predicate HasRedelivery(w: World, pid: Pid, h: Handle, m: Message) {
    m.Operation? && pid in w.procs && (w.procs[pid] == RecordingInbox(DeliveredCtx(m, h)) || w.procs[pid] == Deleting(h))
  }

  predicate ActionOf(a: Action, pid: Pid) {
    (a.Advance? && a.pid == pid) || a == Crash(pid)
  }

  /** A process is as it was. */
  predicate Untouched(w: World, w': World, pid: Pid) {
    pid in w.procs && pid in w'.procs && w'.procs[pid] == w.procs[pid]
  }

  lemma OtherStatementsLeaveIt(cfg: Config, w: World, p: Pid, c: Choice, pid: Pid)
    requires p in w.procs && pid in w.procs && p != pid
    ensures Untouched(w, Advanced(cfg, w, p, c), pid)
  {
    hide Decide, Violation, View, ApplyAll, BodyStatements, OpenWrites, NewExternal, ReadsReference, ReadsReversal,
      ReferenceOf, FindByKey, FindByExternalId, HasProcessedReversal, FromRow, PayloadHash.Preimage, WithInbox,
      InboxHashOf, Conclude, StepWrite, StepOpen;
    match w.procs[p]
    case ReadingReference(b) =>
      OtherDecisionsLeaveIt(cfg, w, p, b, pid);
    case ReadingReversal(b, _) =>
      OtherDecisionsLeaveIt(cfg, w, p, b, pid);
    case Writing(_, _, _, _, _, _) =>
      OtherWritesLeaveIt(w, p, pid);
    case OpeningWallet(_, _, _, _, _, _) =>
      OtherWritesLeaveIt(w, p, pid);
    case _ =>
  }

  lemma OtherDecisionsLeaveIt(cfg: Config, w: World, p: Pid, b: Body, pid: Pid)
    requires pid in w.procs && p != pid
    ensures forall ref, reversed :: Untouched(w, Conclude(cfg, w, p, b, ref, reversed), pid)
  {
    hide Decide;
  }

  lemma OtherWritesLeaveIt(w: World, p: Pid, pid: Pid)
    requires p in w.procs && pid in w.procs && p != pid
    ensures w.procs[p].Writing? ==> Untouched(w, StepWrite(w, p, w.procs[p]), pid)
    ensures w.procs[p].OpeningWallet? ==> Untouched(w, StepOpen(w, p, w.procs[p]), pid)
  {
    hide Violation, View, ApplyAll, BodyStatements, OpenWrites, WithInbox;
  }

  /** Nobody else touches a process. */
  lemma OthersLeaveIt(cfg: Config, w: World, a: Action, pid: Pid)
    requires Enabled(w, a) && pid in w.procs && !ActionOf(a, pid)
    ensures Untouched(w, Perform(cfg, w, a), pid)
  {
    hide Blocked, FreshIds, ClaimOk, NewOpeningParts, Acceptable, Open, Advanced, Untouched;
    if a.Advance? {
      OtherStatementsLeaveIt(cfg, w, a.pid, a.choice, pid);
    } else {
      OtherArrivalsLeaveIt(cfg, w, a, pid);
    }
  }

  lemma OtherArrivalsLeaveIt(cfg: Config, w: World, a: Action, pid: Pid)
    requires Enabled(w, a) && pid in w.procs && !a.Advance? && a != Crash(pid)
    ensures Untouched(w, Perform(cfg, w, a), pid)
  {
    hide Blocked, FreshIds, ClaimOk, NewOpeningParts, Acceptable, Open, Advanced;
  }

  /** What a process that has an absorbed message again does to the world. */
  ghost predicate OnlyDeletes(w: World, a: Action, w': World, pid: Pid, h: Handle)
    requires pid in w.procs
  {
    if a.Advance? && w.procs[pid].RecordingInbox? then w' == w.(procs := w.procs[pid := Deleting(h)])
    else w' == w.(procs := w.procs - {pid}, queue := if a.Advance? then w.queue - {h} else w.queue)
  }

  lemma RedeliveryStep(cfg: Config, w: World, a: Action, pid: Pid, h: Handle, m: Message)
    requires Enabled(w, a) && Absorbed(w.db, m) && HasRedelivery(w, pid, h, m)
    ensures ActionOf(a, pid) ==> OnlyDeletes(w, a, Perform(cfg, w, a), pid, h)
    ensures pid in Perform(cfg, w, a).procs ==> HasRedelivery(Perform(cfg, w, a), pid, h, m)
  {
    hide PayloadHash.InboxPreimage, Blocked, FreshIds;
    if !ActionOf(a, pid) {
      hide Perform, Enabled;
      OthersLeaveIt(cfg, w, a, pid);
    }
  }

  lemma RedeliveryStarts(cfg: Config, w: World, pid: Pid, h: Handle)
    requires Enabled(w, Deliver(pid, h)) && Acceptable(w.sent[h])
    ensures HasRedelivery(Perform(cfg, w, Deliver(pid, h)), pid, h, w.sent[h])
    ensures var w' := Perform(cfg, w, Deliver(pid, h)); w' == w.(procs := w.procs[pid := w'.procs[pid]])
  {
    hide ValidRequest;
  }

  lemma {:induction false} RedeliveryGoesOn(cfg: Config, worlds: seq<World>, actions: seq<Action>, i: nat, j: nat, k: nat,
                                            pid: Pid, h: Handle, m: Message)
    requires IsRun(cfg, worlds, actions) && i <= j < k < |worlds|
    requires Absorbed(worlds[i].db, m) && actions[j] == Deliver(pid, h) && h in worlds[j].sent && worlds[j].sent[h] == m
    requires Acceptable(m) && forall l :: j < l <= k ==> pid in worlds[l].procs
    ensures HasRedelivery(worlds[k], pid, h, m)
    decreases k
  {
    hide Enabled, Perform, Absorbed, HasRedelivery, Acceptable;
    if k == j + 1 {
      RedeliveryStarts(cfg, worlds[j], pid, h);
    } else {
      RedeliveryGoesOn(cfg, worlds, actions, i, j, k - 1, pid, h, m);
      AbsorbedForever(cfg, worlds, actions, i, k - 1, m);
      RedeliveryStep(cfg, worlds[k - 1], actions[k - 1], pid, h, m);
    }
  }

  /**
   Over every run: once a message is absorbed, whoever gets it again only takes it off the queue. From the
   delivery at j on, every statement of that process, whatever others do in between, leaves tables, replies
   and dead-letter queue as they are: the first finds the inbox row and the second deletes the message. A crash
   before that leaves it in the queue.
   */
  lemma RedeliveryChangesNothing(cfg: Config, worlds: seq<World>, actions: seq<Action>, i: nat, j: nat, k: nat,
                                 pid: Pid, h: Handle)
    requires IsRun(cfg, worlds, actions) && i <= j < k < |actions| && h in worlds[i].sent
    requires Absorbed(worlds[i].db, worlds[i].sent[h]) && Acceptable(worlds[i].sent[h])
    requires actions[j] == Deliver(pid, h) && ActionOf(actions[k], pid)
    requires forall l :: j < l <= k ==> pid in worlds[l].procs
    ensures worlds[k].procs[pid].RecordingInbox? || worlds[k].procs[pid] == Deleting(h)
    ensures OnlyDeletes(worlds[k], actions[k], worlds[k + 1], pid, h)
    ensures worlds[k + 1].db == worlds[k].db && worlds[k + 1].replies == worlds[k].replies && worlds[k + 1].dlq == worlds[k].dlq
    ensures actions[k].Advance? && worlds[k].procs[pid].Deleting? ==> h !in worlds[k + 1].queue
  {
    hide Enabled, Perform, Absorbed, Acceptable;
    var m := worlds[i].sent[h];
    SentForever(cfg, worlds, actions, i, j, h);
    RedeliveryGoesOn(cfg, worlds, actions, i, j, k, pid, h, m);
    AbsorbedForever(cfg, worlds, actions, i, k, m);
    RedeliveryStep(cfg, worlds[k], actions[k], pid, h, m);
  }

  /** An operation from the queue that fails is put aside exactly for what trying again cannot change; otherwise it is left in the queue. */
  lemma FailuresExactly(w: World, pid: Pid, ctx: Ctx, e: Error)
    requires ctx.source.Queue?
    ensures var w' := Fail(w, pid, ctx, e);
            if e == Validation || e == IdempotencyConflict || e == ExternalIdConflict || e == WalletNotFound then
              pid in w'.procs && w'.procs[pid] == DeadLettering(ctx.source.handle) && w'.queue == w.queue && w'.db == w.db
            else pid !in w'.procs && w'.queue == w.queue && w'.dlq == w.dlq && w'.db == w.db
  {}

  /** A message id that comes back with another operation or another key is put aside without touching the tables. */
  lemma ReusedMessageIdIsPutAside(cfg: Config, w: World, pid: Pid, h: Handle, c: Choice, m: Message)
    requires h in w.sent && Acceptable(w.sent[h]) && Absorbed(w.db, m)
    requires w.sent[h].messageId == m.messageId && (w.sent[h].req != m.req || w.sent[h].key != m.key)
    ensures var w1 := Delivered(w, pid, h);
            && pid in w1.procs
            && var w2 := Advanced(cfg, w1, pid, c);
               && w2.db == w.db && pid in w2.procs && w2.procs[pid] == DeadLettering(h)
  {
    hide ValidRequest, PayloadHash.InboxPreimage;
    PayloadHash.InboxPreimageIsInjective(w.sent[h].req, w.sent[h].key, m.req, m.key);
  }
}
