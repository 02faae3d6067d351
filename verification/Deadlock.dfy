/**
 No deadlock: everyone takes locks in one order of kinds, so waiting chains are short and never close.
 */
module Deadlock {
  import opened Basics
  import opened Wagering
  import opened Rules
  import opened Database
  import opened Invariants
  import opened Engine
  import opened Processes
  import opened Worlds

  /** The order in which every use case takes its locks. */
  function Rank(r: Resource): nat {
    match r
    case InboxEntry(_) => 0
    case PendingRow(_) => 1
    case WalletRow(_) => 2
    case KeyEntry(_, _) => 3
    case ExternalIdEntry(_, _) => 4
    case OwnerEntry(_, _) => 5
  }

  /** What a process waits for ranks above everything it holds. */
  lemma LocksAreTakenInOrder(p: Proc, r: Resource)
    requires Wants(p).Some? && r in Holds(p)
    ensures Rank(r) < Rank(Wants(p).value)
  {}

  /** Each process of the chain waits for a lock of the next. */
  ghost predicate IsWaitingChain(procs: map<Pid, Proc>, chain: seq<Pid>) {
    && |chain| >= 1 && (forall i :: 0 <= i < |chain| ==> chain[i] in procs)
    && forall i :: 0 < i < |chain| ==> WaitsFor(procs, chain[i - 1], chain[i])
  }

  lemma {:induction false} RanksGrow(procs: map<Pid, Proc>, chain: seq<Pid>, i: nat)
    requires IsWaitingChain(procs, chain) && i + 1 < |chain|
    ensures Wants(procs[chain[i]]).Some? && Rank(Wants(procs[chain[i]]).value) >= i
  {
    assert WaitsFor(procs, chain[i], chain[i + 1]);
    if i > 0 {
      RanksGrow(procs, chain, i - 1);
      assert WaitsFor(procs, chain[i - 1], chain[i]);
      LocksAreTakenInOrder(procs[chain[i]], Wants(procs[chain[i - 1]]).value);
    }
  }

  lemma {:induction false} RanksGrowFrom(procs: map<Pid, Proc>, chain: seq<Pid>, i: nat, j: nat)
    requires IsWaitingChain(procs, chain) && i < j && j + 1 < |chain|
    ensures Wants(procs[chain[i]]).Some? && Wants(procs[chain[j]]).Some?
    ensures Rank(Wants(procs[chain[i]]).value) < Rank(Wants(procs[chain[j]]).value)
  {
    assert WaitsFor(procs, chain[i], chain[i + 1]);
    assert WaitsFor(procs, chain[j - 1], chain[j]);
    assert WaitsFor(procs, chain[j], chain[j + 1]);
    LocksAreTakenInOrder(procs[chain[j]], Wants(procs[chain[j - 1]]).value);
    if i < j - 1 {
      RanksGrowFrom(procs, chain, i, j - 1);
    }
  }

  /** A waiting chain never comes back to a process, and has at most seven members. */
  lemma WaitingNeverCloses(procs: map<Pid, Proc>, chain: seq<Pid>)
    requires IsWaitingChain(procs, chain)
    ensures |chain| <= 7
    ensures forall i, j :: 0 <= i < j < |chain| ==> chain[i] != chain[j]
  {
    if |chain| >= 2 {
      RanksGrow(procs, chain, |chain| - 2);
    }
    forall i, j | 0 <= i < j < |chain| ensures chain[i] != chain[j] {
      assert WaitsFor(procs, chain[i], chain[i + 1]);
      assert WaitsFor(procs, chain[j - 1], chain[j]);
      if j + 1 < |chain| {
        RanksGrowFrom(procs, chain, i, j);
      } else if chain[i] == chain[j] {
        LocksAreTakenInOrder(procs[chain[j]], Wants(procs[chain[j - 1]]).value);
        if i < j - 1 {
          RanksGrowFrom(procs, chain, i, j - 1);
        }
      }
    }
  }

  /** From any process, following who waits for whom leads to one that can go on. */
  lemma {:induction false} SomeoneAheadCanMove(procs: map<Pid, Proc>, chain: seq<Pid>) returns (p: Pid)
    requires IsWaitingChain(procs, chain)
    ensures p in procs && !Blocked(procs, p)
    decreases 7 - |chain|
  {
    WaitingNeverCloses(procs, chain);
    var last := chain[|chain| - 1];
    if Blocked(procs, last) {
      var q :| WaitsFor(procs, last, q);
      WaitingNeverCloses(procs, chain + [q]);
      p := SomeoneAheadCanMove(procs, chain + [q]);
    } else {
      p := last;
    }
  }

  /** As long as anything runs, something can take its next step. */
  lemma NoDeadlock(procs: map<Pid, Proc>)
    requires procs != map[]
    ensures exists p :: p in procs && !Blocked(procs, p)
  {
    var start :| start in procs;
    var p := SomeoneAheadCanMove(procs, [start]);
  }

  lemma {:induction false} EarliestOf(txs: map<Uuid, TxRow>, ids: set<Uuid>) returns (best: Uuid)
    requires ids != {} && ids <= txs.Keys && forall id :: id in ids ==> txs[id].nextRetry.Some?
    ensures best in ids && forall id :: id in ids ==> txs[best].nextRetry.value <= txs[id].nextRetry.value
    decreases |ids|
  {
    best :| best in ids;
    if ids != {best} {
      var other := EarliestOf(txs, ids - {best});
      if txs[other].nextRetry.value < txs[best].nextRetry.value {
        best := other;
      }
    }
  }

  /** A claim always has a row to return, or none to return. */
  lemma SomeClaimIsOk(w: World, now: Time, ids: Ids) returns (c: Choice)
    ensures ClaimOk(w, c) && c.now == now && c.ids == ids
  {
    var due := set id | id in w.db.txs && Engine.Claimable(w, id, now);
    if due == {} {
      c := Choice(now, ids, None);
      assert forall id :: Engine.Claimable(w, id, now) ==> id in due;
    } else {
      var best := EarliestOf(w.db.txs, due);
      c := Choice(now, ids, Some(best));
      assert forall id :: Engine.Claimable(w, id, now) ==> id in due;
    }
  }

  /** As long as anything runs and identifiers can be drawn, some process can take its next statement, at any instant. */
  lemma SomethingCanHappen(w: World, now: Time, ids: Ids) returns (p: Pid, c: Choice)
    requires w.procs != map[] && FreshIds(w.used, ids)
    ensures c.now == now && c.ids == ids && Enabled(w, Advance(p, c))
  {
    NoDeadlock(w.procs);
    p :| p in w.procs && !Blocked(w.procs, p);
    c := SomeClaimIsOk(w, now, ids);
  }

  /**
   The share lock that a foreign key takes on the referenced transaction is never contended: resolved
   references are processed, and only waiting transactions are locked by workers.
   */
  lemma ReferencedRowsAreFree(cfg: Config, w: World, pid: Pid, q: Pid)
    requires Inv(cfg, w) && pid in w.procs && w.procs[pid].Writing? && q in w.procs
    requires w.procs[pid].out.tx.referenceId.Some?
    ensures var r := w.procs[pid].out.tx.referenceId.value;
            r in w.db.txs && w.db.txs[r].status.Processed? && PendingRow(r) !in Holds(w.procs[q])
  {
    hide LedgerOk, EventsOk, NothingWithoutWallet, InboxOk, LocksExclude, IdsOk, SeqsOk, MailOk, RepliesOk, RowOk,
      DecidedOk, ProgressOk, OwnersUnique, KeysUnique, ExternalIdsUnique, OpeningsUnique, ReversalsUnique, OpenOk,
      ReplayOk, CtxOk, Coherent, ValidRequest;
    assert ProcOk(cfg, w, w.procs[pid]) && ProcOk(cfg, w, w.procs[q]);
    var p := w.procs[pid];
    OutcomeSound(cfg, w.db, w.sent, p.body, p.ref, p.reversed, p.out);
    HeldReference(cfg, w.db, w.sent, p.body, p.ref, p.reversed, p.out);
    if p.out.tx.referenceId == p.body.tx.referenceId && p.body.ctx.None? {
      assert ReferenceOk(w.db.txs, w.db.txs[p.body.tx.id]);
    }
    if PendingRow(p.out.tx.referenceId.value) in Holds(w.procs[q]) {
      HeldRowsWait(cfg, w, w.procs[q], p.out.tx.referenceId.value);
    }
  }

  lemma HeldRowsWait(cfg: Config, w: World, p: Proc, id: Uuid)
    requires ProcOk(cfg, w, p) && PendingRow(id) in Holds(p)
    ensures id in w.db.txs && w.db.txs[id].status.PendingReference?
  {}
}
