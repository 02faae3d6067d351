/**
 What one round of the pending-reference worker achieves: waiting transactions come closer to their
 end, and at a standing clock no transaction is visited twice.
 */
module Worker {
  import opened Basics
  import opened Rules
  import opened Database
  import opened UseCases
  import opened Waiting
  import opened Sums
  import Backoff

  /** The earliest due transaction was retried, and the attempt failed. */
  ghost predicate FailedEarliest(cfg: Config, db: DB, seqNo: SeqNo, id: Uuid, claimAt: Time, ids: Ids, now: Time, e: Error) {
    && EarliestDue(db.txs, id, claimAt) && db.txs[id].req.money.valid
    && Retry(cfg, db, seqNo, FromRow(db.txs[id]), ids, now) == Err(e)
  }

  /** The earliest due transaction was retried and committed. */
  ghost predicate AttemptedEarliest(cfg: Config, db: DB, db': DB, id: Uuid, claimAt: Time, ids: Ids, now: Time) {
    && EarliestDue(db.txs, id, claimAt) && db.txs[id].req.money.valid
    && exists seqNo :: Retry(cfg, db, seqNo, FromRow(db.txs[id]), ids, now) == Ok(db')
  }

  // ---- what a round changes ----

  lemma {:induction false} RowsOfBody(db: DB, out: Outcome, ids: Ids, seqNo: SeqNo, n: nat)
    requires out.tx.id in db.txs && n <= |PersistWrites(out, ids)|
    ensures var ws := BodyWrites(out, false, ids);
            n + 1 <= |ws| && (RunWrites(db, ws[..n + 1], seqNo).Ok? ==>
              RunWrites(db, ws[..n + 1], seqNo).value.txs == db.txs[out.tx.id := Updated(db.txs[out.tx.id], ToRow(out.tx))])
  {
    hide Violation;
    var ws := BodyWrites(out, false, ids);
    if n == 0 {
      assert ws[..1] == [ws[0]] && ws[..1][..0] == [];
    } else {
      RowsOfBody(db, out, ids, seqNo, n - 1);
      assert ws[..n + 1][..n] == ws[..n];
      PersistWritesNoRows(out, ids);
    }
  }

  lemma PersistWritesNoRows(out: Outcome, ids: Ids)
    ensures var ws := PersistWrites(out, ids); forall i :: 0 <= i < |ws| ==> !ws[i].InsertTx? && !ws[i].UpdateTx?
  {}

  /** A waiting row, retried. */
  lemma RoundOutcome(cfg: Config, db: DB, seqNo: SeqNo, id: Uuid, ids: Ids, now: Time)
    requires id in db.txs && db.txs[id].id == id && db.txs[id].req.money.valid && db.txs[id].status.PendingReference?
    requires Retry(cfg, db, seqNo, FromRow(db.txs[id]), ids, now).Ok?
    ensures var db' := Retry(cfg, db, seqNo, FromRow(db.txs[id]), ids, now).value;
            && id in db'.txs && db'.txs == db.txs[id := db'.txs[id]]
            && Remaining(cfg, db'.txs[id]) < Remaining(cfg, db.txs[id])
            && (db'.txs[id].status.PendingReference? ==>
                  db'.txs[id].nextRetry == Some(now + Backoff.Delay(cfg.base, cfg.max, db.txs[id].attempts + 1)))
  {
    hide Violation, ApplyWrite, RunWrites, PersistWrites, Decide;
    var tx := FromRow(db.txs[id]);
    var base := db.wallets[tx.req.walletId];
    var out := DecideNow(cfg, db, tx, base, ids.entry, now).value;
    DecidedWaits(cfg, tx, base, ReferenceNow(db, tx, base), ReversedNow(db, tx, base), ids.entry, now);
    var ws := BodyWrites(out, false, ids);
    RowsOfBody(db, out, ids, seqNo, |PersistWrites(out, ids)|);
    assert ws[..|PersistWrites(out, ids)| + 1] == ws;
  }

  // ---- how long the worker can go on ----

  ghost function Remainders(cfg: Config, txs: map<Uuid, TxRow>): Uuid -> int {
    (id: Uuid) => if id in txs then Remaining(cfg, txs[id]) else 0
  }

  /** The committed attempts that all waiting transactions together can still take. */
  ghost function TotalRemaining(cfg: Config, txs: map<Uuid, TxRow>): (n: int)
    ensures n >= 0
  {
    SumIsNatural(txs.Keys, Remainders(cfg, txs));
    Sum(txs.Keys, Remainders(cfg, txs))
  }

  lemma {:induction false} SumIsNatural(s: set<Uuid>, f: Uuid -> int)
    requires forall x :: f(x) >= 0
    ensures Sum(s, f) >= 0
    decreases |s|
  {
    if s != {} {
      var x :| x in s;
      SumTakeOut(s, f, x);
      SumIsNatural(s - {x}, f);
    }
  }

  lemma RoundUsesUp(cfg: Config, txs: map<Uuid, TxRow>, id: Uuid, row: TxRow)
    requires id in txs && Remaining(cfg, row) < Remaining(cfg, txs[id])
    ensures TotalRemaining(cfg, txs[id := row]) < TotalRemaining(cfg, txs)
  {
    var f, g := Remainders(cfg, txs), Remainders(cfg, txs[id := row]);
    assert txs[id := row].Keys == txs.Keys;
    SumTakeOut(txs.Keys, f, id);
    SumTakeOut(txs.Keys, g, id);
    SumAgrees(txs.Keys - {id}, f, g);
  }

  // ---- at a standing clock ----

  ghost function DueSet(txs: map<Uuid, TxRow>, now: Time): set<Uuid> {
    set id | id in txs && txs[id].status.PendingReference? && txs[id].nextRetry.Some? && txs[id].nextRetry.value <= now
  }

  /** The backoff is positive, so a transaction parked again is not due at the same instant. */
  lemma RoundClearsDue(cfg: Config, db: DB, seqNo: SeqNo, id: Uuid, ids: Ids, now: Time, claimAt: Time)
    requires ValidConfig(cfg) && Backoff.NeverWraps(cfg.base, cfg.max) && claimAt <= now
    requires id in db.txs && db.txs[id].id == id && db.txs[id].req.money.valid && id in DueSet(db.txs, claimAt)
    requires Retry(cfg, db, seqNo, FromRow(db.txs[id]), ids, now).Ok?
    ensures DueSet(Retry(cfg, db, seqNo, FromRow(db.txs[id]), ids, now).value.txs, claimAt) == DueSet(db.txs, claimAt) - {id}
  {
    hide Retry;
    RoundOutcome(cfg, db, seqNo, id, ids, now);
    Backoff.DelayBounds(cfg.base, cfg.max, db.txs[id].attempts + 1, db.txs[id].attempts + 1);
  }

  /** Every claim sees one instant, and decides at that instant or later. */
  ghost predicate StandingClock(clock: nat -> Time, deciding: nat -> Time) {
    forall k: nat :: clock(k) == clock(0) && clock(0) <= deciding(k)
  }

  lemma RoundProgresses(cfg: Config, db: DB, db': DB, id: Uuid, claimAt: Time, ids: Ids, now: Time)
    requires AttemptedEarliest(cfg, db, db', id, claimAt, ids, now) && db.txs[id].id == id
    ensures TotalRemaining(cfg, db'.txs) < TotalRemaining(cfg, db.txs)
  {
    hide Retry, TotalRemaining;
    var seqNo :| Retry(cfg, db, seqNo, FromRow(db.txs[id]), ids, now) == Ok(db');
    RoundOutcome(cfg, db, seqNo, id, ids, now);
    RoundUsesUp(cfg, db.txs, id, db'.txs[id]);
  }

  lemma RoundVisitsOne(cfg: Config, db: DB, db': DB, id: Uuid, claimAt: Time, ids: Ids, now: Time)
    requires AttemptedEarliest(cfg, db, db', id, claimAt, ids, now) && db.txs[id].id == id
    requires ValidConfig(cfg) && Backoff.NeverWraps(cfg.base, cfg.max) && claimAt <= now
    ensures |DueSet(db'.txs, claimAt)| + 1 == |DueSet(db.txs, claimAt)|
  {
    hide Retry, Backoff.NeverWraps;
    var seqNo :| Retry(cfg, db, seqNo, FromRow(db.txs[id]), ids, now) == Ok(db');
    RoundClearsDue(cfg, db, seqNo, id, ids, now, claimAt);
    assert id in DueSet(db.txs, claimAt);
  }

  lemma NobodyDue(txs: map<Uuid, TxRow>, now: Time)
    requires NothingDue(txs, now)
    ensures DueSet(txs, now) == {}
  {}
}
