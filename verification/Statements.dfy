/**
 The statements of one operation, run one after another: what they amount to, and why none of
 them can be refused except for a taken provider key or external id.
 */
module Statements {
  import opened Basics
  import opened Wallets
  import opened Wagering
  import opened Rules
  import opened Database
  import opened Invariants
  import opened Commit

  lemma {:induction false} ApplyInTwoParts(db: DB, a: seq<Write>, b: seq<Write>, seqNo: SeqNo)
    ensures ApplyAll(db, a + b, seqNo) == ApplyAll(ApplyAll(db, a, seqNo), b, seqNo)
  {
    if b == [] {
      assert a + b == a;
    } else {
      var n := |b| - 1;
      ApplyInTwoParts(db, a, b[..n], seqNo);
      assert (a + b)[..|a + b| - 1] == a + b[..n];
    }
  }

  lemma ApplyOneMore(db: DB, ws: seq<Write>, at: nat, seqNo: SeqNo)
    requires at < |ws|
    ensures ApplyAll(db, ws[..at + 1], seqNo) == ApplyWrite(ApplyAll(db, ws[..at], seqNo), ws[at], seqNo)
  {
    assert ws[..at + 1][..at] == ws[..at];
  }

  function WithTx(db: DB, out: Outcome): DB {
    db.(txs := db.txs[out.tx.id := ToRow(out.tx)])
  }

  function WithLedger(db: DB, out: Outcome, seqNo: SeqNo): DB {
    db.(ledger := db.ledger + NewRecords(out, seqNo))
  }

  function WithWallet(db: DB, out: Outcome): DB {
    db.(wallets := db.wallets[out.wallet.id := out.wallet])
  }

  function WithEvents(db: DB, out: Outcome, ids: Ids, n: nat): DB
    requires n <= |OutEvents(out, ids)|
  {
    db.(outbox := db.outbox + OutEvents(out, ids)[..n])
  }

  /** The rows a process sees after `at` of its persistOutcome statements, db being those after its transaction row. */
  function PersistView(db: DB, out: Outcome, ids: Ids, seqNo: SeqNo, at: nat): DB
    requires at <= |PersistWrites(out, ids)| && |PersistWrites(out, ids)| == |OutEvents(out, ids)| + (if out.entry.Some? then 2 else 0)
  {
    if out.entry.None? then WithEvents(db, out, ids, at)
    else if at == 0 then db
    else if at == 1 then WithLedger(db, out, seqNo)
    else WithEvents(WithWallet(WithLedger(db, out, seqNo), out), out, ids, at - 2)
  }

  /** What makes the statements of a decided operation succeed. */
  ghost predicate Writable(db: DB, base: WalletState, out: Outcome, ids: Ids) {
    && base.id in db.wallets && db.wallets[base.id] == base && ValidWallet(base) && out.tx.req.walletId == base.id
    && out.tx.id != NIL && Coherent(out.tx)
    && (out.tx.status.Processed? || out.tx.status.Rejected? || out.tx.status.PendingReference?)
    && (out.entry.Some? ==> out.tx.status.Processed?)
    && MovesFrom(base, out)
    && (out.entry.Some? ==> WellFormedEntry(out.entry.value) && out.entry.value.transactionId == out.tx.id && out.entry.value.id == ids.entry)
    && IdsUnused(db, ids)
  }

  lemma PersistShape(db: DB, base: WalletState, out: Outcome, ids: Ids)
    requires Writable(db, base, out, ids)
    ensures |PersistWrites(out, ids)| == |OutEvents(out, ids)| + (if out.entry.Some? then 2 else 0)
    ensures var ws := PersistWrites(out, ids);
            && (out.entry.Some? ==>
                  && ws[0] == AppendLedger(out.entry.value) && ws[1] == UpdateWallet(out.wallet, base.version)
                  && |OutEvents(out, ids)| == 2)
            && forall i :: 0 <= i < |OutEvents(out, ids)| ==>
                             ws[i + (if out.entry.Some? then 2 else 0)] == AddEvent(Ok(OutEvents(out, ids)[i]))
  {}

  lemma {:induction false} PersistStep(db: DB, base: WalletState, out: Outcome, ids: Ids, seqNo: SeqNo, at: nat)
    requires Writable(db, base, out, ids)
    requires |PersistWrites(out, ids)| == |OutEvents(out, ids)| + (if out.entry.Some? then 2 else 0)
    requires at <= |PersistWrites(out, ids)|
    ensures ApplyAll(db, PersistWrites(out, ids)[..at], seqNo) == PersistView(db, out, ids, seqNo, at)
  {
    hide PersistWrites, OutEvents, IdsUnused, Coherent, WellFormedEntry;
    PersistShape(db, base, out, ids);
    var ws, es := PersistWrites(out, ids), OutEvents(out, ids);
    if at == 0 {
      assert es[..0] == [] && db.outbox + [] == db.outbox;
    } else {
      PersistStep(db, base, out, ids, seqNo, at - 1);
      ApplyOneMore(db, ws, at - 1, seqNo);
      var k := if out.entry.Some? then at - 3 else at - 1;
      if k >= 0 {
        assert es[..k + 1] == es[..k] + [es[k]];
        assert db.outbox + es[..k + 1] == (db.outbox + es[..k]) + [es[k]];
      } else if at == 2 {
        assert es[..0] == [] && db.outbox + [] == db.outbox;
      }
    }
  }

  /** None of the persistOutcome statements is refused. */
  lemma PersistNeverFails(db: DB, base: WalletState, out: Outcome, ids: Ids, seqNo: SeqNo, at: nat)
    requires Writable(db, base, out, ids)
    requires |PersistWrites(out, ids)| == |OutEvents(out, ids)| + (if out.entry.Some? then 2 else 0)
    requires at < |PersistWrites(out, ids)|
    requires out.tx.id in db.txs
    requires out.entry.Some? ==> forall k :: 0 <= k < |db.ledger| ==> db.ledger[k].entry.transactionId != out.tx.id
    ensures Violation(ApplyAll(db, PersistWrites(out, ids)[..at], seqNo), PersistWrites(out, ids)[at]) == None
  {
    PersistShape(db, base, out, ids);
    PersistStep(db, base, out, ids, seqNo, at);
    var view := PersistView(db, out, ids, seqNo, at);
    var es := OutEvents(out, ids);
    var k := if out.entry.Some? then at - 2 else at;
    if k >= 0 {
      assert PersistWrites(out, ids)[at] == AddEvent(Ok(es[k]));
      assert view.outbox == db.outbox + es[..k];
      forall j | 0 <= j < |view.outbox| ensures view.outbox[j].id != es[k].id {
        if j < |db.outbox| {
          assert view.outbox[j] == db.outbox[j];
        } else {
          assert view.outbox[j] == es[j - |db.outbox|];
        }
      }
    }
  }

  // ---- the whole body ----

  function BodyView(db: DB, out: Outcome, ids: Ids, isNew: bool, seqNo: SeqNo, at: nat): DB
    requires |PersistWrites(out, ids)| == |OutEvents(out, ids)| + (if out.entry.Some? then 2 else 0)
    requires at <= |BodyWrites(out, isNew, ids)|
  {
    var n := |TxWrites(out, isNew)|;
    if at < n then db else PersistView(WithTx(db, out), out, ids, seqNo, at - n)
  }

  /** The claimed row, updated in place, is the decided row. */
  ghost predicate ReplacesRow(txs: map<Uuid, TxRow>, out: Outcome, isNew: bool) {
    if isNew then out.tx.id !in txs
    else out.tx.id in txs && Updated(txs[out.tx.id], ToRow(out.tx)) == ToRow(out.tx)
  }

  lemma TxWritesApply(db: DB, out: Outcome, isNew: bool, seqNo: SeqNo, at: nat)
    requires ReplacesRow(db.txs, out, isNew)
    requires at <= |TxWrites(out, isNew)|
    ensures ApplyAll(db, TxWrites(out, isNew)[..at], seqNo) == if at < |TxWrites(out, isNew)| then db else WithTx(db, out)
  {
    var ws := TxWrites(out, isNew);
    assert ApplyAll(db, ws[..0], seqNo) == db;
    ApplyOneMore(db, ws, 0, seqNo);
    if isNew {
      ApplyOneMore(db, ws, 1, seqNo);
      ApplyOneMore(db, ws, 2, seqNo);
    }
  }

  /** The rows the process sees after `at` statements of its body. */
  lemma BodyStage(db: DB, base: WalletState, out: Outcome, ids: Ids, isNew: bool, seqNo: SeqNo, at: nat)
    requires Writable(db, base, out, ids) && ReplacesRow(db.txs, out, isNew)
    requires at <= |BodyWrites(out, isNew, ids)|
    requires |PersistWrites(out, ids)| == |OutEvents(out, ids)| + (if out.entry.Some? then 2 else 0)
    ensures ApplyAll(db, BodyWrites(out, isNew, ids)[..at], seqNo) == BodyView(db, out, ids, isNew, seqNo, at)
  {
    var a, b := TxWrites(out, isNew), PersistWrites(out, ids);
    var n := |a|;
    if at < n {
      assert (a + b)[..at] == a[..at];
      TxWritesApply(db, out, isNew, seqNo, at);
    } else {
      assert (a + b)[..at] == a + b[..at - n] && a[..n] == a;
      TxWritesApply(db, out, isNew, seqNo, n);
      ApplyInTwoParts(db, a, b[..at - n], seqNo);
      PersistStep(WithTx(db, out), base, out, ids, seqNo, at - n);
    }
  }

  /** All statements together do what the commit lemmas are about. */
  lemma BodyAmountsTo(db: DB, base: WalletState, out: Outcome, ids: Ids, isNew: bool, seqNo: SeqNo)
    requires Writable(db, base, out, ids) && ReplacesRow(db.txs, out, isNew)
    ensures ApplyAll(db, BodyWrites(out, isNew, ids), seqNo) == After(db, out, ids, seqNo)
  {
    PersistShape(db, base, out, ids);
    var ws := BodyWrites(out, isNew, ids);
    BodyStage(db, base, out, ids, isNew, seqNo, |ws|);
    assert ws[..|ws|] == ws;
    assert OutEvents(out, ids)[..|OutEvents(out, ids)|] == OutEvents(out, ids);
    assert out.entry.None? ==> db.ledger + NewRecords(out, seqNo) == db.ledger;
    assert out.entry.None? ==> db.wallets[out.wallet.id := out.wallet] == db.wallets;
  }

  /** Ready for the statements, apart from the two reservations and the sequence number. */
  lemma ReadyIsWritable(db: DB, base: WalletState, tx: Snapshot, ref: Option<Snapshot>, reversed: bool, out: Outcome,
                        ids: Ids, isNew: bool, seqNo: SeqNo)
    requires WalletsOk(db.wallets) && TxsOk(db.txs, db.wallets)
    requires Ready(db, base, tx, ref, reversed, out, ids, isNew, seqNo)
    ensures Writable(db, base, out, ids) && ReplacesRow(db.txs, out, isNew)
  {
    OwnTransaction(db.txs, db.wallets, tx, isNew);
  }

  /** The insert or update of the transaction row is never refused. */
  lemma TxWriteSucceeds(db: DB, base: WalletState, tx: Snapshot, out: Outcome, isNew: bool)
    requires Decided(db, base, tx, out, isNew) && ReplacesRow(db.txs, out, isNew)
    requires RowOk(out.tx.id, ToRow(out.tx)) && ReferenceOk(db.txs, ToRow(out.tx))
    requires var row := ToRow(out.tx);
             row.status.Processed? && row.req.kind.IsReversal() && row.referenceId.Some? ==> !HasProcessedReversal(db.txs, row.referenceId.value)
    ensures Violation(db, if isNew then InsertTx(ToRow(out.tx)) else UpdateTx(ToRow(out.tx))) == None
  {
    var row := ToRow(out.tx);
    assert !OpeningClash(db, row);
    assert !ReversalClash(db, row);
    assert ReferencesExist(db, row);
    if !isNew {
      assert GuardAllows(db.txs[row.id], row);
    }
  }

  lemma PersistPartSucceeds(db: DB, base: WalletState, out: Outcome, ids: Ids, isNew: bool, seqNo: SeqNo, at: nat)
    requires Writable(db, base, out, ids) && ReplacesRow(db.txs, out, isNew)
    requires EntriesOk(db.txs, db.ledger) && NotFinal(db.txs, out.tx.id)
    requires |TxWrites(out, isNew)| <= at < |BodyWrites(out, isNew, ids)|
    requires |PersistWrites(out, ids)| == |OutEvents(out, ids)| + (if out.entry.Some? then 2 else 0)
    ensures Violation(ApplyAll(db, BodyWrites(out, isNew, ids)[..at], seqNo), BodyWrites(out, isNew, ids)[at]) == None
  {
    var n := |TxWrites(out, isNew)|;
    BodyStage(db, base, out, ids, isNew, seqNo, at);
    var db' := WithTx(db, out);
    forall k | 0 <= k < |db'.ledger| ensures db'.ledger[k].entry.transactionId != out.tx.id {
      assert EntryOk(db.txs, db.ledger[k].entry);
    }
    PersistStep(db', base, out, ids, seqNo, at - n);
    PersistNeverFails(db', base, out, ids, seqNo, at - n);
  }

  /** Once the provider's key and external id are reserved, no statement of the body can be refused. */
  lemma BodyNeverFails(db: DB, base: WalletState, tx: Snapshot, ref: Option<Snapshot>, reversed: bool, out: Outcome,
                       ids: Ids, isNew: bool, seqNo: SeqNo, at: nat)
    requires TablesOk(db) && EntriesOk(db.txs, db.ledger)
    requires Ready(db, base, tx, ref, reversed, out, ids, isNew, seqNo)
    requires at < |BodyWrites(out, isNew, ids)| && (isNew ==> at >= 2)
    ensures Violation(ApplyAll(db, BodyWrites(out, isNew, ids)[..at], seqNo), BodyWrites(out, isNew, ids)[at]) == None
  {
    hide Ready, RowBefore, Writable, ReplacesRow, RowOk, ReferenceOk, WalletsOk, TxsOk, OwnersUnique, KeysUnique,
      ExternalIdsUnique, OpeningsUnique, ReferencesOk, ReversalsUnique, EntriesOk, PersistWrites, Violation,
      OutEvents;
    ReadyIsWritable(db, base, tx, ref, reversed, out, ids, isNew, seqNo);
    ReadyIsDecided(db, base, tx, ref, reversed, out, ids, isNew, seqNo);
    PersistShape(db, base, out, ids);
    var n := |TxWrites(out, isNew)|;
    if at < n {
      NewReferenceOk(db, base, tx, ref, reversed, out, ids, isNew, seqNo);
      BodyStage(db, base, out, ids, isNew, seqNo, at);
      TxWriteSucceeds(db, base, tx, out, isNew);
    } else {
      PersistPartSucceeds(db, base, out, ids, isNew, seqNo, at);
    }
  }
}
