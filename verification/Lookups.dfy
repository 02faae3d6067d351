/**
 What the queries of an operation find on good tables, written out in the rows' fields (lookupExisting of
 internal/app/process.go and the queries of internal/adapters/postgres/transaction_repo.go).
 */
module Lookups {
  import opened Basics
  import opened Wagering
  import opened Database
  import opened UseCases
  import opened Invariants
  import opened Processes
  import PayloadHash

  /** A provider's transaction under the command's key. */
  predicate OfKey(r: TxRow, cmd: Command) {
    r.origin == External && r.req.providerId == cmd.req.providerId && r.key == cmd.key
  }

  /** A provider's transaction under the command's external id. */
  predicate OfExternalId(r: TxRow, cmd: Command) {
    r.origin == External && r.req.providerId == cmd.req.providerId && r.req.externalId == cmd.req.externalId
  }

  ghost predicate KeyUsed(db: DB, cmd: Command) {
    exists id :: id in db.txs && OfKey(db.txs[id], cmd)
  }

  ghost predicate ExternalIdUsed(db: DB, cmd: Command) {
    exists id :: id in db.txs && OfExternalId(db.txs[id], cmd)
  }

  /** The key is used, for this payload or for another. */
  ghost predicate KeyUsedFor(db: DB, cmd: Command, same: bool) {
    exists id :: id in db.txs && OfKey(db.txs[id], cmd) && (db.txs[id].req == cmd.req) == same
  }

  lemma UsedIsTaken(db: DB, cmd: Command)
    ensures KeyUsed(db, cmd) <==> KeyTaken(db.txs, cmd.req.providerId, cmd.key)
    ensures ExternalIdUsed(db, cmd) <==> ExternalIdTaken(db.txs, cmd.req.providerId, cmd.req.externalId)
  {
    if KeyUsed(db, cmd) {
      var id :| id in db.txs && OfKey(db.txs[id], cmd);
      assert HasKey(db.txs[id], cmd.req.providerId, cmd.key);
    }
    if KeyTaken(db.txs, cmd.req.providerId, cmd.key) {
      var id :| id in db.txs && HasKey(db.txs[id], cmd.req.providerId, cmd.key);
      assert OfKey(db.txs[id], cmd);
    }
    if ExternalIdUsed(db, cmd) {
      var id :| id in db.txs && OfExternalId(db.txs[id], cmd);
      assert HasExternalId(db.txs[id], cmd.req.providerId, cmd.req.externalId);
    }
    if ExternalIdTaken(db.txs, cmd.req.providerId, cmd.req.externalId) {
      var id :| id in db.txs && HasExternalId(db.txs[id], cmd.req.providerId, cmd.req.externalId);
      assert OfExternalId(db.txs[id], cmd);
    }
  }

  lemma RowOfPayload(db: DB, id: Uuid, cmd: Command)
    requires TxsOk(db.txs, db.wallets) && id in db.txs && OfKey(db.txs[id], cmd)
    ensures db.txs[id].req.money.valid
    ensures db.txs[id].hash == PayloadHash.Preimage(cmd.req) <==> db.txs[id].req == cmd.req
  {
    hide PayloadHash.Preimage, Coherent, TerminalShape, ValidRequest;
    assert RowOk(id, db.txs[id]);
    PayloadHash.PreimageIsInjective(db.txs[id].req, cmd.req);
  }

  /**
   What lookupExisting answers: a replay exactly of the provider's transaction with this key and payload, a key
   conflict exactly on another payload under the key, an external id conflict exactly when the key is unused and
   the external id is not, and nothing exactly when both are unused.
   */
  lemma LooksUpExactly(db: DB, cmd: Command)
    requires TxsOk(db.txs, db.wallets) && KeysUnique(db.txs)
    ensures LookUp(db, cmd) == Ok(None) <==> !KeyUsed(db, cmd) && !ExternalIdUsed(db, cmd)
    ensures LookUp(db, cmd) == Err(IdempotencyConflict) <==> KeyUsedFor(db, cmd, false)
    ensures LookUp(db, cmd) == Err(ExternalIdConflict) <==> !KeyUsed(db, cmd) && ExternalIdUsed(db, cmd)
    ensures LookUp(db, cmd).Ok? && LookUp(db, cmd).value.Some? <==> KeyUsedFor(db, cmd, true)
    ensures forall id :: id in db.txs && OfKey(db.txs[id], cmd) && db.txs[id].req == cmd.req ==>
                           db.txs[id].req.money.valid && LookUp(db, cmd) == Ok(Some(FromRow(db.txs[id])))
  {
    hide TxsOk, KeysUnique, PayloadHash.Preimage, FromRow;
    UsedIsTaken(db, cmd);
    if KeyUsed(db, cmd) {
      var id :| id in db.txs && OfKey(db.txs[id], cmd);
      RowOfPayload(db, id, cmd);
      FoundByKey(db.txs, id, cmd.req.providerId, cmd.key);
      forall other | other in db.txs && OfKey(db.txs[other], cmd) ensures db.txs[other] == db.txs[id] {
        FoundByKey(db.txs, other, cmd.req.providerId, cmd.key);
      }
    } else if ExternalIdUsed(db, cmd) {
      FoundHasOtherKey(db, cmd);
    }
  }

  lemma FoundHasOtherKey(db: DB, cmd: Command)
    requires !KeyUsed(db, cmd) && ExternalIdTaken(db.txs, cmd.req.providerId, cmd.req.externalId)
    ensures FindByExternalId(db.txs, cmd.req.providerId, cmd.req.externalId).Some?
    ensures FindByExternalId(db.txs, cmd.req.providerId, cmd.req.externalId).value.key != cmd.key
  {
    var r := FindByExternalId(db.txs, cmd.req.providerId, cmd.req.externalId);
    var id :| id in db.txs && db.txs[id] == r.value && HasExternalId(db.txs[id], cmd.req.providerId, cmd.req.externalId);
    assert !OfKey(db.txs[id], cmd);
  }

  /** What an operation reads: the provider's transaction its reference names, and whether that was refunded or rolled back. */
  lemma ReadsExactly(db: DB, tx: Snapshot)
    requires TxsOk(db.txs, db.wallets) && ExternalIdsUnique(db.txs)
    ensures ReferenceOf(db.txs, tx).None? <==>
              !exists id :: id in db.txs && db.txs[id].origin == External && db.txs[id].req.providerId == tx.req.providerId
                            && db.txs[id].req.externalId == tx.req.reference
    ensures forall id :: id in db.txs && db.txs[id].origin == External && db.txs[id].req.providerId == tx.req.providerId
                         && db.txs[id].req.externalId == tx.req.reference ==>
                           db.txs[id].req.money.valid && ReferenceOf(db.txs, tx) == Some(FromRow(db.txs[id]))
    ensures forall x: Uuid :: HasProcessedReversal(db.txs, x) <==>
                          exists id :: id in db.txs && db.txs[id].referenceId == Some(x) && db.txs[id].status == Processed
                                       && (db.txs[id].req.kind == Refund || db.txs[id].req.kind == Rollback)
  {
    hide TxsOk, ExternalIdsUnique, ReferenceOf, FromRow;
    forall id | id in db.txs && db.txs[id].origin == External && db.txs[id].req.providerId == tx.req.providerId
                && db.txs[id].req.externalId == tx.req.reference
      ensures db.txs[id].req.money.valid && ReferenceOf(db.txs, tx) == Some(FromRow(db.txs[id]))
    {
      ReferenceIs(db.txs, db.wallets, id, tx);
    }
    if !ExternalIdTaken(db.txs, tx.req.providerId, tx.req.reference) {
      NoReference(db.txs, tx);
    }
    forall x: Uuid ensures HasProcessedReversal(db.txs, x) <==>
                       exists id :: id in db.txs && db.txs[id].referenceId == Some(x) && db.txs[id].status == Processed
                                    && (db.txs[id].req.kind == Refund || db.txs[id].req.kind == Rollback)
    {
      ReversedExactly(db.txs, x);
    }
  }

  lemma ReversedExactly(txs: map<Uuid, TxRow>, x: Uuid)
    ensures HasProcessedReversal(txs, x) <==>
              exists id :: id in txs && txs[id].referenceId == Some(x) && txs[id].status == Processed
                           && (txs[id].req.kind == Refund || txs[id].req.kind == Rollback)
  {
    if HasProcessedReversal(txs, x) {
      var id :| id in txs && IsProcessedReversalOf(txs[id], x);
      assert txs[id].referenceId == Some(x) && txs[id].status == Processed;
    }
    if exists id :: id in txs && txs[id].referenceId == Some(x) && txs[id].status == Processed
                    && (txs[id].req.kind == Refund || txs[id].req.kind == Rollback) {
      var id :| id in txs && txs[id].referenceId == Some(x) && txs[id].status == Processed
                && (txs[id].req.kind == Refund || txs[id].req.kind == Rollback);
      assert IsProcessedReversalOf(txs[id], x);
    }
  }

  /** Not recorded before, under its key or its external id. */
  ghost predicate IsNew(db: DB, cmd: Command) {
    !KeyUsed(db, cmd) && !ExternalIdUsed(db, cmd)
  }
}
