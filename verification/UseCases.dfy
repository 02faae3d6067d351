/**
 The use cases of internal/app as functions of the tables, each run at once.
 */
module UseCases {
  import opened Basics
  import opened Wallets
  import opened Wagering
  import opened Rules
  import opened Database
  import PayloadHash

  /** Statements one after another: the tables they leave, or the error of the first one refused. */
  ghost function RunWrites(db: DB, ws: seq<Write>, seqNo: SeqNo): Result<DB> {
    if ws == [] then Ok(db)
    else
      var before :- RunWrites(db, ws[..|ws| - 1], seqNo);
      var e := Violation(before, ws[|ws| - 1]);
      if e.Some? then Err(e.value) else Ok(ApplyWrite(before, ws[|ws| - 1], seqNo))
  }

  // ---- one operation ----

  /** The reference and the reversal flag an operation would read now. */
  ghost function ReferenceNow(db: DB, tx: Snapshot, base: WalletState): Option<Snapshot> {
    if ReadsReference(tx, base) then ReferenceOf(db.txs, tx) else None
  }

  ghost predicate ReversedNow(db: DB, tx: Snapshot, base: WalletState) {
    var ref := ReferenceNow(db, tx, base);
    ReadsReversal(tx, ref) && HasProcessedReversal(db.txs, ref.value.id)
  }

  /** The operation, read and decided at once. */
  ghost function DecideNow(cfg: Config, db: DB, tx: Snapshot, base: WalletState, entryId: Uuid,
                           now: Time): Result<Outcome> {
    Decide(tx, base, ReferenceNow(db, tx, base), ReversedNow(db, tx, base), entryId, now, cfg)
  }

  // ---- Process ----

  datatype Command = Command(req: ExternalRequest, key: string, correlationId: string)

  /** ProcessResult. */
  datatype Answer = Answer(tx: Snapshot, replay: bool)

  /** lookupExisting: the transaction to replay, nothing for a new operation, or a conflict. */
  ghost function LookUp(db: DB, cmd: Command): Result<Option<Snapshot>> {
    var hash := PayloadHash.Preimage(cmd.req);
    var byKey := FindByKey(db.txs, cmd.req.providerId, cmd.key);
    if byKey.Some? then
      if byKey.value.hash == hash && byKey.value.req.money.valid then Ok(Some(FromRow(byKey.value))) else Err(IdempotencyConflict)
    else
      var byExternalId := FindByExternalId(db.txs, cmd.req.providerId, cmd.req.externalId);
      if byExternalId.None? then Ok(None)
      else if byExternalId.value.key != cmd.key then Err(ExternalIdConflict)
      else if byExternalId.value.hash == hash && byExternalId.value.req.money.valid then Ok(Some(FromRow(byExternalId.value)))
      else Err(IdempotencyConflict)
  }

  /** What an attempt that succeeds commits and answers. */
  datatype Success = Success(db: DB, answer: Answer)

  /** ProcessIn in its own SQL transaction. */
  ghost function Attempt(cfg: Config, db: DB, seqNo: SeqNo, cmd: Command, ids: Ids, now: Time): Result<Success> {
    if cmd.key == "" then Err(Validation)
    else
      var found :- LookUp(db, cmd);
      if found.Some? then Ok(Success(db, Answer(found.value, true)))
      else if cmd.req.walletId !in db.wallets then Err(WalletNotFound)
      else
        var tx :- NewExternal(ids.tx, cmd.req, cmd.key, PayloadHash.Preimage(cmd.req), cmd.correlationId);
        var out :- DecideNow(cfg, db, tx, db.wallets[cmd.req.walletId], ids.entry, now);
        var db' :- RunWrites(db, BodyWrites(out, true, ids), seqNo);
        Ok(Success(db', Answer(out.tx, false)))
  }

  // ---- the pending worker ----

  /** One committed attempt at a claimed transaction. */
  ghost function Retry(cfg: Config, db: DB, seqNo: SeqNo, tx: Snapshot, ids: Ids, now: Time): Result<DB> {
    if tx.req.walletId !in db.wallets then Err(WalletNotFound)
    else
      var out :- DecideNow(cfg, db, tx, db.wallets[tx.req.walletId], ids.entry, now);
      RunWrites(db, BodyWrites(out, false, ids), seqNo)
  }
}
