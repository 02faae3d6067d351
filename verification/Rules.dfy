/**
 The business rules of one operation against the locked wallet (apply, resolveReferenceTx,
 allowedReference and park of internal/app/process.go), as a function of what the operation reads:
 the referenced transaction and whether a processed reversal of it exists.
 */
module Rules {
  import opened Basics
  import opened Moneys
  import opened Wallets
  import opened Wagering
  import Backoff

  datatype Config = Config(base: Int64, max: Int64, maxAttempts: int)

  /** The defaults of NewService. */
  function Effective(c: Config): Config {
    Config(if c.base <= 0 then Backoff.SECOND else c.base,
           if c.max <= 0 then 60 * Backoff.SECOND else c.max,
           if c.maxAttempts <= 0 then 10 else c.maxAttempts)
  }

  predicate ValidConfig(c: Config) {
    c.base > 0 && c.max > 0 && c.maxAttempts > 0
  }

  predicate AllowedReference(kind: Kind, refKind: Kind) {
    match kind
    case Win => refKind.Bet?
    case Refund => refKind.Bet?
    case Rollback => refKind.Bet? || refKind.Win? || refKind.Refund?
    case _ => false
  }

  function Park(tx: Snapshot, balance: Money, now: Time, cfg: Config): Result<Snapshot> {
    if tx.attempts >= cfg.maxAttempts then MarkRejected(tx, ReferenceNotFound, balance, now)
    else AwaitReference(tx, now + Backoff.Delay(cfg.base, cfg.max, tx.attempts + 1))
  }

  /** done = true is Stop: tx reached a state that ends this attempt. */
  datatype Resolution = Stop(tx: Snapshot) | Go(tx: Snapshot, ref: Snapshot)

  function StopWith(r: Result<Snapshot>): Result<Resolution> {
    if r.Ok? then Ok(Stop(r.value)) else Err(r.error)
  }

  predicate SameRound(tx: Snapshot, ref: Snapshot) {
    && ref.req.playerId == tx.req.playerId && ref.req.walletId == tx.req.walletId
    && ref.req.roundId == tx.req.roundId && ref.req.money.currency == tx.req.money.currency
  }

  function Resolve(tx: Snapshot, w: WalletState, ref: Option<Snapshot>, reversed: bool, now: Time,
                   cfg: Config): Result<Resolution> {
    if ref.None? then StopWith(Park(tx, w.balance, now, cfg))
    else
      var r := ref.value;
      if r.status.Pending? || r.status.PendingReference? then StopWith(Park(tx, w.balance, now, cfg))
      else if !r.status.Processed? then StopWith(MarkRejected(tx, ReferenceNotProcessed, w.balance, now))
      else if !AllowedReference(tx.req.kind, r.req.kind) then StopWith(MarkRejected(tx, ReferenceKindMismatch, w.balance, now))
      else if !SameRound(tx, r) then StopWith(MarkRejected(tx, ReferenceMismatch, w.balance, now))
      else if tx.req.kind.IsReversal() && !r.req.money.Equal(tx.req.money) then
        StopWith(MarkRejected(tx, ReferenceAmountMismatch, w.balance, now))
      else if tx.req.kind.IsReversal() && reversed then
        StopWith(MarkRejected(tx, ReferenceAlreadyReversed, w.balance, now))
      else
        var t :- ResolveReference(tx, r.id);
        Ok(Go(t, r))
  }

  /** The operation looks its reference up. */
  predicate ReadsReference(tx: Snapshot, w: WalletState) {
    && w.playerId == tx.req.playerId && w.currency == tx.req.money.currency
    && (tx.req.kind.IsReversal() || (tx.req.kind.Win? && tx.req.reference != ""))
  }

  /** The operation goes on to ask for an earlier reversal of the reference it found. */
  predicate ReadsReversal(tx: Snapshot, ref: Option<Snapshot>) {
    && ref.Some? && ref.value.status.Processed?
    && AllowedReference(tx.req.kind, ref.value.req.kind) && SameRound(tx, ref.value)
    && tx.req.kind.IsReversal() && ref.value.req.money.Equal(tx.req.money)
  }

  datatype Outcome = Outcome(tx: Snapshot, wallet: WalletState, entry: Option<LedgerEntry>)

  function Unmoved(r: Result<Snapshot>, w: WalletState): Result<Outcome> {
    if r.Ok? then Ok(Outcome(r.value, w, None)) else Err(r.error)
  }

  /** The tail of apply: a movement either completes tx, is refused for lack of funds, or fails. */
  function Finish(tx: Snapshot, w: WalletState, moved: Result<Movement>, shortfall: Option<FailureCode>,
                  now: Time): Result<Outcome> {
    if moved.Err? then
      if moved.error.InsufficientFunds? && shortfall.Some? then Unmoved(MarkRejected(tx, shortfall.value, w.balance, now), w)
      else Err(moved.error)
    else
      var m := moved.value;
      var t :- MarkProcessed(tx, m.wallet.balance, now);
      Ok(Outcome(t, m.wallet, Some(m.entry)))
  }

  /** What apply makes of tx, the wallet and the ledger. */
  function Decide(tx: Snapshot, w: WalletState, ref: Option<Snapshot>, reversed: bool,
                  entryId: Uuid, now: Time, cfg: Config): Result<Outcome> {
    if w.playerId != tx.req.playerId then Unmoved(MarkRejected(tx, WalletPlayerMismatch, w.balance, now), w)
    else if w.currency != tx.req.money.currency then Unmoved(MarkRejected(tx, CurrencyMismatchCode, w.balance, now), w)
    else
      match tx.req.kind
      case Bet =>
        Finish(tx, w, DebitSpec(w, entryId, tx.id, tx.req.money), Some(InsufficientFundsCode), now)
      case Loss =>
        Unmoved(MarkProcessed(tx, w.balance, now), w)
      case Win =>
        if tx.req.reference != "" then
          var res :- Resolve(tx, w, ref, reversed, now, cfg);
          if res.Stop? then Ok(Outcome(res.tx, w, None))
          else Finish(res.tx, w, CreditSpec(w, entryId, tx.id, tx.req.money), None, now)
        else Finish(tx, w, CreditSpec(w, entryId, tx.id, tx.req.money), None, now)
      case Refund =>
        var res :- Resolve(tx, w, ref, reversed, now, cfg);
        if res.Stop? then Ok(Outcome(res.tx, w, None))
        else Finish(res.tx, w, CreditSpec(w, entryId, tx.id, tx.req.money), None, now)
      case Rollback =>
        var res :- Resolve(tx, w, ref, reversed, now, cfg);
        if res.Stop? then Ok(Outcome(res.tx, w, None))
        else if res.ref.req.kind.Bet? then
          Finish(res.tx, w, CreditSpec(w, entryId, tx.id, tx.req.money), None, now)
        else
          Finish(res.tx, w, DebitSpec(w, entryId, tx.id, tx.req.money), Some(ReversalInsufficientFunds), now)
      case Opening => Err(Validation)
  }

  /** An operation that is about to be decided: fresh from NewExternal or claimed while waiting. */
  predicate Undecided(tx: Snapshot) {
    && tx.id != NIL && tx.origin.External?
    && ValidRequest(tx.req)
    && (tx.status.Pending? || tx.status.PendingReference?)
    && Coherent(tx)
  }

  /** Which way the money of a processed operation goes. */
  function MoneyDirection(kind: Kind, refKind: Option<Kind>): Direction {
    match kind
    case Bet => Debit
    case Rollback => if refKind == Some(Bet) then Credit else Debit
    case _ => Credit
  }

  /** The reference of a processed operation, as the rules demand it. */
  predicate SoundReference(tx: Snapshot, ref: Snapshot) {
    && tx.referenceId == Some(ref.id)
    && ref.status.Processed?
    && AllowedReference(tx.req.kind, ref.req.kind)
    && SameRound(tx, ref)
    && (tx.req.kind.IsReversal() ==> ref.req.money.minor == tx.req.money.minor)
  }

  /** What apply promises about a decided operation. */
  ghost predicate SoundOutcome(tx: Snapshot, w: WalletState, ref: Option<Snapshot>, reversed: bool, entryId: Uuid,
                               out: Outcome) {
    && SameIdentity(tx, out.tx) && out.tx.correlationId == tx.correlationId && out.tx.attempts >= tx.attempts
    && Coherent(out.tx)
    && (out.tx.status.Processed? || out.tx.status.Rejected? || out.tx.status.PendingReference?)
    && (out.tx.status.PendingReference? ==> out.tx.attempts == tx.attempts + 1)
    && (out.tx.status.IsTerminal() ==> out.tx.attempts == tx.attempts && out.tx.resultBalance == Some(out.wallet.balance))
    // Money moves exactly for processed operations other than LOSS, by the amount, in the direction of the kind.
    && (out.entry.Some? <==> out.tx.status.Processed? && !tx.req.kind.Loss?)
    && (out.entry.None? ==> out.wallet == w)
    && (out.entry.Some? ==>
          Explains(w, Movement(out.wallet, out.entry.value), entryId, tx.id, tx.req.money,
                   MoneyDirection(tx.req.kind, if ref.Some? then Some(ref.value.req.kind) else None)))
    // Processed operations fit the wallet and carry a sound reference when they have one to carry.
    && (out.tx.status.Processed? ==> w.playerId == tx.req.playerId && w.currency == tx.req.money.currency)
    && (out.tx.status.Processed? && ReadsReference(tx, w) ==>
          ref.Some? && SoundReference(out.tx, ref.value) && (tx.req.kind.IsReversal() ==> !reversed))
    && (!ReadsReference(tx, w) ==> out.tx.referenceId == tx.referenceId)
    && (out.tx.referenceId != tx.referenceId ==> ref.Some? && out.tx.referenceId == Some(ref.value.id) && ref.value.status.Processed?)
  }

  lemma ResolveIsSound(tx: Snapshot, w: WalletState, ref: Option<Snapshot>, reversed: bool, now: Time, cfg: Config)
    requires Undecided(tx) && ValidWallet(w) && ReadsReference(tx, w)
    requires ref.Some? ==> ref.value.id != NIL
    ensures var r := Resolve(tx, w, ref, reversed, now, cfg);
            && r.Ok?
            && (r.value.Stop? ==>
                  SoundOutcome(tx, w, ref, reversed, 0, Outcome(r.value.tx, w, None)))
            && (r.value.Go? ==>
                  ref == Some(r.value.ref) && ResolvedTo(tx, r.value.tx, ref, reversed))
  {}

  /** The tail of apply, once the reference (if any) is resolved. */
  lemma FinishIsSound(tx: Snapshot, w: WalletState, dir: Direction, shortfall: Option<FailureCode>, entryId: Uuid,
                      now: Time)
    requires tx.id != NIL && entryId != NIL && (tx.status.Pending? || tx.status.PendingReference?)
    requires ValidWallet(w) && w.currency == tx.req.money.currency && tx.req.money.valid && tx.req.money.IsPositive()
    requires dir.Debit? ==> shortfall.Some? && !shortfall.value.NoFailure? && !shortfall.value.InfrastructureFailure?
    ensures var moved := if dir.Debit? then DebitSpec(w, entryId, tx.id, tx.req.money) else CreditSpec(w, entryId, tx.id, tx.req.money);
            var r := Finish(tx, w, moved, shortfall, now);
            && (r.Err? ==> r.error == Overflow && !FitsInt64(w.balance.minor + tx.req.money.minor))
            && (r.Ok? ==>
                  && (r.value.entry.None? ==>
                        && dir.Debit? && r.value.wallet == w
                        && MarkRejected(tx, shortfall.value, w.balance, now) == Ok(r.value.tx))
                  && (r.value.entry.Some? ==>
                        && Explains(w, Movement(r.value.wallet, r.value.entry.value), entryId, tx.id, tx.req.money, dir)
                        && MarkProcessed(tx, r.value.wallet.balance, now) == Ok(r.value.tx)))
  {
    MovementsExplainTheBalance(w, entryId, tx.id, tx.req.money);
    DebitOutcome(w, entryId, tx.id, tx.req.money);
    CreditOutcome(w, entryId, tx.id, tx.req.money);
  }

  /** How apply ends for a reference that was resolved. */
  predicate ResolvedTo(tx: Snapshot, t: Snapshot, ref: Option<Snapshot>, reversed: bool) {
    && ref.Some?
    && t == tx.(referenceId := Some(ref.value.id))
    && ref.value.status.Processed? && AllowedReference(tx.req.kind, ref.value.req.kind)
    && SameRound(tx, ref.value)
    && (tx.req.kind.IsReversal() ==> ref.value.req.money.minor == tx.req.money.minor && !reversed)
  }

  lemma MovedIsSound(tx: Snapshot, t: Snapshot, w: WalletState, ref: Option<Snapshot>, reversed: bool,
                     dir: Direction, shortfall: Option<FailureCode>, entryId: Uuid, now: Time)
    requires Undecided(tx) && ValidWallet(w) && entryId != NIL
    requires w.playerId == tx.req.playerId && w.currency == tx.req.money.currency
    requires if ReadsReference(tx, w) then ResolvedTo(tx, t, ref, reversed) else t == tx
    requires dir == MoneyDirection(tx.req.kind, if ref.Some? then Some(ref.value.req.kind) else None)
    requires !tx.req.kind.Loss?
    requires dir.Debit? ==> shortfall.Some? && !shortfall.value.NoFailure? && !shortfall.value.InfrastructureFailure?
    ensures var moved := if dir.Debit? then DebitSpec(w, entryId, tx.id, tx.req.money) else CreditSpec(w, entryId, tx.id, tx.req.money);
            var r := Finish(t, w, moved, shortfall, now);
            && (r.Ok? ==> SoundOutcome(tx, w, ref, reversed, entryId, r.value))
            && (r.Err? ==> r.error == Overflow && !FitsInt64(w.balance.minor + tx.req.money.minor))
  {
    FinishIsSound(t, w, dir, shortfall, entryId, now);
  }

  /** apply fails only on a credit that would overflow the balance; otherwise its outcome is sound. */
  lemma DecideIsSound(tx: Snapshot, w: WalletState, ref: Option<Snapshot>, reversed: bool, entryId: Uuid, now: Time,
                      cfg: Config)
    requires Undecided(tx) && ValidWallet(w) && tx.req.walletId == w.id && entryId != NIL
    requires ref.Some? ==> ref.value.id != NIL
    ensures var r := Decide(tx, w, ref, reversed, entryId, now, cfg);
            && (r.Ok? ==> SoundOutcome(tx, w, ref, reversed, entryId, r.value))
            && (r.Err? ==> r.error == Overflow && !FitsInt64(w.balance.minor + tx.req.money.minor))
  {
    if w.playerId != tx.req.playerId || w.currency != tx.req.money.currency || tx.req.kind.Loss? {
    } else if ReadsReference(tx, w) {
      ResolveIsSound(tx, w, ref, reversed, now, cfg);
      var res := Resolve(tx, w, ref, reversed, now, cfg).value;
      if res.Go? {
        var dir := MoneyDirection(tx.req.kind, Some(res.ref.req.kind));
        MovedIsSound(tx, res.tx, w, ref, reversed, dir, if dir.Debit? then Some(ReversalInsufficientFunds) else None, entryId, now);
      }
    } else {
      MovedIsSound(tx, tx, w, ref, reversed, MoneyDirection(tx.req.kind, None),
                   if tx.req.kind.Bet? then Some(InsufficientFundsCode) else None, entryId, now);
    }
  }
}
