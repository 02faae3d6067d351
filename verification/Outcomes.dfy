/**
 The table of outcomes: exactly when an operation is processed, waits, fails, or is rejected, and with
 which code (apply, resolveReferenceTx and park of internal/app/process.go). It is written out in fields
 and kinds, on none of the predicates that the rules themselves are made of.
 */
module Outcomes {
  import opened Basics
  import opened Wallets
  import opened Wagering
  import opened Rules

  /** Nothing usable is known of the reference yet. */
  predicate Unsettled(ref: Option<Snapshot>) {
    ref.None? || ref.value.status.Pending? || ref.value.status.PendingReference?
  }

  predicate Completed(ref: Option<Snapshot>) {
    ref.Some? && ref.value.status.Processed?
  }

  /** A WIN or REFUND goes back to a BET, a ROLLBACK to a BET, WIN or REFUND. */
  predicate KindsMatch(kind: Kind, refKind: Kind) {
    || (kind in {Win, Refund} && refKind == Bet)
    || (kind == Rollback && refKind in {Bet, Win, Refund})
  }

  /** Both are of one player, wallet, round and currency. */
  predicate Together(tx: Snapshot, ref: Snapshot) {
    && tx.req.playerId == ref.req.playerId && tx.req.walletId == ref.req.walletId
    && tx.req.roundId == ref.req.roundId && tx.req.money.currency == ref.req.money.currency
  }

  /** The first thing wrong with a settled reference, in the order of the checks. */
  function ReferenceFault(tx: Snapshot, ref: Snapshot, reversed: bool): FailureCode {
    if ref.status != Processed then ReferenceNotProcessed
    else if !KindsMatch(tx.req.kind, ref.req.kind) then ReferenceKindMismatch
    else if !Together(tx, ref) then ReferenceMismatch
    else if tx.req.kind in {Refund, Rollback} && ref.req.money.minor != tx.req.money.minor then ReferenceAmountMismatch
    else if tx.req.kind in {Refund, Rollback} && reversed then ReferenceAlreadyReversed
    else NoFailure
  }

  predicate FitsWallet(tx: Snapshot, w: WalletState) {
    w.playerId == tx.req.playerId && w.currency == tx.req.money.currency
  }

  /** A REFUND or ROLLBACK always names a reference, a WIN may. */
  predicate NeedsReference(tx: Snapshot) {
    tx.req.kind in {Refund, Rollback} || (tx.req.kind == Win && tx.req.reference != "")
  }

  /** Nothing stands in the way of the operation but the balance. */
  predicate Eligible(tx: Snapshot, w: WalletState, ref: Option<Snapshot>, reversed: bool) {
    && FitsWallet(tx, w)
    && (NeedsReference(tx) ==> !Unsettled(ref) && ReferenceFault(tx, ref.value, reversed) == NoFailure)
  }

  /** A BET takes money from the wallet, and so does the ROLLBACK of anything but a BET; everything else adds to it. */
  function DirectionOf(tx: Snapshot, ref: Option<Snapshot>): Direction {
    if tx.req.kind == Bet then Debit
    else if tx.req.kind == Rollback && !(ref.Some? && ref.value.req.kind == Bet) then Debit
    else Credit
  }

  /** The balance can take the movement. */
  predicate Affordable(tx: Snapshot, w: WalletState, ref: Option<Snapshot>) {
    || tx.req.kind.Loss?
    || (if DirectionOf(tx, ref) == Debit then tx.req.money.minor <= w.balance.minor
        else FitsInt64(w.balance.minor + tx.req.money.minor))
  }

  /** The code an operation is rejected with, or NoFailure when it is not rejected. */
  function RejectionOf(tx: Snapshot, w: WalletState, ref: Option<Snapshot>, reversed: bool, cfg: Config): FailureCode {
    if w.playerId != tx.req.playerId then WalletPlayerMismatch
    else if w.currency != tx.req.money.currency then CurrencyMismatchCode
    else if NeedsReference(tx) && Unsettled(ref) then if tx.attempts >= cfg.maxAttempts then ReferenceNotFound else NoFailure
    else if NeedsReference(tx) && ReferenceFault(tx, ref.value, reversed) != NoFailure then ReferenceFault(tx, ref.value, reversed)
    else if !Affordable(tx, w, ref) && DirectionOf(tx, ref) == Debit then
      if tx.req.kind.Bet? then InsufficientFundsCode else ReversalInsufficientFunds
    else NoFailure
  }

  /** A processed operation other than LOSS moves its amount, once and in its direction; nothing else moves anything. */
  predicate MovesAsDecided(tx: Snapshot, w: WalletState, ref: Option<Snapshot>, out: Outcome) {
    if out.tx.status == Processed && tx.req.kind != Loss then
      && out.entry.Some? && out.entry.value.direction == DirectionOf(tx, ref) && out.entry.value.amount == tx.req.money
      && (DirectionOf(tx, ref) == Debit ==> out.wallet.balance.minor == w.balance.minor - tx.req.money.minor)
      && (DirectionOf(tx, ref) == Credit ==> out.wallet.balance.minor == w.balance.minor + tx.req.money.minor)
    else out.entry.None? && out.wallet == w
  }

  ghost predicate Tabulated(tx: Snapshot, w: WalletState, ref: Option<Snapshot>, reversed: bool, cfg: Config,
                            r: Result<Outcome>) {
    && (r.Err? <==> Eligible(tx, w, ref, reversed) && !Affordable(tx, w, ref) && DirectionOf(tx, ref) == Credit)
    && (r.Ok? && r.value.tx.status.Processed? <==> Eligible(tx, w, ref, reversed) && Affordable(tx, w, ref))
    && (r.Ok? && r.value.tx.status.PendingReference? <==>
          FitsWallet(tx, w) && NeedsReference(tx) && Unsettled(ref) && tx.attempts < cfg.maxAttempts)
    && (r.Ok? && r.value.tx.status.Rejected? <==> RejectionOf(tx, w, ref, reversed, cfg) != NoFailure)
    && (r.Ok? && r.value.tx.status.Rejected? ==> r.value.tx.failure == RejectionOf(tx, w, ref, reversed, cfg))
    && (r.Ok? ==> MovesAsDecided(tx, w, ref, r.value))
  }

  lemma ResolveIsTabulated(tx: Snapshot, w: WalletState, ref: Option<Snapshot>, reversed: bool, now: Time, cfg: Config)
    requires Undecided(tx) && ReadsReference(tx, w) && (ref.Some? ==> ref.value.id != NIL && ref.value.req.money.valid)
    requires Completed(ref) || Unsettled(ref) || ref.value.status.IsTerminal()
    ensures var r := Resolve(tx, w, ref, reversed, now, cfg);
            && r.Ok?
            && (r.value.Go? <==> !Unsettled(ref) && ReferenceFault(tx, ref.value, reversed) == NoFailure)
            && (r.value.Go? ==> r.value.ref == ref.value && r.value.tx == tx.(referenceId := Some(ref.value.id)))
            && (r.value.Stop? && Unsettled(ref) ==>
                  if tx.attempts < cfg.maxAttempts then r.value.tx.status.PendingReference?
                  else r.value.tx.status.Rejected? && r.value.tx.failure == ReferenceNotFound)
            && (r.value.Stop? && !Unsettled(ref) ==>
                  r.value.tx.status.Rejected? && r.value.tx.failure == ReferenceFault(tx, ref.value, reversed))
  {
    hide ValidIdentifier, Coherent;
  }

  lemma FinishIsTabulated(tx: Snapshot, t: Snapshot, w: WalletState, ref: Option<Snapshot>,
                          shortfall: Option<FailureCode>, entryId: Uuid, now: Time)
    requires Undecided(tx) && ValidWallet(w) && FitsWallet(tx, w) && entryId != NIL && !tx.req.kind.Loss?
    requires t == tx || (ref.Some? && t == tx.(referenceId := Some(ref.value.id)))
    requires DirectionOf(tx, ref) == Debit ==>
               shortfall == Some(if tx.req.kind.Bet? then InsufficientFundsCode else ReversalInsufficientFunds)
    ensures var moved := if DirectionOf(tx, ref) == Debit then DebitSpec(w, entryId, tx.id, tx.req.money) else CreditSpec(w, entryId, tx.id, tx.req.money);
            var r := Finish(t, w, moved, shortfall, now);
            && (r.Err? <==> !Affordable(tx, w, ref) && DirectionOf(tx, ref) == Credit)
            && (r.Ok? ==> (r.value.tx.status.Processed? <==> Affordable(tx, w, ref)))
            && (r.Ok? && !r.value.tx.status.Processed? ==>
                  r.value.tx.status.Rejected? && Some(r.value.tx.failure) == shortfall && DirectionOf(tx, ref) == Debit)
            && (r.Ok? ==> MovesAsDecided(tx, w, ref, r.value))
  {
    hide DebitSpec, CreditSpec, ValidRequest, DirectionOf;
    MoneyMoves(tx);
    DebitOutcome(w, entryId, tx.id, tx.req.money);
    CreditOutcome(w, entryId, tx.id, tx.req.money);
    MovementsExplainTheBalance(w, entryId, tx.id, tx.req.money);
  }

  lemma MoneyMoves(tx: Snapshot)
    requires Undecided(tx) && !tx.req.kind.Loss?
    ensures tx.req.money.valid && tx.req.money.IsPositive() && tx.id != NIL && !tx.req.kind.Opening? && !tx.status.IsTerminal()
  {}

  /** Every operation ends exactly as the table says. */
  lemma OutcomesAreTabulated(tx: Snapshot, w: WalletState, ref: Option<Snapshot>, reversed: bool, entryId: Uuid,
                             now: Time, cfg: Config)
    requires Undecided(tx) && ValidWallet(w) && tx.req.walletId == w.id && entryId != NIL
    requires ref.Some? ==> ref.value.id != NIL && ref.value.req.money.valid
    requires !ReadsReference(tx, w) ==> ref.None?
    ensures Tabulated(tx, w, ref, reversed, cfg, Decide(tx, w, ref, reversed, entryId, now, cfg))
  {
    hide Undecided, Resolve, Finish, DebitSpec, CreditSpec, SameRound, AllowedReference, ReferenceFault;
    WaitingOrNew(tx);
    if FitsWallet(tx, w) && !tx.req.kind.Loss? {
      MoneyMoves(tx);
      if ReadsReference(tx, w) {
        Settling(ref);
        ResolveIsTabulated(tx, w, ref, reversed, now, cfg);
        var res := Resolve(tx, w, ref, reversed, now, cfg).value;
        if res.Go? {
          FinishIsTabulated(tx, res.tx, w, ref, if DirectionOf(tx, ref) == Debit then Some(ReversalInsufficientFunds) else None, entryId, now);
        }
      } else {
        FinishIsTabulated(tx, tx, w, ref, if tx.req.kind.Bet? then Some(InsufficientFundsCode) else None, entryId, now);
      }
    }
  }

  lemma WaitingOrNew(tx: Snapshot)
    requires Undecided(tx)
    ensures tx.req.money.valid && !tx.req.kind.Opening? && !tx.status.IsTerminal() && (tx.req.kind.IsReversal() ==> tx.req.reference != "")
    ensures tx.status.Pending? || tx.status.PendingReference?
  {}

  lemma Settling(ref: Option<Snapshot>)
    ensures Completed(ref) || Unsettled(ref) || ref.value.status.IsTerminal()
  {}

  // ---- in so many words ----

  /**
   When a reference resolves: it is processed, of a kind that may be referred to, of the same player, wallet, round
   and currency, and for a REFUND or ROLLBACK of the same amount and not reversed before.
   */
  lemma ResolvesExactly(tx: Snapshot, w: WalletState, ref: Snapshot, reversed: bool, now: Time, cfg: Config)
    requires Undecided(tx) && ReadsReference(tx, w) && ref.id != NIL && ref.req.money.valid
    requires ref.status != Pending && ref.status != PendingReference
    ensures var r := Resolve(tx, w, Some(ref), reversed, now, cfg);
            && r.Ok?
            && (r.value.Go? <==>
                  && ref.status == Processed
                  && ((tx.req.kind == Win && ref.req.kind == Bet)
                      || (tx.req.kind == Refund && ref.req.kind == Bet)
                      || (tx.req.kind == Rollback && (ref.req.kind == Bet || ref.req.kind == Win || ref.req.kind == Refund)))
                  && ref.req.playerId == tx.req.playerId && ref.req.walletId == tx.req.walletId
                  && ref.req.roundId == tx.req.roundId && ref.req.money.currency == tx.req.money.currency
                  && (tx.req.kind == Refund || tx.req.kind == Rollback ==> ref.req.money.minor == tx.req.money.minor && !reversed))
  {
    hide Resolve, Undecided;
    Settling(Some(ref));
    ResolveIsTabulated(tx, w, Some(ref), reversed, now, cfg);
  }

  /** A WIN that names a processed BET of its round is paid, unless the new balance leaves int64. */
  lemma WinOnItsBet(tx: Snapshot, w: WalletState, bet: Snapshot, reversed: bool, entryId: Uuid, now: Time, cfg: Config)
    requires Undecided(tx) && ValidWallet(w) && tx.req.walletId == w.id && entryId != NIL && bet.id != NIL && bet.req.money.valid
    requires tx.req.kind == Win && tx.req.reference != ""
    requires w.playerId == tx.req.playerId && w.currency == tx.req.money.currency
    requires bet.req.kind == Bet && bet.status == Processed && bet.req.playerId == tx.req.playerId && bet.req.walletId == tx.req.walletId
    requires bet.req.roundId == tx.req.roundId && bet.req.money.currency == tx.req.money.currency
    ensures var r := Decide(tx, w, Some(bet), reversed, entryId, now, cfg);
            if MIN_INT64 <= w.balance.minor + tx.req.money.minor <= MAX_INT64 then
              && r.Ok? && r.value.tx.status == Processed && r.value.entry.Some? && r.value.entry.value.direction == Credit
              && r.value.entry.value.amount == tx.req.money && r.value.wallet.balance.minor == w.balance.minor + tx.req.money.minor
            else r.Err?
  {
    hide Decide, Undecided;
    OutcomesAreTabulated(tx, w, Some(bet), reversed, entryId, now, cfg);
  }
}
