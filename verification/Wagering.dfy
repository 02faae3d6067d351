/**
 Provider operations and their state machine (internal/domain/wagering/transaction.go).
 Snapshot is the aggregate's state; the functions on it specify one transition each, and
 the class Transaction updates its fields in place and is proved against them.
 */
module Wagering {
  import opened Basics
  import opened Moneys

  datatype Kind = Opening | Bet | Win | Loss | Refund | Rollback {
    predicate IsReversal() {
      Refund? || Rollback?
    }
  }

  datatype Status = Pending | PendingReference | Processed | Rejected | Failed {
    predicate IsTerminal() {
      Processed? || Rejected? || Failed?
    }
  }

  datatype Origin = Internal | External

  /** NoFailure is the empty code. */
  datatype FailureCode =
    | NoFailure
    | InsufficientFundsCode | ReversalInsufficientFunds
    | ReferenceNotFound | ReferenceNotProcessed | ReferenceKindMismatch | ReferenceMismatch
    | ReferenceAmountMismatch | ReferenceAlreadyReversed
    | WalletPlayerMismatch | CurrencyMismatchCode
    | InfrastructureFailure

  /** The business fields of an operation; reference is "" when absent. */
  datatype ExternalRequest = ExternalRequest(
    providerId: string,
    externalId: string,
    playerId: Uuid,
    walletId: Uuid,
    roundId: string,
    gameId: string,
    kind: Kind,
    money: Money,
    reference: string)

  const MAX_IDENTIFIER_LEN := 256

  /** unicode.IsSpace, which strings.TrimSpace cuts. */
  predicate IsSpace(c: char) {
    || ('\t' <= c <= '\r') || c == ' ' || c == '\U{0085}' || c == '\U{00A0}' || c == '\U{1680}'
    || ('\U{2000}' <= c <= '\U{200A}') || c == '\U{2028}' || c == '\U{2029}' || c == '\U{202F}'
    || c == '\U{205F}' || c == '\U{3000}'
  }

  /** The length of a string in UTF-8 bytes, which is what Go's len counts. */
  function Utf8Len(s: string): nat {
    if s == "" then 0
    else
      Utf8Len(s[..|s| - 1]) +
      (var c := s[|s| - 1] as int; if c < 0x80 then 1 else if c < 0x800 then 2 else if c < 0x1_0000 then 3 else 4)
  }

  /** Not blank, no leading or trailing space, at most 256 bytes. */
  predicate ValidIdentifier(v: string) {
    && v != "" && !IsSpace(v[0]) && !IsSpace(v[|v| - 1])
    && Utf8Len(v) <= MAX_IDENTIFIER_LEN
  }

  predicate ValidAmount(kind: Kind, m: Money) {
    && m.valid && !m.IsNegative()
    && (if kind.Loss? then m.IsZero() else m.IsPositive())
  }

  predicate ValidReference(kind: Kind, externalId: string, reference: string) {
    && (kind.IsReversal() ==> reference != "")
    && (kind.Bet? || kind.Loss? ==> reference == "")
    && (reference != "" ==> ValidIdentifier(reference) && reference != externalId)
  }

  /** What NewExternalRequest accepts; every refusal is ErrValidation. */
  predicate ValidRequest(r: ExternalRequest) {
    && ValidIdentifier(r.providerId) && ValidIdentifier(r.externalId)
    && ValidIdentifier(r.roundId) && ValidIdentifier(r.gameId)
    && r.playerId != NIL && r.walletId != NIL
    && !r.kind.Opening?
    && ValidAmount(r.kind, r.money)
    && ValidReference(r.kind, r.externalId, r.reference)
  }

  /** The aggregate's state, and the persisted shape before it meets the table's columns. */
  datatype Snapshot = Snapshot(
    id: Uuid,
    origin: Origin,
    req: ExternalRequest,
    key: string,
    hash: string,
    correlationId: string,
    referenceId: Option<Uuid>,
    status: Status,
    failure: FailureCode,
    resultBalance: Option<Money>,
    attempts: nat,
    nextRetry: Option<Time>,
    processedAt: Option<Time>)

  function NewExternal(id: Uuid, req: ExternalRequest, key: string, hash: string,
                       correlationId: string): (r: Result<Snapshot>)
    ensures r.Err? ==> r.error == Validation
  {
    if id == NIL then Err(Validation)
    else if !ValidIdentifier(key) then Err(Validation)
    else if hash == "" then Err(Validation)
    else if !ValidRequest(req) then Err(Validation)
    else Ok(Snapshot(id, External, req, key, hash, correlationId, None, Pending, NoFailure, None, 0, None, None))
  }

  function OpeningRequest(walletId: Uuid, playerId: Uuid, initial: Money): ExternalRequest {
    ExternalRequest("", "", playerId, walletId, "", "", Opening, initial, "")
  }

  function NewOpening(id: Uuid, walletId: Uuid, playerId: Uuid, initial: Money,
                      correlationId: string): Result<Snapshot> {
    if id == NIL || walletId == NIL || playerId == NIL then Err(Validation)
    else if !initial.valid || !initial.IsPositive() then Err(Validation)
    else Ok(Snapshot(id, Internal, OpeningRequest(walletId, playerId, initial), "", "", correlationId,
                     None, Pending, NoFailure, None, 0, None, None))
  }

  /** The checks of Rehydrate. */
  predicate Rehydratable(s: Snapshot) {
    && s.id != NIL && s.req.walletId != NIL && s.req.playerId != NIL
    && s.req.money.valid
    && (s.origin.Internal? <==> s.req.kind.Opening?)
  }

  function MarkProcessed(s: Snapshot, balance: Money, now: Time): Result<Snapshot> {
    if s.status.IsTerminal() then Err(Terminal)
    else if !balance.valid || balance.currency != s.req.money.currency then Err(InvalidTransition)
    else Ok(s.(status := Processed, failure := NoFailure, resultBalance := Some(balance),
               nextRetry := None, processedAt := Some(now)))
  }

  function MarkRejected(s: Snapshot, code: FailureCode, balance: Money, now: Time): Result<Snapshot> {
    if s.status.IsTerminal() then Err(Terminal)
    else if code.NoFailure? || code.InfrastructureFailure? then Err(InvalidTransition)
    else Ok(s.(status := Rejected, failure := code,
               resultBalance := if balance.valid then Some(balance) else s.resultBalance,
               nextRetry := None, processedAt := Some(now)))
  }

  function MarkFailed(s: Snapshot, code: FailureCode, now: Time): Result<Snapshot> {
    if s.status.IsTerminal() then Err(Terminal)
    else Ok(s.(status := Failed, failure := if code.NoFailure? then InfrastructureFailure else code,
               nextRetry := None, processedAt := Some(now)))
  }

  function AwaitReference(s: Snapshot, nextRetry: Time): Result<Snapshot> {
    if s.status.IsTerminal() then Err(Terminal)
    else if !s.req.kind.IsReversal() && !s.req.kind.Win? then Err(InvalidTransition)
    else if s.req.reference == "" then Err(InvalidTransition)
    else Ok(s.(status := PendingReference, attempts := s.attempts + 1, nextRetry := Some(nextRetry)))
  }

  function ResolveReference(s: Snapshot, id: Uuid): Result<Snapshot> {
    if s.status.IsTerminal() then Err(Terminal)
    else if id == NIL then Err(InvalidTransition)
    else Ok(s.(referenceId := Some(id)))
  }

  /** One call of a transition method. */
  datatype Transition =
    | ToProcessed(balance: Money, now: Time)
    | ToRejected(code: FailureCode, balance: Money, now: Time)
    | ToFailed(code: FailureCode, now: Time)
    | ToAwaiting(nextRetry: Time)
    | ToResolved(reference: Uuid)

  function Fire(s: Snapshot, t: Transition): Result<Snapshot> {
    match t
    case ToProcessed(balance, now) => MarkProcessed(s, balance, now)
    case ToRejected(code, balance, now) => MarkRejected(s, code, balance, now)
    case ToFailed(code, now) => MarkFailed(s, code, now)
    case ToAwaiting(nextRetry) => AwaitReference(s, nextRetry)
    case ToResolved(reference) => ResolveReference(s, reference)
  }

  /** The state after a sequence of calls; a refused call changes nothing. */
  function Drive(s: Snapshot, ts: seq<Transition>): Snapshot {
    if ts == [] then s
    else
      var before := Drive(s, ts[..|ts| - 1]);
      var r := Fire(before, ts[|ts| - 1]);
      if r.Ok? then r.value else before
  }

  predicate SameIdentity(s: Snapshot, d: Snapshot) {
    d.id == s.id && d.origin == s.origin && d.req == s.req && d.key == s.key && d.hash == s.hash
  }

  predicate CoherentWaiting(s: Snapshot) {
    && s.attempts > 0 && s.nextRetry.Some? && s.processedAt.None? && s.failure.NoFailure? && s.resultBalance.None?
    && (s.req.kind.IsReversal() || s.req.kind.Win?) && s.req.reference != ""
  }

  predicate CoherentProcessed(s: Snapshot) {
    && s.resultBalance.Some? && s.failure.NoFailure? && s.processedAt.Some? && s.nextRetry.None?
    && s.resultBalance.value.valid && s.resultBalance.value.currency == s.req.money.currency
  }

  /** The state machine of the architecture document, as what every reachable aggregate looks like. */
  predicate Coherent(s: Snapshot) {
    match s.status
    case Pending => s.attempts == 0 && s.processedAt.None? && s.failure.NoFailure? && s.resultBalance.None?
    case PendingReference => CoherentWaiting(s)
    case Processed => CoherentProcessed(s)
    case Rejected => !s.failure.NoFailure? && !s.failure.InfrastructureFailure? && s.processedAt.Some? && s.nextRetry.None?
    case Failed => !s.failure.NoFailure? && s.processedAt.Some? && s.nextRetry.None?
  }

  lemma FireKeepsCoherence(s: Snapshot, t: Transition)
    requires Coherent(s)
    ensures Fire(s, t).Ok? ==> Coherent(Fire(s, t).value) && SameIdentity(s, Fire(s, t).value)
    ensures s.status.IsTerminal() ==> Fire(s, t) == Err(Terminal)
  {}

  /** Only a pending or waiting transaction can move, and each transition asks exactly for this much more. */
  lemma FiresExactly(s: Snapshot, t: Transition)
    ensures Fire(s, t).Ok? <==>
              && (s.status == Pending || s.status == PendingReference)
              && (t.ToProcessed? ==> t.balance.valid && t.balance.currency == s.req.money.currency)
              && (t.ToRejected? ==> t.code != NoFailure && t.code != InfrastructureFailure)
              && (t.ToAwaiting? ==> s.req.kind in {Win, Refund, Rollback} && s.req.reference != "")
              && (t.ToResolved? ==> t.reference != 0)
    ensures Fire(s, t).Err? ==> Fire(s, t).error == if s.status in {Processed, Rejected, Failed} then Terminal else InvalidTransition
  {}

  /**
   Whatever is called, in whatever order: identity fields never change, every reachable state is coherent,
   and once a prefix of the calls has made the aggregate terminal the rest of them changes nothing.
   */
  lemma {:induction false} TerminalIsForever(s: Snapshot, ts: seq<Transition>, k: nat)
    requires k <= |ts|
    requires Coherent(s)
    ensures Coherent(Drive(s, ts)) && SameIdentity(s, Drive(s, ts))
    ensures Drive(s, ts[..k]).status.IsTerminal() ==> Drive(s, ts) == Drive(s, ts[..k])
  {
    if |ts| == 0 {
      assert ts[..k] == ts;
    } else {
      var shorter := ts[..|ts| - 1];
      TerminalIsForever(s, shorter, if k < |ts| then k else |ts| - 1);
      FireKeepsCoherence(Drive(s, shorter), ts[|ts| - 1]);
      if k < |ts| {
        assert shorter[..k] == ts[..k];
      } else {
        assert ts[..k] == ts;
      }
    }
  }

  /** The aggregate object of the use cases. */
  class Transaction {
    const id: Uuid
    const origin: Origin
    const req: ExternalRequest
    const key: string
    const hash: string
    const correlationId: string
    var referenceId: Option<Uuid>
    var status: Status
    var failure: FailureCode
    var resultBalance: Option<Money>
    var attempts: nat
    var nextRetry: Option<Time>
    var processedAt: Option<Time>

    function State(): Snapshot
      reads this
    {
      Snapshot(id, origin, req, key, hash, correlationId, referenceId, status, failure, resultBalance,
               attempts, nextRetry, processedAt)
    }

    constructor (s: Snapshot)
      ensures State() == s
    {
      id, origin, req, key, hash, correlationId := s.id, s.origin, s.req, s.key, s.hash, s.correlationId;
      referenceId, status, failure, resultBalance := s.referenceId, s.status, s.failure, s.resultBalance;
      attempts, nextRetry, processedAt := s.attempts, s.nextRetry, s.processedAt;
    }

    method Process(balance: Money, now: Time) returns (e: Option<Error>)
      modifies this
      ensures var spec := MarkProcessed(old(State()), balance, now);
              if spec.Ok? then e.None? && State() == spec.value else e == Some(spec.error) && State() == old(State())
    {
      if status.IsTerminal() {
        return Some(Terminal);
      }
      if !balance.valid || balance.currency != req.money.currency {
        return Some(InvalidTransition);
      }
      status := Processed;
      failure := NoFailure;
      resultBalance := Some(balance);
      nextRetry := None;
      processedAt := Some(now);
      return None;
    }

    method Reject(code: FailureCode, balance: Money, now: Time) returns (e: Option<Error>)
      modifies this
      ensures var spec := MarkRejected(old(State()), code, balance, now);
              if spec.Ok? then e.None? && State() == spec.value else e == Some(spec.error) && State() == old(State())
    {
      if status.IsTerminal() {
        return Some(Terminal);
      }
      if code.NoFailure? || code.InfrastructureFailure? {
        return Some(InvalidTransition);
      }
      status := Rejected;
      failure := code;
      if balance.valid {
        resultBalance := Some(balance);
      }
      nextRetry := None;
      processedAt := Some(now);
      return None;
    }

    method Fail(code: FailureCode, now: Time) returns (e: Option<Error>)
      modifies this
      ensures var spec := MarkFailed(old(State()), code, now);
              if spec.Ok? then e.None? && State() == spec.value else e == Some(spec.error) && State() == old(State())
    {
      if status.IsTerminal() {
        return Some(Terminal);
      }
      status := Failed;
      failure := if code.NoFailure? then InfrastructureFailure else code;
      nextRetry := None;
      processedAt := Some(now);
      return None;
    }

    method Await(next: Time) returns (e: Option<Error>)
      modifies this
      ensures var spec := AwaitReference(old(State()), next);
              if spec.Ok? then e.None? && State() == spec.value else e == Some(spec.error) && State() == old(State())
    {
      if status.IsTerminal() {
        return Some(Terminal);
      }
      if !req.kind.IsReversal() && !req.kind.Win? {
        return Some(InvalidTransition);
      }
      if req.reference == "" {
        return Some(InvalidTransition);
      }
      status := PendingReference;
      attempts := attempts + 1;
      nextRetry := Some(next);
      return None;
    }

    method Resolve(reference: Uuid) returns (e: Option<Error>)
      modifies this
      ensures var spec := ResolveReference(old(State()), reference);
              if spec.Ok? then e.None? && State() == spec.value else e == Some(spec.error) && State() == old(State())
    {
      if status.IsTerminal() {
        return Some(Terminal);
      }
      if reference == NIL {
        return Some(InvalidTransition);
      }
      referenceId := Some(reference);
      return None;
    }
  }
}
