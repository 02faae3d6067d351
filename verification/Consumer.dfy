/**
 One delivery of a queue message, as the consumer handles it (handle, classify, deadLetter and delete of
 internal/adapters/sqs/consumer.go). Whether a call to the broker succeeds is a parameter.
 */
module Consumers {
  import opened Basics
  import opened Wagering
  import opened Rules
  import opened Database
  import opened UseCases
  import opened Engine
  import opened Processes
  import opened Stores
  import opened Services
  import opened Requests
  import Backoff
  import PayloadHash

  /** What the SQL transaction of a delivery comes to. */
  datatype Handling = Done(db: DB) | Permanent | Transient

  function Classify(e: Error): Handling {
    if IsPermanent(e) then Permanent else Transient
  }

  /** The delivery of a well-formed message: inbox row and operation together, or neither. */
  ghost function HandleNow(cfg: Config, db: DB, seqNo: SeqNo, m: Message, ids: Ids, now: Time): Handling
    requires m.Operation?
  {
    var key := InboxKey(CONSUMER, m.messageId);
    var hash := PayloadHash.InboxPreimage(m.req, m.key);
    if key in db.inbox then if db.inbox[key] == hash then Done(db) else Permanent
    else
      var r := Attempt(cfg, db.(inbox := db.inbox[key := hash]), seqNo, Command(m.req, m.key, m.messageId), ids, now);
      if r.Ok? then Done(r.value.db) else Classify(r.error)
  }

  /** The operation of a message whose inbox row is inserted in the same SQL transaction. */
  ghost function AttemptFor(cfg: Config, db: DB, seqNo: SeqNo, m: Message, ids: Ids, now: Time): Result<Success>
    requires m.Operation?
  {
    var withRow := db.(inbox := db.inbox[InboxKey(CONSUMER, m.messageId) := PayloadHash.InboxPreimage(m.req, m.key)]);
    Attempt(cfg, withRow, seqNo, Command(m.req, m.key, m.messageId), ids, now)
  }

  /** A new message is put aside exactly for what trying again cannot change, and tried again for anything else. */
  lemma DeliveriesExactly(cfg: Config, db: DB, seqNo: SeqNo, m: Message, ids: Ids, now: Time)
    requires m.Operation? && InboxKey(CONSUMER, m.messageId) !in db.inbox
    ensures var r, h := AttemptFor(cfg, db, seqNo, m, ids, now), HandleNow(cfg, db, seqNo, m, ids, now);
            && (h.Permanent? <==> r.Err? && (r.error == Validation || r.error == IdempotencyConflict
                                              || r.error == ExternalIdConflict || r.error == WalletNotFound))
            && (h.Transient? <==> r.Err? && r.error != Validation && r.error != IdempotencyConflict
                                  && r.error != ExternalIdConflict && r.error != WalletNotFound)
            && (h.Done? <==> r.Ok?) && (r.Ok? ==> h.db == r.value.db)
  {
    hide Attempt, PayloadHash.InboxPreimage;
  }

  /** A well-formed message about a wallet that does not exist, with key and external id unused. */
  lemma UnknownWalletIsAnError(cfg: Config, db: DB, seqNo: SeqNo, m: Message, ids: Ids, now: Time)
    requires m.Operation? && m.key != "" && m.req.walletId !in db.wallets
    requires forall id :: id in db.txs && db.txs[id].origin == External && db.txs[id].req.providerId == m.req.providerId ==>
                            db.txs[id].key != m.key && db.txs[id].req.externalId != m.req.externalId
    ensures AttemptFor(cfg, db, seqNo, m, ids, now) == Err(WalletNotFound)
  {
    hide PayloadHash.Preimage, PayloadHash.InboxPreimage, DecideNow, NewExternal, RunWrites;
  }

  /** What the consumer lets near the database. */
  lemma AcceptedExactly(m: Message)
    ensures Engine.Acceptable(m) <==> m.Operation? && m.key != "" && WellFormedRequest(m.req)
  {
    hide ValidRequest, WellFormedRequest;
    if m.Operation? {
      RequestsExactly(m.req);
    }
  }

  lemma {:induction false} WritesKeepInbox(db: DB, ws: seq<Write>, seqNo: SeqNo)
    ensures RunWrites(db, ws, seqNo).Ok? ==> RunWrites(db, ws, seqNo).value.inbox == db.inbox
  {
    hide Violation;
    if ws != [] {
      WritesKeepInbox(db, ws[..|ws| - 1], seqNo);
    }
  }

  /** A delivery that is done has its message absorbed; one that is not has changed nothing. */
  lemma DoneIsAbsorbed(cfg: Config, db: DB, seqNo: SeqNo, m: Message, ids: Ids, now: Time)
    requires m.Operation? && HandleNow(cfg, db, seqNo, m, ids, now).Done?
    ensures Absorbed(HandleNow(cfg, db, seqNo, m, ids, now).db, m)
    ensures Absorbed(db, m) ==> HandleNow(cfg, db, seqNo, m, ids, now) == Done(db)
  {
    hide PayloadHash.InboxPreimage, PayloadHash.Preimage, LookUp, NewExternal, DecideNow, BodyWrites, RunWrites;
    var key := InboxKey(CONSUMER, m.messageId);
    if key !in db.inbox {
      var db1 := db.(inbox := db.inbox[key := PayloadHash.InboxPreimage(m.req, m.key)]);
      var tx := NewExternal(ids.tx, m.req, m.key, PayloadHash.Preimage(m.req), m.messageId);
      if tx.Ok? && m.req.walletId in db1.wallets {
        var out := DecideNow(cfg, db1, tx.value, db1.wallets[m.req.walletId], ids.entry, now);
        if out.Ok? {
          WritesKeepInbox(db1, BodyWrites(out.value, true, ids), seqNo);
        }
      }
    }
  }

  /** The two queues as the broker holds them. */
  class Broker {
    var queue: set<Handle>
    var dlq: set<Handle>

    constructor ()
      ensures queue == {} && dlq == {}
    {
      queue, dlq := {}, {};
    }
  }

  class Consumer {
    const broker: Broker
    const service: Service

    constructor (broker: Broker, service: Service)
      ensures this.broker == broker && this.service == service
    {
      this.broker, this.service := broker, service;
    }

    /** A failed delete is harmless: the inbox absorbs the redelivery. */
    method Delete(h: Handle, deletes: bool)
      modifies broker
      ensures broker.dlq == old(broker.dlq)
      ensures broker.queue == if deletes then old(broker.queue) - {h} else old(broker.queue)
    {
      if deletes {
        broker.queue := broker.queue - {h};
      }
    }

    /** The copy comes first, so the message is never in neither queue. */
    method DeadLetter(h: Handle, sends: bool, deletes: bool)
      modifies broker
      ensures broker.dlq == if sends then old(broker.dlq) + {h} else old(broker.dlq)
      ensures broker.queue == if sends && deletes then old(broker.queue) - {h} else old(broker.queue)
    {
      if !sends {
        return;
      }
      broker.dlq := broker.dlq + {h};
      Delete(h, deletes);
    }

    /** Record and ProcessIn in one SQL transaction. */
    method RecordAndProcess(m: Message, ids: Ids, now: Time) returns (r: Handling)
      requires service.store.Valid() && m.Operation?
      modifies service.store
      ensures service.store.Valid()
      ensures r == HandleNow(service.cfg, old(service.store.State()), old(service.store.nextSeq), m, ids, now)
      ensures service.store.State() == if r.Done? then r.db else old(service.store.State())
    {
      hide Attempt, Stores.Readable, PayloadHash.InboxPreimage;
      var store := service.store;
      var backup := store.State();
      var hash := PayloadHash.InboxPreimage(m.req, m.key);
      var existing := store.Record(InboxKey(CONSUMER, m.messageId), hash);
      if existing.Some? {
        return if existing.value != hash then Permanent else Done(backup);
      }
      var answer := service.ProcessIn(Command(m.req, m.key, m.messageId), ids, now);
      if answer.Err? {
        store.Rollback(backup);
        return Classify(answer.error);
      }
      return Done(store.State());
    }

    /**
     Handles one delivery. The message leaves the queue only when its operation is committed together with
     its inbox row, or after it has been copied to the dead-letter queue; a transient failure leaves
     everything as it was and asks for redelivery after the visibility backoff.
     */
    method Handle(h: Handle, m: Message, receiveCount: int, ids: Ids, now: Time, sends: bool, deletes: bool)
      returns (retryIn: Option<Int64>)
      requires service.store.Valid() && h in broker.queue
      modifies broker, service.store
      ensures service.store.Valid()
      ensures h in broker.queue || h in broker.dlq || Absorbed(service.store.State(), m)
      ensures broker.queue - {h} == old(broker.queue) - {h} && broker.dlq - {h} == old(broker.dlq) - {h}
      ensures !Acceptable(m) ==>
                && service.store.State() == old(service.store.State()) && retryIn.None?
                && (sends ==> h in broker.dlq) && (sends && deletes ==> h !in broker.queue)
      ensures Acceptable(m) ==>
                var spec := HandleNow(service.cfg, old(service.store.State()), old(service.store.nextSeq), m, ids, now);
                && service.store.State() == (if spec.Done? then spec.db else old(service.store.State()))
                && (spec.Done? ==> Absorbed(service.store.State(), m) && broker.dlq == old(broker.dlq)
                                   && (h !in broker.queue <==> deletes))
                && (spec.Permanent? ==> (h in broker.dlq <==> sends || h in old(broker.dlq)) && (h !in broker.queue <==> sends && deletes))
                && (spec.Transient? ==> broker.queue == old(broker.queue) && broker.dlq == old(broker.dlq)
                                        && retryIn == Some(Backoff.Delay(Backoff.VISIBILITY_BASE, Backoff.VISIBILITY_MAX, receiveCount)))
                && (!spec.Transient? ==> retryIn.None?)
      ensures Acceptable(m) && InboxKey(CONSUMER, m.messageId) !in old(service.store.State()).inbox ==>
                var r := AttemptFor(service.cfg, old(service.store.State()), old(service.store.nextSeq), m, ids, now);
                r.Err? ==>
                  if r.error in {Validation, IdempotencyConflict, ExternalIdConflict, WalletNotFound} then
                    retryIn.None? && (sends ==> h in broker.dlq) && (sends && deletes ==> h !in broker.queue)
                  else
                    h in broker.queue && broker.dlq == old(broker.dlq)
                    && retryIn == Some(Backoff.Delay(Backoff.VISIBILITY_BASE, Backoff.VISIBILITY_MAX, receiveCount))
      ensures retryIn.Some? ==> 2_000_000_000 <= retryIn.value <= 300_000_000_000
      ensures Acceptable(m) && InboxKey(CONSUMER, m.messageId) !in old(service.store.State()).inbox
              && m.req.walletId !in old(service.store.State()).wallets
              && (forall id :: id in old(service.store.State()).txs ==>
                    var row := old(service.store.State()).txs[id];
                    row.origin == External && row.req.providerId == m.req.providerId ==>
                      row.key != m.key && row.req.externalId != m.req.externalId) ==>
                retryIn.None? && (sends ==> h in broker.dlq)
    {
      hide HandleNow, Acceptable, Absorbed, Stores.Readable, AttemptFor;
      retryIn := None;
      var acceptable := Acceptable(m);
      if !acceptable {
        DeadLetter(h, sends, deletes);
        return;
      }
      AcceptableIsOperation(m);
      ghost var tables, seqNo := service.store.State(), service.store.nextSeq;
      if InboxKey(CONSUMER, m.messageId) !in tables.inbox {
        DeliveriesExactly(service.cfg, tables, seqNo, m, ids, now);
        if m.req.walletId !in tables.wallets
           && forall id :: id in tables.txs && tables.txs[id].origin == External && tables.txs[id].req.providerId == m.req.providerId ==>
                             tables.txs[id].key != m.key && tables.txs[id].req.externalId != m.req.externalId {
          UnknownWalletIsAnError(service.cfg, tables, seqNo, m, ids, now);
        }
      }
      var outcome := RecordAndProcess(m, ids, now);
      match outcome {
        case Done(_) =>
          DoneIsAbsorbed(service.cfg, old(service.store.State()), old(service.store.nextSeq), m, ids, now);
          Delete(h, deletes);
        case Permanent =>
          DeadLetter(h, sends, deletes);
        case Transient =>
          var delay := Backoff.Visibility(receiveCount);
          retryIn := Some(delay);
      }
    }
  }

  lemma AcceptableIsOperation(m: Message)
    requires Acceptable(m)
    ensures m.Operation? && m.key != ""
  {}
}
