/**
 The ledger and its outbox publishers together: a commit of the ledger puts its events into the outbox
 table, and publishers carry them to the broker while the ledger goes on.
 */
module Systems {
  import opened Basics
  import opened Events
  import opened Rules
  import opened Outbox
  import Engine
  import Worlds
  import Reach
  import History
  import O = OutboxRuns

  datatype System = System(ledger: Engine.World, publishing: O.State)

  datatype Step = Ledger(action: Engine.Action) | Publishing(act: O.Action)

  const START: System := System(Engine.START, O.START)

  function EventIds(events: seq<Event>): set<Uuid> {
    set e | e in events :: e.id
  }

  /** The rows of the events committed so far; next_attempt_at is the instant of the commit. */
  function WithEvents(rows: Table, events: seq<Event>, at: Time): Table {
    map id | id in rows.Keys + EventIds(events) :: if id in rows then rows[id] else Fresh(at)
  }

  /** Outbox rows come from the ledger's commits only. */
  ghost predicate Enabled(s: System, step: Step) {
    match step
    case Ledger(a) => Engine.Enabled(s.ledger, a)
    case Publishing(a) => !a.Commit? && O.Enabled(s.publishing, a)
  }

  ghost function Perform(cfg: Config, s: System, step: Step): System
    requires Enabled(s, step)
  {
    match step
    case Ledger(a) =>
      var w := Engine.Perform(cfg, s.ledger, a);
      System(w, s.publishing.(rows := WithEvents(s.publishing.rows, w.db.outbox, s.publishing.clock)))
    case Publishing(a) => s.(publishing := O.Perform(s.publishing, a))
  }

  ghost predicate IsRun(cfg: Config, states: seq<System>, steps: seq<Step>) {
    && |states| == |steps| + 1
    && states[0] == START
    && forall i :: 0 <= i < |steps| ==> Enabled(states[i], steps[i]) && states[i + 1] == Perform(cfg, states[i], steps[i])
  }

  ghost predicate SystemInv(cfg: Config, s: System) {
    && Worlds.Inv(cfg, s.ledger) && O.OutboxInv(s.publishing)
    && s.publishing.rows.Keys == EventIds(s.ledger.db.outbox)
  }

  /** New rows disturb no publisher. */
  lemma NewRowsKeep(s: O.State, events: seq<Event>)
    requires O.OutboxInv(s)
    ensures O.OutboxInv(s.(rows := WithEvents(s.rows, events, s.clock)))
  {
    hide O.CountSends;
    var s' := s.(rows := WithEvents(s.rows, events, s.clock));
    forall p, id | p in s'.batches && id in s'.batches[p] ensures O.HeldOk(s', id, s'.batches[p][id]) {
      assert O.HeldOk(s, id, s.batches[p][id]);
    }
  }

  lemma PublishingAddsNoRows(s: O.State, a: O.Action)
    requires O.Enabled(s, a) && !a.Commit?
    ensures O.Perform(s, a).rows.Keys == s.rows.Keys
  {}

  lemma EventsStay(before: seq<Event>, after: seq<Event>)
    requires before <= after
    ensures EventIds(before) <= EventIds(after)
  {}

  lemma StepKeeps(cfg: Config, s: System, step: Step)
    requires SystemInv(cfg, s) && Enabled(s, step)
    ensures SystemInv(cfg, Perform(cfg, s, step))
  {
    hide Worlds.Inv, O.OutboxInv, Engine.Enabled, Engine.Perform, O.Enabled, O.Perform, History.Grown, History.RowsKeep, EventIds;
    match step
    case Ledger(a) =>
      var w := Engine.Perform(cfg, s.ledger, a);
      Reach.ActionKeeps(cfg, s.ledger, a);
      LedgerOnlyGrows(cfg, s.ledger, a);
      EventsStay(s.ledger.db.outbox, w.db.outbox);
      NewRowsKeep(s.publishing, w.db.outbox);
      assert WithEvents(s.publishing.rows, w.db.outbox, s.publishing.clock).Keys == EventIds(w.db.outbox);
    case Publishing(a) =>
      O.ActionKeeps(s.publishing, a);
      PublishingAddsNoRows(s.publishing, a);
  }

  lemma LedgerOnlyGrows(cfg: Config, w: Engine.World, a: Engine.Action)
    requires Worlds.Inv(cfg, w) && Engine.Enabled(w, a)
    ensures w.db.outbox <= Engine.Perform(cfg, w, a).db.outbox
  {
    hide Worlds.Inv, Engine.Enabled, Engine.Perform, History.RowsKeep;
    History.ActionKeepsRows(cfg, w, a);
  }

  lemma SystemStarts(cfg: Config)
    ensures SystemInv(cfg, START)
  {
    hide Worlds.Inv, O.OutboxInv;
    Worlds.StartIsOk(cfg);
    O.NothingYet();
  }

  /**
   Over every run of the whole system: the outbox table holds exactly the events of committed
   transactions, the broker is only ever sent such events, at most twice per claim, and an event marked
   published has been taken by the broker.
   */
  lemma {:induction false} OnlyCommittedEventsGoOut(cfg: Config, states: seq<System>, steps: seq<Step>, i: nat)
    requires IsRun(cfg, states, steps) && i < |states|
    ensures SystemInv(cfg, states[i])
    ensures var o, committed := states[i].publishing, EventIds(states[i].ledger.db.outbox);
            && o.rows.Keys == committed
            && (forall x :: x in o.sends ==> x.id in committed)
            && (forall id :: id in o.rows && o.rows[id].publishedAt.Some? ==> id in o.taken)
            && (forall id, attempt: nat :: O.CountSends(o.sends, id, attempt) <= 2)
  {
    hide Worlds.Inv, Enabled, Perform, O.CountSends, O.BatchesOk, O.ClaimsApart, EventIds;
    if i == 0 {
      SystemStarts(cfg);
    } else {
      OnlyCommittedEventsGoOut(cfg, states, steps, i - 1);
      StepKeeps(cfg, states[i - 1], steps[i - 1]);
    }
  }

  /**
   Over every run of the whole system: a consumer that remembers event ids handles every published event
   once and nothing but committed events.
   */
  lemma ConsumersSeeCommittedEventsOnce(cfg: Config, states: seq<System>, steps: seq<Step>, i: nat)
    requires IsRun(cfg, states, steps) && i < |states|
    ensures var o, committed := states[i].publishing, EventIds(states[i].ledger.db.outbox);
            var seen := O.Deduplicated(o.taken);
            && Distinct(seen) && Elements(seen) <= committed
            && (forall id :: id in o.rows && o.rows[id].publishedAt.Some? ==> id in seen)
  {
    hide IsRun, Worlds.Inv, Distinct, O.BatchesOk, O.SendsOk, O.ClaimsApart, EventIds, O.CountSends, O.Deduplicated;
    OnlyCommittedEventsGoOut(cfg, states, steps, i);
    var taken := states[i].publishing.taken;
    O.DeduplicatedOnce(taken);
    forall id | id in Elements(O.Deduplicated(taken)) ensures id in EventIds(states[i].ledger.db.outbox) {
      assert id in Elements(taken);
    }
    forall id | id in taken ensures id in O.Deduplicated(taken) {
      assert id in Elements(taken);
    }
  }
}
